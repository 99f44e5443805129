/**
 The policy client: a policy answer normalised to a decision, behind a small result cache.

 The cache is kept in insertion order, as a JavaScript `Map` keeps it.
 */
module OpaClient {
  import opened Store

  const EXPIRY := 300_000
  const CAPACITY := 1000

  /** `Date` is the ISO text of an instant, which is how a date travels in JSON. */
  datatype Json =
    | Undefined | Null | Bool(b: bool) | Num(n: int) | Str(s: string) | Date(at: int)
    | Arr(items: seq<Json>) | Obj(fields: map<string, Json>)

  predicate Truthy(j: Json) {
    match j
    case Undefined => false
    case Null => false
    case Bool(b) => b
    case Num(n) => n != 0
    case Str(s) => s != ""
    case Date(_) => true
    case Arr(_) => true
    case Obj(_) => true
  }

  /** Property access on a value that is neither null nor undefined. */
  function Field(j: Json, name: string): Json {
    if j.Obj? && name in j.fields then j.fields[name] else Undefined
  }

  datatype UserInfo = UserInfo(
    sub: string, roles: seq<string>, organizations: seq<string>, state: string, attributes: map<string, Json>)

  datatype Input = Input(
    user: UserInfo, resourceId: string, resourceType: string, action: string, context: map<string, Json>)

  datatype Response = Unreachable | Answered(data: Json)

  datatype Decision = Decision(allow: bool, reason: Json)

  type Policy = (int, Input) -> Response

  datatype Slot = Slot(key: Input, result: Decision, stamp: int)

  /** The part of the answer that is taken for the decision. */
  function Extract(data: Json): Json {
    var result := Field(data, "result");
    if !Truthy(data) || !Truthy(result) then Undefined
    else
      var decision := Field(result, "decision");
      if Truthy(decision) then decision else result
  }

  function Normalise(data: Json): Decision {
    var result := Extract(data);
    if result.Obj? && "allow" in result.fields then Decision(Truthy(result.fields["allow"]), Field(result, "reason"))
    else if result.Bool? then Decision(result.b, Undefined)
    else Decision(false, Str("No decision returned by policy"))
  }

  /** A JSON value that grants on its own: true, or an object with a truthy `allow`. */
  predicate Grants(j: Json) {
    j == Bool(true) || Truthy(Field(j, "allow"))
  }

  /**
   An answer allows exactly when its result grants, or the result's truthy decision does, which
   alone counts if there is one.  A falsy decision does not deny: the result itself is read then.
   */
  lemma AllowsExactly(data: Json)
    ensures
      var result := Field(data, "result");
      var decision := Field(result, "decision");
      Normalise(data).allow <==> if Truthy(decision) then Grants(decision) else Grants(result)
  {
    var result := Field(data, "result");
    var decision := Field(result, "decision");
    if Truthy(decision) {
      assert Truthy(result) && Truthy(data);
      assert Extract(data) == decision;
    } else if Grants(result) {
      assert Truthy(result) && Truthy(data);
      assert Extract(data) == result;
    }
  }

  // ---------------------------------------------------------------- the cache

  function IndexOf(cache: seq<Slot>, key: Input): (i: nat)
    ensures i <= |cache|
    ensures i < |cache| ==> cache[i].key == key
    ensures forall k :: 0 <= k < i ==> cache[k].key != key
  {
    if |cache| == 0 || cache[0].key == key then 0 else 1 + IndexOf(cache[1..], key)
  }

  function Delete(cache: seq<Slot>, i: nat): seq<Slot>
    requires i < |cache|
  {
    cache[..i] + cache[i + 1..]
  }

  /** What is cached for a key and young enough; an entry that is too old is deleted. */
  function Lookup(cache: seq<Slot>, key: Input, now: int): (Option<Decision>, seq<Slot>) {
    var i := IndexOf(cache, key);
    if i == |cache| then (None, cache)
    else if now - cache[i].stamp > EXPIRY then (None, Delete(cache, i))
    else (Some(cache[i].result), cache)
  }

  /** Setting a present key keeps its place; beyond the capacity the first entry goes. */
  function Insert(cache: seq<Slot>, key: Input, result: Decision, now: int): seq<Slot> {
    var i := IndexOf(cache, key);
    var slot := Slot(key, result, now);
    var next := if i == |cache| then cache + [slot] else cache[i := slot];
    if |next| > CAPACITY then next[1..] else next
  }

  /** One call: the decision, or None when the policy engine cannot be asked. */
  function Check(cache: seq<Slot>, key: Input, now: int, response: Response): (Option<Decision>, seq<Slot>) {
    var (hit, kept) := Lookup(cache, key, now);
    if hit.Some? then (hit, kept)
    else match response
      case Unreachable => (None, kept)
      case Answered(data) => (Some(Normalise(data)), Insert(kept, key, Normalise(data), now))
  }

  function Uncached(response: Response): Option<Decision> {
    match response
    case Unreachable => None
    case Answered(data) => Some(Normalise(data))
  }

  // ---------------------------------------------------------------- the invariant

  ghost predicate DistinctKeys(cache: seq<Slot>) {
    forall i, j :: 0 <= i < j < |cache| ==> cache[i].key != cache[j].key
  }

  ghost predicate OldestFirst(cache: seq<Slot>) {
    forall i, j :: 0 <= i < j < |cache| ==> cache[i].stamp <= cache[j].stamp
  }

  /** An entry is what the policy answered at its stamp. */
  ghost predicate Genuine(policy: Policy, slot: Slot) {
    Uncached(policy(slot.stamp, slot.key)) == Some(slot.result)
  }

  ghost predicate CacheInv(policy: Policy, cache: seq<Slot>, now: int) {
    && |cache| <= CAPACITY
    && DistinctKeys(cache) && OldestFirst(cache)
    && (forall i :: 0 <= i < |cache| ==> cache[i].stamp <= now && Genuine(policy, cache[i]))
  }

  lemma DeleteKeeps(policy: Policy, cache: seq<Slot>, i: nat, now: int)
    requires CacheInv(policy, cache, now) && i < |cache|
    ensures CacheInv(policy, Delete(cache, i), now)
    ensures forall k :: k in Delete(cache, i) ==> k.key != cache[i].key
  {
    var d := Delete(cache, i);
    assert forall k :: 0 <= k < |d| ==> d[k] == if k < i then cache[k] else cache[k + 1];
  }

  lemma LookupKeeps(policy: Policy, cache: seq<Slot>, key: Input, now: int)
    requires CacheInv(policy, cache, now)
    ensures CacheInv(policy, Lookup(cache, key, now).1, now)
    ensures Lookup(cache, key, now).0.None? ==> forall k :: k in Lookup(cache, key, now).1 ==> k.key != key
  {
    var i := IndexOf(cache, key);
    if i < |cache| {
      DeleteKeeps(policy, cache, i, now);
    }
  }

  lemma AppendKeepsDistinct(cache: seq<Slot>, slot: Slot)
    requires DistinctKeys(cache) && forall k :: k in cache ==> k.key != slot.key
    ensures DistinctKeys(cache + [slot])
  {
    var next := cache + [slot];
    forall i, j | 0 <= i < j < |next|
      ensures next[i].key != next[j].key
    {
      assert next[i] == cache[i] && cache[i] in cache;
    }
  }

  lemma AppendKeepsOrder(cache: seq<Slot>, slot: Slot)
    requires OldestFirst(cache) && forall i :: 0 <= i < |cache| ==> cache[i].stamp <= slot.stamp
    ensures OldestFirst(cache + [slot])
  {
    var next := cache + [slot];
    forall i, j | 0 <= i < j < |next|
      ensures next[i].stamp <= next[j].stamp
    {
      assert next[i] == cache[i];
    }
  }

  lemma DropFirstKeeps(cache: seq<Slot>)
    requires DistinctKeys(cache) && OldestFirst(cache) && |cache| > 0
    ensures DistinctKeys(cache[1..]) && OldestFirst(cache[1..])
  {
  }

  lemma InsertKeeps(policy: Policy, cache: seq<Slot>, key: Input, result: Decision, now: int)
    requires CacheInv(policy, cache, now)
    requires forall k :: k in cache ==> k.key != key
    requires Uncached(policy(now, key)) == Some(result)
    ensures CacheInv(policy, Insert(cache, key, result, now), now)
  {
    assert IndexOf(cache, key) == |cache|;
    var slot := Slot(key, result, now);
    var next := cache + [slot];
    AppendKeepsDistinct(cache, slot);
    AppendKeepsOrder(cache, slot);
    DropFirstKeeps(next);
    forall i | 0 <= i < |next|
      ensures next[i].stamp <= now && Genuine(policy, next[i])
    {
      assert next[i] == if i < |cache| then cache[i] else slot;
    }
  }

  lemma CheckKeeps(policy: Policy, cache: seq<Slot>, key: Input, now: int)
    requires CacheInv(policy, cache, now)
    ensures CacheInv(policy, Check(cache, key, now, policy(now, key)).1, now)
  {
    LookupKeeps(policy, cache, key, now);
    var kept := Lookup(cache, key, now).1;
    if Lookup(cache, key, now).0.None? && policy(now, key).Answered? {
      InsertKeeps(policy, kept, key, Normalise(policy(now, key).data), now);
    }
  }

  /** A decision is what the policy answered at most five minutes ago. */
  lemma DecisionIsRecent(policy: Policy, cache: seq<Slot>, key: Input, now: int)
    requires CacheInv(policy, cache, now)
    ensures
      var (r, _) := Check(cache, key, now, policy(now, key));
      r.Some? ==> exists t :: now - 300_000 <= t <= now && Uncached(policy(t, key)) == r
  {
    var (hit, _) := Lookup(cache, key, now);
    if hit.Some? {
      var slot := cache[IndexOf(cache, key)];
      assert Genuine(policy, slot) && slot.stamp <= now;
      assert Uncached(policy(slot.stamp, key)) == hit;
    } else {
      assert Uncached(policy(now, key)) == Check(cache, key, now, policy(now, key)).0;
    }
  }

  /** A young entry for the input answers; without one the policy does, and only it. */
  lemma CacheOrPolicyAnswers(policy: Policy, cache: seq<Slot>, key: Input, now: int)
    requires CacheInv(policy, cache, now)
    ensures
      var (r, _) := Check(cache, key, now, policy(now, key));
      && (forall k :: k in cache && k.key == key && now <= k.stamp + 300_000 ==> r == Some(k.result))
      && ((forall k :: k in cache && k.key == key ==> k.stamp + 300_000 < now) ==>
            match policy(now, key) case Unreachable => r.None? case Answered(data) => r == Some(Normalise(data)))
  {
    var i := IndexOf(cache, key);
    forall k | k in cache && k.key == key
      ensures i < |cache| && cache[i] == k
    {
      var j :| 0 <= j < |cache| && cache[j] == k;
      assert i == j;
    }
    if i < |cache| {
      assert cache[i] in cache;
    }
  }

  /** An insertion that overflows drops an entry no newer than any entry that stays. */
  lemma OldestIsEvicted(policy: Policy, cache: seq<Slot>, key: Input, result: Decision, now: int)
    requires CacheInv(policy, cache, now) && (forall k :: k in cache ==> k.key != key)
    ensures
      var r := Insert(cache, key, result, now);
      && Slot(key, result, now) in r
      && (forall slot :: slot in cache && slot !in r ==>
            |cache| == 1000 && forall k :: k in r ==> slot.stamp <= k.stamp)
  {
    assert IndexOf(cache, key) == |cache|;
    var next := cache + [Slot(key, result, now)];
    assert next[|cache|] == Slot(key, result, now);
    var r := Insert(cache, key, result, now);
    assert r[|r| - 1] == Slot(key, result, now);
    if |next| > CAPACITY {
      forall i | 0 < i < |cache|
        ensures cache[i] in r
      {
        assert r[i - 1] == cache[i];
      }
      forall k | k in r
        ensures cache[0].stamp <= k.stamp
      {
        var i :| 0 <= i < |r| && r[i] == k;
        assert k == next[i + 1];
      }
    } else {
      forall i | 0 <= i < |cache|
        ensures cache[i] in r
      {
        assert r[i] == cache[i];
      }
    }
  }

  // ---------------------------------------------------------------- whole runs

  /** A call made after some time has passed. */
  datatype Call = Call(wait: nat, key: Input)

  ghost function Decisions(policy: Policy, cache: seq<Slot>, now: int, calls: seq<Call>): seq<Option<Decision>>
    decreases |calls|
  {
    if |calls| == 0 then []
    else
      var t, key := now + calls[0].wait, calls[0].key;
      var (r, next) := Check(cache, key, t, policy(t, key));
      [r] + Decisions(policy, next, t, calls[1..])
  }

  ghost function DirectDecisions(policy: Policy, now: int, calls: seq<Call>): seq<Option<Decision>>
    decreases |calls|
  {
    if |calls| == 0 then []
    else
      var t := now + calls[0].wait;
      [Uncached(policy(t, calls[0].key))] + DirectDecisions(policy, t, calls[1..])
  }

  /** For a policy that does not change over time the cache is invisible in any run. */
  lemma {:induction false} CacheIsTransparent(policy: Policy, cache: seq<Slot>, now: int, calls: seq<Call>)
    requires CacheInv(policy, cache, now)
    requires forall t, u, key :: policy(t, key) == policy(u, key)
    ensures Decisions(policy, cache, now, calls) == DirectDecisions(policy, now, calls)
    decreases |calls|
  {
    if |calls| > 0 {
      var t, key := now + calls[0].wait, calls[0].key;
      assert CacheInv(policy, cache, t);
      var (r, next) := Check(cache, key, t, policy(t, key));
      var i := IndexOf(cache, key);
      if i < |cache| {
        assert Genuine(policy, cache[i]);
        assert policy(cache[i].stamp, key) == policy(t, key);
      }
      CheckKeeps(policy, cache, key, t);
      CacheIsTransparent(policy, next, t, calls[1..]);
    }
  }

  /** A call at a given time. */
  datatype Timed = Timed(at: int, key: Input)

  ghost function CacheAfter(policy: Policy, cache: seq<Slot>, calls: seq<Timed>): seq<Slot>
    decreases |calls|
  {
    if |calls| == 0 then cache
    else
      CacheAfter(policy, Check(cache, calls[0].key, calls[0].at, policy(calls[0].at, calls[0].key)).1, calls[1..])
  }

  /** Calls one after the other, none before `from` and none after `to`. */
  ghost predicate Between(calls: seq<Timed>, from: int, to: int)
    decreases |calls|
  {
    if |calls| == 0 then from <= to else from <= calls[0].at && Between(calls[1..], calls[0].at, to)
  }

  /** The entry is there, with fewer than n entries behind it. */
  ghost predicate AmongLast(cache: seq<Slot>, slot: Slot, n: nat) {
    exists i :: 0 <= i < |cache| && cache[i] == slot && |cache| - i <= n
  }

  lemma DeletePushesNone(cache: seq<Slot>, j: nat, slot: Slot, n: nat)
    requires AmongLast(cache, slot, n) && j < |cache| && cache[j] != slot
    ensures AmongLast(Delete(cache, j), slot, n)
  {
    var i :| 0 <= i < |cache| && cache[i] == slot && |cache| - i <= n;
    var d := Delete(cache, j);
    var at := if j < i then i - 1 else i;
    assert d[at] == slot && |d| - at <= n;
  }

  lemma InsertPushesOne(cache: seq<Slot>, key: Input, result: Decision, now: int, slot: Slot, n: nat)
    requires AmongLast(cache, slot, n) && |cache| <= 1000 && n < 1000 && IndexOf(cache, key) == |cache|
    ensures AmongLast(Insert(cache, key, result, now), slot, n + 1)
  {
    var i :| 0 <= i < |cache| && cache[i] == slot && |cache| - i <= n;
    var r := Insert(cache, key, result, now);
    var at := if |cache| == 1000 then i - 1 else i;
    assert r[at] == slot && |r| - at <= n + 1;
  }

  /** A call pushes a young entry back by one place at most. */
  lemma StaysAmongLast(policy: Policy, cache: seq<Slot>, key: Input, now: int, slot: Slot, n: nat)
    requires CacheInv(policy, cache, now) && AmongLast(cache, slot, n) && n < 1000 && now <= slot.stamp + 300_000
    ensures AmongLast(Check(cache, key, now, policy(now, key)).1, slot, n + 1)
  {
    var (hit, kept) := Lookup(cache, key, now);
    LookupKeeps(policy, cache, key, now);
    var j := IndexOf(cache, key);
    if j < |cache| && hit.None? {
      DeletePushesNone(cache, j, slot, n);
    }
    assert AmongLast(kept, slot, n);
    if hit.None? && policy(now, key).Answered? {
      assert IndexOf(kept, key) == |kept|;
      InsertPushesOne(kept, key, Normalise(policy(now, key).data), now, slot, n);
    }
  }

  lemma CallKeeps(policy: Policy, cache: seq<Slot>, now: int, key: Input, t: int, slot: Slot, n: nat)
    requires CacheInv(policy, cache, now) && now <= t && AmongLast(cache, slot, n) && n < 1000
    requires t <= slot.stamp + 300_000
    ensures
      var next := Check(cache, key, t, policy(t, key)).1;
      CacheInv(policy, next, t) && AmongLast(next, slot, n + 1)
  {
    assert CacheInv(policy, cache, t);
    StaysAmongLast(policy, cache, key, t, slot, n);
    CheckKeeps(policy, cache, key, t);
  }

  lemma SlotAnswers(cache: seq<Slot>, slot: Slot, now: int, response: Response)
    requires DistinctKeys(cache) && slot in cache && now <= slot.stamp + 300_000
    ensures Check(cache, slot.key, now, response).0 == Some(slot.result)
  {
    var i :| 0 <= i < |cache| && cache[i] == slot;
    assert IndexOf(cache, slot.key) == i;
  }

  lemma {:induction false} BetweenEnds(calls: seq<Timed>, from: int, to: int)
    requires Between(calls, from, to)
    ensures from <= to
    decreases |calls|
  {
    if |calls| > 0 {
      BetweenEnds(calls[1..], calls[0].at, to);
    }
  }

  lemma {:induction false} BetweenWidens(calls: seq<Timed>, from: int, to: int, wide: int)
    requires Between(calls, from, to) && to <= wide
    ensures Between(calls, from, wide)
    decreases |calls|
  {
    if |calls| > 0 {
      BetweenWidens(calls[1..], calls[0].at, to, wide);
    }
  }

  lemma {:induction false} SlotStays(policy: Policy, cache: seq<Slot>, now: int, calls: seq<Timed>, slot: Slot, n: nat)
    requires CacheInv(policy, cache, now) && AmongLast(cache, slot, n) && n + |calls| <= 1000
    requires Between(calls, now, slot.stamp + 300_000)
    ensures slot in CacheAfter(policy, cache, calls) && DistinctKeys(CacheAfter(policy, cache, calls))
    decreases |calls|
  {
    if |calls| > 0 {
      var t, key := calls[0].at, calls[0].key;
      BetweenEnds(calls[1..], t, slot.stamp + 300_000);
      CallKeeps(policy, cache, now, key, t, slot, n);
      SlotStays(policy, Check(cache, key, t, policy(t, key)).1, t, calls[1..], slot, n + 1);
    }
  }

  lemma MissIsInserted(policy: Policy, cache: seq<Slot>, key: Input, now: int)
    requires CacheInv(policy, cache, now) && (forall k :: k in cache ==> k.key != key) && policy(now, key).Answered?
    ensures AmongLast(Check(cache, key, now, policy(now, key)).1,
                      Slot(key, Normalise(policy(now, key).data), now), 1)
  {
    var next := Check(cache, key, now, policy(now, key)).1;
    assert IndexOf(cache, key) == |cache|;
    assert next[|next| - 1] == Slot(key, Normalise(policy(now, key).data), now);
  }

  /**
   What the policy answers to an input is the answer to it for 300 s, whatever the policy would say
   meanwhile, as long as fewer than a thousand other calls come in between.
   */
  lemma {:induction false} RememberedFiveMinutes(
      policy: Policy, cache: seq<Slot>, now: int, key: Input, calls: seq<Timed>, later: int, response: Response)
    requires CacheInv(policy, cache, now) && (forall k :: k in cache ==> k.key != key)
    requires policy(now, key).Answered? && |calls| < 1000 && later <= now + 300_000 && Between(calls, now, later)
    ensures
      var after := CacheAfter(policy, Check(cache, key, now, policy(now, key)).1, calls);
      Check(after, key, later, response).0 == Some(Normalise(policy(now, key).data))
  {
    var next := Check(cache, key, now, policy(now, key)).1;
    var slot := Slot(key, Normalise(policy(now, key).data), now);
    MissIsInserted(policy, cache, key, now);
    CheckKeeps(policy, cache, key, now);
    BetweenWidens(calls, now, later, now + 300_000);
    SlotStays(policy, next, now, calls, slot, 1);
    SlotAnswers(CacheAfter(policy, next, calls), slot, later, response);
  }

  class OpaClientImpl {
    ghost const policy: Policy
    var cache: seq<Slot>

    constructor (ghost policy: Policy)
      ensures this.policy == policy && cache == []
    {
      this.policy := policy;
      cache := [];
    }

    method GetCachedResult(key: Input, now: int) returns (r: Option<Decision>)
      modifies this
      ensures (r, cache) == Lookup(old(cache), key, now)
    {
      var i := IndexOf(cache, key);
      if i == |cache| {
        return None;
      }
      if now - cache[i].stamp > EXPIRY {
        cache := Delete(cache, i);
        return None;
      }
      return Some(cache[i].result);
    }

    method SetCachedResult(key: Input, result: Decision, now: int)
      modifies this
      ensures cache == Insert(old(cache), key, result, now)
    {
      var i := IndexOf(cache, key);
      if i == |cache| {
        cache := cache + [Slot(key, result, now)];
      } else {
        cache := cache[i := Slot(key, result, now)];
      }
      if |cache| > CAPACITY {
        cache := cache[1..];
      }
    }

    /** Answers from the cache, else from the policy engine, whose response is given. */
    method CheckPermission(key: Input, now: int, response: Response) returns (r: Option<Decision>)
      requires response == policy(now, key) && CacheInv(policy, cache, now)
      modifies this
      ensures (r, cache) == Check(old(cache), key, now, response)
      ensures CacheInv(policy, cache, now)
      ensures r.Some? ==> exists t :: now - 300_000 <= t <= now && Uncached(policy(t, key)) == r
    {
      CheckKeeps(policy, cache, key, now);
      DecisionIsRecent(policy, cache, key, now);
      r := GetCachedResult(key, now);
      if r.Some? {
        return;
      }
      if response.Unreachable? {
        return None;
      }
      var result := Normalise(response.data);
      SetCachedResult(key, result, now);
      r := Some(result);
    }
  }
}
