/** What permission checks answer over whole runs, told by the policy, the settings and the calls alone. */
module AuthorizationLaws {
  import opened Store
  import opened OpaClient
  import opened Authorization

  // ---------------------------------------------------------------- how long a verdict is repeated

  ghost function Waited(ops: seq<Op>): nat {
    if |ops| == 0 then 0 else (if ops[0].Advance? then ops[0].ms else 0) + Waited(ops[1..])
  }

  /** A call with a valid token about this user, resource, type and action. */
  ghost predicate IsAbout(op: Op, key: Key) {
    && op.Ask? && op.user.Some? && op.user.value.sub == key.user
    && op.resourceId == key.resourceId && op.resourceType == key.resourceType && op.action == key.action
  }

  /** The milliseconds a verdict is kept: the expiry set, 300 s if it is longer or not set. */
  function Kept(c: Config): nat {
    (if c.cacheExpiry == 0 || c.cacheExpiry > 300 then 300 else c.cacheExpiry) * 1000
  }

  /** A new verdict is what the call is answered; without a decision or a cache none is stored. */
  lemma VerdictIsStored(policy: Policy, s: State, op: Op, key: Key)
    requires IsAbout(op, key) && (s.config.enableCache ==> key !in s.verdicts)
    ensures
      var r := Apply(policy, s, op);
      && |r.answers| == |s.answers| + 1
      && (s.config.enableCache && policy(s.now, InputOf(op, s.now)).Answered? ==>
            && key in r.verdicts && r.verdicts == s.verdicts[key := r.verdicts[key]]
            && r.verdicts[key].value.allowed == r.answers[|s.answers|].allowed
            && r.verdicts[key].deadline == Some(s.now + Kept(s.config)))
      && (!s.config.enableCache ==> r.verdicts == s.verdicts)
      && r.now == s.now && r.config == s.config
  {
  }

  lemma HitChangesNothing(policy: Policy, s: State, op: Op, key: Key)
    requires IsAbout(op, key) && s.config.enableCache && key in s.verdicts
    ensures Apply(policy, s, op)
      == s.(answers := s.answers + [Answer(s.now, Some(key), s.verdicts[key].value.allowed)])
  {
    assert KeyOf(op) == key;
  }

  lemma OthersSpareVerdict(policy: Policy, s: State, op: Op, key: Key)
    requires op.Ask? && !IsAbout(op, key)
    ensures
      var r := Apply(policy, s, op);
      && (key in r.verdicts <==> key in s.verdicts) && (key in s.verdicts ==> r.verdicts[key] == s.verdicts[key])
      && r.now == s.now && r.config == s.config
  {
    assert op.user.Some? ==> KeyOf(op) != key;
  }

  /** A verdict stays as it is until its deadline, whatever is asked meanwhile. */
  lemma {:induction false} VerdictStands(policy: Policy, s: State, ops: seq<Op>, key: Key, e: Entry<Verdict>)
    requires s.config.enableCache && key in s.verdicts && s.verdicts[key] == e
    requires e.deadline.Some? && s.now + Waited(ops) < e.deadline.value
    ensures key in Run(policy, s, ops).verdicts && Run(policy, s, ops).verdicts[key] == e
    ensures Run(policy, s, ops).config == s.config
    decreases |ops|
  {
    if |ops| > 0 {
      var op := ops[0];
      if op.Ask? && IsAbout(op, key) {
        HitChangesNothing(policy, s, op, key);
      } else if op.Ask? {
        OthersSpareVerdict(policy, s, op, key);
      }
      VerdictStands(policy, Apply(policy, s, op), ops[1..], key, e);
    }
  }

  /** Without a new call about it a verdict is gone from its deadline on. */
  lemma {:induction false} VerdictLapses(policy: Policy, s: State, ops: seq<Op>, key: Key, deadline: int)
    requires key in s.verdicts ==> s.verdicts[key].deadline == Some(deadline) && s.now < deadline
    requires (forall op :: op in ops ==> !IsAbout(op, key)) && deadline <= s.now + Waited(ops)
    ensures key !in Run(policy, s, ops).verdicts
    decreases |ops|
  {
    if |ops| > 0 {
      var op := ops[0];
      assert op in ops && forall o :: o in ops[1..] ==> o in ops;
      if op.Ask? {
        OthersSpareVerdict(policy, s, op, key);
      }
      VerdictLapses(policy, Apply(policy, s, op), ops[1..], key, deadline);
    }
  }

  lemma {:induction false} RunClock(policy: Policy, s: State, ops: seq<Op>)
    ensures Run(policy, s, ops).now == s.now + Waited(ops) && Run(policy, s, ops).config == s.config
    decreases |ops|
  {
    if |ops| > 0 {
      RunClock(policy, Apply(policy, s, ops[0]), ops[1..]);
    }
  }

  /**
   Once a permission has been decided with the cache on, the answer is repeated, whatever the policy
   would say, for the expiry set but at most 300 s; and if nobody asks in between the input is handed
   over again from then on.
   */
  lemma VerdictIsRepeated(policy: Policy, s: State, op: Op, ops: seq<Op>, again: Op, key: Key)
    requires s.config.enableCache && key !in s.verdicts && IsAbout(op, key) && IsAbout(again, key)
    requires policy(s.now, InputOf(op, s.now)).Answered?
    ensures
      var r := Apply(policy, s, op);
      var t := Run(policy, r, ops);
      && t.now == s.now + Waited(ops) && |r.answers| == |s.answers| + 1
      && (Waited(ops) < Kept(s.config) ==>
            Apply(policy, t, again)
              == t.(answers := t.answers + [Answer(t.now, Some(key), r.answers[|s.answers|].allowed)]))
      && (Waited(ops) >= Kept(s.config) && (forall o :: o in ops ==> !IsAbout(o, key)) ==>
            Apply(policy, t, again).asked == t.asked + [Asked(t.now, InputOf(again, t.now))])
  {
    var r := Apply(policy, s, op);
    var t := Run(policy, r, ops);
    VerdictIsStored(policy, s, op, key);
    RunClock(policy, r, ops);
    if Waited(ops) < Kept(s.config) {
      VerdictStands(policy, r, ops, key, r.verdicts[key]);
      HitChangesNothing(policy, t, again, key);
    } else if forall o :: o in ops ==> !IsAbout(o, key) {
      VerdictLapses(policy, r, ops, key, s.now + Kept(s.config));
      assert KeyOf(again) == key;
    }
  }

  // ---------------------------------------------------------------- the policy seen through the caches

  /** The policy always answers, and decides by user, resource, type and action alone. */
  ghost predicate DecidesBy(policy: Policy, may: Key -> bool) {
    forall t, input :: policy(t, input).Answered? && (Normalise(policy(t, input).data).allow <==>
      may(Key(input.user.sub, input.resourceId, input.resourceType, input.action)))
  }

  /** What a caller is to be told: a refusal without a valid token, else what the policy decides. */
  ghost function ToldOne(may: Key -> bool, now: int, op: Op): seq<Answer> {
    match op
    case Advance(_) => []
    case Ask(user, resourceId, resourceType, action, _, _) =>
      if user.None? then [Answer(now, None, false)]
      else
        var key := Key(user.value.sub, resourceId, resourceType, action);
        [Answer(now, Some(key), may(key))]
  }

  ghost function Told(may: Key -> bool, now: int, ops: seq<Op>): seq<Answer>
    decreases |ops|
  {
    if |ops| == 0 then []
    else ToldOne(may, now, ops[0]) + Told(may, if ops[0].Advance? then now + ops[0].ms else now, ops[1..])
  }

  function KeyIn(input: Input): Key {
    Key(input.user.sub, input.resourceId, input.resourceType, input.action)
  }

  ghost predicate RightSlots(may: Key -> bool, cache: seq<Slot>) {
    forall k :: k in cache ==> k.result.allow == may(KeyIn(k.key))
  }

  /** Both caches hold what the policy decides. */
  ghost predicate Faithful(may: Key -> bool, s: State) {
    && (forall key :: key in s.verdicts ==> s.verdicts[key].value.allowed == may(key))
    && RightSlots(may, s.opa)
  }

  lemma InsertStaysRight(may: Key -> bool, cache: seq<Slot>, input: Input, result: Decision, now: int)
    requires RightSlots(may, cache) && result.allow == may(KeyIn(input))
    ensures RightSlots(may, Insert(cache, input, result, now))
  {
    assert forall k :: k in Insert(cache, input, result, now) ==> k in cache || k == Slot(input, result, now);
  }

  lemma LookupStaysRight(may: Key -> bool, cache: seq<Slot>, input: Input, now: int)
    requires RightSlots(may, cache)
    ensures RightSlots(may, Lookup(cache, input, now).1)
    ensures Lookup(cache, input, now).0.Some? ==> Lookup(cache, input, now).0.value.allow == may(KeyIn(input))
  {
    var i := IndexOf(cache, input);
    assert forall k :: k in Lookup(cache, input, now).1 ==> k in cache;
    assert i < |cache| ==> cache[i] in cache;
  }

  lemma CheckDecides(may: Key -> bool, cache: seq<Slot>, input: Input, now: int, response: Response)
    requires RightSlots(may, cache) && response.Answered?
    requires Normalise(response.data).allow == may(KeyIn(input))
    ensures
      var (decision, next) := Check(cache, input, now, response);
      decision.Some? && decision.value.allow == may(KeyIn(input)) && RightSlots(may, next)
  {
    LookupStaysRight(may, cache, input, now);
    InsertStaysRight(may, Lookup(cache, input, now).1, input, Normalise(response.data), now);
  }

  lemma StepTells(policy: Policy, may: Key -> bool, s: State, op: Op)
    requires DecidesBy(policy, may) && Faithful(may, s)
    ensures Faithful(may, Apply(policy, s, op))
    ensures Apply(policy, s, op).now == if op.Advance? then s.now + op.ms else s.now
    ensures Apply(policy, s, op).answers == s.answers + ToldOne(may, s.now, op)
  {
    if op.Ask? && op.user.Some? {
      var input := InputOf(op, s.now);
      assert KeyIn(input) == KeyOf(op);
      CheckDecides(may, s.opa, input, s.now, policy(s.now, input));
    }
  }

  lemma {:induction false} RunTells(policy: Policy, may: Key -> bool, s: State, ops: seq<Op>)
    requires DecidesBy(policy, may) && Faithful(may, s)
    ensures Run(policy, s, ops).answers == s.answers + Told(may, s.now, ops)
    decreases |ops|
  {
    if |ops| > 0 {
      StepTells(policy, may, s, ops[0]);
      RunTells(policy, may, Apply(policy, s, ops[0]), ops[1..]);
    }
  }

  /**
   For a policy that always answers, and decides by user, resource, type and action alone, neither
   cache can be noticed: in every run, with any settings and contexts, each call with a valid token
   is allowed exactly if the policy allows it.
   */
  lemma CachesAreTransparent(policy: Policy, may: Key -> bool, now: int, config: Config, ops: seq<Op>)
    requires DecidesBy(policy, may)
    ensures Run(policy, Init(now, config), ops).answers == Told(may, now, ops)
  {
    RunTells(policy, may, Init(now, config), ops);
  }
}
