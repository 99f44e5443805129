/** The method lists as the service keeps them: records read, sorted and rewritten one by one. */
module MfaMethodService {
  import opened Store
  import opened MfaMethods

  ghost predicate InOrder(ms: seq<Method>) {
    forall i, j :: 0 <= i < j < |ms| ==> NotAfter(ms[i], ms[j])
  }

  function IdsOf(ms: seq<Method>): set<string> { set m | m in ms :: m.id }

  /** One step of a stable insertion sort into the listing order. */
  function Insert(ms: seq<Method>, m: Method): (r: seq<Method>)
    ensures IdsOf(r) == IdsOf(ms) + {m.id}
    ensures forall x :: x in r <==> x in ms || x == m
  {
    if |ms| == 0 || !NotAfter(ms[0], m) then [m] + ms else [ms[0]] + Insert(ms[1..], m)
  }

  lemma {:induction false} InsertKeepsOrder(ms: seq<Method>, m: Method)
    requires InOrder(ms)
    ensures InOrder(Insert(ms, m))
  {
    if |ms| == 0 {
    } else if !NotAfter(ms[0], m) {
      forall i | 0 <= i < |ms|
        ensures NotAfter(m, ms[i])
      {
        assert i > 0 ==> NotAfter(ms[0], ms[i]);
      }
    } else {
      InsertKeepsOrder(ms[1..], m);
      var tail := Insert(ms[1..], m);
      forall i | 0 <= i < |tail|
        ensures NotAfter(ms[0], tail[i])
      {
        assert tail[i] in tail;
        if tail[i] != m {
          var k :| 0 <= k < |ms[1..]| && ms[1..][k] == tail[i];
          assert NotAfter(ms[0], ms[k + 1]);
        }
      }
    }
  }

  /** What a caller of `getUserMFAMethods` gets: the listed records, primary first, newest first. */
  ghost predicate ListingOf(s: State, user: string, ms: seq<Method>) {
    && InOrder(ms)
    && IdsOf(ms) == Listed(s, user)
    && forall m :: m in ms ==> m.id in s.methods && s.methods[m.id].value == m
  }

  function Active(ms: seq<Method>): seq<Method> {
    if |ms| == 0 then [] else if ms[0].isEnabled then [ms[0]] + Active(ms[1..]) else Active(ms[1..])
  }

  lemma {:induction false} AllEnabled(ms: seq<Method>)
    requires forall m :: m in ms ==> m.isEnabled
    ensures Active(ms) == ms
  {
    if |ms| > 0 {
      AllEnabled(ms[1..]);
    }
  }

  /** Every method listed is active. */
  lemma AllActive(s: State, user: string, ms: seq<Method>)
    requires Inv(s) && ListingOf(s, user, ms)
    ensures Active(ms) == ms && forall m :: m in ms ==> m.isEnabled
  {
    assert ListOk(s, user);
    forall m | m in ms
      ensures m.isEnabled
    {
      assert m.id in IdsOf(ms);
    }
    AllEnabled(ms);
  }

  lemma ListedAt(s: State, user: string, ms: seq<Method>, id: string) returns (i: nat)
    requires ListingOf(s, user, ms) && id in Listed(s, user)
    ensures i < |ms| && ms[i] == s.methods[id].value
  {
    assert id in IdsOf(ms);
    var m :| m in ms && m.id == id;
    i :| 0 <= i < |ms| && ms[i] == m;
  }

  lemma NoneIsChosen(s: State, user: string, kind: Option<Kind>, ms: seq<Method>)
    requires ListingOf(s, user, ms)
    requires |ms| == 0 || (kind.Some? && forall i :: 0 <= i < |ms| ==> ms[i].kind != kind.value)
    ensures Chosen(s, user, kind, None)
  {
    forall k
      ensures !Candidate(s, user, kind, k)
    {
      if Candidate(s, user, kind, k) {
        var i := ListedAt(s, user, ms, k);
      }
    }
  }

  /** What the search finds first comes first among the candidates. */
  lemma FirstIsChosen(s: State, user: string, kind: Option<Kind>, ms: seq<Method>, i: nat)
    requires ListingOf(s, user, ms) && i < |ms| && ms[i].isEnabled
    requires kind.Some? ==> ms[i].kind == kind.value && forall k :: 0 <= k < i ==> ms[k].kind != kind.value
    requires kind.None? && i > 0 ==> ms[i].isPrimary && forall k :: 0 <= k < i ==> !ms[k].isPrimary
    ensures Chosen(s, user, kind, Some(ms[i].id))
  {
    assert ms[i] in ms && ms[i].id in IdsOf(ms);
    forall k | Candidate(s, user, kind, k)
      ensures NotAfter(ms[i], s.methods[k].value)
    {
      var j := ListedAt(s, user, ms, k);
      assert i < j ==> NotAfter(ms[i], ms[j]);
    }
  }

  class MfaMethodServiceImpl {
    var now: int
    var methods: map<string, Entry<Method>>
    var lists: map<string, Entry<set<string>>>
    ghost var issued: set<string>

    ghost function View(): State
      reads this
    {
      State(now, methods, lists, issued)
    }

    constructor (now: int)
      ensures View() == Init(now) && Inv(View())
    {
      this.now := now;
      methods, lists, issued := map[], map[], {};
    }

    method Wait(ms: nat)
      requires Inv(View())
      modifies this
      ensures View() == Apply(old(View()), Advance(ms)) && Inv(View())
    {
      ghost var before := View();
      now := now + ms;
      methods := Evict(methods, now);
      lists := Evict(lists, now);
      AdvanceInv(before, ms);
    }

    method GetUserMFAMethods(user: string) returns (ms: seq<Method>)
      requires Inv(View())
      ensures ListingOf(View(), user, ms)
    {
      var ids := Members(lists, user);
      ms := [];
      while ids != {}
        invariant ids <= Members(lists, user)
        invariant InOrder(ms)
        invariant IdsOf(ms) == Listed(View(), user) - ids
        invariant forall m :: m in ms ==> m.id in methods && methods[m.id].value == m
        decreases ids
      {
        var id :| id in ids;
        if id in methods {
          assert MethodOk(View(), id);
          InsertKeepsOrder(ms, methods[id].value);
          ms := Insert(ms, methods[id].value);
        }
        ids := ids - {id};
      }
    }

    /** The method a new challenge is for: the first of the kind asked for, else the primary, else the first. */
    method SelectMethod(user: string, kind: Option<Kind>) returns (choice: Option<string>)
      requires Inv(View())
      ensures Chosen(View(), user, kind, choice)
    {
      var ms := GetUserMFAMethods(user);
      var active := Active(ms);
      AllActive(View(), user, ms);
      if |active| == 0 {
        NoneIsChosen(View(), user, kind, ms);
        return None;
      }
      var i := 0;
      while i < |active|
        invariant 0 <= i <= |active|
        invariant forall k :: 0 <= k < i ==> if kind.Some? then active[k].kind != kind.value else !active[k].isPrimary
      {
        if if kind.Some? then active[i].kind == kind.value else active[i].isPrimary {
          FirstIsChosen(View(), user, kind, ms, i);
          return Some(active[i].id);
        }
        i := i + 1;
      }
      if kind.Some? {
        NoneIsChosen(View(), user, kind, ms);
        return None;
      }
      FirstIsChosen(View(), user, None, ms, 0);
      return Some(active[0].id);
    }

    method SetupMFAMethod(user: string, id: string, kind: Kind)
      requires Inv(View()) && id !in issued
      modifies this
      ensures View() == Apply(old(View()), Setup(user, id, kind)) && Inv(View())
    {
      SetupInv(View(), Setup(user, id, kind));
      var m := Method(id, user, kind, false, false, false, now, None);
      methods := Put(methods, id, m, DAY_TTL, now);
      issued := issued + {id};
    }

    method VerifyMFASetup(id: string, valid: bool) returns (ok: bool)
      requires Inv(View())
      modifies this
      ensures View() == Apply(old(View()), VerifySetup(id, valid)) && Inv(View())
      ensures ok <==> valid && id in old(methods)
    {
      if id !in methods || !valid {
        return false;
      }
      var m := methods[id].value;
      var existing := GetUserMFAMethods(m.user);
      NoneListed(View(), m.user, existing);
      VerifySetupInv(View(), id);
      m := m.(isEnabled := true, isVerified := true);
      if |existing| == 0 {
        m := m.(isPrimary := true);
      }
      methods := Put(methods, id, m, YEAR_TTL, now);
      lists := SAdd(lists, m.user, id);
      return true;
    }

    /** Records a use, which renews the record. */
    method TouchMethod(id: string)
      requires Inv(View())
      modifies this
      ensures View() == Apply(old(View()), Touch(id)) && Inv(View())
    {
      StepKeeps(View(), Touch(id));
      if id in methods {
        methods := Put(methods, id, methods[id].value.(lastUsedAt := Some(now)), YEAR_TTL, now);
      }
    }

    /** Rewrites the user's records one by one, each with its new primary flag. */
    method SetPrimaryMFAMethod(user: string, id: string)
      requires Inv(View())
      modifies this
      ensures View() == Apply(old(View()), SetPrimary(user, id)) && Inv(View())
    {
      ghost var before := View();
      var ms := GetUserMFAMethods(user);
      var i := 0;
      while i < |ms|
        invariant 0 <= i <= |ms|
        invariant View() == before.(methods := methods) && methods.Keys == before.methods.Keys
        invariant forall k :: k in methods ==>
          methods[k] == if k in IdsOf(ms[..i]) then SetPrimaryEffect(before, user, id).methods[k] else before.methods[k]
      {
        var m := ms[i];
        assert IdsOf(ms[..i + 1]) == IdsOf(ms[..i]) + {m.id};
        assert m.id in IdsOf(ms);
        methods := Put(methods, m.id, m.(isPrimary := m.id == id), YEAR_TTL, now);
        i := i + 1;
      }
      assert ms[..i] == ms;
      assert methods == SetPrimaryEffect(before, user, id).methods;
      SetPrimaryInv(before, user, id);
    }

    /** Refuses to remove the last active method; a removed primary is succeeded by the first left. */
    method RemoveMFAMethod(id: string) returns (ok: bool, heir: Option<string>)
      requires Inv(View())
      modifies this
      ensures ok <==> Removable(old(View()), id)
      ensures Enabled(old(View()), Remove(id, heir))
      ensures View() == Apply(old(View()), Remove(id, heir)) && Inv(View())
    {
      heir := None;
      if id !in methods {
        return false, None;
      }
      var m := methods[id].value;
      var ms := GetUserMFAMethods(m.user);
      var active := FilterActive(ms, id);
      ActiveAreOthers(View(), m.user, id, ms, active);
      if |active| == 0 {
        return false, None;
      }
      heir := Some(active[0].id);
      DropInv(View(), id);
      methods := methods - {id};
      lists := SRem(lists, m.user, id);
      if m.isPrimary {
        SetPrimaryMFAMethod(m.user, active[0].id);
      }
      return true, heir;
    }
  }

  /** The enabled methods other than the given one, in order. */
  function FilterActive(ms: seq<Method>, id: string): seq<Method> {
    if |ms| == 0 then []
    else if ms[0].isEnabled && ms[0].id != id then [ms[0]] + FilterActive(ms[1..], id)
    else FilterActive(ms[1..], id)
  }

  lemma {:induction false} FilterActiveIs(ms: seq<Method>, id: string)
    requires InOrder(ms)
    ensures InOrder(FilterActive(ms, id))
    ensures forall m :: m in FilterActive(ms, id) <==> m in ms && m.isEnabled && m.id != id
  {
    if |ms| > 0 {
      FilterActiveIs(ms[1..], id);
      var tail := FilterActive(ms[1..], id);
      assert forall m :: m in ms <==> m == ms[0] || m in ms[1..];
      forall i | 0 <= i < |tail|
        ensures NotAfter(ms[0], tail[i])
      {
        assert tail[i] in ms[1..];
        var k :| 0 <= k < |ms[1..]| && ms[1..][k] == tail[i];
        assert NotAfter(ms[0], ms[k + 1]);
      }
    }
  }

  lemma NoneListed(s: State, user: string, ms: seq<Method>)
    requires ListingOf(s, user, ms)
    ensures |ms| == 0 <==> Listed(s, user) == {}
  {
    if |ms| > 0 {
      assert ms[0].id in IdsOf(ms);
    }
  }

  /** The first of the filtered list is the first of the other active methods. */
  lemma ActiveAreOthers(s: State, user: string, id: string, ms: seq<Method>, active: seq<Method>)
    requires ListingOf(s, user, ms) && active == FilterActive(ms, id)
    ensures |active| == 0 <==> Others(s, user, id) == {}
    ensures |active| > 0 ==> FirstOf(s, Others(s, user, id), active[0].id)
  {
    FilterActiveIs(ms, id);
    forall k
      ensures k in Others(s, user, id) <==> exists m :: m in active && m.id == k
    {
      if k in Others(s, user, id) {
        assert k in IdsOf(ms);
        var m :| m in ms && m.id == k;
        assert m in active;
      }
      if m :| m in active && m.id == k {
        assert k in IdsOf(ms);
      }
    }
    if |active| > 0 {
      assert active[0] in active;
      assert active[0].id in Others(s, user, id);
      forall k | k in Others(s, user, id)
        ensures NotAfter(s.methods[active[0].id].value, s.methods[k].value)
      {
        var m :| m in active && m.id == k;
        var i :| 0 <= i < |active| && active[i] == m;
        assert i > 0 ==> NotAfter(active[0], active[i]);
      }
    }
  }
}
