/** What setting up and removing MFA methods comes to, told by the calls, the listing and the clock. */
module MfaMethodLaws {
  import opened Store
  import opened MfaMethods

  ghost function Waited(ops: seq<Op>): nat {
    if |ops| == 0 then 0 else (if ops[0].Advance? then ops[0].ms else 0) + Waited(ops[1..])
  }

  lemma StepClock(s: State, op: Op)
    ensures Apply(s, op).now == s.now + (if op.Advance? then op.ms else 0)
  {
  }

  lemma {:induction false} RunClock(s: State, ops: seq<Op>)
    ensures Run(s, ops).now == s.now + Waited(ops)
    decreases |ops|
  {
    if |ops| > 0 {
      StepClock(s, ops[0]);
      RunClock(Apply(s, ops[0]), ops[1..]);
    }
  }

  // ---------------------------------------------------------------- removing

  lemma RemovedRecords(s: State, id: string, heir: Option<string>)
    requires Inv(s) && Removable(s, id) && heir.Some?
    ensures
      var m, r := s.methods[id].value, RemoveEffect(s, id, heir);
      && r.methods.Keys == s.methods.Keys - {id} && r.now == s.now && r.issued == s.issued
      && forall k :: k in r.methods ==>
           r.methods[k].value ==
             if m.isPrimary && k in Listed(s, m.user) then s.methods[k].value.(isPrimary := k == heir.value)
             else s.methods[k].value
  {
    DropKeeps(s, id, s.methods[id].value.user);
  }

  lemma RemovedListings(s: State, id: string, heir: Option<string>)
    requires Inv(s) && Removable(s, id)
    ensures forall u :: Listed(RemoveEffect(s, id, heir), u) == Listed(s, u) - {id}
  {
    forall u
      ensures Listed(RemoveEffect(s, id, heir), u) == Listed(s, u) - {id}
    {
      RemoveKeepsOthers(s, id, heir, u);
    }
  }

  /**
   A method that has a record is removed exactly if its user has another one listed; it leaves the
   table and the list, no other listing changes, and if it was the primary the heir alone is after it.
   */
  lemma RemovalIs(s: State, id: string, heir: Option<string>)
    requires Inv(s) && Enabled(s, Remove(id, heir))
    ensures
      var r := Apply(s, Remove(id, heir));
      if id !in s.methods || Listed(s, s.methods[id].value.user) <= {id} then r == s
      else
        var m := s.methods[id].value;
        && r.methods.Keys == s.methods.Keys - {id} && r.now == s.now && r.issued == s.issued
        && (forall u :: Listed(r, u) == Listed(s, u) - {id})
        && heir.Some? && heir.value in Listed(s, m.user) && heir.value != id
        && forall k :: k in r.methods ==>
             r.methods[k].value ==
               if m.isPrimary && k in Listed(s, m.user) then s.methods[k].value.(isPrimary := k == heir.value)
               else s.methods[k].value
  {
    if id in s.methods {
      OthersAreListed(s, id);
      if Removable(s, id) {
        RemovedRecords(s, id, heir);
        RemovedListings(s, id, heir);
      }
    }
  }

  lemma OthersAreListed(s: State, id: string)
    requires Inv(s) && id in s.methods
    ensures Others(s, s.methods[id].value.user, id) == Listed(s, s.methods[id].value.user) - {id}
    ensures Removable(s, id) <==> !(Listed(s, s.methods[id].value.user) <= {id})
  {
    assert ListOk(s, s.methods[id].value.user);
  }

  // ---------------------------------------------------------------- setting up

  /** A call that names the method. */
  predicate Names(op: Op, id: string) {
    match op
    case VerifySetup(k, valid) => k == id && valid
    case Remove(k, _) => k == id
    case Touch(k) => k == id
    case _ => false
  }

  /** A method set up but not verified yet. */
  ghost predicate Unverified(s: State, m: Method, deadline: int) {
    && m.id in s.methods && s.methods[m.id] == Entry(m, Some(deadline)) && m.id in s.issued
    && forall u :: m.id !in Listed(s, u)
  }

  lemma ListingsOf(s: State, op: Op, id: string)
    requires Inv(s) && Enabled(s, op) && id in s.issued && !Names(op, id) && (forall u :: id !in Listed(s, u))
    ensures forall u :: id !in Listed(Apply(s, op), u)
  {
    forall u
      ensures id !in Listed(Apply(s, op), u)
    {
      assert ListOk(s, u);
      match op
      case Advance(ms) => AdvanceKeeps(s, ms, u);
      case Setup(user, k, kind) => SetupKeeps(s, user, k, kind, u);
      case VerifySetup(k, valid) => if k in s.methods && valid { VerifySetupKeeps(s, k, u); }
      case SetPrimary(user, k) => SetPrimaryKeeps(s, user, k, u);
      case Remove(k, heir) => RemoveKeepsOthers(s, k, heir, u);
      case Touch(k) => if k in s.methods { TouchKeeps(s, k, u); }
    }
  }

  lemma StaysUnverified(s: State, op: Op, m: Method, deadline: int)
    requires Inv(s) && Enabled(s, op) && Unverified(s, m, deadline) && !Names(op, m.id)
    ensures
      if op.Advance? && deadline <= s.now + op.ms then m.id !in Apply(s, op).methods && m.id in Apply(s, op).issued
      else Unverified(Apply(s, op), m, deadline)
  {
    ListingsOf(s, op, m.id);
  }

  lemma {:induction false} GoneForGood(s: State, ops: seq<Op>, id: string)
    requires Legal(s, ops) && id in s.issued && id !in s.methods
    ensures id !in Run(s, ops).methods
    decreases |ops|
  {
    if |ops| > 0 {
      GoneForGood(Apply(s, ops[0]), ops[1..], id);
    }
  }

  lemma {:induction false} UnverifiedUntil(s: State, ops: seq<Op>, m: Method, deadline: int)
    requires Inv(s) && Legal(s, ops) && Unverified(s, m, deadline) && s.now < deadline
    requires forall op :: op in ops ==> !Names(op, m.id)
    ensures Inv(Run(s, ops))
    ensures
      if s.now + Waited(ops) < deadline then Unverified(Run(s, ops), m, deadline) else m.id !in Run(s, ops).methods
    decreases |ops|
  {
    if |ops| > 0 {
      var op, r := ops[0], Apply(s, ops[0]);
      assert op in ops && forall o :: o in ops[1..] ==> o in ops;
      StepKeeps(s, op);
      StepClock(s, op);
      StaysUnverified(s, op, m, deadline);
      if r.now < deadline {
        UnverifiedUntil(r, ops[1..], m, deadline);
      } else {
        RunKeeps(r, ops[1..]);
        GoneForGood(r, ops[1..], m.id);
      }
    }
  }

  lemma SetupIsUnverified(s: State, user: string, id: string, kind: Kind)
    requires Inv(s) && Enabled(s, Setup(user, id, kind))
    ensures Unverified(Apply(s, Setup(user, id, kind)),
                       Method(id, user, kind, false, false, false, s.now, None), s.now + 86_400_000)
  {
    forall u
      ensures id !in Listed(Apply(s, Setup(user, id, kind)), u)
    {
      assert ListOk(s, u);
      SetupKeeps(s, user, id, kind, u);
    }
  }

  lemma VerifyingLists(s: State, m: Method, deadline: int)
    requires Inv(s) && Unverified(s, m, deadline) && !m.isPrimary
    ensures
      var r := Apply(s, VerifySetup(m.id, true));
      && Listed(r, m.user) == Listed(s, m.user) + {m.id} && m.id in r.methods
      && r.methods[m.id].value
           == m.(isEnabled := true, isVerified := true, isPrimary := Listed(s, m.user) == {})
      && r.methods[m.id].deadline == Some(s.now + 31_536_000_000)
  {
    VerifySetupKeeps(s, m.id, m.user);
  }

  /**
   A method set up can be verified for a day, whatever else happens: then it is listed, enabled and
   verified, primary exactly if the user had nothing listed, and kept for a year; after the day
   verifying it does nothing.
   */
  lemma SetupCompletes(now: int, before: seq<Op>, user: string, id: string, kind: Kind, after: seq<Op>)
    requires Legal(Init(now), before) && Enabled(Run(Init(now), before), Setup(user, id, kind))
    requires Legal(Apply(Run(Init(now), before), Setup(user, id, kind)), after)
    requires forall op :: op in after ==> !Names(op, id)
    ensures
      var t := Run(Apply(Run(Init(now), before), Setup(user, id, kind)), after);
      var r := Apply(t, VerifySetup(id, true));
      if Waited(after) < 86_400_000 then
        && Listed(r, user) == Listed(t, user) + {id} && id in r.methods
        && r.methods[id].deadline == Some(t.now + 31_536_000_000)
        && var m := r.methods[id].value;
        && m.user == user && m.kind == kind && m.isEnabled && m.isVerified && (m.isPrimary <==> Listed(t, user) == {})
      else r == t
  {
    var s := Run(Init(now), before);
    RunKeeps(Init(now), before);
    var first := Apply(s, Setup(user, id, kind));
    var m := Method(id, user, kind, false, false, false, s.now, None);
    StepKeeps(s, Setup(user, id, kind));
    SetupIsUnverified(s, user, id, kind);
    UnverifiedUntil(first, after, m, s.now + 86_400_000);
    if Waited(after) < 86_400_000 {
      VerifyingLists(Run(first, after), m, s.now + 86_400_000);
    }
  }

  // ---------------------------------------------------------------- staying listed

  ghost predicate ListedUntil(s: State, user: string, id: string, until: int) {
    id in Listed(s, user) && s.methods[id].deadline.Some? && until <= s.methods[id].deadline.value
  }

  lemma StaysListed(s: State, op: Op, user: string, id: string, until: int)
    requires Inv(s) && Enabled(s, op) && ListedUntil(s, user, id, until) && until <= s.now + 31_536_000_000
    requires op.Advance? ==> s.now + op.ms < until
    requires op.Remove? ==> op.id != id
    ensures ListedUntil(Apply(s, op), user, id, until)
  {
    assert ListOk(s, user);
    match op
    case Advance(ms) => AdvanceKeeps(s, ms, user);
    case Setup(u, k, kind) => SetupKeeps(s, u, k, kind, user);
    case VerifySetup(k, valid) => if k in s.methods && valid { VerifySetupKeeps(s, k, user); }
    case SetPrimary(u, k) => SetPrimaryKeeps(s, u, k, user);
    case Remove(k, heir) => RemoveKeepsOthers(s, k, heir, user);
    case Touch(k) => if k in s.methods { TouchKeeps(s, k, user); }
  }

  /** A listed method stays listed for the year its record was last written for, unless it is removed. */
  lemma {:induction false} ListedForAYear(s: State, ops: seq<Op>, user: string, id: string, until: int)
    requires Inv(s) && Legal(s, ops) && ListedUntil(s, user, id, until) && until <= s.now + 31_536_000_000
    requires s.now + Waited(ops) < until
    requires forall op :: op in ops && op.Remove? ==> op.id != id
    ensures ListedUntil(Run(s, ops), user, id, until)
    decreases |ops|
  {
    if |ops| > 0 {
      assert ops[0] in ops && forall o :: o in ops[1..] ==> o in ops;
      StepKeeps(s, ops[0]);
      StepClock(s, ops[0]);
      StaysListed(s, ops[0], user, id, until);
      ListedForAYear(Apply(s, ops[0]), ops[1..], user, id, until);
    }
  }
}
