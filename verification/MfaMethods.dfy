/**
 The MFA methods of a user: set up, verified, listed, one of them primary.

 A method's record has a TTL; the user's list of method ids has none, so a listed id may have lost
 its record.  `issued` remembers every id ever generated.
 */
module MfaMethods {
  import opened Store

  const DAY_TTL := 86_400
  const YEAR_TTL := 86_400 * 365

  datatype Kind = Totp | Sms | Email | WebAuthn

  datatype Method = Method(
    id: string, user: string, kind: Kind, isEnabled: bool, isPrimary: bool, isVerified: bool,
    createdAt: int, lastUsedAt: Option<int>)

  datatype State = State(
    now: int,
    methods: map<string, Entry<Method>>,
    lists: map<string, Entry<set<string>>>,
    issued: set<string>)

  datatype Op =
    | Advance(ms: nat)
    | Setup(user: string, id: string, kind: Kind)
    | VerifySetup(id: string, valid: bool)
    | Remove(id: string, heir: Option<string>)
    | SetPrimary(user: string, id: string)
    | Touch(id: string)

  function Init(now: int): State { State(now, map[], map[], {}) }

  /** The ids `getUserMFAMethods` finds a record for. */
  function Listed(s: State, user: string): set<string> {
    set id | id in Members(s.lists, user) && id in s.methods
  }

  function PutMethod(s: State, id: string, m: Method): State {
    s.(methods := Put(s.methods, id, m, YEAR_TTL, s.now))
  }

  function SetupEffect(s: State, user: string, id: string, kind: Kind): State {
    var m := Method(id, user, kind, false, false, false, s.now, None);
    s.(methods := Put(s.methods, id, m, DAY_TTL, s.now), issued := s.issued + {id})
  }

  function VerifySetupEffect(s: State, id: string, valid: bool): State {
    if id !in s.methods || !valid then s
    else
      var m := s.methods[id].value;
      var first := Listed(s, m.user) == {};
      PutMethod(s, id, m.(isEnabled := true, isVerified := true, isPrimary := first || m.isPrimary))
        .(lists := SAdd(s.lists, m.user, id))
  }

  /** Rewrites every listed method of the user, making exactly the one named primary. */
  function SetPrimaryEffect(s: State, user: string, id: string): State {
    s.(methods := map k | k in s.methods ::
      if k in Listed(s, user)
      then Entry(s.methods[k].value.(isPrimary := k == id), DeadlineAfter(YEAR_TTL, s.now))
      else s.methods[k])
  }

  /** The enabled methods left to a user without the given one. */
  function Others(s: State, user: string, id: string): set<string> {
    set k | k in Listed(s, user) && s.methods[k].value.isEnabled && k != id
  }

  function Drop(s: State, id: string): State
    requires id in s.methods
  {
    s.(methods := s.methods - {id}, lists := SRem(s.lists, s.methods[id].value.user, id))
  }

  predicate Removable(s: State, id: string) {
    id in s.methods && Others(s, s.methods[id].value.user, id) != {}
  }

  /** `heir` is the first of the remaining methods, which takes over from a removed primary. */
  function RemoveEffect(s: State, id: string, heir: Option<string>): State {
    if !Removable(s, id) then s
    else
      var m := s.methods[id].value;
      if m.isPrimary && heir.Some? then SetPrimaryEffect(Drop(s, id), m.user, heir.value) else Drop(s, id)
  }

  function TouchEffect(s: State, id: string): State {
    if id in s.methods then PutMethod(s, id, s.methods[id].value.(lastUsedAt := Some(s.now))) else s
  }

  function AdvanceEffect(s: State, ms: nat): State {
    State(s.now + ms, Evict(s.methods, s.now + ms), Evict(s.lists, s.now + ms), s.issued)
  }

  function Apply(s: State, op: Op): State {
    match op
    case Advance(ms) => AdvanceEffect(s, ms)
    case Setup(user, id, kind) => SetupEffect(s, user, id, kind)
    case VerifySetup(id, valid) => VerifySetupEffect(s, id, valid)
    case Remove(id, heir) => RemoveEffect(s, id, heir)
    case SetPrimary(user, id) => SetPrimaryEffect(s, user, id)
    case Touch(id) => TouchEffect(s, id)
  }

  /** The listing order: the primary first, then the newest first. */
  predicate NotAfter(a: Method, b: Method) {
    if a.isPrimary != b.isPrimary then a.isPrimary else a.createdAt >= b.createdAt
  }

  ghost predicate FirstOf(s: State, ids: set<string>, id: string)
    requires ids <= s.methods.Keys
  {
    id in ids && forall k :: k in ids ==> NotAfter(s.methods[id].value, s.methods[k].value)
  }

  /** A method a challenge can be for: listed, enabled and of the kind asked for, if one is. */
  predicate Candidate(s: State, user: string, kind: Option<Kind>, id: string) {
    id in Listed(s, user) && s.methods[id].value.isEnabled && (kind.Some? ==> s.methods[id].value.kind == kind.value)
  }

  /** The first candidate in listing order, if there is one. */
  ghost predicate Chosen(s: State, user: string, kind: Option<Kind>, choice: Option<string>) {
    match choice
    case None => forall k :: !Candidate(s, user, kind, k)
    case Some(id) =>
      && Candidate(s, user, kind, id)
      && forall k :: Candidate(s, user, kind, k) ==> NotAfter(s.methods[id].value, s.methods[k].value)
  }

  ghost predicate Enabled(s: State, op: Op) {
    match op
    case Setup(_, id, _) => id !in s.issued
    case Remove(id, heir) =>
      Removable(s, id) ==> heir.Some? && FirstOf(s, Others(s, s.methods[id].value.user, id), heir.value)
    case _ => true
  }

  ghost predicate Legal(s: State, ops: seq<Op>)
    decreases |ops|
  {
    |ops| == 0 || (Enabled(s, ops[0]) && Legal(Apply(s, ops[0]), ops[1..]))
  }

  ghost function Run(s: State, ops: seq<Op>): State
    decreases |ops|
  {
    if |ops| == 0 then s else Run(Apply(s, ops[0]), ops[1..])
  }

  // ---------------------------------------------------------------- the invariant

  ghost predicate MethodOk(s: State, id: string)
    requires id in s.methods
  {
    var m := s.methods[id].value;
    m.id == id && id in s.issued && (m.isPrimary ==> id in Members(s.lists, m.user))
  }

  ghost predicate OnePrimary(s: State, user: string) {
    forall a, b :: a in Listed(s, user) && b in Listed(s, user) && a != b ==>
      !(s.methods[a].value.isPrimary && s.methods[b].value.isPrimary)
  }

  ghost predicate ListOk(s: State, user: string) {
    && Members(s.lists, user) <= s.issued
    && (user in s.lists ==> s.lists[user].deadline.None?)
    && (forall id :: id in Listed(s, user) ==>
          var m := s.methods[id].value; m.user == user && m.isEnabled && m.isVerified)
    && OnePrimary(s, user)
  }

  ghost predicate Inv(s: State) {
    && (forall id :: id in s.methods ==> MethodOk(s, id))
    && (forall user :: ListOk(s, user))
  }

  ghost predicate HasPrimary(s: State, user: string) {
    exists id :: id in Listed(s, user) && s.methods[id].value.isPrimary
  }

  /** A step that some record of the user outlasts, if there is one. */
  ghost predicate Outlasted(s: State, op: Op, user: string) {
    op.Advance? ==> exists id :: id in Listed(s, user) && LiveAt(s.methods[id], s.now + op.ms)
  }

  /**
   A step after which a user who still has methods still has a primary one: of the waits those that
   outlast the primary's record outlast all of the user's, and only a listed method is named primary.
   */
  ghost predicate Steady(s: State, op: Op, user: string) {
    match op
    case Advance(ms) =>
      Outlasted(s, op, user) ==>
        exists p :: p in Listed(s, user) && s.methods[p].value.isPrimary && LiveAt(s.methods[p], s.now + ms)
    case SetPrimary(u, id) => u == user && Listed(s, user) != {} ==> id in Listed(s, user)
    case _ => true
  }

  ghost predicate AllSteady(s: State, ops: seq<Op>, user: string)
    decreases |ops|
  {
    |ops| == 0 || (Steady(s, ops[0], user) && AllSteady(Apply(s, ops[0]), ops[1..], user))
  }

  ghost predicate AllOutlasted(s: State, ops: seq<Op>, user: string)
    decreases |ops|
  {
    |ops| == 0 || (Outlasted(s, ops[0], user) && AllOutlasted(Apply(s, ops[0]), ops[1..], user))
  }

  /** A user with listed methods has a primary one. */
  ghost predicate Led(s: State, user: string) {
    Listed(s, user) != {} ==> HasPrimary(s, user)
  }

  ghost predicate AlwaysLed(s: State, ops: seq<Op>, user: string)
    decreases |ops|
  {
    Led(s, user) && (|ops| == 0 || AlwaysLed(Apply(s, ops[0]), ops[1..], user))
  }

  ghost predicate AlwaysListed(s: State, ops: seq<Op>, user: string)
    decreases |ops|
  {
    Listed(s, user) != {} && (|ops| == 0 || AlwaysListed(Apply(s, ops[0]), ops[1..], user))
  }

  // ---------------------------------------------------------------- preservation

  lemma SetupKeeps(s: State, user: string, id: string, kind: Kind, u: string)
    requires Inv(s) && id !in s.issued
    ensures ListOk(SetupEffect(s, user, id, kind), u)
    ensures Listed(SetupEffect(s, user, id, kind), u) == Listed(s, u)
  {
    assert ListOk(s, u);
    var r := SetupEffect(s, user, id, kind);
    assert Listed(r, u) == Listed(s, u);
  }

  lemma VerifySetupLists(s: State, id: string, u: string)
    requires id in s.methods
    ensures Listed(VerifySetupEffect(s, id, true), u)
      == if u == s.methods[id].value.user then Listed(s, u) + {id} else Listed(s, u)
  {
  }

  lemma VerifySetupKeepsList(s: State, id: string, u: string)
    requires id in s.methods && MethodOk(s, id) && ListOk(s, u)
    ensures ListOk(VerifySetupEffect(s, id, true), u)
  {
    VerifySetupLists(s, id, u);
  }

  /** The first method listed becomes primary, and no later one unseats it. */
  lemma VerifySetupLeads(s: State, id: string, u: string)
    requires id in s.methods && Led(s, u)
    ensures Led(VerifySetupEffect(s, id, true), u)
  {
    var r := VerifySetupEffect(s, id, true);
    VerifySetupLists(s, id, u);
    if Listed(s, u) != {} {
      var p :| p in Listed(s, u) && s.methods[p].value.isPrimary;
      assert p in Listed(r, u) && r.methods[p].value.isPrimary;
    } else if u == s.methods[id].value.user {
      assert id in Listed(r, u) && r.methods[id].value.isPrimary;
    }
  }

  lemma VerifySetupKeeps(s: State, id: string, u: string)
    requires Inv(s) && id in s.methods
    ensures
      var r := VerifySetupEffect(s, id, true);
      && ListOk(r, u)
      && Listed(r, u) == (if u == s.methods[id].value.user then Listed(s, u) + {id} else Listed(s, u))
      && (Led(s, u) ==> Led(r, u))
  {
    VerifySetupLists(s, id, u);
    VerifySetupKeepsList(s, id, u);
    if Led(s, u) {
      VerifySetupLeads(s, id, u);
    }
  }

  lemma SetPrimaryKeeps(s: State, user: string, id: string, u: string)
    requires Inv(s)
    ensures
      var r := SetPrimaryEffect(s, user, id);
      && ListOk(r, u) && Listed(r, u) == Listed(s, u)
      && (u != user && Led(s, u) ==> Led(r, u))
      && (id in Listed(s, user) ==> r.methods[id].value.isPrimary)
  {
    assert ListOk(s, u) && ListOk(s, user);
    var r := SetPrimaryEffect(s, user, id);
    assert Listed(r, u) == Listed(s, u);
    if u != user && Led(s, u) && Listed(s, u) != {} {
      var p :| p in Listed(s, u) && s.methods[p].value.isPrimary;
      assert p in Listed(r, u) && r.methods[p].value.isPrimary;
    }
  }

  lemma DropKeeps(s: State, id: string, u: string)
    requires Inv(s) && id in s.methods
    ensures ListOk(Drop(s, id), u) && Listed(Drop(s, id), u) == Listed(s, u) - {id}
  {
    assert ListOk(s, u) && ListOk(s, s.methods[id].value.user);
    var r := Drop(s, id);
    assert Listed(r, u) == Listed(s, u) - {id};
  }

  lemma DropInv(s: State, id: string)
    requires Inv(s) && id in s.methods
    ensures Inv(Drop(s, id))
  {
    forall u { DropKeeps(s, id, u); }
    forall k | k in Drop(s, id).methods
      ensures MethodOk(Drop(s, id), k)
    {
      assert MethodOk(s, k);
    }
  }

  lemma SetPrimaryInv(s: State, user: string, id: string)
    requires Inv(s)
    ensures Inv(SetPrimaryEffect(s, user, id))
  {
    forall u { SetPrimaryKeeps(s, user, id, u); }
    forall k | k in s.methods
      ensures MethodOk(SetPrimaryEffect(s, user, id), k)
    {
      assert MethodOk(s, k) && ListOk(s, user);
    }
  }

  lemma VerifySetupInv(s: State, id: string)
    requires Inv(s) && id in s.methods
    ensures Inv(VerifySetupEffect(s, id, true))
  {
    var r := VerifySetupEffect(s, id, true);
    forall u { VerifySetupKeeps(s, id, u); }
    forall k | k in r.methods
      ensures MethodOk(r, k)
    {
      assert MethodOk(s, k) && MethodOk(s, id);
    }
  }

  lemma TouchKeeps(s: State, id: string, u: string)
    requires Inv(s) && id in s.methods
    ensures ListOk(TouchEffect(s, id), u) && Listed(TouchEffect(s, id), u) == Listed(s, u)
    ensures Led(s, u) ==> Led(TouchEffect(s, id), u)
  {
    assert ListOk(s, u);
    var r := TouchEffect(s, id);
    assert Listed(r, u) == Listed(s, u);
    if Led(s, u) && Listed(s, u) != {} {
      var p :| p in Listed(s, u) && s.methods[p].value.isPrimary;
      assert p in Listed(r, u) && r.methods[p].value.isPrimary;
    }
  }

  lemma AdvanceKeeps(s: State, ms: nat, u: string)
    requires Inv(s)
    ensures ListOk(AdvanceEffect(s, ms), u)
    ensures forall id :: id in Listed(AdvanceEffect(s, ms), u) <==> (id in Listed(s, u) && LiveAt(s.methods[id], s.now + ms))
  {
    assert ListOk(s, u);
    var r := AdvanceEffect(s, ms);
    assert u in s.lists ==> u in r.lists && r.lists[u] == s.lists[u];
  }

  /** A wait leaves a user with methods led exactly if it leaves a primary record. */
  lemma AdvanceLeads(s: State, ms: nat, u: string)
    requires Inv(s)
    ensures Led(AdvanceEffect(s, ms), u) <==> Steady(s, Advance(ms), u)
  {
    var r := AdvanceEffect(s, ms);
    AdvanceKeeps(s, ms, u);
    if Outlasted(s, Advance(ms), u) {
      var id :| id in Listed(s, u) && LiveAt(s.methods[id], s.now + ms);
      assert id in Listed(r, u);
    }
    if p :| p in Listed(s, u) && s.methods[p].value.isPrimary && LiveAt(s.methods[p], s.now + ms) {
      assert p in Listed(r, u) && r.methods[p].value.isPrimary;
    }
    if HasPrimary(r, u) {
      var p :| p in Listed(r, u) && r.methods[p].value.isPrimary;
      assert p in Listed(s, u) && s.methods[p].value.isPrimary;
    }
  }

  lemma AdvanceInv(s: State, ms: nat)
    requires Inv(s)
    ensures Inv(AdvanceEffect(s, ms))
  {
    var r := AdvanceEffect(s, ms);
    forall u { AdvanceKeeps(s, ms, u); }
    forall k | k in r.methods
      ensures MethodOk(r, k)
    {
      assert MethodOk(s, k) && ListOk(s, s.methods[k].value.user);
    }
  }

  lemma SetupInv(s: State, op: Op)
    requires Inv(s) && op.Setup? && Enabled(s, op)
    ensures Inv(Apply(s, op))
  {
    forall u { SetupKeeps(s, op.user, op.id, op.kind, u); }
    forall k | k in Apply(s, op).methods
      ensures MethodOk(Apply(s, op), k)
    {
      assert k in s.methods ==> MethodOk(s, k);
    }
  }

  lemma StepKeeps(s: State, op: Op)
    requires Inv(s) && Enabled(s, op)
    ensures Inv(Apply(s, op))
  {
    match op
    case Advance(ms) => AdvanceInv(s, ms);
    case Setup(_, _, _) => SetupInv(s, op);
    case VerifySetup(id, valid) => if id in s.methods && valid { VerifySetupInv(s, id); }
    case SetPrimary(user, id) => SetPrimaryInv(s, user, id);
    case Remove(id, heir) =>
      if Removable(s, id) {
        DropInv(s, id);
        if heir.Some? {
          SetPrimaryInv(Drop(s, id), s.methods[id].value.user, heir.value);
        }
      }
    case Touch(id) =>
      if id in s.methods {
        forall u { TouchKeeps(s, id, u); }
        assert forall k :: k in s.methods ==> MethodOk(s, k);
      }
  }

  lemma {:induction false} RunKeeps(s: State, ops: seq<Op>)
    requires Inv(s) && Legal(s, ops)
    ensures Inv(Run(s, ops))
    decreases |ops|
  {
    if |ops| > 0 {
      StepKeeps(s, ops[0]);
      RunKeeps(Apply(s, ops[0]), ops[1..]);
    }
  }

  // ---------------------------------------------------------------- main results

  /** Every listed method is the user's own, enabled and verified, and at most one is primary. */
  lemma ListedMethodsAreSound(now: int, ops: seq<Op>, user: string)
    requires Legal(Init(now), ops)
    ensures
      var s := Run(Init(now), ops);
      && (forall id :: id in Listed(s, user) ==>
            var m := s.methods[id].value; m.id == id && m.user == user && m.isEnabled && m.isVerified)
      && OnePrimary(s, user)
  {
    RunKeeps(Init(now), ops);
    var s := Run(Init(now), ops);
    assert ListOk(s, user);
    assert forall id :: id in s.methods ==> MethodOk(s, id);
  }

  /** Removing a primary hands over to the newest of the user's remaining methods. */
  lemma HeirIsNewest(s: State, id: string, heir: string)
    requires Inv(s) && Enabled(s, Remove(id, Some(heir)))
    requires Removable(s, id) && s.methods[id].value.isPrimary
    ensures
      var user := s.methods[id].value.user;
      var r := RemoveEffect(s, id, Some(heir));
      && Listed(r, user) == Listed(s, user) - {id}
      && heir in Listed(r, user) && r.methods[heir].value.isPrimary
      && (forall k :: k in Listed(r, user) ==> r.methods[k].value.createdAt <= r.methods[heir].value.createdAt)
  {
    var user := s.methods[id].value.user;
    assert MethodOk(s, id) && ListOk(s, user);
    assert id in Listed(s, user);
    DropKeeps(s, id, user);
    DropInv(s, id);
    SetPrimaryKeeps(Drop(s, id), user, heir, user);
    assert Others(s, user, id) == Listed(s, user) - {id};
  }

  /** A list that loses its primary gets a new one; any other keeps its own. */
  lemma RemoveLeads(s: State, id: string, heir: Option<string>, u: string)
    requires Inv(s) && Enabled(s, Remove(id, heir)) && Removable(s, id) && HasPrimary(s, u)
    ensures HasPrimary(RemoveEffect(s, id, heir), u)
  {
    var m := s.methods[id].value;
    var d := Drop(s, id);
    var p :| p in Listed(s, u) && s.methods[p].value.isPrimary;
    assert MethodOk(s, id) && ListOk(s, u) && ListOk(s, m.user);
    if p == id {
      HeirIsNewest(s, id, heir.value);
    } else {
      DropKeeps(s, id, u);
      assert p in Listed(d, u) && d.methods[p].value.isPrimary;
      if m.isPrimary {
        assert u != m.user;
        DropInv(s, id);
        SetPrimaryKeeps(d, m.user, heir.value, u);
      }
    }
  }

  lemma RemoveKeepsOthers(s: State, id: string, heir: Option<string>, u: string)
    requires Inv(s)
    ensures Listed(RemoveEffect(s, id, heir), u) == if Removable(s, id) then Listed(s, u) - {id} else Listed(s, u)
  {
    if Removable(s, id) {
      DropKeeps(s, id, u);
      if heir.Some? {
        DropInv(s, id);
        SetPrimaryKeeps(Drop(s, id), s.methods[id].value.user, heir.value, u);
      }
    }
  }

  lemma RemoveLists(s: State, id: string, heir: Option<string>, u: string)
    requires Inv(s) && Enabled(s, Remove(id, heir)) && Listed(s, u) != {}
    ensures Listed(RemoveEffect(s, id, heir), u) != {}
  {
    RemoveKeepsOthers(s, id, heir, u);
    if Removable(s, id) {
      assert ListOk(s, u);
      var other :| other in Others(s, s.methods[id].value.user, id);
      assert u == s.methods[id].value.user ==> other in Listed(s, u) - {id};
    }
  }

  lemma RemoveSteady(s: State, id: string, heir: Option<string>, u: string)
    requires Inv(s) && Enabled(s, Remove(id, heir)) && Led(s, u)
    ensures Led(RemoveEffect(s, id, heir), u)
    ensures Listed(s, u) != {} ==> Listed(RemoveEffect(s, id, heir), u) != {}
  {
    if Listed(s, u) != {} {
      RemoveLists(s, id, heir, u);
      if Removable(s, id) {
        RemoveLeads(s, id, heir, u);
      }
    } else {
      RemoveKeepsOthers(s, id, heir, u);
    }
  }

  /** Naming a method primary leaves the user with a primary exactly when the method is listed. */
  lemma SetPrimaryExactly(s: State, user: string, id: string)
    requires Inv(s)
    ensures HasPrimary(SetPrimaryEffect(s, user, id), user) <==> id in Listed(s, user)
  {
    SetPrimaryKeeps(s, user, id, user);
  }

  lemma SetupLeads(s: State, op: Op, u: string)
    requires Inv(s) && op.Setup? && Enabled(s, op) && Led(s, u)
    ensures Led(Apply(s, op), u)
  {
    SetupKeeps(s, op.user, op.id, op.kind, u);
    if Listed(s, u) != {} {
      var p :| p in Listed(s, u) && s.methods[p].value.isPrimary;
      assert MethodOk(s, p);
      assert p in Listed(Apply(s, op), u) && Apply(s, op).methods[p].value.isPrimary;
    }
  }

  /** One call leaves a led user led exactly if it is steady for that user, whoever it is about. */
  lemma StepLeads(s: State, op: Op, u: string)
    requires Inv(s) && Enabled(s, op) && Led(s, u)
    ensures Led(Apply(s, op), u) <==> Steady(s, op, u)
  {
    match op
    case Advance(ms) => AdvanceLeads(s, ms, u);
    case Setup(_, _, _) => SetupLeads(s, op, u);
    case VerifySetup(id, valid) => if id in s.methods && valid { VerifySetupKeeps(s, id, u); }
    case SetPrimary(user, id) =>
      SetPrimaryKeeps(s, user, id, u);
      SetPrimaryExactly(s, user, id);
    case Remove(id, heir) => RemoveSteady(s, id, heir, u);
    case Touch(id) => if id in s.methods { TouchKeeps(s, id, u); }
  }

  /** One call leaves a user some method exactly if a record of the user outlasts it. */
  lemma StepLists(s: State, op: Op, u: string)
    requires Inv(s) && Enabled(s, op) && Listed(s, u) != {}
    ensures Listed(Apply(s, op), u) != {} <==> Outlasted(s, op, u)
  {
    match op
    case Advance(ms) => AdvanceKeeps(s, ms, u);
    case Setup(user, id, kind) => SetupKeeps(s, user, id, kind, u);
    case VerifySetup(id, valid) => if id in s.methods && valid { VerifySetupKeeps(s, id, u); }
    case SetPrimary(user, id) => SetPrimaryKeeps(s, user, id, u);
    case Remove(id, heir) => RemoveLists(s, id, heir, u);
    case Touch(id) => if id in s.methods { TouchKeeps(s, id, u); }
  }

  /**
   A user whose methods have a primary one keeps exactly one throughout a run exactly if every step
   is steady for this user: none outlasts the primary's record but not another of the user's, and
   none names an unlisted method primary.  What happens to other users does not matter.
   */
  lemma {:induction false} ExactlyOnePrimary(s: State, ops: seq<Op>, user: string)
    requires Inv(s) && Legal(s, ops) && Led(s, user)
    ensures AlwaysLed(s, ops, user) <==> AllSteady(s, ops, user)
    decreases |ops|
  {
    if |ops| > 0 {
      StepKeeps(s, ops[0]);
      StepLeads(s, ops[0], user);
      if Steady(s, ops[0], user) {
        ExactlyOnePrimary(Apply(s, ops[0]), ops[1..], user);
      }
    }
  }

  /** A user who has methods keeps some throughout a run exactly if no wait outlasts all of them. */
  lemma {:induction false} NeverEmptied(s: State, ops: seq<Op>, user: string)
    requires Inv(s) && Legal(s, ops) && Listed(s, user) != {}
    ensures AlwaysListed(s, ops, user) <==> AllOutlasted(s, ops, user)
    decreases |ops|
  {
    if |ops| > 0 {
      StepKeeps(s, ops[0]);
      StepLists(s, ops[0], user);
      if Outlasted(s, ops[0], user) {
        NeverEmptied(Apply(s, ops[0]), ops[1..], user);
      }
    }
  }

  lemma {:induction false} LedAtTheEnd(s: State, ops: seq<Op>, user: string)
    requires AlwaysLed(s, ops, user)
    ensures Led(Run(s, ops), user)
    decreases |ops|
  {
    if |ops| > 0 {
      LedAtTheEnd(Apply(s, ops[0]), ops[1..], user);
    }
  }

  lemma PrimaryFromStart(now: int, ops: seq<Op>, user: string)
    requires Legal(Init(now), ops) && AllSteady(Init(now), ops, user)
    ensures
      var s := Run(Init(now), ops);
      Listed(s, user) != {} ==>
        exists p :: p in Listed(s, user) && s.methods[p].value.isPrimary
          && forall q :: q in Listed(s, user) && s.methods[q].value.isPrimary ==> q == p
  {
    ExactlyOnePrimary(Init(now), ops, user);
    LedAtTheEnd(Init(now), ops, user);
    ListedMethodsAreSound(now, ops, user);
  }

  /** The primary's year runs out while another method is kept alive by use: nobody takes over. */
  lemma PrimaryRunsOut(s: State, user: string, primary: string, other: string, ms: nat, more: nat)
    requires Inv(s) && primary in Listed(s, user) && other in Listed(s, user) && primary != other
    requires s.methods[primary].value.isPrimary && s.methods[primary].deadline.Some?
    requires s.now + ms < s.methods[primary].deadline.value <= s.now + ms + more
    requires LiveAt(s.methods[other], s.now + ms) && more < YEAR_TTL * SECOND
    ensures
      var r := Run(s, [Advance(ms), Touch(other), Advance(more)]);
      other in Listed(r, user) && !HasPrimary(r, user)
  {
    var first := AdvanceEffect(s, ms);
    var used := TouchEffect(first, other);
    var r := AdvanceEffect(used, more);
    AdvanceInv(s, ms);
    AdvanceKeeps(s, ms, user);
    assert ListOk(first, user);
    TouchKeeps(first, other, user);
    StepKeeps(first, Touch(other));
    AdvanceKeeps(used, more, user);
    var ops := [Advance(ms), Touch(other), Advance(more)];
    assert ops[1..] == [Touch(other), Advance(more)];
    assert Run(used, [Advance(more)]) == r;
    assert Run(first, [Touch(other), Advance(more)]) == Run(used, [Advance(more)]);
    assert Run(s, ops) == r;
  }

  /** A challenge without a kind goes to the user's primary method, if there is one. */
  lemma ChosenIsPrimary(s: State, user: string, choice: Option<string>)
    requires Inv(s) && Chosen(s, user, None, choice) && HasPrimary(s, user)
    ensures choice.Some? && s.methods[choice.value].value.isPrimary
  {
    var p :| p in Listed(s, user) && s.methods[p].value.isPrimary;
    assert ListOk(s, user);
    assert Candidate(s, user, None, p);
  }
}
