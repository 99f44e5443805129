/**
 The MFA service as one: methods, challenges and trusted devices under one clock.

 A challenge is for a method of its user; verifying its code uses that method and may make the
 device a trusted one.  Whether a code is the right one for the method is an input.

 Setting up an SMS or e-mail method stores a challenge too, under `setup:` and the method's id.  It
 lies in the same key space as the others, so the id a caller verifies may lead to either kind.
 */
module MfaEngine {
  import opened Store
  import C = MfaChallenges
  import L = MfaMethods
  import D = MfaDevices
  import MfaMethodService

  /** A device to be trusted after a successful verification. */
  datatype Remember = Remember(fingerprint: string, deviceId: string, days: D.Positive)

  /** `setups` holds the challenges of methods being set up, by the id of the method. */
  datatype State = State(
    challenges: C.State, setups: map<string, Entry<C.Challenge>>, methods: L.State, devices: D.State)

  datatype Op =
    | Advance(ms: nat)
    | Initiate(user: string, kind: Option<L.Kind>, id: string, choice: Option<string>)
    | Verify(id: string, right: bool, remember: Option<Remember>)
    | OnMethods(methodCall: L.Op)
    | OnDevices(deviceCall: D.Op)

  function Init(now: int, config: C.Config): State {
    State(C.Init(now, config), map[], L.Init(now), D.Init(now))
  }

  const SETUP := "setup:"

  predicate IsSetupId(id: string) {
    |id| >= |SETUP| && id[..|SETUP|] == SETUP
  }

  function SetupId(methodId: string): string { SETUP + methodId }

  /** The table an id leads to, and the key in it. */
  function TableFor(s: State, id: string): map<string, Entry<C.Challenge>> {
    if IsSetupId(id) then s.setups else s.challenges.challenges
  }

  function KeyFor(id: string): string {
    if IsSetupId(id) then id[|SETUP|..] else id
  }

  predicate Found(s: State, id: string) { KeyFor(id) in TableFor(s, id) }

  function RecordOf(s: State, id: string): C.Challenge
    requires Found(s, id)
  {
    TableFor(s, id)[KeyFor(id)].value
  }

  /** A challenge whose method is gone cannot be checked. */
  function CheckOf(s: State, id: string, right: bool): C.Check {
    if Found(s, id) && RecordOf(s, id).methodId !in s.methods.methods then C.MethodGone
    else if right then C.Right else C.Wrong
  }

  function VerdictOf(s: State, id: string, right: bool): C.Verdict {
    C.VerdictOn(TableFor(s, id), s.challenges.now, KeyFor(id), CheckOf(s, id, right))
  }

  /** A setup challenge belongs to nobody: its user is the empty text.  Its own id is never read. */
  function NewSetup(s: State, methodId: string): C.Challenge {
    C.NewChallenge(s.challenges, "", SetupId(methodId), methodId)
  }

  predicate SendsCode(kind: L.Kind) { kind.Sms? || kind.Email? }

  // ---------------------------------------------------------------- what a call is to each part

  function OnChallenge(s: State, op: Op): Option<C.Op> {
    match op
    case Advance(ms) => Some(C.Advance(ms))
    case Initiate(user, _, id, choice) => Some(C.Initiate(user, id, choice))
    case Verify(id, right, _) => if IsSetupId(id) then None else Some(C.Verify(id, CheckOf(s, id, right)))
    case _ => None
  }

  /** A right code marks the method as used, which renews its record. */
  function OnMethod(s: State, op: Op): Option<L.Op> {
    match op
    case Advance(ms) => Some(L.Advance(ms))
    case Verify(id, right, _) =>
      if VerdictOf(s, id, right).Verified? then Some(L.Touch(RecordOf(s, id).methodId)) else None
    case OnMethods(call) => Some(call)
    case _ => None
  }

  function OnDevice(s: State, op: Op): Option<D.Op> {
    match op
    case Advance(ms) => Some(D.Advance(ms))
    case Verify(id, right, remember) =>
      if VerdictOf(s, id, right).Verified? && remember.Some?
      then Some(D.Trust(RecordOf(s, id).user, remember.value.fingerprint, remember.value.deviceId, remember.value.days))
      else None
    case OnDevices(call) => Some(call)
    case _ => None
  }

  /** Setting up stores a setup challenge, and its success or a verification under its id uses it up. */
  function SetupsAfter(s: State, op: Op): map<string, Entry<C.Challenge>> {
    match op
    case Advance(ms) => Evict(s.setups, s.challenges.now + ms)
    case Verify(id, right, _) =>
      if IsSetupId(id)
      then C.TableAfter(s.setups, s.challenges.config, s.challenges.now, KeyFor(id), CheckOf(s, id, right)) else s.setups
    case OnMethods(Setup(_, id, kind)) =>
      if SendsCode(kind)
      then Put(s.setups, id, NewSetup(s, id), s.challenges.config.codeExpiry, s.challenges.now) else s.setups
    case OnMethods(VerifySetup(id, valid)) => if valid && id in s.methods.methods then s.setups - {id} else s.setups
    case _ => s.setups
  }

  function Apply(s: State, op: Op): State {
    var c, l, d := OnChallenge(s, op), OnMethod(s, op), OnDevice(s, op);
    State(if c.Some? then C.Apply(s.challenges, c.value) else s.challenges,
          SetupsAfter(s, op),
          if l.Some? then L.Apply(s.methods, l.value) else s.methods,
          if d.Some? then D.Apply(s.devices, d.value) else s.devices)
  }

  /** What checking a code does to the challenges. */
  function Checked(s: State, id: string, right: bool): State {
    if IsSetupId(id) then s.(setups := SetupsAfter(s, Verify(id, right, None)))
    else s.(challenges := C.VerifyEffect(s.challenges, id, CheckOf(s, id, right)))
  }

  /** A code that was sent out can be right only while its setup challenge is there. */
  predicate CodeCanBeRight(s: State, methodId: string) {
    methodId in s.methods.methods && SendsCode(s.methods.methods[methodId].value.kind) ==> methodId in s.setups
  }

  /**
   A challenge goes to the first candidate in listing order; generated ids are fresh and hexadecimal;
   the clock is shared; and a code sent out for a setup is checked against its challenge.
   */
  ghost predicate Enabled(s: State, op: Op) {
    match op
    case Advance(_) => true
    case Initiate(user, kind, id, choice) =>
      C.Enabled(s.challenges, C.Initiate(user, id, choice)) && !IsSetupId(id) && L.Chosen(s.methods, user, kind, choice)
    case Verify(_, _, remember) =>
      remember.Some? ==> forall g :: g in s.devices.grants ==> g.id != remember.value.deviceId
    case OnMethods(call) =>
      && !call.Advance? && L.Enabled(s.methods, call)
      && (call.VerifySetup? && call.valid ==> CodeCanBeRight(s, call.id))
    case OnDevices(call) => !call.Advance? && D.Enabled(s.devices, call)
  }

  ghost predicate Legal(s: State, ops: seq<Op>)
    decreases |ops|
  {
    |ops| == 0 || (Enabled(s, ops[0]) && Legal(Apply(s, ops[0]), ops[1..]))
  }

  ghost function Run(s: State, ops: seq<Op>): State
    decreases |ops|
  {
    if |ops| == 0 then s else Run(Apply(s, ops[0]), ops[1..])
  }

  // ---------------------------------------------------------------- the parts stand alone

  function Then<T>(first: Option<T>, rest: seq<T>): seq<T> {
    if first.Some? then [first.value] + rest else rest
  }

  ghost function ChallengeOps(s: State, ops: seq<Op>): seq<C.Op>
    decreases |ops|
  {
    if |ops| == 0 then [] else Then(OnChallenge(s, ops[0]), ChallengeOps(Apply(s, ops[0]), ops[1..]))
  }

  ghost function MethodOps(s: State, ops: seq<Op>): seq<L.Op>
    decreases |ops|
  {
    if |ops| == 0 then [] else Then(OnMethod(s, ops[0]), MethodOps(Apply(s, ops[0]), ops[1..]))
  }

  ghost function DeviceOps(s: State, ops: seq<Op>): seq<D.Op>
    decreases |ops|
  {
    if |ops| == 0 then [] else Then(OnDevice(s, ops[0]), DeviceOps(Apply(s, ops[0]), ops[1..]))
  }

  lemma StepIsEnabled(s: State, op: Op)
    requires Enabled(s, op)
    ensures OnChallenge(s, op).Some? ==> C.Enabled(s.challenges, OnChallenge(s, op).value)
    ensures OnMethod(s, op).Some? ==> L.Enabled(s.methods, OnMethod(s, op).value)
    ensures OnDevice(s, op).Some? ==> D.Enabled(s.devices, OnDevice(s, op).value)
  {
  }

  /** Seen by its challenges a run is a legal run of challenges alone, so all their laws hold in it. */
  lemma {:induction false} ChallengesStandAlone(s: State, ops: seq<Op>)
    requires Legal(s, ops)
    ensures C.Legal(s.challenges, ChallengeOps(s, ops))
    ensures Run(s, ops).challenges == C.Run(s.challenges, ChallengeOps(s, ops))
    decreases |ops|
  {
    if |ops| > 0 {
      StepIsEnabled(s, ops[0]);
      ChallengesStandAlone(Apply(s, ops[0]), ops[1..]);
      var rest := ChallengeOps(Apply(s, ops[0]), ops[1..]);
      if OnChallenge(s, ops[0]).Some? {
        assert ([OnChallenge(s, ops[0]).value] + rest)[1..] == rest;
      }
    }
  }

  lemma {:induction false} MethodsStandAlone(s: State, ops: seq<Op>)
    requires Legal(s, ops)
    ensures L.Legal(s.methods, MethodOps(s, ops)) && Run(s, ops).methods == L.Run(s.methods, MethodOps(s, ops))
    decreases |ops|
  {
    if |ops| > 0 {
      StepIsEnabled(s, ops[0]);
      MethodsStandAlone(Apply(s, ops[0]), ops[1..]);
      var rest := MethodOps(Apply(s, ops[0]), ops[1..]);
      if OnMethod(s, ops[0]).Some? {
        assert ([OnMethod(s, ops[0]).value] + rest)[1..] == rest;
      }
    }
  }

  lemma {:induction false} DevicesStandAlone(s: State, ops: seq<Op>)
    requires Legal(s, ops)
    ensures D.Legal(s.devices, DeviceOps(s, ops)) && Run(s, ops).devices == D.Run(s.devices, DeviceOps(s, ops))
    decreases |ops|
  {
    if |ops| > 0 {
      StepIsEnabled(s, ops[0]);
      DevicesStandAlone(Apply(s, ops[0]), ops[1..]);
      var rest := DeviceOps(Apply(s, ops[0]), ops[1..]);
      if OnDevice(s, ops[0]).Some? {
        assert ([OnDevice(s, ops[0]).value] + rest)[1..] == rest;
      }
    }
  }

  // ---------------------------------------------------------------- challenges and methods together

  /** The challenge's method is one of its user's, in use, unless it has gone since. */
  ghost predicate Owned(c: C.Challenge, methods: L.State) {
    && c.methodId in methods.issued
    && (c.methodId in methods.methods ==>
          var m := methods.methods[c.methodId].value; m.user == c.user && m.isEnabled && m.isVerified)
  }

  ghost predicate AllOwned(s: State) {
    forall id :: id in s.challenges.challenges ==> Owned(s.challenges.challenges[id].value, s.methods)
  }

  lemma SetupIsNew(s: L.State, op: L.Op, id: string)
    requires op.Setup? && L.Enabled(s, op) && id in s.issued
    ensures id in L.Apply(s, op).methods ==> id in s.methods && L.Apply(s, op).methods[id] == s.methods[id]
  {
  }

  /** No call gives a method to another user or takes it out of use while keeping it. */
  lemma MethodLasts(s: L.State, op: L.Op, id: string)
    requires L.Enabled(s, op) && id in s.issued
    ensures
      var r := L.Apply(s, op);
      && id in r.issued
      && (id in r.methods ==>
            && id in s.methods
            && r.methods[id].value.user == s.methods[id].value.user
            && (s.methods[id].value.isEnabled ==> r.methods[id].value.isEnabled)
            && (s.methods[id].value.isVerified ==> r.methods[id].value.isVerified))
  {
    if op.Setup? {
      SetupIsNew(s, op, id);
    }
  }

  lemma OwnedLasts(c: C.Challenge, s: L.State, op: L.Op)
    requires Owned(c, s) && L.Enabled(s, op)
    ensures Owned(c, L.Apply(s, op))
  {
    MethodLasts(s, op, c.methodId);
  }

  /** The record of a challenge after a call is an earlier one, but for its attempts, or a new one. */
  lemma ChallengeStems(s: C.State, op: C.Op, id: string)
    requires id in C.Apply(s, op).challenges
    ensures
      var c := C.Apply(s, op).challenges[id].value;
      if op.Initiate? && op.id == id && C.Apply(s, op) != s then
        op.choice.Some? && c.user == op.user && c.methodId == op.choice.value
      else
        id in s.challenges && c.user == s.challenges[id].value.user && c.methodId == s.challenges[id].value.methodId
  {
  }

  lemma ChosenIsOwn(s: L.State, user: string, kind: Option<L.Kind>, choice: string)
    requires L.Inv(s) && L.Chosen(s, user, kind, Some(choice))
    ensures choice in s.issued && choice in s.methods
    ensures
      var m := s.methods[choice].value;
      m.user == user && m.isEnabled && m.isVerified && (kind.Some? ==> m.kind == kind.value)
  {
    assert L.ListOk(s, user) && L.MethodOk(s, choice);
  }

  lemma StepOwnsOne(s: State, op: Op, id: string)
    requires L.Inv(s.methods) && AllOwned(s) && Enabled(s, op) && id in Apply(s, op).challenges.challenges
    ensures Owned(Apply(s, op).challenges.challenges[id].value, Apply(s, op).methods)
  {
    var r := Apply(s, op);
    var c := r.challenges.challenges[id].value;
    if OnChallenge(s, op).Some? {
      ChallengeStems(s.challenges, OnChallenge(s, op).value, id);
    }
    if op.Initiate? && op.choice.Some? {
      ChosenIsOwn(s.methods, op.user, op.kind, op.choice.value);
    }
    assert Owned(c, s.methods);
    StepIsEnabled(s, op);
    if OnMethod(s, op).Some? {
      OwnedLasts(c, s.methods, OnMethod(s, op).value);
    }
  }

  lemma {:induction false} RunOwns(s: State, ops: seq<Op>)
    requires L.Inv(s.methods) && AllOwned(s) && Legal(s, ops)
    ensures AllOwned(Run(s, ops))
    decreases |ops|
  {
    if |ops| > 0 {
      var r := Apply(s, ops[0]);
      forall id | id in r.challenges.challenges
        ensures Owned(r.challenges.challenges[id].value, r.methods)
      {
        StepOwnsOne(s, ops[0], id);
      }
      StepIsEnabled(s, ops[0]);
      if OnMethod(s, ops[0]).Some? {
        L.StepKeeps(s.methods, OnMethod(s, ops[0]).value);
      }
      RunOwns(r, ops[1..]);
    }
  }

  // ---------------------------------------------------------------- setup challenges

  /** A setup challenge is for the method it is stored under, which is not in use yet. */
  ghost predicate SetupOk(c: C.Challenge, methodId: string, methods: L.State) {
    && c.user == "" && c.methodId == methodId && methodId in methods.issued
    && (methodId in methods.methods ==>
          !methods.methods[methodId].value.isEnabled && !methods.methods[methodId].value.isVerified)
  }

  ghost predicate SetupsOk(s: State) {
    forall m :: m in s.setups ==> SetupOk(s.setups[m].value, m, s.methods)
  }

  /** Only a successful setup puts a method to use. */
  lemma UnusedLasts(s: L.State, op: L.Op, id: string)
    requires L.Enabled(s, op) && id in s.issued && op != L.VerifySetup(id, true)
    ensures
      var r := L.Apply(s, op);
      && id in r.issued
      && (id in r.methods ==>
            && id in s.methods
            && r.methods[id].value.isEnabled == s.methods[id].value.isEnabled
            && r.methods[id].value.isVerified == s.methods[id].value.isVerified)
  {
    if op.Setup? {
      SetupIsNew(s, op, id);
    }
  }

  /** A setup challenge after a call is an earlier one, but for its attempts, or that of a new method. */
  lemma SetupStems(s: State, op: Op, m: string)
    requires m in SetupsAfter(s, op)
    ensures
      var c := SetupsAfter(s, op)[m].value;
      || (op.OnMethods? && op.methodCall.Setup? && op.methodCall.id == m && c == NewSetup(s, m))
      || (m in s.setups && c.user == s.setups[m].value.user && c.methodId == s.setups[m].value.methodId)
  {
  }

  lemma StepSetsUp(s: State, op: Op, m: string)
    requires SetupsOk(s) && Enabled(s, op) && m in SetupsAfter(s, op)
    ensures SetupOk(SetupsAfter(s, op)[m].value, m, Apply(s, op).methods)
  {
    SetupStems(s, op, m);
    StepIsEnabled(s, op);
    if !(op.OnMethods? && op.methodCall.Setup? && op.methodCall.id == m) {
      assert SetupOk(s.setups[m].value, m, s.methods);
      if OnMethod(s, op).Some? && m in s.methods.methods {
        UnusedLasts(s.methods, OnMethod(s, op).value, m);
      } else if OnMethod(s, op).Some? {
        MethodLasts(s.methods, OnMethod(s, op).value, m);
      }
    }
  }

  lemma {:induction false} RunSetsUp(s: State, ops: seq<Op>)
    requires SetupsOk(s) && Legal(s, ops)
    ensures SetupsOk(Run(s, ops))
    decreases |ops|
  {
    if |ops| > 0 {
      forall m | m in SetupsAfter(s, ops[0]) {
        StepSetsUp(s, ops[0], m);
      }
      RunSetsUp(Apply(s, ops[0]), ops[1..]);
    }
  }

  /** The method of a challenge exists, belongs to the challenge's user, and is enabled and verified. */
  predicate ByOwnMethod(s: State, id: string)
    requires Found(s, id)
  {
    var c := RecordOf(s, id);
    && c.methodId in s.methods.methods
    && var m := s.methods.methods[c.methodId].value; m.user == c.user && m.isEnabled && m.isVerified
  }

  /**
   In every run of methods, challenges and devices together, a code that is accepted was checked
   against an enabled and verified method of the challenge's user exactly if the id is not that of a
   setup; a setup's code is accepted too, for a method that is neither.
   */
  lemma VerifiedByOwnMethod(now: int, config: C.Config, ops: seq<Op>, id: string, right: bool)
    requires Legal(Init(now, config), ops)
    requires VerdictOf(Run(Init(now, config), ops), id, right).Verified?
    ensures
      var s := Run(Init(now, config), ops);
      && right && Found(s, id) && RecordOf(s, id).methodId in s.methods.methods
      && (ByOwnMethod(s, id) <==> !IsSetupId(id))
      && (IsSetupId(id) ==> RecordOf(s, id).user == "" && !s.methods.methods[RecordOf(s, id).methodId].value.isVerified)
  {
    RunOwns(Init(now, config), ops);
    RunSetsUp(Init(now, config), ops);
    var s := Run(Init(now, config), ops);
    if IsSetupId(id) {
      assert SetupOk(s.setups[KeyFor(id)].value, KeyFor(id), s.methods);
    } else {
      assert Owned(s.challenges.challenges[id].value, s.methods);
    }
  }

  /** A method whose setup challenge is used up; there will be no other one. */
  ghost predicate SetupSpent(s: State, methodId: string) {
    methodId in s.methods.issued && methodId !in s.setups
  }

  lemma SpentStays(s: State, op: Op, m: string)
    requires SetupSpent(s, m) && Enabled(s, op)
    ensures SetupSpent(Apply(s, op), m)
  {
    StepIsEnabled(s, op);
    if OnMethod(s, op).Some? {
      MethodLasts(s.methods, OnMethod(s, op).value, m);
    }
    if m in SetupsAfter(s, op) {
      SetupStems(s, op, m);
    }
  }

  lemma SuccessSpends(s: State, id: string, right: bool, remember: Option<Remember>)
    requires SetupsOk(s) && IsSetupId(id) && VerdictOf(s, id, right).Verified?
    ensures SetupSpent(Apply(s, Verify(id, right, remember)), KeyFor(id))
  {
    assert SetupOk(s.setups[KeyFor(id)].value, KeyFor(id), s.methods);
  }

  /** The three parts always show the same time. */
  lemma {:induction false} OneClock(s: State, ops: seq<Op>)
    requires s.challenges.now == s.methods.now == s.devices.now && Legal(s, ops)
    ensures Run(s, ops).challenges.now == Run(s, ops).methods.now == Run(s, ops).devices.now
    decreases |ops|
  {
    if |ops| > 0 {
      StepClock(s, ops[0]);
      OneClock(Apply(s, ops[0]), ops[1..]);
    }
  }

  lemma MethodsTakeNoTime(s: L.State, op: L.Op)
    requires !op.Advance?
    ensures L.Apply(s, op).now == s.now
  {
  }

  lemma StepClock(s: State, op: Op)
    requires s.challenges.now == s.methods.now == s.devices.now && Enabled(s, op)
    ensures Apply(s, op).challenges.now == Apply(s, op).methods.now == Apply(s, op).devices.now
  {
    if OnMethod(s, op).Some? && !op.Advance? {
      MethodsTakeNoTime(s.methods, OnMethod(s, op).value);
    }
  }

  class MFAServiceImpl {
    var setups: map<string, Entry<C.Challenge>>
    const challengeService: C.MfaChallengeService
    const methodService: MfaMethodService.MfaMethodServiceImpl
    const deviceService: D.MfaDeviceService

    ghost function View(): State
      reads this, challengeService, methodService, deviceService
    {
      State(challengeService.View(), setups, methodService.View(), deviceService.View())
    }

    ghost predicate Valid()
      reads methodService, deviceService
    {
      L.Inv(methodService.View()) && D.Inv(deviceService.View())
    }

    constructor (now: int, config: C.Config)
      ensures View() == Init(now, config) && Valid()
      ensures fresh(challengeService) && fresh(methodService) && fresh(deviceService)
    {
      setups := map[];
      challengeService := new C.MfaChallengeService(now, config);
      methodService := new MfaMethodService.MfaMethodServiceImpl(now);
      deviceService := new D.MfaDeviceService(now);
    }

    method Wait(ms: nat)
      requires Valid()
      modifies this, challengeService, methodService, deviceService
      ensures View() == Apply(old(View()), Advance(ms)) && Valid()
    {
      setups := Evict(setups, challengeService.now + ms);
      challengeService.Wait(ms);
      methodService.Wait(ms);
      deviceService.Wait(ms);
    }

    method IsDeviceTrusted(user: string, fingerprint: string) returns (trusted: bool, ghost hit: Option<string>)
      requires Valid()
      modifies deviceService
      ensures trusted <==> hit.Some?
      ensures Enabled(old(View()), OnDevices(D.Check(user, fingerprint, hit)))
      ensures View() == Apply(old(View()), OnDevices(D.Check(user, fingerprint, hit))) && Valid()
    {
      trusted, hit := deviceService.IsDeviceTrusted(user, fingerprint);
    }

    /** Selects the user's method, then creates the challenge if the rate limit lets it. */
    method InitiateMFAChallenge(user: string, kind: Option<L.Kind>, id: string)
      returns (r: Option<C.Challenge>, ghost choice: Option<string>)
      requires Valid()
      modifies challengeService
      ensures L.Chosen(old(View()).methods, user, kind, choice)
      ensures View() == Apply(old(View()), Initiate(user, kind, id, choice)) && Valid()
      ensures r.Some? <==> choice.Some? && C.Accepts(old(View()).challenges, user)
    {
      var selected := methodService.SelectMethod(user, kind);
      choice := selected;
      r := challengeService.InitiateMFAChallenge(user, id, selected);
    }

    /** A method with a code sent out gets a setup challenge, which is not rate-limited. */
    method SetupMFAMethod(user: string, id: string, kind: L.Kind)
      requires Valid() && L.Enabled(methodService.View(), L.Setup(user, id, kind))
      modifies this, methodService
      ensures View() == Apply(old(View()), OnMethods(L.Setup(user, id, kind))) && Valid()
    {
      methodService.SetupMFAMethod(user, id, kind);
      if SendsCode(kind) {
        var now, config := challengeService.now, challengeService.config;
        var challenge := C.Challenge(SetupId(id), "", id, now, now + C.Lifetime(config), config.maxAttempts);
        setups := Put(setups, id, challenge, config.codeExpiry, now);
      }
    }

    /** `right` tells whether the code is the one sent out or shown; without a setup challenge none is. */
    method VerifyMFASetup(id: string, right: bool) returns (ok: bool)
      requires Valid()
      modifies this, methodService
      ensures Enabled(old(View()), OnMethods(L.VerifySetup(id, ok)))
      ensures View() == Apply(old(View()), OnMethods(L.VerifySetup(id, ok))) && Valid()
      ensures ok <==> right && id in old(View()).methods.methods && CodeCanBeRight(old(View()), id)
    {
      if id !in methodService.methods || !right {
        return false;
      }
      if SendsCode(methodService.methods[id].value.kind) && id !in setups {
        return false;
      }
      ok := methodService.VerifyMFASetup(id, true);
      setups := setups - {id};
    }

    /** The id is the caller's, and leads to a challenge of either kind. */
    method CheckCode(id: string, right: bool) returns (v: C.Verdict, methodId: string, user: string)
      modifies this, challengeService
      ensures v == VerdictOf(old(View()), id, right) && View() == Checked(old(View()), id, right)
      ensures v.Verified? ==>
        && Found(old(View()), id)
        && methodId == RecordOf(old(View()), id).methodId && user == RecordOf(old(View()), id).user
    {
      methodId, user := "", "";
      var check := if right then C.Right else C.Wrong;
      var table := if IsSetupId(id) then setups else challengeService.challenges;
      if KeyFor(id) in table {
        methodId := table[KeyFor(id)].value.methodId;
        user := table[KeyFor(id)].value.user;
        if methodId !in methodService.methods {
          check := C.MethodGone;
        }
      }
      if IsSetupId(id) {
        v, setups := C.VerifyRecord(setups, challengeService.config, challengeService.now, KeyFor(id), check);
      } else {
        v := challengeService.VerifyMFAChallenge(id, check);
      }
    }

    /** Success marks the method used, and trusts the device when asked to. */
    method VerifyMFAChallenge(id: string, right: bool, remember: Option<Remember>) returns (v: C.Verdict)
      requires Valid() && Enabled(View(), Verify(id, right, remember))
      modifies this, challengeService, methodService, deviceService
      ensures v == VerdictOf(old(View()), id, right)
      ensures View() == Apply(old(View()), Verify(id, right, remember)) && Valid()
    {
      var methodId, user;
      v, methodId, user := CheckCode(id, right);
      if v.Verified? {
        methodService.TouchMethod(methodId);
        if remember.Some? {
          deviceService.TrustDevice(user, remember.value.fingerprint, remember.value.deviceId, remember.value.days);
        }
      }
    }
  }
}
