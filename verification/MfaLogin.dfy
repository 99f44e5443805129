/** Password login followed by an MFA challenge, and the tokens handed out on the way. */
module MfaLogin {
  import opened Store
  import C = MfaChallenges
  import R = MfaChallengeRuns
  import L = MfaMethods
  import D = MfaDevices
  import E = MfaEngine

  /** A password login that succeeded and was answered with a challenge. */
  datatype Login = Login(challenge: string, user: string, at: int)

  /** Tokens issued in exchange for a challenge. */
  datatype Grant = Grant(challenge: string, at: int)

  datatype Options = Options(enableMFA: bool, enableDeviceTrust: bool)

  datatype State = State(options: Options, mfa: E.State, logins: seq<Login>, grants: seq<Grant>, direct: seq<string>)

  /**
   `user` is who the password login and the token validation after it identified, if they did;
   `hit` is the trusted device found for the fingerprint, and `choice` the method selected.
   */
  datatype Op =
    | Wait(ms: nat)
    | LoginWithMFA(user: Option<string>, fingerprint: string, hit: Option<string>, id: string, choice: Option<string>)
    | CompleteMFALogin(id: string, right: bool, remember: Option<E.Remember>, tokenIssued: bool)
    | Manage(call: E.Op)

  datatype LoginResult =
    | Tokens(user: string, trusted: bool)
    | ChallengeSent(id: string, trusted: bool)
    | Failed

  function Init(options: Options, now: int, config: C.Config): State {
    State(options, E.Init(now, config), [], [], [])
  }

  /** An empty fingerprint counts as none; without the MFA service there is no lookup. */
  predicate LooksUp(o: Options, fingerprint: string) {
    o.enableMFA && o.enableDeviceTrust && fingerprint != ""
  }

  function Lookup(s: State, op: Op): E.State
    requires op.LoginWithMFA? && op.user.Some?
  {
    if LooksUp(s.options, op.fingerprint)
    then E.Apply(s.mfa, E.OnDevices(D.Check(op.user.value, op.fingerprint, op.hit))) else s.mfa
  }

  function ResultOf(s: State, op: Op): LoginResult
    requires op.LoginWithMFA?
  {
    if op.user.None? then Failed
    else
      var trusted := LooksUp(s.options, op.fingerprint) && op.hit.Some?;
      if !s.options.enableMFA then Tokens(op.user.value, trusted)
      else if op.choice.None? || !C.Accepts(s.mfa.challenges, op.user.value) then Failed
      else ChallengeSent(op.id, trusted)
  }

  /** A failure to create the challenge comes after the device was looked up. */
  function LoginEffect(s: State, op: Op): State
    requires op.LoginWithMFA?
  {
    if op.user.None? then s
    else
      var mfa := Lookup(s, op);
      match ResultOf(s, op)
      case Failed => s.(mfa := mfa)
      case Tokens(u, _) => s.(mfa := mfa, direct := s.direct + [u])
      case ChallengeSent(_, _) =>
        s.(mfa := E.Apply(mfa, E.Initiate(op.user.value, None, op.id, op.choice)),
           logins := s.logins + [Login(op.id, op.user.value, s.mfa.challenges.now)])
  }

  function CompleteEffect(s: State, op: Op): State
    requires op.CompleteMFALogin?
  {
    if !s.options.enableMFA then s
    else
      var m := s.(mfa := E.Apply(s.mfa, E.Verify(op.id, op.right, op.remember)));
      if E.VerdictOf(s.mfa, op.id, op.right).Verified? && op.tokenIssued
      then m.(grants := s.grants + [Grant(op.id, s.mfa.challenges.now)]) else m
  }

  function Apply(s: State, op: Op): State {
    match op
    case Wait(ms) => s.(mfa := E.Apply(s.mfa, E.Advance(ms)))
    case LoginWithMFA(_, _, _, _, _) => LoginEffect(s, op)
    case CompleteMFALogin(_, _, _, _) => CompleteEffect(s, op)
    case Manage(call) => s.(mfa := E.Apply(s.mfa, call))
  }

  /** Methods and devices are managed on the side; challenges are created by logins only. */
  ghost predicate Enabled(s: State, op: Op) {
    match op
    case Wait(_) => true
    case LoginWithMFA(user, fingerprint, hit, id, choice) =>
      user.Some? ==>
        && (LooksUp(s.options, fingerprint) ==> E.Enabled(s.mfa, E.OnDevices(D.Check(user.value, fingerprint, hit))))
        && (s.options.enableMFA ==> E.Enabled(s.mfa, E.Initiate(user.value, None, id, choice)))
    case CompleteMFALogin(id, right, remember, _) => E.Enabled(s.mfa, E.Verify(id, right, remember))
    case Manage(call) => (call.OnMethods? || call.OnDevices?) && E.Enabled(s.mfa, call)
  }

  ghost predicate Legal(s: State, ops: seq<Op>)
    decreases |ops|
  {
    |ops| == 0 || (Enabled(s, ops[0]) && Legal(Apply(s, ops[0]), ops[1..]))
  }

  ghost function Run(s: State, ops: seq<Op>): State
    decreases |ops|
  {
    if |ops| == 0 then s else Run(Apply(s, ops[0]), ops[1..])
  }

  // ---------------------------------------------------------------- the invariant

  /** The logins answered with a challenge are the challenges created, one for one. */
  ghost predicate LoginsMatch(logins: seq<Login>, created: seq<C.Created>) {
    && |logins| == |created|
    && forall i :: 0 <= i < |logins| ==> logins[i] == Login(created[i].id, created[i].user, created[i].at)
  }

  /** A grant answers an earlier login, within the lifetime of the challenge it was sent. */
  ghost predicate Answers(logins: seq<Login>, lifetime: nat, g: Grant) {
    exists l :: l in logins && l.challenge == g.challenge && l.at <= g.at <= l.at + lifetime
  }

  /** The challenge of a grant is spent, and that of a login was sent in time. */
  ghost predicate GrantOk(logins: seq<Login>, m: E.State, g: Grant) {
    if E.IsSetupId(g.challenge) then E.SetupSpent(m, E.KeyFor(g.challenge))
    else R.Done(m.challenges.attempts, g.challenge) && Answers(logins, C.Lifetime(m.challenges.config), g)
  }

  ghost predicate GrantsOk(s: State) {
    && (forall g :: g in s.grants ==> GrantOk(s.logins, s.mfa, g))
    && (forall i, j :: 0 <= i < j < |s.grants| ==> s.grants[i].challenge != s.grants[j].challenge)
  }

  ghost predicate Books(s: State) {
    && LoginsMatch(s.logins, s.mfa.challenges.created)
    && (forall i :: 0 <= i < |s.logins| ==> !E.IsSetupId(s.logins[i].challenge))
    && GrantsOk(s)
    && (s.options.enableMFA ==> s.direct == [])
  }

  // ---------------------------------------------------------------- preservation

  lemma AnswerStays(logins: seq<Login>, more: seq<Login>, lifetime: nat, g: Grant)
    requires Answers(logins, lifetime, g) && logins <= more
    ensures Answers(more, lifetime, g)
  {
    var l :| l in logins && l.challenge == g.challenge && l.at <= g.at <= l.at + lifetime;
    assert l in more;
  }

  /** One call of the engine leaves spent challenges spent. */
  lemma GrantStays(logins: seq<Login>, more: seq<Login>, m: E.State, call: E.Op, g: Grant)
    requires GrantOk(logins, m, g) && E.Enabled(m, call) && logins <= more
    ensures GrantOk(more, E.Apply(m, call), g)
  {
    if E.IsSetupId(g.challenge) {
      E.SpentStays(m, call, E.KeyFor(g.challenge));
    } else {
      R.DoneStays(m.challenges.attempts, E.Apply(m, call).challenges.attempts, g.challenge);
      AnswerStays(logins, more, C.Lifetime(m.challenges.config), g);
    }
  }

  lemma CallIsBooked(s: State, call: E.Op)
    requires Books(s) && E.Enabled(s.mfa, call) && !call.Initiate?
    ensures Books(s.(mfa := E.Apply(s.mfa, call)))
  {
    var r := s.(mfa := E.Apply(s.mfa, call));
    forall g | g in r.grants
      ensures GrantOk(r.logins, r.mfa, g)
    {
      GrantStays(s.logins, s.logins, s.mfa, call, g);
    }
  }

  /** Grants are told apart by their challenges. */
  lemma GrantsGrow(s: State, g: Grant)
    requires GrantsOk(s) && GrantOk(s.logins, s.mfa, g)
    requires forall h :: h in s.grants ==> h.challenge != g.challenge
    ensures GrantsOk(s.(grants := s.grants + [g]))
  {
    var next := s.grants + [g];
    forall i, j | 0 <= i < j < |next|
      ensures next[i].challenge != next[j].challenge
    {
      assert next[i] == s.grants[i] && s.grants[i] in s.grants;
    }
  }

  /** A challenge sent is a login booked. */
  lemma SentIsBooked(s: State, user: string, id: string, choice: Option<string>)
    requires Books(s) && s.options.enableMFA && choice.Some? && C.Accepts(s.mfa.challenges, user)
    requires E.Enabled(s.mfa, E.Initiate(user, None, id, choice))
    ensures Books(s.(mfa := E.Apply(s.mfa, E.Initiate(user, None, id, choice)),
                     logins := s.logins + [Login(id, user, s.mfa.challenges.now)]))
  {
    var call := E.Initiate(user, None, id, choice);
    var r := s.(mfa := E.Apply(s.mfa, call), logins := s.logins + [Login(id, user, s.mfa.challenges.now)]);
    forall g | g in r.grants
      ensures GrantOk(r.logins, r.mfa, g)
    {
      GrantStays(s.logins, r.logins, s.mfa, call, g);
    }
  }

  /** Looking a device up does not touch methods, so the choice of one is not affected. */
  lemma LookupLeavesChoice(s: State, op: Op)
    requires op.LoginWithMFA? && op.user.Some? && Enabled(s, op) && s.options.enableMFA
    ensures E.Enabled(Lookup(s, op), E.Initiate(op.user.value, None, op.id, op.choice))
    ensures Lookup(s, op).challenges == s.mfa.challenges
  {
  }

  lemma LookupIsBooked(s: State, op: Op)
    requires Books(s) && op.LoginWithMFA? && op.user.Some? && Enabled(s, op)
    ensures Books(s.(mfa := Lookup(s, op)))
  {
    if LooksUp(s.options, op.fingerprint) {
      CallIsBooked(s, E.OnDevices(D.Check(op.user.value, op.fingerprint, op.hit)));
    }
  }

  lemma LoginIsBooked(s: State, op: Op)
    requires Books(s) && op.LoginWithMFA? && Enabled(s, op)
    ensures Books(Apply(s, op))
  {
    if op.user.Some? {
      LookupIsBooked(s, op);
      if ResultOf(s, op).ChallengeSent? {
        LookupLeavesChoice(s, op);
        SentIsBooked(s.(mfa := Lookup(s, op)), op.user.value, op.id, op.choice);
      }
    }
  }

  lemma LoginOf(logins: seq<Login>, created: seq<C.Created>, c: C.Created)
    requires LoginsMatch(logins, created) && c in created
    ensures Login(c.id, c.user, c.at) in logins
  {
    var i :| 0 <= i < |created| && created[i] == c;
    assert logins[i] == Login(c.id, c.user, c.at);
  }

  /** A challenge sent by a login earns tokens in time when its first success is recorded. */
  lemma SuccessIsOk(logins: seq<Login>, c: C.State, m: E.State, made: C.Created)
    requires LoginsMatch(logins, c.created) && made in c.created && m.challenges.config == c.config
    requires made.at <= c.now <= made.at + C.Lifetime(c.config) && !E.IsSetupId(made.id)
    requires m.challenges.attempts == c.attempts + [C.Attempt(made.id, c.now, C.Verified)]
    ensures GrantOk(logins, m, Grant(made.id, c.now))
  {
    LoginOf(logins, c.created, made);
    R.Appended(c.attempts, C.Attempt(made.id, c.now, C.Verified), made.id);
  }

  lemma UndoneIsUngranted(s: State, id: string)
    requires GrantsOk(s) && !E.IsSetupId(id) && !R.Done(s.mfa.challenges.attempts, id)
    ensures forall g :: g in s.grants ==> g.challenge != id
  {
    forall g | g in s.grants
      ensures g.challenge != id
    {
      assert GrantOk(s.logins, s.mfa, g);
    }
  }

  lemma MadeFor(c: C.State, id: string, check: C.Check) returns (made: C.Created)
    requires R.Inv(c) && C.VerdictOf(c, id, check).Verified?
    ensures made in c.created && made.id == id && made.at <= c.now <= made.at + C.Lifetime(c.config)
    ensures !R.Done(c.attempts, id)
  {
    R.VerifiedIsNew(c, id, check);
    made :| made in c.created && made.id == id && made.at <= c.now <= made.at + C.Lifetime(c.config);
  }

  /** A login's challenge that verifies was sent by it, in time, and has earned no tokens before. */
  lemma LoginEarns(s: State, id: string, right: bool, remember: Option<E.Remember>)
    requires R.Inv(s.mfa.challenges) && Books(s) && !E.IsSetupId(id) && E.VerdictOf(s.mfa, id, right).Verified?
    ensures GrantOk(s.logins, E.Apply(s.mfa, E.Verify(id, right, remember)), Grant(id, s.mfa.challenges.now))
    ensures forall g :: g in s.grants ==> g.challenge != id
  {
    var made := MadeFor(s.mfa.challenges, id, E.CheckOf(s.mfa, id, right));
    MadeEarns(s, made, right, remember);
    UndoneIsUngranted(s, id);
  }

  lemma MadeEarns(s: State, made: C.Created, right: bool, remember: Option<E.Remember>)
    requires LoginsMatch(s.logins, s.mfa.challenges.created) && made in s.mfa.challenges.created
    requires made.at <= s.mfa.challenges.now <= made.at + C.Lifetime(s.mfa.challenges.config)
    requires !E.IsSetupId(made.id) && E.VerdictOf(s.mfa, made.id, right).Verified?
    ensures GrantOk(s.logins, E.Apply(s.mfa, E.Verify(made.id, right, remember)), Grant(made.id, s.mfa.challenges.now))
  {
    SuccessIsOk(s.logins, s.mfa.challenges, E.Apply(s.mfa, E.Verify(made.id, right, remember)), made);
  }

  /** A setup challenge that verifies has earned no tokens before, and will not again. */
  lemma SetupEarns(s: State, id: string, right: bool, remember: Option<E.Remember>)
    requires E.SetupsOk(s.mfa) && GrantsOk(s) && E.IsSetupId(id) && E.VerdictOf(s.mfa, id, right).Verified?
    ensures GrantOk(s.logins, E.Apply(s.mfa, E.Verify(id, right, remember)), Grant(id, s.mfa.challenges.now))
    ensures forall g :: g in s.grants ==> g.challenge != id
  {
    E.SuccessSpends(s.mfa, id, right, remember);
    forall g | g in s.grants
      ensures g.challenge != id
    {
      assert GrantOk(s.logins, s.mfa, g);
    }
  }

  /** Whatever challenge verifies has earned no tokens before. */
  lemma VerifiedIsNew(s: State, id: string, right: bool, remember: Option<E.Remember>)
    requires R.Inv(s.mfa.challenges) && E.SetupsOk(s.mfa) && Books(s) && E.VerdictOf(s.mfa, id, right).Verified?
    ensures GrantOk(s.logins, E.Apply(s.mfa, E.Verify(id, right, remember)), Grant(id, s.mfa.challenges.now))
    ensures forall g :: g in s.grants ==> g.challenge != id
  {
    if E.IsSetupId(id) {
      SetupEarns(s, id, right, remember);
    } else {
      LoginEarns(s, id, right, remember);
    }
  }

  lemma CompletionIsBooked(s: State, op: Op)
    requires R.Inv(s.mfa.challenges) && E.SetupsOk(s.mfa) && Books(s) && op.CompleteMFALogin? && Enabled(s, op)
    ensures Books(Apply(s, op))
  {
    if s.options.enableMFA {
      CallIsBooked(s, E.Verify(op.id, op.right, op.remember));
      if E.VerdictOf(s.mfa, op.id, op.right).Verified? && op.tokenIssued {
        VerifiedIsNew(s, op.id, op.right, op.remember);
        GrantsGrow(s.(mfa := E.Apply(s.mfa, E.Verify(op.id, op.right, op.remember))), Grant(op.id, s.mfa.challenges.now));
      }
    }
  }

  /** One call of the engine keeps what holds of its challenges, of either kind. */
  lemma EngineKeeps(s: E.State, op: E.Op)
    requires R.Inv(s.challenges) && E.SetupsOk(s) && E.Enabled(s, op)
    ensures R.Inv(E.Apply(s, op).challenges) && E.SetupsOk(E.Apply(s, op))
  {
    E.StepIsEnabled(s, op);
    if E.OnChallenge(s, op).Some? {
      R.StepKeeps(s.challenges, E.OnChallenge(s, op).value);
    }
    forall m | m in E.SetupsAfter(s, op) {
      E.StepSetsUp(s, op, m);
    }
  }

  lemma LoginKeepsChallenges(s: State, op: Op)
    requires R.Inv(s.mfa.challenges) && E.SetupsOk(s.mfa) && Enabled(s, op) && op.LoginWithMFA?
    ensures R.Inv(Apply(s, op).mfa.challenges) && E.SetupsOk(Apply(s, op).mfa)
  {
    if op.user.Some? {
      if LooksUp(s.options, op.fingerprint) {
        EngineKeeps(s.mfa, E.OnDevices(D.Check(op.user.value, op.fingerprint, op.hit)));
      }
      if ResultOf(s, op).ChallengeSent? {
        LookupLeavesChoice(s, op);
        EngineKeeps(Lookup(s, op), E.Initiate(op.user.value, None, op.id, op.choice));
      }
    }
  }

  lemma StepKeeps(s: State, op: Op)
    requires R.Inv(s.mfa.challenges) && E.SetupsOk(s.mfa) && Books(s) && Enabled(s, op)
    ensures R.Inv(Apply(s, op).mfa.challenges) && E.SetupsOk(Apply(s, op).mfa) && Books(Apply(s, op))
  {
    match op
    case Wait(ms) =>
      EngineKeeps(s.mfa, E.Advance(ms));
      CallIsBooked(s, E.Advance(ms));
    case LoginWithMFA(_, _, _, _, _) =>
      LoginKeepsChallenges(s, op);
      LoginIsBooked(s, op);
    case CompleteMFALogin(id, right, remember, _) =>
      EngineKeeps(s.mfa, E.Verify(id, right, remember));
      CompletionIsBooked(s, op);
    case Manage(call) =>
      EngineKeeps(s.mfa, call);
      CallIsBooked(s, call);
  }

  lemma SettingsStay(s: State, op: Op)
    ensures Apply(s, op).options == s.options && Apply(s, op).mfa.challenges.config == s.mfa.challenges.config
  {
  }

  lemma {:induction false} RunKeeps(s: State, ops: seq<Op>)
    requires R.Inv(s.mfa.challenges) && E.SetupsOk(s.mfa) && Books(s) && Legal(s, ops)
    ensures R.Inv(Run(s, ops).mfa.challenges) && Books(Run(s, ops))
    ensures Run(s, ops).options == s.options && Run(s, ops).mfa.challenges.config == s.mfa.challenges.config
    decreases |ops|
  {
    if |ops| > 0 {
      StepKeeps(s, ops[0]);
      SettingsStay(s, ops[0]);
      RunKeeps(Apply(s, ops[0]), ops[1..]);
    }
  }

  // ---------------------------------------------------------------- completions under a setup's id

  /** A completion that names a live setup challenge with its right code. */
  predicate CompletesSetup(s: State, op: Op) {
    && op.CompleteMFALogin? && s.options.enableMFA && op.tokenIssued
    && E.IsSetupId(op.id) && E.VerdictOf(s.mfa, op.id, op.right).Verified?
  }

  ghost predicate SomeCompletesSetup(s: State, ops: seq<Op>)
    decreases |ops|
  {
    |ops| > 0 && (CompletesSetup(s, ops[0]) || SomeCompletesSetup(Apply(s, ops[0]), ops[1..]))
  }

  ghost predicate SetupGranted(s: State) {
    exists g :: g in s.grants && E.IsSetupId(g.challenge)
  }

  lemma StepGrantsSetup(s: State, op: Op)
    ensures SetupGranted(Apply(s, op)) <==> SetupGranted(s) || CompletesSetup(s, op)
  {
    var r := Apply(s, op);
    if CompletesSetup(s, op) {
      assert r.grants[|s.grants|] == Grant(op.id, s.mfa.challenges.now);
    }
    if g :| g in s.grants && E.IsSetupId(g.challenge) {
      assert g in r.grants;
    }
  }

  lemma {:induction false} RunGrantsSetup(s: State, ops: seq<Op>)
    ensures SetupGranted(Run(s, ops)) <==> SetupGranted(s) || SomeCompletesSetup(s, ops)
    decreases |ops|
  {
    if |ops| > 0 {
      StepGrantsSetup(s, ops[0]);
      RunGrantsSetup(Apply(s, ops[0]), ops[1..]);
    }
  }

  /** A caller can rule it out by refusing the ids of setups. */
  lemma {:induction false} OtherIdsCompleteNoSetup(s: State, ops: seq<Op>)
    requires forall op :: op in ops && op.CompleteMFALogin? ==> !E.IsSetupId(op.id)
    ensures !SomeCompletesSetup(s, ops)
    decreases |ops|
  {
    if |ops| > 0 {
      assert ops[0] in ops && forall o :: o in ops[1..] ==> o in ops;
      OtherIdsCompleteNoSetup(Apply(s, ops[0]), ops[1..]);
    }
  }

  lemma SetupAnswersNothing(s: State, g: Grant)
    requires Books(s) && g in s.grants
    ensures Answers(s.logins, C.Lifetime(s.mfa.challenges.config), g) <==> !E.IsSetupId(g.challenge)
  {
    assert GrantOk(s.logins, s.mfa, g);
  }

  // ---------------------------------------------------------------- main results

  /**
   With MFA on, and whatever is done with methods and devices meanwhile, login hands out no tokens
   itself, trusted device or not, and no challenge earns tokens twice.  The tokens handed out on
   completion under an id that is not a setup's answer a password login within the lifetime of the
   challenge it was sent; and all tokens do exactly if no completion names a live setup challenge
   with its right code.
   */
  lemma TokensAnswerLogins(options: Options, now: int, config: C.Config, ops: seq<Op>)
    requires options.enableMFA && Legal(Init(options, now, config), ops)
    ensures
      var s := Run(Init(options, now, config), ops);
      && s.direct == []
      && (forall i, j :: 0 <= i < j < |s.grants| ==> s.grants[i].challenge != s.grants[j].challenge)
      && (forall i, j :: 0 <= i < j < |s.logins| ==> s.logins[i].challenge != s.logins[j].challenge)
      && (forall g :: g in s.grants ==> (Answers(s.logins, config.codeExpiry * 1000, g) <==> !E.IsSetupId(g.challenge)))
      && ((forall g :: g in s.grants ==> Answers(s.logins, config.codeExpiry * 1000, g))
            <==> !SomeCompletesSetup(Init(options, now, config), ops))
  {
    R.InitInv(now, config);
    RunKeeps(Init(options, now, config), ops);
    RunGrantsSetup(Init(options, now, config), ops);
    var s := Run(Init(options, now, config), ops);
    forall g | g in s.grants
      ensures Answers(s.logins, config.codeExpiry * 1000, g) <==> !E.IsSetupId(g.challenge)
    {
      SetupAnswersNothing(s, g);
    }
  }

  lemma SetupIdsAreSetups(m: string)
    ensures E.IsSetupId(E.SetupId(m)) && E.KeyFor(E.SetupId(m)) == m
  {
  }

  /**
   A run in which they do not: an e-mail method is set up, its challenge is completed under the
   setup's id with the code sent out, and tokens are handed out though nobody has logged in.
   */
  lemma SetupEarnsTokens(options: Options, now: int, config: C.Config, user: string, m: string)
    requires options.enableMFA
    ensures
      var ops := [Manage(E.OnMethods(L.Setup(user, m, L.Email))), CompleteMFALogin(E.SetupId(m), true, None, true)];
      && Legal(Init(options, now, config), ops)
      && var s := Run(Init(options, now, config), ops);
      && s.grants == [Grant(E.SetupId(m), now)] && s.logins == []
      && m in s.mfa.methods.methods && !s.mfa.methods.methods[m].value.isVerified
  {
    SetupIdsAreSetups(m);
    var s := Init(options, now, config);
    var setup := Manage(E.OnMethods(L.Setup(user, m, L.Email)));
    var complete := CompleteMFALogin(E.SetupId(m), true, None, true);
    var first := Apply(s, setup);
    assert first.mfa.setups[m].value == E.NewSetup(s.mfa, m) && m in first.mfa.methods.methods;
    assert E.VerdictOf(first.mfa, E.SetupId(m), true).Verified?;
    assert [setup, complete][1..] == [complete];
    assert Run(first, [complete]) == Apply(first, complete);
  }

  /** A login reports a trusted device exactly for a grant in force, and only where it is asked to look. */
  lemma TrustedIffGranted(s: State, op: Op)
    requires D.Inv(s.mfa.devices) && Enabled(s, op) && op.LoginWithMFA? && !ResultOf(s, op).Failed?
    ensures ResultOf(s, op).trusted
      <==> LooksUp(s.options, op.fingerprint) && D.Granted(s.mfa.devices, op.user.value, op.fingerprint)
  {
    D.MatchIffGranted(s.mfa.devices, op.user.value, op.fingerprint);
  }

  class ExtendedAuthService {
    const options: Options
    const mfaService: E.MFAServiceImpl
    ghost var logins: seq<Login>
    ghost var grants: seq<Grant>
    ghost var direct: seq<string>

    ghost function View(): State
      reads this, mfaService, mfaService.challengeService, mfaService.methodService, mfaService.deviceService
    {
      State(options, mfaService.View(), logins, grants, direct)
    }

    constructor (options: Options, now: int, config: C.Config)
      ensures View() == Init(options, now, config) && mfaService.Valid()
      ensures fresh(mfaService) && fresh(mfaService.challengeService)
      ensures fresh(mfaService.methodService) && fresh(mfaService.deviceService)
    {
      this.options := options;
      this.mfaService := new E.MFAServiceImpl(now, config);
      logins, grants, direct := [], [], [];
    }

    method LookUpDevice(user: string, fingerprint: string) returns (trusted: bool, ghost hit: Option<string>)
      requires mfaService.Valid()
      modifies mfaService.deviceService
      ensures mfaService.Valid() && (trusted <==> LooksUp(options, fingerprint) && hit.Some?)
      ensures LooksUp(options, fingerprint) ==>
        E.Enabled(old(mfaService.View()), E.OnDevices(D.Check(user, fingerprint, hit)))
      ensures mfaService.View() == if LooksUp(options, fingerprint)
        then E.Apply(old(mfaService.View()), E.OnDevices(D.Check(user, fingerprint, hit))) else old(mfaService.View())
    {
      if !options.enableMFA || !options.enableDeviceTrust || fingerprint == "" {
        return false, None;
      }
      trusted, hit := mfaService.IsDeviceTrusted(user, fingerprint);
    }

    /** `hit` and `choice` tell which device was found and which method was selected. */
    method LoginWithMFA(user: Option<string>, fingerprint: string, id: string)
      returns (r: LoginResult, ghost hit: Option<string>, ghost choice: Option<string>)
      requires mfaService.Valid() && !E.IsSetupId(id)
      requires forall c :: c in mfaService.challengeService.created ==> c.id != id
      modifies this, mfaService, mfaService.challengeService, mfaService.methodService, mfaService.deviceService
      ensures Enabled(old(View()), Op.LoginWithMFA(user, fingerprint, hit, id, choice))
      ensures View() == Apply(old(View()), Op.LoginWithMFA(user, fingerprint, hit, id, choice)) && mfaService.Valid()
      ensures r == ResultOf(old(View()), Op.LoginWithMFA(user, fingerprint, hit, id, choice))
      ensures match r
        case Failed => logins == old(logins) && direct == old(direct)
        case Tokens(u, _) => !options.enableMFA && user == Some(u) && direct == old(direct) + [u]
        case ChallengeSent(c, _) =>
          var now := old(mfaService.challengeService.now);
          options.enableMFA && c == id && logins == old(logins) + [Login(c, user.value, now)]
    {
      hit, choice := None, None;
      if user.None? {
        return Failed, None, None;
      }
      var now := mfaService.challengeService.now;
      var trusted;
      trusted, hit := LookUpDevice(user.value, fingerprint);
      if !options.enableMFA {
        direct := direct + [user.value];
        return Tokens(user.value, trusted), hit, None;
      }
      var challenge;
      challenge, choice := mfaService.InitiateMFAChallenge(user.value, None, id);
      if challenge.None? {
        return Failed, hit, choice;
      }
      logins := logins + [Login(id, user.value, now)];
      return ChallengeSent(id, trusted), hit, choice;
    }

    method VerifyChallenge(id: string, right: bool, remember: Option<E.Remember>) returns (v: C.Verdict)
      requires mfaService.Valid() && E.Enabled(mfaService.View(), E.Verify(id, right, remember))
      modifies mfaService, mfaService.challengeService, mfaService.methodService, mfaService.deviceService
      ensures mfaService.Valid() && v == E.VerdictOf(old(View()).mfa, id, right)
      ensures View() == old(View()).(mfa := E.Apply(old(View()).mfa, E.Verify(id, right, remember)))
    {
      v := mfaService.VerifyMFAChallenge(id, right, remember);
    }

    method CompleteMFALogin(id: string, right: bool, remember: Option<E.Remember>, tokenIssued: bool)
      returns (tokens: bool)
      requires mfaService.Valid() && E.Enabled(mfaService.View(), E.Verify(id, right, remember))
      modifies this, mfaService, mfaService.challengeService, mfaService.methodService, mfaService.deviceService
      ensures View() == Apply(old(View()), Op.CompleteMFALogin(id, right, remember, tokenIssued)) && mfaService.Valid()
      ensures tokens <==> options.enableMFA && tokenIssued && E.VerdictOf(old(View()).mfa, id, right).Verified?
      ensures grants == old(grants) + if tokens then [Grant(id, old(mfaService.challengeService.now))] else []
    {
      if !options.enableMFA {
        return false;
      }
      var now := mfaService.challengeService.now;
      var verdict := VerifyChallenge(id, right, remember);
      if !verdict.Verified? || !tokenIssued {
        return false;
      }
      grants := grants + [Grant(id, now)];
      return true;
    }
  }
}
