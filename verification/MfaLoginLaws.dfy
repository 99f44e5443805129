/** What a login with MFA is answered, and what completing it earns, told by settings, history and clock. */
module MfaLoginLaws {
  import opened Store
  import opened MfaLogin
  import C = MfaChallenges
  import R = MfaChallengeRuns
  import L = MfaMethods
  import D = MfaDevices
  import E = MfaEngine

  // ---------------------------------------------------------------- every run is sound

  ghost predicate PartsOk(m: E.State) {
    R.Inv(m.challenges) && E.SetupsOk(m) && L.Inv(m.methods) && D.Inv(m.devices)
  }

  ghost predicate Sound(s: State) { PartsOk(s.mfa) && Books(s) }

  lemma PartsKeep(m: E.State, call: E.Op)
    requires PartsOk(m) && E.Enabled(m, call)
    ensures PartsOk(E.Apply(m, call))
  {
    EngineKeeps(m, call);
    E.StepIsEnabled(m, call);
    if E.OnMethod(m, call).Some? {
      L.StepKeeps(m.methods, E.OnMethod(m, call).value);
    }
    if E.OnDevice(m, call).Some? {
      D.StepKeeps(m.devices, E.OnDevice(m, call).value);
    }
  }

  lemma LoginKeepsParts(s: State, op: Op)
    requires PartsOk(s.mfa) && op.LoginWithMFA? && Enabled(s, op)
    ensures PartsOk(Apply(s, op).mfa)
  {
    if op.user.Some? {
      if LooksUp(s.options, op.fingerprint) {
        PartsKeep(s.mfa, E.OnDevices(D.Check(op.user.value, op.fingerprint, op.hit)));
      }
      if ResultOf(s, op).ChallengeSent? {
        LookupLeavesChoice(s, op);
        PartsKeep(Lookup(s, op), E.Initiate(op.user.value, None, op.id, op.choice));
      }
    }
  }

  lemma StepSound(s: State, op: Op)
    requires Sound(s) && Enabled(s, op)
    ensures Sound(Apply(s, op))
  {
    StepKeeps(s, op);
    match op
    case Wait(ms) => PartsKeep(s.mfa, E.Advance(ms));
    case LoginWithMFA(_, _, _, _, _) => LoginKeepsParts(s, op);
    case CompleteMFALogin(id, right, remember, _) => PartsKeep(s.mfa, E.Verify(id, right, remember));
    case Manage(call) => PartsKeep(s.mfa, call);
  }

  lemma {:induction false} RunSound(s: State, ops: seq<Op>)
    requires Sound(s) && Legal(s, ops)
    ensures Sound(Run(s, ops))
    ensures Run(s, ops).options == s.options && Run(s, ops).mfa.challenges.config == s.mfa.challenges.config
    decreases |ops|
  {
    if |ops| > 0 {
      StepSound(s, ops[0]);
      SettingsStay(s, ops[0]);
      RunSound(Apply(s, ops[0]), ops[1..]);
    }
  }

  lemma Reached(options: Options, now: int, config: C.Config, ops: seq<Op>) returns (s: State)
    requires Legal(Init(options, now, config), ops)
    ensures s == Run(Init(options, now, config), ops) && Sound(s)
    ensures s.options == options && s.mfa.challenges.config == config
  {
    R.InitInv(now, config);
    RunSound(Init(options, now, config), ops);
    s := Run(Init(options, now, config), ops);
  }

  // ---------------------------------------------------------------- what a login is answered

  /** The method a challenge is for is the first listed one, so there is one unless the list is empty. */
  lemma ChoiceIsListed(m: L.State, user: string, choice: Option<string>)
    requires L.Inv(m) && L.Chosen(m, user, None, choice)
    ensures choice.Some? <==> L.Listed(m, user) != {}
    ensures choice.Some? ==> choice.value in L.Listed(m, user)
  {
    assert L.ListOk(m, user);
    if k :| k in L.Listed(m, user) {
      assert m.methods[k].value.isEnabled;
      assert choice.None? ==> !L.Candidate(m, user, None, k);
    }
  }

  /** A login stores its challenge, which is open for the codes' lifetime. */
  lemma SentIsStored(s: State, op: Op)
    requires R.Inv(s.mfa.challenges) && op.LoginWithMFA? && Enabled(s, op) && ResultOf(s, op).ChallengeSent?
    ensures
      var c, r := s.mfa.challenges, Apply(s, op).mfa.challenges;
      var expiry := c.now + c.config.codeExpiry * 1000;
      && op.choice.Some? && op.id in r.challenges
      && r.challenges[op.id].value
           == C.Challenge(op.id, op.user.value, op.choice.value, c.now, expiry, c.config.maxAttempts)
      && r.challenges[op.id].deadline == Some(expiry)
      && r.created == c.created + [C.Created(op.id, op.user.value, op.choice.value, c.now)]
      && r.now == c.now && r.attempts == c.attempts
  {
    LookupLeavesChoice(s, op);
    R.CreationIsGranted(s.mfa.challenges, op.user.value, op.id, op.choice);
  }

  lemma LoginIsAnswered(s: State, op: Op)
    requires Sound(s) && op.LoginWithMFA? && Enabled(s, op)
    ensures
      if op.user.None? then ResultOf(s, op) == Failed
      else if !s.options.enableMFA then ResultOf(s, op) == Tokens(op.user.value, false)
      else if L.Listed(s.mfa.methods, op.user.value) == {} || !R.Spare(s.mfa.challenges, op.user.value)
      then ResultOf(s, op) == Failed
      else
        ResultOf(s, op) == ChallengeSent(op.id,
          s.options.enableDeviceTrust && op.fingerprint != "" && D.Granted(s.mfa.devices, op.user.value, op.fingerprint))
  {
    if op.user.Some? && s.options.enableMFA {
      ChoiceIsListed(s.mfa.methods, op.user.value, op.choice);
      R.CreationIsGranted(s.mfa.challenges, op.user.value, op.id, op.choice);
      D.MatchIffGranted(s.mfa.devices, op.user.value, op.fingerprint);
    }
  }

  /**
   In every run a login fails exactly without a user, or, with MFA on, without a method or within a
   burst of `rateMax` challenges.  With MFA off it returns the user's tokens.  Otherwise it is
   answered with a challenge under the answer's id, for this user and the primary of the user's
   methods, and tells whether the device is a trusted one.
   */
  lemma LoginAnswers(options: Options, now: int, config: C.Config, ops: seq<Op>, op: Op)
    requires Legal(Init(options, now, config), ops)
    requires op.LoginWithMFA? && Enabled(Run(Init(options, now, config), ops), op)
    ensures
      var s := Run(Init(options, now, config), ops);
      var r := ResultOf(s, op);
      && (r.Failed? <==>
            op.user.None?
            || (options.enableMFA && L.Listed(s.mfa.methods, op.user.value) == {})
            || (options.enableMFA && !R.Spare(s.mfa.challenges, op.user.value)))
      && (r.Tokens? <==> op.user.Some? && !options.enableMFA)
      && (r.Tokens? ==> r.user == op.user.value && !r.trusted)
      && (r.ChallengeSent? ==>
            && r.id in Apply(s, op).mfa.challenges.challenges
            && (r.trusted <==>
                  && options.enableDeviceTrust && op.fingerprint != ""
                  && D.Granted(s.mfa.devices, op.user.value, op.fingerprint))
            && var c := Apply(s, op).mfa.challenges.challenges[r.id].value;
            && c.id == r.id && c.user == op.user.value && c.attemptsRemaining == config.maxAttempts
            && c.expiresAt == s.mfa.challenges.now + config.codeExpiry * 1000
            && c.methodId in L.Listed(s.mfa.methods, op.user.value)
            && (L.HasPrimary(s.mfa.methods, op.user.value) ==> s.mfa.methods.methods[c.methodId].value.isPrimary))
  {
    var s := Reached(options, now, config, ops);
    LoginIsAnswered(s, op);
    if ResultOf(s, op).ChallengeSent? {
      SentIsStored(s, op);
      ChoiceIsListed(s.mfa.methods, op.user.value, op.choice);
      if L.HasPrimary(s.mfa.methods, op.user.value) {
        L.ChosenIsPrimary(s.mfa.methods, op.user.value, op.choice);
      }
    }
  }

  // ---------------------------------------------------------------- what completing it earns

  /** The code is right, the challenge open, its method still there, and the token endpoint answers. */
  ghost predicate Earns(s: State, c: C.Created, op: Op)
    requires op.CompleteMFALogin?
  {
    && s.options.enableMFA && op.right && op.tokenIssued && c.methodId in s.mfa.methods.methods
    && R.InTime(s.mfa.challenges, c) && !R.Done(s.mfa.challenges.attempts, c.id)
    && R.Wrongs(s.mfa.challenges.attempts, c.id) < s.mfa.challenges.config.maxAttempts
  }

  lemma StoredWasMade(s: C.State, id: string)
    requires R.Inv(s) && forall c :: c in s.created ==> c.id != id
    ensures id !in s.challenges
  {
    assert id in s.challenges ==> R.ChallengeOk(s, id);
  }

  /** The challenge of a setup that has not been completed, and whose method is still there. */
  ghost predicate SetupOpen(s: State, m: string) {
    && m in s.mfa.setups && m in s.mfa.methods.methods
    && s.mfa.challenges.now <= s.mfa.setups[m].value.expiresAt && s.mfa.setups[m].value.attemptsRemaining > 0
  }

  /** The id leads to the challenge created under it, whose verdict is right exactly if it earns. */
  lemma EarnsWhenRight(s: State, c: C.Created, op: Op)
    requires Sound(s) && op.CompleteMFALogin? && c in s.mfa.challenges.created && c.id == op.id
    ensures Earns(s, c, op) <==> s.options.enableMFA && op.tokenIssued && E.VerdictOf(s.mfa, op.id, op.right).Verified?
    ensures Earns(s, c, op) ==>
      && E.Found(s.mfa, op.id)
      && E.RecordOf(s.mfa, op.id).methodId == c.methodId && E.RecordOf(s.mfa, op.id).user == c.user
  {
    var i :| 0 <= i < |s.mfa.challenges.created| && s.mfa.challenges.created[i] == c;
    assert !E.IsSetupId(s.logins[i].challenge);
    R.CodeIsJudged(s.mfa.challenges, c, E.CheckOf(s.mfa, c.id, op.right));
    R.RecordTells(s.mfa.challenges, c);
  }

  lemma CompletionOf(s: State, c: C.Created, op: Op)
    requires Sound(s) && op.CompleteMFALogin? && c in s.mfa.challenges.created && c.id == op.id
    ensures Apply(s, op).grants
      == if Earns(s, c, op) then s.grants + [Grant(op.id, s.mfa.challenges.now)] else s.grants
  {
    EarnsWhenRight(s, c, op);
  }

  lemma CompletionOfSetup(s: State, op: Op)
    requires Sound(s) && op.CompleteMFALogin? && E.IsSetupId(op.id)
    ensures Apply(s, op).grants ==
      if s.options.enableMFA && op.right && op.tokenIssued && SetupOpen(s, op.id[6..])
      then s.grants + [Grant(op.id, s.mfa.challenges.now)] else s.grants
  {
    if op.id[6..] in s.mfa.setups {
      assert E.SetupOk(s.mfa.setups[op.id[6..]].value, op.id[6..], s.mfa.methods);
    }
  }

  /**
   In every run completing a login hands out tokens exactly if the id is that of a challenge sent and
   its history, its method and the clock call for it, or that of an open setup; and never otherwise.
   */
  lemma CompletionAnswers(options: Options, now: int, config: C.Config, ops: seq<Op>, op: Op)
    requires Legal(Init(options, now, config), ops) && op.CompleteMFALogin?
    ensures
      var s := Run(Init(options, now, config), ops);
      var earned :=
        if "setup:" <= op.id then options.enableMFA && op.right && op.tokenIssued && SetupOpen(s, op.id[6..])
        else exists c :: c in s.mfa.challenges.created && c.id == op.id && Earns(s, c, op);
      Apply(s, op).grants == if earned then s.grants + [Grant(op.id, s.mfa.challenges.now)] else s.grants
  {
    var s := Reached(options, now, config, ops);
    assert E.IsSetupId(op.id) <==> "setup:" <= op.id;
    if E.IsSetupId(op.id) {
      CompletionOfSetup(s, op);
    } else if c :| c in s.mfa.challenges.created && c.id == op.id {
      CompletionOf(s, c, op);
      assert forall d :: d in s.mfa.challenges.created && d.id == op.id ==> d == c;
    } else {
      StoredWasMade(s.mfa.challenges, op.id);
    }
  }

  /** No code has counted on the challenge so far. */
  ghost predicate Untried(s: C.State, c: C.Created) {
    c in s.created && R.Wrongs(s.attempts, c.id) == 0 && !R.Done(s.attempts, c.id) && !R.Renewed(s.attempts, c)
  }

  lemma ElsewhereUntried(s: C.State, id: string, check: C.Check, c: C.Created)
    requires Untried(s, c) && id != c.id
    ensures Untried(C.VerifyEffect(s, id, check), c)
  {
    var a := C.Attempt(id, s.now, C.VerdictOf(s, id, check));
    R.Appended(s.attempts, a, c.id);
    R.RenewedGrows(s.attempts, a, c);
  }

  lemma StepUntried(s: State, op: Op, c: C.Created)
    requires Untried(s.mfa.challenges, c) && Enabled(s, op) && !(op.CompleteMFALogin? && op.id == c.id)
    ensures Untried(Apply(s, op).mfa.challenges, c)
  {
    if op.CompleteMFALogin? && s.options.enableMFA && !E.IsSetupId(op.id) {
      ElsewhereUntried(s.mfa.challenges, op.id, E.CheckOf(s.mfa, op.id, op.right), c);
    }
  }

  lemma {:induction false} RunUntried(s: State, ops: seq<Op>, c: C.Created)
    requires Untried(s.mfa.challenges, c) && Legal(s, ops)
    requires forall op :: op in ops && op.CompleteMFALogin? ==> op.id != c.id
    ensures Untried(Run(s, ops).mfa.challenges, c)
    decreases |ops|
  {
    if |ops| > 0 {
      assert ops[0] in ops && forall o :: o in ops[1..] ==> o in ops;
      StepUntried(s, ops[0], c);
      RunUntried(Apply(s, ops[0]), ops[1..], c);
    }
  }

  lemma SentIsUntried(s: State, op: Op)
    requires Sound(s) && op.LoginWithMFA? && Enabled(s, op) && ResultOf(s, op).ChallengeSent?
    ensures op.choice.Some?
    ensures Untried(Apply(s, op).mfa.challenges,
                    C.Created(op.id, op.user.value, op.choice.value, s.mfa.challenges.now))
  {
    SentIsStored(s, op);
    var c := C.Created(op.id, op.user.value, op.choice.value, s.mfa.challenges.now);
    assert Apply(s, op).mfa.challenges.created[|s.mfa.challenges.created|] == c;
    R.UnknownIsUntouched(s.mfa.challenges, s.mfa.challenges.attempts, op.id);
  }

  /**
   A login that is answered with a challenge can be completed: whatever else happens meanwhile,
   giving the answer's id with the right code for the first time returns tokens exactly within the
   lifetime of the codes and while the method is there.
   */
  lemma SentChallengeWorks(
      options: Options, now: int, config: C.Config, before: seq<Op>, login: Op, after: seq<Op>, complete: Op)
    requires Legal(Init(options, now, config), before)
    requires login.LoginWithMFA? && Enabled(Run(Init(options, now, config), before), login)
    requires ResultOf(Run(Init(options, now, config), before), login).ChallengeSent?
    requires Legal(Apply(Run(Init(options, now, config), before), login), after)
    requires complete.CompleteMFALogin? && complete.right && complete.tokenIssued
    requires complete.id == ResultOf(Run(Init(options, now, config), before), login).id
    requires forall op :: op in after && op.CompleteMFALogin? ==> op.id != complete.id
    ensures
      var s := Run(Init(options, now, config), before);
      var t := Run(Apply(s, login), after);
      && login.choice.Some?
      && Apply(t, complete).grants ==
        if t.mfa.challenges.now < s.mfa.challenges.now + config.codeExpiry * 1000
          && login.choice.value in t.mfa.methods.methods
        then t.grants + [Grant(complete.id, t.mfa.challenges.now)] else t.grants
  {
    var s := Reached(options, now, config, before);
    var r := Apply(s, login);
    SentIsUntried(s, login);
    var c := C.Created(login.id, login.user.value, login.choice.value, s.mfa.challenges.now);
    StepSound(s, login);
    SettingsStay(s, login);
    RunSound(r, after);
    RunUntried(r, after, c);
    CompletionOf(Run(r, after), c, complete);
  }

  lemma SuccessOnParts(m: E.State, id: string, right: bool, remember: Option<E.Remember>)
    requires E.VerdictOf(m, id, right).Verified?
    ensures
      var c, r := E.RecordOf(m, id), E.Apply(m, E.Verify(id, right, remember));
      && r.methods == L.Apply(m.methods, L.Touch(c.methodId))
      && r.devices == if remember.None? then m.devices else
        D.Apply(m.devices,
                D.Trust(c.user, remember.value.fingerprint, remember.value.deviceId, remember.value.days))
  {
  }

  lemma TouchRenews(l: L.State, id: string)
    requires id in l.methods
    ensures
      var r := L.Apply(l, L.Touch(id)).methods;
      && id in r && r[id].value == l.methods[id].value.(lastUsedAt := Some(l.now))
      && r[id].deadline == Some(l.now + 31_536_000_000)
  {
  }

  lemma TrustGrants(d: D.State, user: string, asked: E.Remember)
    ensures D.Apply(d, D.Trust(user, asked.fingerprint, asked.deviceId, asked.days)).grants
      == d.grants + [D.Device(asked.deviceId, user, asked.fingerprint, d.now, d.now, d.now + asked.days * 86_400_000)]
  {
  }

  /** A right code renews the method's record for a year, and trusts the device for the days asked. */
  lemma SuccessRemembers(m: E.State, id: string, right: bool, remember: Option<E.Remember>)
    requires E.VerdictOf(m, id, right).Verified?
    ensures
      var c, l, r := E.RecordOf(m, id), m.methods, E.Apply(m, E.Verify(id, right, remember)).methods;
      && c.methodId in r.methods
      && r.methods[c.methodId].value == l.methods[c.methodId].value.(lastUsedAt := Some(l.now))
      && r.methods[c.methodId].deadline == Some(l.now + 31_536_000_000)
    ensures
      var c, d, r := E.RecordOf(m, id), m.devices, E.Apply(m, E.Verify(id, right, remember)).devices;
      if remember.None? then r == d
      else
        var asked := remember.value;
        r.grants == d.grants + [D.Device(asked.deviceId, c.user, asked.fingerprint, d.now, d.now,
                                         d.now + asked.days * 86_400_000)]
  {
    SuccessOnParts(m, id, right, remember);
    TouchRenews(m.methods, E.RecordOf(m, id).methodId);
    if remember.Some? {
      TrustGrants(m.devices, E.RecordOf(m, id).user, remember.value);
    }
  }
}
