/** How long the code sent out for a new MFA method can be used, told by the calls and the settings. */
module MfaSetupLaws {
  import opened Store
  import C = MfaChallenges
  import L = MfaMethods
  import opened MfaEngine

  ghost function Waited(ops: seq<Op>): nat {
    if |ops| == 0 then 0 else (if ops[0].Advance? then ops[0].ms else 0) + Waited(ops[1..])
  }

  /** A call that gives a code for the setup, under either of its names. */
  predicate Tries(op: Op, id: string) {
    (op.Verify? && op.id == "setup:" + id) || op == OnMethods(L.VerifySetup(id, true))
  }

  ghost predicate Sent(s: State, id: string, e: Entry<C.Challenge>) {
    id in s.setups && s.setups[id] == e && id in s.methods.issued
  }

  lemma OtherIds(a: string, id: string)
    requires IsSetupId(a) && KeyFor(a) == id
    ensures a == "setup:" + id
  {
    assert a == a[..6] + a[6..];
  }

  lemma StaysSent(s: State, op: Op, id: string, e: Entry<C.Challenge>)
    requires Sent(s, id, e) && Enabled(s, op) && !Tries(op, id)
    requires op.Advance? ==> LiveAt(e, s.challenges.now + op.ms)
    ensures Sent(Apply(s, op), id, e)
  {
    StepIsEnabled(s, op);
    if OnMethod(s, op).Some? {
      MethodLasts(s.methods, OnMethod(s, op).value, id);
    }
    if op.Verify? && IsSetupId(op.id) && KeyFor(op.id) == id {
      OtherIds(op.id, id);
    }
  }

  lemma StepClock(s: State, op: Op)
    ensures Apply(s, op).challenges.now == s.challenges.now + (if op.Advance? then op.ms else 0)
  {
  }

  lemma {:induction false} StaysSpent(s: State, ops: seq<Op>, id: string)
    requires Legal(s, ops) && SetupSpent(s, id)
    ensures SetupSpent(Run(s, ops), id)
    decreases |ops|
  {
    if |ops| > 0 {
      SpentStays(s, ops[0], id);
      StaysSpent(Apply(s, ops[0]), ops[1..], id);
    }
  }

  lemma {:induction false} SentUntil(s: State, ops: seq<Op>, id: string, e: Entry<C.Challenge>)
    requires Legal(s, ops) && Sent(s, id, e) && e.deadline.Some? && s.challenges.now < e.deadline.value
    requires forall op :: op in ops ==> !Tries(op, id)
    ensures
      if s.challenges.now + Waited(ops) < e.deadline.value then Sent(Run(s, ops), id, e)
      else id !in Run(s, ops).setups
    decreases |ops|
  {
    if |ops| > 0 {
      var op, r := ops[0], Apply(s, ops[0]);
      assert op in ops && forall o :: o in ops[1..] ==> o in ops;
      StepClock(s, op);
      if r.challenges.now < e.deadline.value {
        StaysSent(s, op, id, e);
        SentUntil(r, ops[1..], id, e);
      } else {
        assert SetupSpent(r, id);
        StaysSpent(r, ops[1..], id);
      }
    }
  }

  /**
   Setting up an SMS or e-mail method sends a code; whatever else happens, until a code is tried the
   setup can be completed with it exactly for the lifetime of the codes.  Other kinds send none.  Its
   challenge has nobody for a user, and the attempts of any other.
   */
  lemma SetupCodeWorks(s: State, user: string, id: string, kind: L.Kind, ops: seq<Op>)
    requires Enabled(s, OnMethods(L.Setup(user, id, kind))) && id !in s.setups
    requires Legal(Apply(s, OnMethods(L.Setup(user, id, kind))), ops)
    requires forall op :: op in ops ==> !Tries(op, id)
    ensures
      var c, r := s.challenges, Apply(s, OnMethods(L.Setup(user, id, kind)));
      var sent := C.Challenge("setup:" + id, "", id, c.now, c.now + c.config.codeExpiry * 1000, c.config.maxAttempts);
      id in r.setups ==> r.setups[id].value == sent
    ensures id in Run(Apply(s, OnMethods(L.Setup(user, id, kind))), ops).setups
      <==> (kind.Sms? || kind.Email?) && Waited(ops) < s.challenges.config.codeExpiry * 1000
  {
    var r := Apply(s, OnMethods(L.Setup(user, id, kind)));
    if kind.Sms? || kind.Email? {
      SentUntil(r, ops, id, r.setups[id]);
    } else {
      StaysSpent(r, ops, id);
    }
  }
}
