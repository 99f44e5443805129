/** Permission checks: an authorization cache in the store, on top of the policy client's own cache. */
module Authorization {
  import opened Store
  import opened OpaClient

  const MAX_TTL := 300

  datatype Key = Key(user: string, resourceId: string, resourceType: string, action: string)

  /** `at` is the time stamp of the result. */
  datatype Verdict = Verdict(allowed: bool, reason: Json, at: int)

  /** `key` is missing when the caller's token did not validate. */
  datatype Answer = Answer(at: int, key: Option<Key>, allowed: bool)

  /** An input handed to the policy client. */
  datatype Asked = Asked(at: int, input: Input)

  datatype Config = Config(enableCache: bool, cacheExpiry: nat)

  datatype State = State(
    now: int, config: Config, opa: seq<Slot>, verdicts: map<Key, Entry<Verdict>>,
    asked: seq<Asked>, answers: seq<Answer>)

  /**
   `user` is what the token validates to, if it does; `businessHours` is what the server's clock
   says of them; `extra` is the context the caller adds.
   */
  datatype Op =
    | Advance(ms: nat)
    | Ask(user: Option<UserInfo>, resourceId: string, resourceType: string, action: string,
          businessHours: bool, extra: map<string, Json>)

  function Init(now: int, config: Config): State {
    State(now, config, [], map[], [], [])
  }

  /** At most five minutes for authorization results; an expiry of zero counts as not set. */
  function VerdictTtl(c: Config): nat {
    var wanted := if c.cacheExpiry == 0 then 3600 else c.cacheExpiry;
    if wanted < MAX_TTL then wanted else MAX_TTL
  }

  function KeyOf(op: Op): Key
    requires op.Ask? && op.user.Some?
  {
    Key(op.user.value.sub, op.resourceId, op.resourceType, op.action)
  }

  /** The caller's context is spread over the defaults and may replace them. */
  function InputOf(op: Op, now: int): Input
    requires op.Ask? && op.user.Some?
  {
    Input(op.user.value, op.resourceId, op.resourceType, op.action,
          map["currentDate" := Date(now), "businessHours" := Bool(op.businessHours)] + op.extra)
  }

  function Cached(s: State, key: Key): Option<Verdict> {
    if s.config.enableCache && key in s.verdicts then Some(s.verdicts[key].value) else None
  }

  function Record(s: State, key: Option<Key>, allowed: bool): State {
    s.(answers := s.answers + [Answer(s.now, key, allowed)])
  }

  /** Asks the policy client, and caches what it decides. */
  function Consult(policy: Policy, s: State, op: Op): State
    requires op.Ask? && op.user.Some?
  {
    var key, input := KeyOf(op), InputOf(op, s.now);
    var (decision, opa) := Check(s.opa, input, s.now, policy(s.now, input));
    var m := s.(opa := opa, asked := s.asked + [Asked(s.now, input)]);
    if decision.None? then Record(m, Some(key), false)
    else
      var v := Verdict(decision.value.allow, decision.value.reason, s.now);
      var verdicts := if s.config.enableCache
        then Put(s.verdicts, key, v, VerdictTtl(s.config), s.now) else s.verdicts;
      Record(m.(verdicts := verdicts), Some(key), v.allowed)
  }

  function AskEffect(policy: Policy, s: State, op: Op): State
    requires op.Ask?
  {
    if op.user.None? then Record(s, None, false)
    else
      var cached := Cached(s, KeyOf(op));
      if cached.Some? then Record(s, Some(KeyOf(op)), cached.value.allowed) else Consult(policy, s, op)
  }

  function Apply(policy: Policy, s: State, op: Op): State {
    match op
    case Advance(ms) => s.(now := s.now + ms, verdicts := Evict(s.verdicts, s.now + ms))
    case Ask(_, _, _, _, _, _) => AskEffect(policy, s, op)
  }

  ghost function Run(policy: Policy, s: State, ops: seq<Op>): State
    decreases |ops|
  {
    if |ops| == 0 then s else Run(policy, Apply(policy, s, ops[0]), ops[1..])
  }

  predicate About(input: Input, key: Key) {
    && input.user.sub == key.user && input.resourceId == key.resourceId
    && input.resourceType == key.resourceType && input.action == key.action
  }

  ghost predicate AllowedAt(policy: Policy, t: int, input: Input) {
    policy(t, input).Answered? && Normalise(policy(t, input).data).allow
  }

  /** The policy allowed this very input when it was handed over, or at most `lag` before. */
  ghost predicate Backed(policy: Policy, q: Asked, lag: nat) {
    exists t :: q.at - lag <= t <= q.at && AllowedAt(policy, t, q.input)
  }

  // ---------------------------------------------------------------- dates in the inputs

  /** A call that leaves the current date to the service. */
  predicate KeepsDate(op: Op) { op.Ask? ==> "currentDate" !in op.extra }

  ghost predicate Dated(input: Input, at: int) {
    "currentDate" in input.context && input.context["currentDate"] == Date(at)
  }

  /** Every input cached by the policy client carries the date of its moment. */
  ghost predicate AllDated(cache: seq<Slot>) {
    forall k :: k in cache ==> Dated(k.key, k.stamp)
  }

  /** The policy client's answer to this call is no older than `lag`. */
  ghost predicate Prompt(s: State, op: Op, lag: nat) {
    lag >= EXPIRY || (AllDated(s.opa) && KeepsDate(op))
  }

  lemma CheckStaysDated(cache: seq<Slot>, key: Input, now: int, response: Response)
    requires AllDated(cache) && Dated(key, now)
    ensures AllDated(Check(cache, key, now, response).1)
  {
    var kept := Lookup(cache, key, now).1;
    assert forall k :: k in kept ==> k in cache;
    assert forall r, k :: k in Insert(kept, key, r, now) ==> k in kept || k == Slot(key, r, now);
  }

  lemma StepStaysDated(policy: Policy, s: State, op: Op)
    requires AllDated(s.opa) && KeepsDate(op)
    ensures AllDated(Apply(policy, s, op).opa)
  {
    if op.Ask? && op.user.Some? {
      var input := InputOf(op, s.now);
      assert Dated(input, s.now);
      CheckStaysDated(s.opa, input, s.now, policy(s.now, input));
    }
  }

  // ---------------------------------------------------------------- the invariant

  /** An allowing verdict stems from an input handed over at its time stamp, and backed. */
  ghost predicate VerdictOk(policy: Policy, lag: nat, s: State, key: Key)
    requires key in s.verdicts
  {
    var e := s.verdicts[key];
    && e.value.at <= s.now
    && e.deadline.Some? && s.now < e.deadline.value <= e.value.at + MAX_TTL * SECOND
    && (e.value.allowed ==>
          exists q :: q in s.asked && q.at == e.value.at && About(q.input, key) && Backed(policy, q, lag))
  }

  /** An allowing answer stems from a backed input handed over less than five minutes before it. */
  ghost predicate AnswerOk(policy: Policy, lag: nat, asked: seq<Asked>, a: Answer) {
    a.allowed ==>
      && a.key.Some?
      && exists q :: q in asked && a.at - MAX_TTL * SECOND < q.at <= a.at
           && About(q.input, a.key.value) && Backed(policy, q, lag)
  }

  ghost predicate Inv(policy: Policy, lag: nat, s: State) {
    && CacheInv(policy, s.opa, s.now)
    && (forall key :: key in s.verdicts ==> VerdictOk(policy, lag, s, key))
    && (forall a :: a in s.answers ==> AnswerOk(policy, lag, s.asked, a))
  }

  /** What the client returns on a miss was the policy's answer to this very input, `lag` ago at most. */
  lemma FreshDecision(policy: Policy, lag: nat, s: State, op: Op)
    requires CacheInv(policy, s.opa, s.now) && op.Ask? && op.user.Some? && Prompt(s, op, lag)
    ensures
      var input := InputOf(op, s.now);
      var (decision, opa) := Check(s.opa, input, s.now, policy(s.now, input));
      && CacheInv(policy, opa, s.now)
      && (decision.Some? && decision.value.allow ==> Backed(policy, Asked(s.now, input), lag))
  {
    var input := InputOf(op, s.now);
    CheckKeeps(policy, s.opa, input, s.now);
    var (hit, _) := Lookup(s.opa, input, s.now);
    if hit.None? {
      assert policy(s.now, input).Answered? && Normalise(policy(s.now, input).data).allow
        ==> AllowedAt(policy, s.now, input);
    } else {
      var slot := s.opa[IndexOf(s.opa, input)];
      assert Genuine(policy, slot) && slot in s.opa;
      assert slot.result.allow ==> AllowedAt(policy, slot.stamp, input);
      assert s.now - lag <= slot.stamp <= s.now by {
        if lag < EXPIRY {
          assert Dated(slot.key, slot.stamp) && Dated(input, s.now);
        }
      }
    }
  }

  /** More inputs handed over justify no less. */
  lemma AnswerStays(policy: Policy, lag: nat, asked: seq<Asked>, q: Asked, a: Answer)
    requires AnswerOk(policy, lag, asked, a)
    ensures AnswerOk(policy, lag, asked + [q], a)
  {
    if a.allowed {
      var p :| p in asked && a.at - MAX_TTL * SECOND < p.at <= a.at && About(p.input, a.key.value) && Backed(policy, p, lag);
      assert p in asked + [q];
    }
  }

  lemma VerdictStays(policy: Policy, lag: nat, s: State, r: State, key: Key)
    requires key in s.verdicts && VerdictOk(policy, lag, s, key)
    requires key in r.verdicts && r.verdicts[key] == s.verdicts[key]
    requires s.asked <= r.asked && r.now == s.now
    ensures VerdictOk(policy, lag, r, key)
  {
    var e := s.verdicts[key];
    if e.value.allowed {
      var q :| q in s.asked && q.at == e.value.at && About(q.input, key) && Backed(policy, q, lag);
      assert q in r.asked;
    }
  }

  lemma HitKeeps(policy: Policy, lag: nat, s: State, key: Key)
    requires Inv(policy, lag, s) && Cached(s, key).Some?
    ensures Inv(policy, lag, Record(s, Some(key), Cached(s, key).value.allowed))
  {
    var r := Record(s, Some(key), Cached(s, key).value.allowed);
    assert VerdictOk(policy, lag, s, key);
    assert AnswerOk(policy, lag, r.asked, Answer(s.now, Some(key), Cached(s, key).value.allowed));
    forall k | k in r.verdicts
      ensures VerdictOk(policy, lag, r, k)
    {
      VerdictStays(policy, lag, s, r, k);
    }
  }

  lemma ConsultAnswers(policy: Policy, lag: nat, s: State, op: Op)
    requires Inv(policy, lag, s) && op.Ask? && op.user.Some? && Prompt(s, op, lag)
    ensures
      var r := Consult(policy, s, op);
      && CacheInv(policy, r.opa, r.now)
      && forall a :: a in r.answers ==> AnswerOk(policy, lag, r.asked, a)
  {
    FreshDecision(policy, lag, s, op);
    var r := Consult(policy, s, op);
    var q := Asked(s.now, InputOf(op, s.now));
    assert q in r.asked && About(q.input, KeyOf(op));
    forall a | a in s.answers
      ensures AnswerOk(policy, lag, r.asked, a)
    {
      AnswerStays(policy, lag, s.asked, q, a);
    }
  }

  lemma ConsultVerdicts(policy: Policy, lag: nat, s: State, op: Op, key: Key)
    requires Inv(policy, lag, s) && op.Ask? && op.user.Some? && Prompt(s, op, lag)
    requires key in Consult(policy, s, op).verdicts
    ensures VerdictOk(policy, lag, Consult(policy, s, op), key)
  {
    var r := Consult(policy, s, op);
    if key in s.verdicts && r.verdicts[key] == s.verdicts[key] {
      VerdictStays(policy, lag, s, r, key);
    } else {
      FreshDecision(policy, lag, s, op);
      var q := Asked(s.now, InputOf(op, s.now));
      assert q in r.asked && About(q.input, key);
    }
  }

  lemma AskKeeps(policy: Policy, lag: nat, s: State, op: Op)
    requires Inv(policy, lag, s) && op.Ask? && Prompt(s, op, lag)
    ensures Inv(policy, lag, AskEffect(policy, s, op))
  {
    if op.user.None? {
      var r := AskEffect(policy, s, op);
      forall k | k in r.verdicts
        ensures VerdictOk(policy, lag, r, k)
      {
        VerdictStays(policy, lag, s, r, k);
      }
    } else if Cached(s, KeyOf(op)).Some? {
      HitKeeps(policy, lag, s, KeyOf(op));
    } else {
      ConsultAnswers(policy, lag, s, op);
      forall k | k in Consult(policy, s, op).verdicts {
        ConsultVerdicts(policy, lag, s, op, k);
      }
    }
  }

  lemma WaitKeeps(policy: Policy, lag: nat, s: State, ms: nat)
    requires Inv(policy, lag, s)
    ensures Inv(policy, lag, Apply(policy, s, Advance(ms)))
  {
    var r := Apply(policy, s, Advance(ms));
    forall key | key in r.verdicts
      ensures VerdictOk(policy, lag, r, key)
    {
      assert VerdictOk(policy, lag, s, key);
    }
  }

  lemma {:induction false} RunKeeps(policy: Policy, lag: nat, s: State, ops: seq<Op>)
    requires Inv(policy, lag, s)
    requires lag >= EXPIRY || (AllDated(s.opa) && forall op :: op in ops ==> KeepsDate(op))
    ensures Inv(policy, lag, Run(policy, s, ops))
    decreases |ops|
  {
    if |ops| > 0 {
      var op := ops[0];
      assert op in ops && forall o :: o in ops[1..] ==> o in ops;
      match op {
        case Advance(ms) => WaitKeeps(policy, lag, s, ms);
        case Ask(_, _, _, _, _, _) => AskKeeps(policy, lag, s, op);
      }
      if lag < EXPIRY {
        StepStaysDated(policy, s, op);
      }
      RunKeeps(policy, lag, Apply(policy, s, op), ops[1..]);
    }
  }

  // ---------------------------------------------------------------- main results

  /**
   In every run, for every policy, an allowing answer rests on an input about the same user,
   resource, type and action that was handed to the policy client less than five minutes before,
   and that the policy itself allowed at most five minutes before that.
   */
  lemma AllowedIsRecent(policy: Policy, now: int, config: Config, ops: seq<Op>, a: Answer)
    requires a in Run(policy, Init(now, config), ops).answers && a.allowed
    ensures a.key.Some?
    ensures exists q, t ::
      && q in Run(policy, Init(now, config), ops).asked && About(q.input, a.key.value)
      && a.at - 300_000 < q.at <= a.at && q.at - 300_000 <= t <= q.at
      && AllowedAt(policy, t, q.input)
  {
    var s := Run(policy, Init(now, config), ops);
    RunKeeps(policy, EXPIRY, Init(now, config), ops);
    assert AnswerOk(policy, EXPIRY, s.asked, a);
    var q :| q in s.asked && a.at - MAX_TTL * SECOND < q.at <= a.at
      && About(q.input, a.key.value) && Backed(policy, q, EXPIRY);
    var t :| q.at - EXPIRY <= t <= q.at && AllowedAt(policy, t, q.input);
  }

  /**
   When no caller replaces the current date the policy client never repeats an old answer: then the
   policy allowed the input at the very moment it was handed over, less than five minutes before.
   */
  lemma AllowedWhenAsked(policy: Policy, now: int, config: Config, ops: seq<Op>, a: Answer)
    requires forall op :: op in ops ==> KeepsDate(op)
    requires a in Run(policy, Init(now, config), ops).answers && a.allowed
    ensures a.key.Some?
    ensures exists q ::
      && q in Run(policy, Init(now, config), ops).asked && About(q.input, a.key.value)
      && a.at - 300_000 < q.at <= a.at
      && AllowedAt(policy, q.at, q.input)
  {
    var s := Run(policy, Init(now, config), ops);
    RunKeeps(policy, 0, Init(now, config), ops);
    assert AnswerOk(policy, 0, s.asked, a);
    var q :| q in s.asked && a.at - MAX_TTL * SECOND < q.at <= a.at
      && About(q.input, a.key.value) && Backed(policy, q, 0);
    var t :| q.at - 0 <= t <= q.at && AllowedAt(policy, t, q.input);
    assert t == q.at;
  }

  lemma StepSubmits(policy: Policy, s: State, op: Op, q: Asked)
    requires q in Apply(policy, s, op).asked && q !in s.asked
    ensures op.Ask? && op.user.Some? && q.input == InputOf(op, q.at)
  {
  }

  /** The recorded inputs are genuine: each is what some call of the run was about, at its time. */
  lemma {:induction false} AskedWasSubmitted(policy: Policy, s: State, ops: seq<Op>, q: Asked)
    requires q in Run(policy, s, ops).asked
    ensures q in s.asked || exists op :: op in ops && op.Ask? && op.user.Some? && q.input == InputOf(op, q.at)
    decreases |ops|
  {
    if |ops| > 0 {
      AskedWasSubmitted(policy, Apply(policy, s, ops[0]), ops[1..], q);
      if q in Apply(policy, s, ops[0]).asked {
        if q !in s.asked {
          StepSubmits(policy, s, ops[0], q);
        }
        assert ops[0] in ops;
      } else {
        var op :| op in ops[1..] && op.Ask? && op.user.Some? && q.input == InputOf(op, q.at);
        assert op in ops;
      }
    }
  }

  /** A policy that allows at the instant 0 only. */
  function OnceOnly(t: int, input: Input): Response {
    Answered(if t == 0 then Obj(map["result" := Bool(true)]) else Null)
  }

  lemma FiveMinutesLater(s: State, op: Op)
    requires op.Ask? && op.user.Some? && s.config == Config(true, 300)
    requires s.now == 0 && s.opa == [] && s.verdicts == map[]
    requires InputOf(op, 0) == InputOf(op, 300_000)
    ensures
      var r := Apply(OnceOnly, Apply(OnceOnly, Apply(OnceOnly, s, op), Advance(300_000)), op);
      && r.now == 300_000 && KeyOf(op) in r.verdicts && r.config == s.config
      && r.verdicts[KeyOf(op)].value.allowed && r.verdicts[KeyOf(op)].deadline == Some(600_000)
  {
    var first := Apply(OnceOnly, s, op);
    var input := InputOf(op, 0);
    assert Normalise(OnceOnly(0, input).data) == Decision(true, Undefined);
    assert first.opa == [Slot(input, Decision(true, Undefined), 0)];
    var waited := Apply(OnceOnly, first, Advance(300_000));
    assert waited.verdicts == map[];
    assert Lookup(waited.opa, input, 300_000).0 == Some(Decision(true, Undefined));
  }

  /**
   The ten minutes are reached: with both caches in use and the date replaced by its caller, a
   permission is still granted at 599,999 ms by a policy that allowed it at the instant 0 alone.
   */
  lemma TenMinutesAreReached(op: Op)
    requires op.Ask? && op.user.Some? && !KeepsDate(op)
    ensures
      var ops := [op, Advance(300_000), op, Advance(299_999), op];
      Answer(599_999, Some(KeyOf(op)), true) in Run(OnceOnly, Init(0, Config(true, 300)), ops).answers
  {
    var s := Init(0, Config(true, 300));
    assert InputOf(op, 0).context == InputOf(op, 300_000).context;
    FiveMinutesLater(s, op);
    var r := Apply(OnceOnly, Apply(OnceOnly, Apply(OnceOnly, s, op), Advance(300_000)), op);
    var w := Apply(OnceOnly, r, Advance(299_999));
    var last := Apply(OnceOnly, w, op);
    assert Cached(w, KeyOf(op)).Some?;
    assert last.answers[|w.answers|] == Answer(599_999, Some(KeyOf(op)), true);
    var ops := [op, Advance(300_000), op, Advance(299_999), op];
    var waited := Apply(OnceOnly, Apply(OnceOnly, s, op), Advance(300_000));
    assert Run(OnceOnly, w, [op]) == last;
    assert Run(OnceOnly, r, [Advance(299_999), op]) == Run(OnceOnly, w, [op]);
    assert Run(OnceOnly, waited, [op, Advance(299_999), op]) == Run(OnceOnly, r, [Advance(299_999), op]);
    assert Run(OnceOnly, s, ops) == Run(OnceOnly, waited, [op, Advance(299_999), op]) by {
      assert ops[1..] == [Advance(300_000), op, Advance(299_999), op];
    }
  }

  /** Without a valid token, or a policy answer where one is needed, the answer is a refusal. */
  lemma ErrorsDeny(policy: Policy, s: State, op: Op)
    requires op.Ask?
    requires op.user.None?
      || (Cached(s, KeyOf(op)).None? && Lookup(s.opa, InputOf(op, s.now), s.now).0.None?
          && policy(s.now, InputOf(op, s.now)).Unreachable?)
    ensures
      var r := AskEffect(policy, s, op);
      && r.answers == s.answers + [r.answers[|s.answers|]] && !r.answers[|s.answers|].allowed
      && r.verdicts == s.verdicts
  {
  }

  /**
   Every call is answered once.  A token that does not validate is refused; a live verdict on the
   key is repeated; otherwise the input is handed over, with the moment's date and hours unless the
   caller gives others, and the answer is that of a client's entry of 300 s at most, or else allowed
   exactly if the policy answers and allows.
   */
  lemma AnswerIs(policy: Policy, s: State, op: Op)
    requires CacheInv(policy, s.opa, s.now) && op.Ask?
    ensures
      var r := AskEffect(policy, s, op);
      && |r.answers| == |s.answers| + 1 && s.answers <= r.answers
      && var a := r.answers[|s.answers|];
      && a.at == s.now
      && if op.user.None? then a.key.None? && !a.allowed && r == s.(answers := r.answers)
         else
           var key := Key(op.user.value.sub, op.resourceId, op.resourceType, op.action);
           var defaults := map["currentDate" := Date(s.now), "businessHours" := Bool(op.businessHours)];
           var input := Input(op.user.value, op.resourceId, op.resourceType, op.action, defaults + op.extra);
           && a.key == Some(key)
           && if s.config.enableCache && key in s.verdicts
              then a.allowed == s.verdicts[key].value.allowed && r == s.(answers := r.answers)
              else
                && r.asked == s.asked + [Asked(s.now, input)]
                && (forall k :: k in s.opa && k.key == input && s.now <= k.stamp + 300_000 ==>
                      a.allowed == k.result.allow)
                && ((forall k :: k in s.opa && k.key == input ==> k.stamp + 300_000 < s.now) ==>
                      (a.allowed <==> AllowedAt(policy, s.now, input)))
  {
    if op.user.Some? && Cached(s, KeyOf(op)).None? {
      CacheOrPolicyAnswers(policy, s.opa, InputOf(op, s.now), s.now);
    }
  }

  /** The policy allowed an input about the key less than ten minutes ago, as it was handed over. */
  ghost predicate Justified(policy: Policy, s: State, key: Key) {
    exists q :: q in s.asked && About(q.input, key)
      && s.now - MAX_TTL * SECOND < q.at <= s.now && Backed(policy, q, EXPIRY)
  }

  lemma AskIsJustified(policy: Policy, s: State, op: Op)
    requires Inv(policy, EXPIRY, s) && op.Ask?
    ensures
      var r := AskEffect(policy, s, op);
      && r.answers == s.answers + [r.answers[|s.answers|]]
      && (r.answers[|s.answers|].allowed ==> op.user.Some? && Justified(policy, r, KeyOf(op)))
  {
    var r := AskEffect(policy, s, op);
    AskKeeps(policy, EXPIRY, s, op);
    assert AnswerOk(policy, EXPIRY, r.asked, r.answers[|s.answers|]);
  }

  class AuthService {
    const config: Config
    const opaClient: OpaClientImpl
    var now: int
    var verdicts: map<Key, Entry<Verdict>>
    ghost var asked: seq<Asked>
    ghost var answers: seq<Answer>

    ghost function View(): State
      reads this, opaClient
    {
      State(now, config, opaClient.cache, verdicts, asked, answers)
    }

    constructor (now: int, config: Config, ghost policy: Policy)
      ensures View() == Init(now, config) && opaClient.policy == policy && fresh(opaClient)
      ensures Inv(policy, EXPIRY, View())
    {
      this.now, this.config := now, config;
      this.opaClient := new OpaClientImpl(policy);
      verdicts, asked, answers := map[], [], [];
    }

    method Wait(ms: nat)
      requires Inv(opaClient.policy, EXPIRY, View())
      modifies this
      ensures View() == Apply(opaClient.policy, old(View()), Advance(ms))
      ensures Inv(opaClient.policy, EXPIRY, View())
    {
      WaitKeeps(opaClient.policy, EXPIRY, View(), ms);
      now := now + ms;
      verdicts := Evict(verdicts, now);
    }

    method GetCachedAuthorizationResult(key: Key) returns (r: Option<Verdict>)
      ensures r == Cached(View(), key)
    {
      if !config.enableCache || key !in verdicts {
        return None;
      }
      return Some(verdicts[key].value);
    }

    method CacheAuthorizationResult(key: Key, verdict: Verdict)
      modifies this`verdicts
      ensures verdicts ==
        if config.enableCache then Put(old(verdicts), key, verdict, VerdictTtl(config), now) else old(verdicts)
    {
      if config.enableCache {
        verdicts := Put(verdicts, key, verdict, VerdictTtl(config), now);
      }
    }

    /** `response` is what the policy engine would answer now. */
    method CheckPermissionDetailed(user: Option<UserInfo>, resourceId: string, resourceType: string,
                                   action: string, businessHours: bool, extra: map<string, Json>,
                                   response: Response)
      returns (allowed: bool)
      requires Inv(opaClient.policy, EXPIRY, View())
      requires user.Some? ==>
        response == opaClient.policy(now, InputOf(Ask(user, resourceId, resourceType, action, businessHours, extra), now))
      modifies this, opaClient
      ensures Inv(opaClient.policy, EXPIRY, View())
      ensures
        var op := Ask(user, resourceId, resourceType, action, businessHours, extra);
        && View() == Apply(opaClient.policy, old(View()), op)
        && answers == old(answers) + [Answer(now, if user.Some? then Some(KeyOf(op)) else None, allowed)]
        && (allowed ==> user.Some? && Justified(opaClient.policy, View(), KeyOf(op)))
    {
      ghost var op := Ask(user, resourceId, resourceType, action, businessHours, extra);
      AskIsJustified(opaClient.policy, View(), op);
      AskKeeps(opaClient.policy, EXPIRY, View(), op);
      if user.None? {
        answers := answers + [Answer(now, None, false)];
        return false;
      }
      var key := Key(user.value.sub, resourceId, resourceType, action);
      var cached := GetCachedAuthorizationResult(key);
      if cached.Some? {
        answers := answers + [Answer(now, Some(key), cached.value.allowed)];
        return cached.value.allowed;
      }
      var context := map["currentDate" := Date(now), "businessHours" := Bool(businessHours)] + extra;
      var input := Input(user.value, resourceId, resourceType, action, context);
      asked := asked + [Asked(now, input)];
      var decision := opaClient.CheckPermission(input, now, response);
      if decision.None? {
        answers := answers + [Answer(now, Some(key), false)];
        return false;
      }
      CacheAuthorizationResult(key, Verdict(decision.value.allow, decision.value.reason, now));
      answers := answers + [Answer(now, Some(key), decision.value.allow)];
      return decision.value.allow;
    }
  }
}
