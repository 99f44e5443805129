/**
 MFA challenges: creation under a rate limit, verification under an attempt budget and an expiry.

 Which active method a challenge is for, and whether a code matches, are decided elsewhere and are
 inputs here.  `created` and `attempts` record the challenges created and every verification call.
 */
module MfaChallenges {
  import opened Store

  type Positive = n: int | 0 < n witness 1

  datatype Config = Config(maxAttempts: Positive, codeExpiry: Positive, rateMax: Positive, windowMinutes: Positive)

  datatype Challenge = Challenge(
    id: string, user: string, methodId: string, createdAt: int, expiresAt: int, attemptsRemaining: int)

  /** What the code check finds once the challenge itself is admissible. */
  datatype Check = MethodGone | Wrong | Right

  datatype Verdict = Verified | Rejected(remaining: int) | NotFound | TimedOut | Exhausted | NoMethod

  datatype Attempt = Attempt(challenge: string, at: int, verdict: Verdict)

  datatype Created = Created(id: string, user: string, methodId: string, at: int)

  datatype State = State(
    now: int, config: Config,
    challenges: map<string, Entry<Challenge>>,
    rate: map<string, Entry<nat>>,
    created: seq<Created>, attempts: seq<Attempt>)

  datatype Op =
    | Advance(ms: nat)
    | Initiate(user: string, id: string, choice: Option<string>)
    | Verify(id: string, check: Check)

  function Init(now: int, config: Config): State {
    State(now, config, map[], map[], [], [])
  }

  function Window(c: Config): nat { c.windowMinutes * 60 * SECOND }

  function Lifetime(c: Config): nat { c.codeExpiry * SECOND }

  function RateCount(s: State, user: string): nat {
    if user in s.rate then s.rate[user].value else 0
  }

  /** Every accepted creation restarts the counter's window. */
  function CountOne(s: State, user: string): State {
    s.(rate := Put(s.rate, user, RateCount(s, user) + 1, s.config.windowMinutes * 60, s.now))
  }

  predicate Accepts(s: State, user: string) {
    RateCount(s, user) < s.config.rateMax
  }

  function NewChallenge(s: State, user: string, id: string, methodId: string): Challenge {
    Challenge(id, user, methodId, s.now, s.now + Lifetime(s.config), s.config.maxAttempts)
  }

  function InitiateEffect(s: State, user: string, id: string, choice: Option<string>): State {
    if choice.None? || !Accepts(s, user) then s
    else
      var m := CountOne(s, user);
      m.(challenges := Put(m.challenges, id, NewChallenge(s, user, id, choice.value), s.config.codeExpiry, s.now),
         created := s.created + [Created(id, user, choice.value, s.now)])
  }

  /** The verdict on the challenge a table holds under a key. */
  function VerdictOn(table: map<string, Entry<Challenge>>, now: int, key: string, check: Check): Verdict {
    if key !in table then NotFound
    else
      var c := table[key].value;
      if now > c.expiresAt then TimedOut
      else if c.attemptsRemaining <= 0 then Exhausted
      else match check
        case MethodGone => NoMethod
        case Wrong => Rejected(c.attemptsRemaining - 1)
        case Right => Verified
  }

  /** A right code and an expired record delete the record; a wrong one costs an attempt and renews the TTL. */
  function TableAfter(table: map<string, Entry<Challenge>>, config: Config, now: int, key: string, check: Check)
    : map<string, Entry<Challenge>>
  {
    match VerdictOn(table, now, key, check)
    case Verified => table - {key}
    case TimedOut => table - {key}
    case Rejected(remaining) =>
      Put(table, key, table[key].value.(attemptsRemaining := remaining), config.codeExpiry, now)
    case _ => table
  }

  function VerdictOf(s: State, id: string, check: Check): Verdict {
    VerdictOn(s.challenges, s.now, id, check)
  }

  function VerifyEffect(s: State, id: string, check: Check): State {
    s.(challenges := TableAfter(s.challenges, s.config, s.now, id, check),
       attempts := s.attempts + [Attempt(id, s.now, VerdictOf(s, id, check))])
  }

  function AdvanceEffect(s: State, ms: nat): State {
    State(s.now + ms, s.config, Evict(s.challenges, s.now + ms), Evict(s.rate, s.now + ms), s.created, s.attempts)
  }

  function Apply(s: State, op: Op): State {
    match op
    case Advance(ms) => AdvanceEffect(s, ms)
    case Initiate(user, id, choice) => InitiateEffect(s, user, id, choice)
    case Verify(id, check) => VerifyEffect(s, id, check)
  }

  /** Challenge ids come from a random generator. */
  ghost predicate Enabled(s: State, op: Op) {
    op.Initiate? ==> forall c :: c in s.created ==> c.id != op.id
  }

  ghost predicate Legal(s: State, ops: seq<Op>)
    decreases |ops|
  {
    |ops| == 0 || (Enabled(s, ops[0]) && Legal(Apply(s, ops[0]), ops[1..]))
  }

  ghost function Run(s: State, ops: seq<Op>): State
    decreases |ops|
  {
    if |ops| == 0 then s else Run(Apply(s, ops[0]), ops[1..])
  }

  class MfaChallengeService {
    var now: int
    const config: Config
    var challenges: map<string, Entry<Challenge>>
    var rate: map<string, Entry<nat>>
    ghost var created: seq<Created>
    ghost var attempts: seq<Attempt>

    ghost function View(): State
      reads this
    {
      State(now, config, challenges, rate, created, attempts)
    }

    constructor (now: int, config: Config)
      ensures View() == Init(now, config)
    {
      this.now, this.config := now, config;
      challenges, rate := map[], map[];
      created, attempts := [], [];
    }

    method Wait(ms: nat)
      modifies this
      ensures View() == Apply(old(View()), Advance(ms))
    {
      now := now + ms;
      challenges := Evict(challenges, now);
      rate := Evict(rate, now);
    }

    method CheckRateLimit(user: string) returns (ok: bool)
      modifies this
      ensures ok <==> Accepts(old(View()), user)
      ensures View() == if ok then CountOne(old(View()), user) else old(View())
    {
      var current := if user in rate then rate[user].value else 0;
      if current >= config.rateMax {
        return false;
      }
      rate := Put(rate, user, current + 1, config.windowMinutes * 60, now);
      return true;
    }

    method InitiateMFAChallenge(user: string, id: string, choice: Option<string>) returns (r: Option<Challenge>)
      modifies this
      ensures View() == Apply(old(View()), Initiate(user, id, choice))
      ensures r.Some? <==> choice.Some? && Accepts(old(View()), user)
    {
      if choice.None? {
        return None;
      }
      var ok := CheckRateLimit(user);
      if !ok {
        return None;
      }
      var challenge := Challenge(id, user, choice.value, now, now + config.codeExpiry * SECOND, config.maxAttempts);
      challenges := Put(challenges, id, challenge, config.codeExpiry, now);
      created := created + [Created(id, user, choice.value, now)];
      return Some(challenge);
    }

    method VerifyMFAChallenge(id: string, check: Check) returns (v: Verdict)
      modifies this
      ensures View() == Apply(old(View()), Verify(id, check))
      ensures v == VerdictOf(old(View()), id, check)
    {
      v, challenges := VerifyRecord(challenges, config, now, id, check);
      attempts := attempts + [Attempt(id, now, v)];
    }
  }

  /** Checks the challenge stored under a key, and deletes or rewrites it. */
  method VerifyRecord(table: map<string, Entry<Challenge>>, config: Config, now: int, key: string, check: Check)
    returns (v: Verdict, r: map<string, Entry<Challenge>>)
    ensures v == VerdictOn(table, now, key, check)
    ensures r == TableAfter(table, config, now, key, check)
  {
    r := table;
    if key !in table {
      return NotFound, r;
    }
    var challenge := table[key].value;
    if now > challenge.expiresAt {
      r := r - {key};
      return TimedOut, r;
    }
    if challenge.attemptsRemaining <= 0 {
      return Exhausted, r;
    }
    match check
    case MethodGone => return NoMethod, r;
    case Right =>
      r := r - {key};
      return Verified, r;
    case Wrong =>
      challenge := challenge.(attemptsRemaining := challenge.attemptsRemaining - 1);
      r := Put(r, key, challenge, config.codeExpiry, now);
      return Rejected(challenge.attemptsRemaining), r;
  }
}
