/** What every run of challenges keeps: the attempt budget, single success, expiry, and the rate limit. */
module MfaChallengeRuns {
  import opened Store
  import opened MfaChallenges

  // ---------------------------------------------------------------- reading the history

  /** Wrong codes given to a challenge. */
  ghost function Wrongs(h: seq<Attempt>, id: string): nat {
    if |h| == 0 then 0
    else
      var a := h[|h| - 1];
      Wrongs(h[..|h| - 1], id) + (if a.challenge == id && a.verdict.Rejected? then 1 else 0)
  }

  ghost predicate Done(h: seq<Attempt>, id: string) {
    exists k :: 0 <= k < |h| && h[k].challenge == id && h[k].verdict.Verified?
  }

  ghost predicate Counts(a: Attempt) { a.verdict.Verified? || a.verdict.Rejected? }

  /** When a user's challenges were created, oldest first. */
  ghost function TimesOf(h: seq<Created>, user: string): seq<int> {
    if |h| == 0 then []
    else
      var c := h[|h| - 1];
      var earlier := TimesOf(h[..|h| - 1], user);
      if c.user == user then earlier + [c.at] else earlier
  }

  /** The length of the latest stretch of times without a pause of a whole window. */
  ghost function Burst(times: seq<int>, window: int): nat {
    if |times| == 0 then 0
    else if |times| == 1 || times[|times| - 1] - times[|times| - 2] >= window then 1
    else 1 + Burst(times[..|times| - 1], window)
  }

  ghost predicate Sorted(times: seq<int>) {
    forall i, j :: 0 <= i < j < |times| ==> times[i] <= times[j]
  }

  // ---------------------------------------------------------------- challenges

  /** The creation a record goes back to. */
  ghost function MadeFrom(c: Challenge): Created { Created(c.id, c.user, c.methodId, c.createdAt) }

  /** The k-th attempt, judged against the attempts before it and the challenges created. */
  ghost predicate AttemptOk(h: seq<Attempt>, created: seq<Created>, config: Config, k: nat)
    requires k < |h|
  {
    Counts(h[k]) ==>
      && (exists c :: c in created && c.id == h[k].challenge && c.at <= h[k].at <= c.at + Lifetime(config))
      && !Done(h[..k], h[k].challenge)
      && Wrongs(h[..k], h[k].challenge) < config.maxAttempts
      && (h[k].verdict.Rejected? ==>
            h[k].verdict.remaining == config.maxAttempts - Wrongs(h[..k], h[k].challenge) - 1)
  }

  /** A stored challenge mirrors its history and outlives its own expiry time. */
  ghost predicate ChallengeOk(s: State, id: string)
    requires id in s.challenges
  {
    var e := s.challenges[id];
    && e.value.id == id
    && MadeFrom(e.value) in s.created
    && e.value.expiresAt == e.value.createdAt + Lifetime(s.config)
    && e.deadline.Some? && e.value.expiresAt <= e.deadline.value
    && e.value.attemptsRemaining == s.config.maxAttempts - Wrongs(s.attempts, id)
    && e.value.attemptsRemaining >= 0
    && !Done(s.attempts, id)
  }

  ghost predicate CreatedOk(s: State) {
    && (forall i, j :: 0 <= i < j < |s.created| ==> s.created[i].id != s.created[j].id)
    && (forall c :: c in s.created ==> c.at <= s.now)
  }

  /** A challenge that has not succeeded stays available until it expires. */
  ghost predicate Available(s: State, c: Created) {
    s.now < c.at + Lifetime(s.config) && !Done(s.attempts, c.id) ==> c.id in s.challenges
  }

  ghost predicate ChallengeInv(s: State) {
    && CreatedOk(s)
    && (forall k :: 0 <= k < |s.attempts| ==> AttemptOk(s.attempts, s.created, s.config, k))
    && (forall id :: id in s.challenges ==> ChallengeOk(s, id))
    && (forall c :: c in s.created ==> Available(s, c))
  }

  lemma SameId(created: seq<Created>, a: Created, b: Created)
    requires forall i, j :: 0 <= i < j < |created| ==> created[i].id != created[j].id
    requires a in created && b in created && a.id == b.id
    ensures a == b
  {
  }

  lemma Appended(h: seq<Attempt>, a: Attempt, id: string)
    ensures Wrongs(h + [a], id) == Wrongs(h, id) + (if a.challenge == id && a.verdict.Rejected? then 1 else 0)
    ensures Done(h + [a], id) <==> Done(h, id) || (a.challenge == id && a.verdict.Verified?)
  {
    assert (h + [a])[..|h|] == h;
    if a.challenge == id && a.verdict.Verified? {
      assert (h + [a])[|h|] == a;
    }
    if Done(h, id) {
      var k :| 0 <= k < |h| && h[k].challenge == id && h[k].verdict.Verified?;
      assert (h + [a])[k] == h[k];
    }
  }

  /** A challenge never created has no counting attempts. */
  lemma {:induction false} UnknownIsUntouched(s: State, h: seq<Attempt>, id: string)
    requires forall k :: 0 <= k < |s.attempts| ==> AttemptOk(s.attempts, s.created, s.config, k)
    requires forall c :: c in s.created ==> c.id != id
    requires h <= s.attempts
    ensures Wrongs(h, id) == 0 && !Done(h, id)
  {
    if |h| > 0 {
      assert AttemptOk(s.attempts, s.created, s.config, |h| - 1);
      assert h[|h| - 1] == s.attempts[|h| - 1];
      UnknownIsUntouched(s, h[..|h| - 1], id);
      assert h == h[..|h| - 1] + [h[|h| - 1]];
      Appended(h[..|h| - 1], h[|h| - 1], id);
    }
  }

  lemma AttemptsStayOk(s: State, a: Attempt, created: seq<Created>)
    requires forall k :: 0 <= k < |s.attempts| ==> AttemptOk(s.attempts, s.created, s.config, k)
    requires s.created <= created
    requires AttemptOk(s.attempts + [a], created, s.config, |s.attempts|)
    ensures forall k :: 0 <= k <= |s.attempts| ==> AttemptOk(s.attempts + [a], created, s.config, k)
  {
    forall k | 0 <= k < |s.attempts|
      ensures AttemptOk(s.attempts + [a], created, s.config, k)
    {
      assert AttemptOk(s.attempts, s.created, s.config, k);
      assert (s.attempts + [a])[..k] == s.attempts[..k];
    }
  }

  lemma InitiateKeepsChallenges(s: State, op: Op)
    requires ChallengeInv(s) && op.Initiate? && Enabled(s, op)
    ensures ChallengeInv(Apply(s, op))
  {
    var r := Apply(s, op);
    if r != s {
      UnknownIsUntouched(s, s.attempts, op.id);
      assert Created(op.id, op.user, op.choice.value, s.now) in r.created;
      forall k | 0 <= k < |r.attempts|
        ensures AttemptOk(r.attempts, r.created, r.config, k)
      {
        assert AttemptOk(s.attempts, s.created, s.config, k);
      }
      forall id | id in r.challenges
        ensures ChallengeOk(r, id)
      {
        if id != op.id {
          assert ChallengeOk(s, id);
        }
      }
      forall c | c in r.created
        ensures Available(r, c)
      {
        assert c in s.created ==> Available(s, c);
      }
      assert CreatedOk(r) by {
        assert forall c :: c in s.created ==> c.id != op.id;
      }
    }
  }

  lemma VerifyAttemptOk(s: State, id: string, check: Check)
    requires ChallengeInv(s)
    ensures
      var a := Attempt(id, s.now, VerdictOf(s, id, check));
      AttemptOk(s.attempts + [a], s.created, s.config, |s.attempts|)
  {
    var a := Attempt(id, s.now, VerdictOf(s, id, check));
    assert (s.attempts + [a])[..|s.attempts|] == s.attempts;
    if Counts(a) {
      assert ChallengeOk(s, id);
      var c := MadeFrom(s.challenges[id].value);
      assert c in s.created;
    }
  }

  lemma VerifyKeepsOne(s: State, id: string, check: Check, k: string)
    requires CreatedOk(s) && k in s.challenges && ChallengeOk(s, k)
    requires id in s.challenges ==> ChallengeOk(s, id)
    requires k in VerifyEffect(s, id, check).challenges
    ensures ChallengeOk(VerifyEffect(s, id, check), k)
  {
    Appended(s.attempts, Attempt(id, s.now, VerdictOf(s, id, check)), k);
  }

  lemma VerifyKeepsAvailable(s: State, id: string, check: Check, c: Created)
    requires CreatedOk(s) && c in s.created && Available(s, c)
    requires id in s.challenges ==> ChallengeOk(s, id)
    ensures Available(VerifyEffect(s, id, check), c)
  {
    var a := Attempt(id, s.now, VerdictOf(s, id, check));
    Appended(s.attempts, a, c.id);
    if c.id == id && a.verdict.TimedOut? {
      SameId(s.created, c, MadeFrom(s.challenges[id].value));
    }
  }

  lemma VerifyKeepsAttempts(s: State, id: string, check: Check)
    requires ChallengeInv(s)
    ensures
      var r := VerifyEffect(s, id, check);
      forall k :: 0 <= k < |r.attempts| ==> AttemptOk(r.attempts, r.created, r.config, k)
  {
    VerifyAttemptOk(s, id, check);
    AttemptsStayOk(s, Attempt(id, s.now, VerdictOf(s, id, check)), s.created);
  }

  lemma VerifyKeepsChallenges(s: State, id: string, check: Check)
    requires ChallengeInv(s)
    ensures ChallengeInv(VerifyEffect(s, id, check))
  {
    var r := VerifyEffect(s, id, check);
    assert r.created == s.created && r.now == s.now && r.config == s.config;
    VerifyKeepsAttempts(s, id, check);
    forall k | k in r.challenges
      ensures ChallengeOk(r, k)
    {
      assert k in s.challenges;
      VerifyKeepsOne(s, id, check, k);
    }
    forall c | c in r.created
      ensures Available(r, c)
    {
      VerifyKeepsAvailable(s, id, check, c);
    }
  }

  lemma AdvanceKeepsChallenges(s: State, ms: nat)
    requires ChallengeInv(s)
    ensures ChallengeInv(AdvanceEffect(s, ms))
  {
    var r := AdvanceEffect(s, ms);
    forall k | 0 <= k < |r.attempts|
      ensures AttemptOk(r.attempts, r.created, r.config, k)
    {
      assert AttemptOk(s.attempts, s.created, s.config, k);
    }
    forall id | id in r.challenges
      ensures ChallengeOk(r, id)
    {
      assert ChallengeOk(s, id);
    }
    forall c | c in r.created
      ensures Available(r, c)
    {
      assert Available(s, c);
      if c.id in s.challenges {
        assert ChallengeOk(s, c.id);
        SameId(s.created, c, MadeFrom(s.challenges[c.id].value));
      }
    }
  }

  // ---------------------------------------------------------------- the expiry instant

  /** A wrong code given later than at the very instant of creation, which renewed the record's TTL. */
  ghost predicate Renewed(h: seq<Attempt>, c: Created) {
    exists k :: 0 <= k < |h| && h[k].challenge == c.id && h[k].verdict.Rejected? && h[k].at > c.at
  }

  /** The record of a challenge outlives the expiry instant exactly if it was renewed. */
  ghost predicate EdgeOk(s: State, c: Created) {
    && (c.id in s.challenges ==>
          var d := s.challenges[c.id].deadline;
          && d.Some? && s.now < d.value
          && (if Renewed(s.attempts, c) then d.value > c.at + Lifetime(s.config) else d.value == c.at + Lifetime(s.config)))
    && (s.now <= c.at + Lifetime(s.config) && Renewed(s.attempts, c) && !Done(s.attempts, c.id) ==>
          c.id in s.challenges)
  }

  ghost predicate EdgeInv(s: State) {
    && (forall k :: 0 <= k < |s.attempts| ==> s.attempts[k].at <= s.now)
    && (forall c :: c in s.created ==> EdgeOk(s, c))
  }

  lemma RenewedGrows(h: seq<Attempt>, a: Attempt, c: Created)
    ensures Renewed(h + [a], c) <==> Renewed(h, c) || (a.challenge == c.id && a.verdict.Rejected? && a.at > c.at)
  {
    assert (h + [a])[|h|] == a;
    if Renewed(h, c) {
      var k :| 0 <= k < |h| && h[k].challenge == c.id && h[k].verdict.Rejected? && h[k].at > c.at;
      assert (h + [a])[k] == h[k];
    }
  }

  /** A challenge created now has no attempts on it yet. */
  lemma NewIsNotRenewed(s: State, c: Created)
    requires forall k :: 0 <= k < |s.attempts| ==> s.attempts[k].at <= s.now
    requires c.at == s.now
    ensures !Renewed(s.attempts, c)
  {
  }

  lemma EdgeAfterCreation(s: State, op: Op)
    requires ChallengeInv(s) && EdgeInv(s) && op.Initiate? && Enabled(s, op)
    ensures EdgeInv(Apply(s, op))
  {
    var r := Apply(s, op);
    if r != s {
      forall c | c in r.created
        ensures EdgeOk(r, c)
      {
        if c in s.created {
          assert EdgeOk(s, c);
        } else {
          NewIsNotRenewed(s, c);
        }
      }
    }
  }

  lemma EdgeAfterWaiting(s: State, ms: nat)
    requires EdgeInv(s)
    ensures EdgeInv(AdvanceEffect(s, ms))
  {
    forall c | c in s.created
      ensures EdgeOk(AdvanceEffect(s, ms), c)
    {
      assert EdgeOk(s, c);
    }
  }

  lemma EdgeElsewhere(s: State, id: string, check: Check, c: Created)
    requires EdgeOk(s, c) && c.id != id
    ensures EdgeOk(VerifyEffect(s, id, check), c)
  {
    var a := Attempt(id, s.now, VerdictOf(s, id, check));
    RenewedGrows(s.attempts, a, c);
    Appended(s.attempts, a, c.id);
  }

  /** A wrong code restarts the TTL, which moves the deadline unless no time has passed. */
  lemma EdgeAfterWrongCode(s: State, c: Created)
    requires CreatedOk(s) && EdgeOk(s, c) && c in s.created && VerdictOf(s, c.id, Wrong).Rejected?
    requires s.now <= c.at + Lifetime(s.config)
    requires forall k :: 0 <= k < |s.attempts| ==> s.attempts[k].at <= s.now
    ensures EdgeOk(VerifyEffect(s, c.id, Wrong), c)
  {
    var a := Attempt(c.id, s.now, VerdictOf(s, c.id, Wrong));
    RenewedGrows(s.attempts, a, c);
    assert Renewed(s.attempts, c) ==> s.now > c.at;
  }

  /** Any other verdict leaves the record alone, or drops it after success or expiry. */
  lemma EdgeAfterOther(s: State, check: Check, c: Created)
    requires EdgeOk(s, c) && !VerdictOf(s, c.id, check).Rejected?
    requires VerdictOf(s, c.id, check).TimedOut? ==> s.now > c.at + Lifetime(s.config)
    ensures EdgeOk(VerifyEffect(s, c.id, check), c)
  {
    var a := Attempt(c.id, s.now, VerdictOf(s, c.id, check));
    RenewedGrows(s.attempts, a, c);
    Appended(s.attempts, a, c.id);
  }

  lemma EdgeHere(s: State, check: Check, c: Created)
    requires CreatedOk(s) && EdgeOk(s, c) && c in s.created
    requires c.id in s.challenges ==> ChallengeOk(s, c.id)
    requires forall k :: 0 <= k < |s.attempts| ==> s.attempts[k].at <= s.now
    ensures EdgeOk(VerifyEffect(s, c.id, check), c)
  {
    assert c.id in s.challenges ==> s.challenges[c.id].value.expiresAt == c.at + Lifetime(s.config) by {
      if c.id in s.challenges {
        SameId(s.created, c, MadeFrom(s.challenges[c.id].value));
      }
    }
    if VerdictOf(s, c.id, check).Rejected? {
      EdgeAfterWrongCode(s, c);
    } else {
      EdgeAfterOther(s, check, c);
    }
  }

  lemma EdgeAfterVerifying(s: State, id: string, check: Check)
    requires CreatedOk(s) && EdgeInv(s) && (id in s.challenges ==> ChallengeOk(s, id))
    ensures EdgeInv(VerifyEffect(s, id, check))
  {
    var r := VerifyEffect(s, id, check);
    assert r.created == s.created && r.now == s.now;
    assert forall k :: 0 <= k < |r.attempts| ==> r.attempts[k].at <= s.now;
    forall c | c in s.created
      ensures EdgeOk(r, c)
    {
      if c.id == id {
        EdgeHere(s, check, c);
      } else {
        EdgeElsewhere(s, id, check, c);
      }
    }
  }

  lemma EdgeStep(s: State, op: Op)
    requires ChallengeInv(s) && EdgeInv(s) && Enabled(s, op)
    ensures EdgeInv(Apply(s, op))
  {
    match op
    case Advance(ms) => EdgeAfterWaiting(s, ms);
    case Initiate(_, _, _) => EdgeAfterCreation(s, op);
    case Verify(id, check) => EdgeAfterVerifying(s, id, check);
  }

  // ---------------------------------------------------------------- the rate limit

  /** No m + 1 consecutive times fall within one window. */
  ghost predicate Spaced(times: seq<int>, window: int, m: nat) {
    && Sorted(times)
    && Burst(times, window) <= m
    && forall i, j :: 0 <= i < j < |times| && j == i + m ==> times[j] - times[i] >= window
  }

  /** The counter of a user is the length of the current burst; without one the burst is over. */
  ghost predicate CounterOk(s: State, user: string, times: seq<int>) {
    if user in s.rate then
      && |times| > 0
      && s.rate[user].value == Burst(times, Window(s.config))
      && s.rate[user].deadline == Some(times[|times| - 1] + Window(s.config))
      && s.now < times[|times| - 1] + Window(s.config)
    else
      |times| > 0 ==> times[|times| - 1] + Window(s.config) <= s.now
  }

  ghost predicate RateOk(s: State, user: string) {
    var times := TimesOf(s.created, user);
    && Spaced(times, Window(s.config), s.config.rateMax)
    && (forall t :: t in times ==> t <= s.now)
    && CounterOk(s, user, times)
  }

  ghost predicate RateInv(s: State) {
    forall user :: RateOk(s, user)
  }

  /** A burst of at most m times spans at least a window over any m + 1 of the latest times. */
  lemma {:induction false} BurstSpan(times: seq<int>, window: int, m: nat)
    requires Sorted(times) && Burst(times, window) <= m < |times|
    ensures times[|times| - 1] - times[|times| - 1 - m] >= window
  {
    if |times| > 1 && times[|times| - 1] - times[|times| - 2] < window {
      var shorter := times[..|times| - 1];
      BurstSpan(shorter, window, m - 1);
    }
  }

  lemma SortedGrows(times: seq<int>, t: int)
    requires Sorted(times) && forall i :: 0 <= i < |times| ==> times[i] <= t
    ensures Sorted(times + [t])
  {
    var next := times + [t];
    forall i, j | 0 <= i < j < |next|
      ensures next[i] <= next[j]
    {
      assert next[i] == times[i];
    }
  }

  lemma SpacedGrows(times: seq<int>, window: int, m: nat, t: int)
    requires Spaced(times, window, m) && (forall i :: 0 <= i < |times| ==> times[i] <= t)
    requires Burst(times + [t], window) <= m
    ensures Spaced(times + [t], window, m)
  {
    var next := times + [t];
    SortedGrows(times, t);
    forall i, j | 0 <= i < j < |next| && j == i + m
      ensures next[j] - next[i] >= window
    {
      if j == |times| {
        BurstSpan(next, window, m);
      } else {
        assert next[j] == times[j] && next[i] == times[i];
      }
    }
  }

  lemma CreationExtends(s: State, op: Op, user: string)
    requires op.Initiate? && Apply(s, op) != s
    ensures TimesOf(Apply(s, op).created, user) ==
      if user == op.user then TimesOf(s.created, user) + [s.now] else TimesOf(s.created, user)
  {
    assert Apply(s, op).created[..|s.created|] == s.created;
  }

  /** The burst goes on while the counter lives and starts afresh once it has gone. */
  lemma BurstGrows(s: State, user: string, times: seq<int>)
    requires CounterOk(s, user, times) && (forall t :: t in times ==> t <= s.now)
    ensures Burst(times + [s.now], Window(s.config)) == RateCount(s, user) + 1
  {
    assert (times + [s.now])[..|times|] == times;
  }

  lemma CounterAfterCreation(s: State, op: Op, times: seq<int>)
    requires op.Initiate? && Apply(s, op) != s
    requires Burst(times + [s.now], Window(s.config)) == RateCount(s, op.user) + 1
    ensures CounterOk(Apply(s, op), op.user, times + [s.now])
    ensures Burst(times + [s.now], Window(s.config)) <= s.config.rateMax
  {
  }

  lemma RateKeptForOwner(s: State, op: Op)
    requires op.Initiate? && RateOk(s, op.user) && Apply(s, op) != s
    ensures RateOk(Apply(s, op), op.user)
  {
    var times := TimesOf(s.created, op.user);
    assert TimesOf(Apply(s, op).created, op.user) == times + [s.now] by {
      CreationExtends(s, op, op.user);
    }
    BurstGrows(s, op.user, times);
    CounterAfterCreation(s, op, times);
    assert forall i :: 0 <= i < |times| ==> times[i] in times;
    SpacedGrows(times, Window(s.config), s.config.rateMax, s.now);
  }

  lemma RateKeptForOthers(s: State, op: Op, user: string)
    requires op.Initiate? && RateOk(s, user) && user != op.user && Apply(s, op) != s
    ensures RateOk(Apply(s, op), user)
  {
    CreationExtends(s, op, user);
  }

  lemma RateKeptByCreation(s: State, op: Op, user: string)
    requires op.Initiate? && RateOk(s, user)
    ensures RateOk(Apply(s, op), user)
  {
    if Apply(s, op) == s {
    } else if user == op.user {
      RateKeptForOwner(s, op);
    } else {
      RateKeptForOthers(s, op, user);
    }
  }

  lemma RateKeptByWaiting(s: State, ms: nat, user: string)
    requires RateOk(s, user)
    ensures RateOk(AdvanceEffect(s, ms), user)
  {
    assert AdvanceEffect(s, ms).created == s.created;
  }

  lemma RateKeptByVerifying(s: State, id: string, check: Check, user: string)
    requires RateOk(s, user)
    ensures RateOk(VerifyEffect(s, id, check), user)
  {
    var r := VerifyEffect(s, id, check);
    assert r.created == s.created && r.rate == s.rate && r.now == s.now;
  }

  lemma RateStep(s: State, op: Op)
    requires RateInv(s)
    ensures RateInv(Apply(s, op))
  {
    forall user
      ensures RateOk(Apply(s, op), user)
    {
      assert RateOk(s, user);
      match op
      case Advance(ms) => RateKeptByWaiting(s, ms, user);
      case Verify(id, check) => RateKeptByVerifying(s, id, check, user);
      case Initiate(_, _, _) => RateKeptByCreation(s, op, user);
    }
  }

  // ---------------------------------------------------------------- whole runs

  ghost predicate Inv(s: State) { ChallengeInv(s) && EdgeInv(s) && RateInv(s) }

  lemma InitInv(now: int, config: Config)
    ensures Inv(Init(now, config))
  {
    assert forall user :: TimesOf(Init(now, config).created, user) == [];
  }

  lemma StepKeeps(s: State, op: Op)
    requires Inv(s) && Enabled(s, op)
    ensures Inv(Apply(s, op))
  {
    RateStep(s, op);
    EdgeStep(s, op);
    match op
    case Advance(ms) => AdvanceKeepsChallenges(s, ms);
    case Initiate(_, _, _) => InitiateKeepsChallenges(s, op);
    case Verify(id, check) => VerifyKeepsChallenges(s, id, check);
  }

  lemma {:induction false} RunKeeps(s: State, ops: seq<Op>)
    requires Inv(s) && Legal(s, ops)
    ensures Inv(Run(s, ops)) && Run(s, ops).config == s.config
    decreases |ops|
  {
    if |ops| > 0 {
      StepKeeps(s, ops[0]);
      RunKeeps(Apply(s, ops[0]), ops[1..]);
    }
  }

  lemma Reached(now: int, config: Config, ops: seq<Op>) returns (s: State)
    requires Legal(Init(now, config), ops)
    ensures s == Run(Init(now, config), ops) && Inv(s) && s.config == config
  {
    InitInv(now, config);
    RunKeeps(Init(now, config), ops);
    s := Run(Init(now, config), ops);
  }

  lemma {:induction false} WrongsBounded(s: State, h: seq<Attempt>, id: string)
    requires ChallengeInv(s) && h <= s.attempts
    ensures Wrongs(h, id) <= s.config.maxAttempts
  {
    if |h| > 0 {
      var k := |h| - 1;
      assert AttemptOk(s.attempts, s.created, s.config, k);
      assert h[k] == s.attempts[k] && h[..k] == s.attempts[..k];
      WrongsBounded(s, h[..k], id);
    }
  }

  /**
   In every run a challenge takes at most `maxAttempts` wrong codes; a success comes while it is
   alive, after fewer wrong codes than that, and is the last verdict on a code it ever gives.
   */
  lemma ChallengeLaw(now: int, config: Config, ops: seq<Op>, id: string)
    requires Legal(Init(now, config), ops)
    ensures
      var h := Run(Init(now, config), ops).attempts;
      var created := Run(Init(now, config), ops).created;
      && Wrongs(h, id) <= config.maxAttempts
      && (forall i, j :: 0 <= i < j < |h| && h[i].challenge == h[j].challenge && h[i].verdict.Verified?
            ==> !Counts(h[j]))
      && (forall k :: 0 <= k < |h| && h[k].verdict.Verified? ==>
            && Wrongs(h[..k], h[k].challenge) < config.maxAttempts
            && exists c :: c in created && c.id == h[k].challenge && c.at <= h[k].at <= c.at + config.codeExpiry * 1000)
      && (forall k :: 0 <= k < |h| && h[k].verdict.Rejected? ==>
            h[k].verdict.remaining == config.maxAttempts - Wrongs(h[..k], h[k].challenge) - 1)
  {
    var s := Reached(now, config, ops);
    var h := s.attempts;
    WrongsBounded(s, h, id);
    assert forall k :: 0 <= k < |h| ==> AttemptOk(h, s.created, config, k);
    forall k | 0 <= k < |h| && Counts(h[k])
      ensures Wrongs(h[..k], h[k].challenge) < config.maxAttempts
      ensures exists c :: c in s.created && c.id == h[k].challenge && c.at <= h[k].at <= c.at + config.codeExpiry * 1000
      ensures h[k].verdict.Rejected? ==>
        h[k].verdict.remaining == config.maxAttempts - Wrongs(h[..k], h[k].challenge) - 1
    {
      assert AttemptOk(h, s.created, config, k);
    }
    forall i, j | 0 <= i < j < |h| && h[i].challenge == h[j].challenge && h[i].verdict.Verified?
      ensures !Counts(h[j])
    {
      assert AttemptOk(h, s.created, config, j);
      assert h[..j][i] == h[i];
    }
  }

  /** Within the lifetime, or at the instant of expiry itself if a wrong code has renewed the TTL. */
  ghost predicate InTime(s: State, c: Created) {
    var expiry := c.at + s.config.codeExpiry * 1000;
    s.now < expiry || (s.now == expiry && Renewed(s.attempts, c))
  }

  /** What a call is answered about a challenge created, told by its history and the clock. */
  ghost predicate Judged(s: State, c: Created, check: Check, v: Verdict) {
    if Done(s.attempts, c.id) then v.NotFound?
    else if !InTime(s, c) then v.NotFound? || v.TimedOut?
    else if Wrongs(s.attempts, c.id) >= s.config.maxAttempts then v.Exhausted?
    else v == match check
      case Right => Verified
      case Wrong => Rejected(s.config.maxAttempts - Wrongs(s.attempts, c.id) - 1)
      case MethodGone => NoMethod
  }

  lemma RecordTells(s: State, c: Created)
    requires Inv(s) && c in s.created
    ensures c.id in s.challenges ==>
      var r := s.challenges[c.id].value;
      && r.user == c.user && r.methodId == c.methodId && r.expiresAt == c.at + s.config.codeExpiry * 1000
      && r.attemptsRemaining == s.config.maxAttempts - Wrongs(s.attempts, c.id) && !Done(s.attempts, c.id)
    ensures InTime(s, c) && !Done(s.attempts, c.id) ==> c.id in s.challenges
    ensures c.id in s.challenges && s.now <= c.at + s.config.codeExpiry * 1000 ==> InTime(s, c)
  {
    assert Available(s, c) && EdgeOk(s, c);
    if c.id in s.challenges {
      assert ChallengeOk(s, c.id);
      SameId(s.created, c, MadeFrom(s.challenges[c.id].value));
    }
  }

  /** A verification is recorded with the verdict the history of the challenge calls for. */
  lemma CodeIsJudged(s: State, c: Created, check: Check)
    requires Inv(s) && c in s.created
    ensures Judged(s, c, check, VerdictOf(s, c.id, check))
    ensures Apply(s, Verify(c.id, check)).attempts
      == s.attempts + [Attempt(c.id, s.now, VerdictOf(s, c.id, check))]
  {
    RecordTells(s, c);
  }

  /**
   In every run each call is answered as the history of its challenge and the clock call for: the
   right code is accepted exactly while the challenge is in time, unused and not exhausted, a wrong
   one leaves one attempt less, and a challenge never created is not found.
   */
  lemma EveryCodeIsJudged(now: int, config: Config, ops: seq<Op>, id: string, check: Check)
    requires Legal(Init(now, config), ops)
    ensures
      var s := Run(Init(now, config), ops);
      var h := Apply(s, Verify(id, check)).attempts;
      && |h| == |s.attempts| + 1 && s.attempts <= h && h[|s.attempts|].challenge == id && h[|s.attempts|].at == s.now
      && (forall c :: c in s.created && c.id == id ==> Judged(s, c, check, h[|s.attempts|].verdict))
      && ((forall c :: c in s.created ==> c.id != id) ==> h[|s.attempts|].verdict.NotFound?)
  {
    var s := Reached(now, config, ops);
    forall c | c in s.created && c.id == id
      ensures Judged(s, c, check, VerdictOf(s, id, check))
    {
      CodeIsJudged(s, c, check);
    }
    if id in s.challenges {
      assert ChallengeOk(s, id);
      assert MadeFrom(s.challenges[id].value) in s.created;
    }
  }

  /** Any `rateMax + 1` consecutive creations of a user span at least one whole window. */
  lemma SlidingWindow(now: int, config: Config, ops: seq<Op>, user: string, i: nat)
    requires Legal(Init(now, config), ops)
    requires i + config.rateMax < |TimesOf(Run(Init(now, config), ops).created, user)|
    ensures
      var times := TimesOf(Run(Init(now, config), ops).created, user);
      times[i + config.rateMax] - times[i] >= config.windowMinutes * 60_000
  {
    var s := Reached(now, config, ops);
    assert RateOk(s, user);
  }

  /** A user may have a challenge unless the current burst of creations is as long as allowed. */
  ghost predicate Spare(s: State, user: string) {
    var times := TimesOf(s.created, user);
    var window := s.config.windowMinutes * 60_000;
    |times| == 0 || times[|times| - 1] + window <= s.now || Burst(times, window) < s.config.rateMax
  }

  /** A creation stores the challenge for the codes' lifetime, and a refused call changes nothing. */
  lemma CreationIsGranted(s: State, user: string, id: string, choice: Option<string>)
    requires Inv(s)
    ensures Accepts(s, user) <==> Spare(s, user)
    ensures
      var r := Apply(s, Initiate(user, id, choice));
      if choice.None? || !Spare(s, user) then r == s
      else
        var expiry := s.now + s.config.codeExpiry * 1000;
        && r.created == s.created + [Created(id, user, choice.value, s.now)] && id in r.challenges
        && r.challenges[id].value == Challenge(id, user, choice.value, s.now, expiry, s.config.maxAttempts)
        && r.challenges[id].deadline == Some(expiry)
        && r.now == s.now && r.attempts == s.attempts
  {
    assert RateOk(s, user);
  }

  /**
   Whether the next creation is accepted depends on the accepted ones alone: a refused call changes
   nothing, so it never postpones the moment at which the user is let in again.
   */
  lemma AcceptedWhen(now: int, config: Config, ops: seq<Op>, user: string, id: string, choice: Option<string>)
    requires Legal(Init(now, config), ops)
    ensures
      var s := Run(Init(now, config), ops);
      var r := Apply(s, Initiate(user, id, choice));
      if choice.Some? && Spare(s, user)
      then r.created == s.created + [Created(id, user, choice.value, s.now)] && id in r.challenges else r == s
  {
    var s := Reached(now, config, ops);
    CreationIsGranted(s, user, id, choice);
  }

  /** A challenge that verifies has not succeeded before and is within its lifetime. */
  lemma VerifiedIsNew(s: State, id: string, check: Check)
    requires Inv(s) && VerdictOf(s, id, check).Verified?
    ensures !Done(s.attempts, id)
    ensures exists c :: c in s.created && c.id == id && c.at <= s.now <= c.at + Lifetime(s.config)
  {
    assert ChallengeOk(s, id);
    var c := MadeFrom(s.challenges[id].value);
    assert c in s.created;
  }

  /** Attempts are only ever added, and what is done stays done. */
  lemma DoneStays(h: seq<Attempt>, longer: seq<Attempt>, id: string)
    requires h <= longer && Done(h, id)
    ensures Done(longer, id)
  {
    var k :| 0 <= k < |h| && h[k].challenge == id && h[k].verdict.Verified?;
    assert longer[k] == h[k];
  }
}
