/**
 Backup codes: a generation of hashed codes per user, each good for one use.

 Codes appear as their digests.  `events` records generations and accepted codes, oldest first.
 */
module MfaBackupCodes {
  import opened Store

  const CODES_COUNT := 10
  const YEAR_TTL := 86_400 * 365

  datatype Backup = Backup(codes: seq<string>, used: seq<string>, remaining: int)

  datatype Event =
    | Generated(user: string, codes: seq<string>, at: int)
    | Accepted(user: string, code: string, at: int)

  datatype State = State(now: int, backups: map<string, Entry<Backup>>, events: seq<Event>)

  datatype Op =
    | Advance(ms: nat)
    | Generate(user: string, codes: seq<string>)
    | Redeem(user: string, code: string)

  function Init(now: int): State { State(now, map[], []) }

  predicate Acceptable(s: State, user: string, code: string) {
    user in s.backups && code in s.backups[user].value.codes && code !in s.backups[user].value.used
  }

  function Spend(b: Backup, code: string): Backup {
    var used := b.used + [code];
    Backup(b.codes, used, |b.codes| - |used|)
  }

  function RedeemEffect(s: State, user: string, code: string): State {
    if !Acceptable(s, user, code) then s
    else State(s.now, Put(s.backups, user, Spend(s.backups[user].value, code), YEAR_TTL, s.now),
               s.events + [Accepted(user, code, s.now)])
  }

  function GenerateEffect(s: State, user: string, codes: seq<string>): State {
    State(s.now, Put(s.backups, user, Backup(codes, [], |codes|), YEAR_TTL, s.now),
          s.events + [Generated(user, codes, s.now)])
  }

  function Apply(s: State, op: Op): State {
    match op
    case Advance(ms) => State(s.now + ms, Evict(s.backups, s.now + ms), s.events)
    case Generate(user, codes) => GenerateEffect(s, user, codes)
    case Redeem(user, code) => RedeemEffect(s, user, code)
  }

  function Run(s: State, ops: seq<Op>): State
    decreases |ops|
  {
    if |ops| == 0 then s else Run(Apply(s, ops[0]), ops[1..])
  }

  predicate HasBackupCodes(s: State, user: string) {
    user in s.backups && s.backups[user].value.remaining > 0
  }

  ghost predicate Distinct(xs: seq<string>) {
    forall i, j :: 0 <= i < j < |xs| ==> xs[i] != xs[j]
  }

  ghost predicate SomeUnused(s: State, user: string) {
    user in s.backups && exists c :: c in s.backups[user].value.codes && c !in s.backups[user].value.used
  }

  /** The codes of a user accepted since the latest generation. */
  ghost function AcceptedSince(h: seq<Event>, user: string): seq<string> {
    if |h| == 0 then []
    else
      var e := h[|h| - 1];
      var earlier := AcceptedSince(h[..|h| - 1], user);
      if e.user != user then earlier
      else if e.Generated? then [] else earlier + [e.code]
  }

  /** The codes of the latest generation. */
  ghost function LatestCodes(h: seq<Event>, user: string): Option<seq<string>> {
    if |h| == 0 then None
    else
      var e := h[|h| - 1];
      if e.Generated? && e.user == user then Some(e.codes) else LatestCodes(h[..|h| - 1], user)
  }

  /** When the user's latest codes were generated or one of them was last accepted. */
  ghost function LastTime(h: seq<Event>, user: string): int {
    if |h| == 0 then 0 else if h[|h| - 1].user == user then h[|h| - 1].at else LastTime(h[..|h| - 1], user)
  }

  // ---------------------------------------------------------------- the invariant

  ghost predicate BackupOk(s: State, user: string) {
    && Distinct(AcceptedSince(s.events, user))
    && (user in s.backups ==>
          var b := s.backups[user].value;
          && b.used == AcceptedSince(s.events, user)
          && (forall c :: c in b.used ==> c in b.codes)
          && b.remaining == |b.codes| - |b.used|)
  }

  lemma HistoryOf(h: seq<Event>, e: Event, user: string)
    ensures AcceptedSince(h + [e], user) ==
      if e.user != user then AcceptedSince(h, user)
      else if e.Generated? then [] else AcceptedSince(h, user) + [e.code]
  {
    assert (h + [e])[..|h|] == h;
  }

  lemma GenerateKeeps(s: State, owner: string, codes: seq<string>, user: string)
    requires BackupOk(s, user)
    ensures BackupOk(GenerateEffect(s, owner, codes), user)
  {
    HistoryOf(s.events, Generated(owner, codes, s.now), user);
  }

  lemma DistinctGrows(xs: seq<string>, x: string)
    requires Distinct(xs) && x !in xs
    ensures Distinct(xs + [x])
  {
    var next := xs + [x];
    forall i, j | 0 <= i < j < |next|
      ensures next[i] != next[j]
    {
      assert next[i] == xs[i];
    }
  }

  lemma RedeemKeeps(s: State, owner: string, code: string, user: string)
    requires BackupOk(s, user)
    ensures BackupOk(RedeemEffect(s, owner, code), user)
  {
    if Acceptable(s, owner, code) {
      HistoryOf(s.events, Accepted(owner, code, s.now), user);
      if owner == user {
        DistinctGrows(AcceptedSince(s.events, user), code);
      }
    }
  }

  lemma StepKeeps(s: State, op: Op, user: string)
    requires BackupOk(s, user)
    ensures BackupOk(Apply(s, op), user)
  {
    match op
    case Advance(_) =>
    case Generate(owner, codes) => GenerateKeeps(s, owner, codes, user);
    case Redeem(owner, code) => RedeemKeeps(s, owner, code, user);
  }

  lemma {:induction false} RunKeeps(s: State, ops: seq<Op>, user: string)
    requires BackupOk(s, user)
    ensures BackupOk(Run(s, ops), user)
    decreases |ops|
  {
    if |ops| > 0 {
      StepKeeps(s, ops[0], user);
      RunKeeps(Apply(s, ops[0]), ops[1..], user);
    }
  }

  /** The record is there for a year from its last write, and holds the latest codes. */
  ghost predicate KeptOk(s: State, user: string) {
    if user in s.backups then
      && LatestCodes(s.events, user) == Some(s.backups[user].value.codes)
      && s.backups[user].deadline == Some(LastTime(s.events, user) + 31_536_000_000)
      && s.now < LastTime(s.events, user) + 31_536_000_000
    else
      LatestCodes(s.events, user).Some? ==> LastTime(s.events, user) + 31_536_000_000 <= s.now
  }

  lemma StepKept(s: State, op: Op, user: string)
    requires KeptOk(s, user)
    ensures KeptOk(Apply(s, op), user)
  {
    var r := Apply(s, op);
    if r.events != s.events {
      assert r.events[..|s.events|] == s.events;
    }
  }

  lemma {:induction false} RunKept(s: State, ops: seq<Op>, user: string)
    requires KeptOk(s, user)
    ensures KeptOk(Run(s, ops), user)
    decreases |ops|
  {
    if |ops| > 0 {
      StepKept(s, ops[0], user);
      RunKept(Apply(s, ops[0]), ops[1..], user);
    }
  }

  // ---------------------------------------------------------------- counting

  function SetOf(xs: seq<string>): set<string> { set x | x in xs }

  lemma {:induction false} SetSize(xs: seq<string>)
    ensures |SetOf(xs)| <= |xs|
    ensures |SetOf(xs)| == |xs| <==> Distinct(xs)
  {
    if |xs| > 0 {
      var init, last := xs[..|xs| - 1], xs[|xs| - 1];
      SetSize(init);
      assert xs == init + [last];
      assert SetOf(xs) == SetOf(init) + {last};
      if last in init {
        var i :| 0 <= i < |init| && init[i] == last;
        assert xs[i] == xs[|xs| - 1];
        assert SetOf(xs) == SetOf(init);
      } else if Distinct(init) {
        forall i, j | 0 <= i < j < |xs|
          ensures xs[i] != xs[j]
        {
          assert xs[i] == init[i];
        }
      } else {
        var i, j :| 0 <= i < j < |init| && init[i] == init[j];
        assert xs[i] == xs[j];
      }
    }
  }

  lemma Subset(a: set<string>, b: set<string>)
    requires a <= b
    ensures |a| <= |b| && (|a| == |b| <==> a == b)
  {
    assert b == a + (b - a) && a !! (b - a);
  }

  // ---------------------------------------------------------------- main results

  /** In every run no code is accepted twice within a generation, and the count left is exact. */
  lemma CodesWorkOnce(now: int, ops: seq<Op>, user: string)
    ensures
      var s := Run(Init(now), ops);
      && Distinct(AcceptedSince(s.events, user))
      && (user in s.backups ==>
            var b := s.backups[user].value;
            && b.used == AcceptedSince(s.events, user)
            && SetOf(b.used) <= SetOf(b.codes)
            && b.remaining == |b.codes| - |b.used| >= 0)
  {
    RunKeeps(Init(now), ops, user);
    var s := Run(Init(now), ops);
    if user in s.backups {
      var b := s.backups[user].value;
      SetSize(b.used);
      SetSize(b.codes);
      Subset(SetOf(b.used), SetOf(b.codes));
    }
  }

  /**
   In every run a code is accepted exactly if it is one of the latest generation, has not been
   accepted since, and less than a year has passed since that generation or the last code accepted.
   */
  lemma AcceptedIffLive(now: int, ops: seq<Op>, user: string, code: string)
    ensures
      var s := Run(Init(now), ops);
      var codes := LatestCodes(s.events, user);
      var live := codes.Some? && code in codes.value && code !in AcceptedSince(s.events, user)
        && s.now < LastTime(s.events, user) + 31_536_000_000;
      Apply(s, Redeem(user, code)).events == if live then s.events + [Accepted(user, code, s.now)] else s.events
  {
    RunKeeps(Init(now), ops, user);
    RunKept(Init(now), ops, user);
  }

  ghost function Waited(ops: seq<Op>): nat {
    if |ops| == 0 then 0 else (if ops[0].Advance? then ops[0].ms else 0) + Waited(ops[1..])
  }

  /** The code is stored unused until a given time at least. */
  ghost predicate UnusedUntil(s: State, user: string, code: string, until: int) {
    && user in s.backups && code in s.backups[user].value.codes && code !in s.backups[user].value.used
    && s.backups[user].deadline.Some? && until <= s.backups[user].deadline.value
  }

  lemma {:induction false} StaysUnused(s: State, ops: seq<Op>, user: string, code: string, until: int)
    requires UnusedUntil(s, user, code, until) && s.now + Waited(ops) < until <= s.now + 31_536_000_000
    requires forall op :: op in ops && !op.Advance? && op.user == user ==> op.Redeem? && op.code != code
    ensures UnusedUntil(Run(s, ops), user, code, until)
    decreases |ops|
  {
    if |ops| > 0 {
      assert ops[0] in ops && forall o :: o in ops[1..] ==> o in ops;
      StaysUnused(Apply(s, ops[0]), ops[1..], user, code, until);
    }
  }

  /** Every code generated works within a year, whatever happens to the others and to other users. */
  lemma GeneratedCodesWork(s: State, user: string, codes: seq<string>, code: string, ops: seq<Op>)
    requires code in codes && Waited(ops) < 31_536_000_000
    requires forall op :: op in ops && !op.Advance? && op.user == user ==> op.Redeem? && op.code != code
    ensures
      var t := Run(Apply(s, Generate(user, codes)), ops);
      Apply(t, Redeem(user, code)).events == t.events + [Accepted(user, code, t.now)]
  {
    StaysUnused(Apply(s, Generate(user, codes)), ops, user, code, s.now + 31_536_000_000);
  }

  /** When the stored codes are distinct, codes are reported left exactly when one is left. */
  lemma ReportedIffLeft(now: int, ops: seq<Op>, user: string)
    requires
      var s := Run(Init(now), ops);
      user in s.backups ==> Distinct(s.backups[user].value.codes)
    ensures
      var s := Run(Init(now), ops);
      HasBackupCodes(s, user) <==> SomeUnused(s, user)
  {
    RunKeeps(Init(now), ops, user);
    var s := Run(Init(now), ops);
    if user in s.backups {
      var b := s.backups[user].value;
      SetSize(b.used);
      SetSize(b.codes);
      Subset(SetOf(b.used), SetOf(b.codes));
      if SomeUnused(s, user) {
        var c :| c in b.codes && c !in b.used;
        assert c in SetOf(b.codes) && c !in SetOf(b.used);
      } else {
        assert SetOf(b.codes) <= SetOf(b.used);
      }
    }
  }

  /** Presenting each of some codes once, in order. */
  function RedeemAll(user: string, codes: seq<string>): seq<Op> {
    if |codes| == 0 then [] else [Redeem(user, codes[0])] + RedeemAll(user, codes[1..])
  }

  lemma {:induction false} RedeemAllSpends(s: State, user: string, codes: seq<string>)
    requires user in s.backups && BackupOk(s, user)
    requires SetOf(codes) <= SetOf(s.backups[user].value.codes)
    ensures
      var r := Run(s, RedeemAll(user, codes));
      && user in r.backups && r.backups[user].value.codes == s.backups[user].value.codes
      && SetOf(r.backups[user].value.used) == SetOf(s.backups[user].value.used) + SetOf(codes)
    decreases |codes|
  {
    if |codes| > 0 {
      var op := Redeem(user, codes[0]);
      var m := Apply(s, op);
      StepKeeps(s, op, user);
      assert codes == [codes[0]] + codes[1..];
      assert codes[0] in SetOf(s.backups[user].value.codes);
      assert SetOf(codes) == {codes[0]} + SetOf(codes[1..]);
      assert SetOf(m.backups[user].value.used) == SetOf(s.backups[user].value.used) + {codes[0]};
      RedeemAllSpends(m, user, codes[1..]);
      assert RedeemAll(user, codes)[1..] == RedeemAll(user, codes[1..]);
    }
  }

  /**
   The report is exact for a generation exactly when its digests are distinct: once every code has
   been presented none is left, yet codes are still reported if two digests coincide.
   */
  lemma SpentReportIsExactIffDistinct(now: int, ops: seq<Op>, user: string, codes: seq<string>)
    ensures
      var r := Run(GenerateEffect(Run(Init(now), ops), user, codes), RedeemAll(user, codes));
      && !SomeUnused(r, user)
      && (HasBackupCodes(r, user) <==> !Distinct(codes))
  {
    RunKeeps(Init(now), ops, user);
    var s := Run(Init(now), ops);
    var g := GenerateEffect(s, user, codes);
    StepKeeps(s, Generate(user, codes), user);
    RedeemAllSpends(g, user, codes);
    RunKeeps(g, RedeemAll(user, codes), user);
    var b := Run(g, RedeemAll(user, codes)).backups[user].value;
    assert SetOf(b.used) == SetOf(codes);
    assert forall c :: c in b.codes ==> c in SetOf(b.used);
    SetSize(b.used);
    SetSize(codes);
  }

  class MfaBackupCodeService {
    var now: int
    var backups: map<string, Entry<Backup>>
    ghost var events: seq<Event>

    ghost function View(): State
      reads this
    {
      State(now, backups, events)
    }

    constructor (now: int)
      ensures View() == Init(now)
    {
      this.now, backups, events := now, map[], [];
    }

    method GenerateBackupCodes(user: string, codes: seq<string>)
      requires |codes| == CODES_COUNT
      modifies this
      ensures View() == Apply(old(View()), Generate(user, codes))
    {
      backups := Put(backups, user, Backup(codes, [], |codes|), YEAR_TTL, now);
      events := events + [Generated(user, codes, now)];
    }

    method UseBackupCode(user: string, code: string) returns (ok: bool)
      modifies this
      ensures View() == Apply(old(View()), Redeem(user, code))
      ensures ok <==> Acceptable(old(View()), user, code)
      ensures events == old(events) + if ok then [Accepted(user, code, now)] else []
    {
      if user !in backups {
        return false;
      }
      var backup := backups[user].value;
      var index := FindIndex(backup.codes, code);
      if index == -1 || code in backup.used {
        return false;
      }
      backup := backup.(used := backup.used + [code]);
      backup := backup.(remaining := |backup.codes| - |backup.used|);
      backups := Put(backups, user, backup, YEAR_TTL, now);
      events := events + [Accepted(user, code, now)];
      return true;
    }
  }

  /** The first position of a code, or -1. */
  method FindIndex(codes: seq<string>, code: string) returns (index: int)
    ensures -1 <= index < |codes|
    ensures index == -1 <==> code !in codes
    ensures 0 <= index ==> codes[index] == code && code !in codes[..index]
  {
    index := 0;
    while index < |codes|
      invariant 0 <= index <= |codes|
      invariant code !in codes[..index]
    {
      if codes[index] == code {
        return;
      }
      index := index + 1;
    }
    index := -1;
  }
}
