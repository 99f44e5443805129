/** How long a device stays trusted, told by the calls made alone. */
module MfaDeviceLaws {
  import opened Store
  import opened MfaDevices

  /** The milliseconds a run waits. */
  ghost function Waited(ops: seq<Op>): nat {
    if |ops| == 0 then 0 else (if ops[0].Advance? then ops[0].ms else 0) + Waited(ops[1..])
  }

  lemma {:induction false} RunSplits(s: State, a: seq<Op>, b: seq<Op>)
    ensures Run(s, a + b) == Run(Run(s, a), b)
    ensures Legal(s, a + b) <==> Legal(s, a) && Legal(Run(s, a), b)
    decreases |a|
  {
    if |a| == 0 {
      assert a + b == b;
    } else {
      assert (a + b)[1..] == a[1..] + b;
      RunSplits(Apply(s, a[0]), a[1..], b);
    }
  }

  lemma {:induction false} ClockRuns(s: State, ops: seq<Op>)
    ensures Run(s, ops).now == s.now + Waited(ops)
    decreases |ops|
  {
    if |ops| > 0 {
      StepClock(s, ops[0]);
      ClockRuns(Apply(s, ops[0]), ops[1..]);
    }
  }

  lemma StepClock(s: State, op: Op)
    ensures Apply(s, op).now == s.now + (if op.Advance? then op.ms else 0)
  {
  }

  ghost predicate Over(s: State, d: Device) {
    s.now >= d.expiresAt || d.id in s.revoked
  }

  /** A grant stays over, and is over after its revocation or past its expiry only. */
  lemma StepEnds(s: State, op: Op, d: Device)
    requires Inv(s) && Enabled(s, op) && d in s.grants
    ensures d in Apply(s, op).grants
    ensures Over(Apply(s, op), d) <==> Over(s, d) || op == Revoke(d.id) || Apply(s, op).now >= d.expiresAt
  {
    StepClock(s, op);
    assert GrantOk(s, d);
  }

  lemma {:induction false} RunEnds(s: State, ops: seq<Op>, d: Device)
    requires Inv(s) && Legal(s, ops) && d in s.grants
    ensures Inv(Run(s, ops)) && d in Run(s, ops).grants
    ensures Over(Run(s, ops), d) <==> Over(s, d) || Revoke(d.id) in ops || s.now + Waited(ops) >= d.expiresAt
    decreases |ops|
  {
    if |ops| > 0 {
      StepKeeps(s, ops[0]);
      StepEnds(s, ops[0], d);
      StepClock(s, ops[0]);
      RunEnds(Apply(s, ops[0]), ops[1..], d);
      assert forall o :: o in ops <==> o == ops[0] || o in ops[1..];
    }
  }

  /** The record of a grant is found exactly until the grant is over. */
  lemma FoundUntilOver(s: State, d: Device)
    requires Inv(s) && d in s.grants
    ensures Matches(s, d.user, d.fingerprint, d.id) <==> !Over(s, d)
  {
    assert GrantOk(s, d);
    if d.id in s.devices {
      assert DeviceOk(s, d.id);
      var v := s.devices[d.id].value;
      SameGrant(s.grants, d, v.(lastUsedAt := v.createdAt));
    }
  }

  /**
   A device trusted for a number of days is found by its grant exactly while that many times
   86,400,000 ms have not passed and the grant has not been revoked, whatever else is done.
   */
  lemma TrustLasts(
      now: int, before: seq<Op>, user: string, fingerprint: string, id: string, days: Positive, after: seq<Op>)
    requires Legal(Init(now), before + [Trust(user, fingerprint, id, days)] + after)
    ensures
      var t := Run(Init(now), before + [Trust(user, fingerprint, id, days)] + after);
      Matches(t, user, fingerprint, id) <==> Waited(after) < days * 86_400_000 && Revoke(id) !in after
  {
    var op := Trust(user, fingerprint, id, days);
    var s := Run(Init(now), before);
    RunSplits(Init(now), before + [op], after);
    RunSplits(Init(now), before, [op]);
    assert Run(s, [op]) == Apply(s, op);
    RunKeeps(Init(now), before);
    StepKeeps(s, op);
    var r := Apply(s, op);
    var d := Device(id, user, fingerprint, s.now, s.now, s.now + days * 86_400_000);
    assert r.grants[|s.grants|] == d;
    assert id !in s.revoked;
    RunEnds(r, after, d);
    ClockRuns(r, after);
    FoundUntilOver(Run(r, after), d);
  }

  /** A call of the run that trusts the device, still in force at its end. */
  ghost predicate TrustedBy(ops: seq<Op>, i: nat, user: string, fingerprint: string)
    requires i < |ops|
  {
    && ops[i].Trust? && ops[i].user == user && ops[i].fingerprint == fingerprint
    && Waited(ops[i + 1..]) < ops[i].days * 86_400_000 && Revoke(ops[i].id) !in ops[i + 1..]
  }

  ghost predicate MadeBy(op: Op, d: Device) {
    op.Trust? && op.user == d.user && op.fingerprint == d.fingerprint && op.id == d.id
  }

  /** Every grant stems from a call. */
  lemma {:induction false} GrantStems(s: State, ops: seq<Op>, d: Device)
    requires d in Run(s, ops).grants && d !in s.grants
    ensures exists i :: 0 <= i < |ops| && MadeBy(ops[i], d)
    decreases |ops|
  {
    if |ops| > 0 {
      if d in Apply(s, ops[0]).grants {
        assert MadeBy(ops[0], d);
      } else {
        GrantStems(Apply(s, ops[0]), ops[1..], d);
        var i :| 0 <= i < |ops[1..]| && MadeBy(ops[1..][i], d);
        assert ops[i + 1] == ops[1..][i];
      }
    }
  }

  lemma CallTrusts(now: int, ops: seq<Op>, i: nat)
    requires Legal(Init(now), ops) && i < |ops| && ops[i].Trust?
    ensures Matches(Run(Init(now), ops), ops[i].user, ops[i].fingerprint, ops[i].id)
      <==> TrustedBy(ops, i, ops[i].user, ops[i].fingerprint)
  {
    assert ops == ops[..i] + [ops[i]] + ops[i + 1..];
    TrustLasts(now, ops[..i], ops[i].user, ops[i].fingerprint, ops[i].id, ops[i].days, ops[i + 1..]);
  }

  /**
   In every run a user's device counts as trusted exactly if some call trusted it for days that have
   not passed, and nobody has revoked that grant since.
   */
  lemma TrustedIffAsked(now: int, ops: seq<Op>, user: string, fingerprint: string)
    requires Legal(Init(now), ops)
    ensures (exists id :: Matches(Run(Init(now), ops), user, fingerprint, id))
      <==> exists i :: 0 <= i < |ops| && TrustedBy(ops, i, user, fingerprint)
    ensures Granted(Run(Init(now), ops), user, fingerprint)
      <==> exists i :: 0 <= i < |ops| && TrustedBy(ops, i, user, fingerprint)
  {
    TrustedIffGranted(now, ops, user, fingerprint);
    var t := Run(Init(now), ops);
    if i :| 0 <= i < |ops| && TrustedBy(ops, i, user, fingerprint) {
      CallTrusts(now, ops, i);
    }
    if id :| Matches(t, user, fingerprint, id) {
      RunKeeps(Init(now), ops);
      assert DeviceOk(t, id) && ListOk(t, user);
      var g :| g in t.grants && g.id == id && g.user == user;
      var v := t.devices[id].value;
      SameGrant(t.grants, g, v.(lastUsedAt := v.createdAt));
      GrantStems(Init(now), ops, g);
      var i :| 0 <= i < |ops| && MadeBy(ops[i], g);
      CallTrusts(now, ops, i);
    }
  }

  // ---------------------------------------------------------------- records rewritten and deleted

  /** Listing a user's devices deletes the listed ones whose days have passed, and no others. */
  lemma SweepDeletesLapsed(s: State, user: string, id: string, u: string)
    ensures
      var r := Apply(s, Sweep(user));
      var gone := id in s.devices && id in Members(s.lists, user) && s.devices[id].value.expiresAt <= s.now;
      && (id in r.devices <==> id in s.devices && !gone) && (id in r.devices ==> r.devices[id] == s.devices[id])
      && (id in Members(r.lists, u) <==> id in Members(s.lists, u) && !(u == user && gone))
  {
    WithoutMembers(s, user, Lapsed(s, user), u);
  }

  /** A device found trusted keeps its record without a TTL, so a listing must delete it in the end. */
  lemma UseClearsTtl(s: State, user: string, fingerprint: string, id: string)
    requires Matches(s, user, fingerprint, id)
    ensures
      var r := Apply(s, Check(user, fingerprint, Some(id)));
      r == s.(devices := s.devices[id := Entry(s.devices[id].value.(lastUsedAt := s.now), None)])
  {
  }

  // ---------------------------------------------------------------- the last use

  /** When a run last trusts a device or finds it trusted, or the time given if it does neither. */
  ghost function LastUse(now: int, ops: seq<Op>, id: string, last: int): int
    decreases |ops|
  {
    if |ops| == 0 then last
    else match ops[0]
      case Advance(ms) => LastUse(now + ms, ops[1..], id, last)
      case Trust(_, _, k, _) => LastUse(now, ops[1..], id, if k == id then now else last)
      case Check(_, _, hit) => LastUse(now, ops[1..], id, if hit == Some(id) then now else last)
      case _ => LastUse(now, ops[1..], id, last)
  }

  lemma StepUses(s: State, op: Op, id: string, last: int)
    requires id in s.devices ==> s.devices[id].value.lastUsedAt == last
    ensures id in Apply(s, op).devices ==>
      Apply(s, op).devices[id].value.lastUsedAt ==
        (match op
         case Trust(_, _, k, _) => if k == id then s.now else last
         case Check(_, _, hit) => if hit == Some(id) then s.now else last
         case _ => last)
  {
  }

  /** A device's record tells when it was last trusted or found, which is what the listing goes by. */
  lemma {:induction false} UseIsRecorded(s: State, ops: seq<Op>, id: string, last: int)
    requires id in s.devices ==> s.devices[id].value.lastUsedAt == last
    ensures id in Run(s, ops).devices ==> Run(s, ops).devices[id].value.lastUsedAt == LastUse(s.now, ops, id, last)
    decreases |ops|
  {
    if |ops| > 0 {
      StepUses(s, ops[0], id, last);
      StepClock(s, ops[0]);
      var next := match ops[0]
        case Trust(_, _, k, _) => if k == id then s.now else last
        case Check(_, _, hit) => if hit == Some(id) then s.now else last
        case _ => last;
      UseIsRecorded(Apply(s, ops[0]), ops[1..], id, next);
    }
  }
}
