/**
 Trusted devices: a grant lets a fingerprint skip MFA until it expires or is revoked.

 Using a device rewrites its record without a TTL, so a record may outlive its grant.  `grants` and
 `revoked` record the grants ever made and the ids explicitly revoked.
 */
module MfaDevices {
  import opened Store

  const DAY_TTL := 86_400

  type Positive = n: int | 0 < n witness 1

  datatype Device = Device(
    id: string, user: string, fingerprint: string, createdAt: int, lastUsedAt: int, expiresAt: int)

  datatype State = State(
    now: int,
    devices: map<string, Entry<Device>>,
    lists: map<string, Entry<set<string>>>,
    grants: seq<Device>, revoked: set<string>)

  datatype Op =
    | Advance(ms: nat)
    | Trust(user: string, fingerprint: string, id: string, days: Positive)
    | Check(user: string, fingerprint: string, hit: Option<string>)
    | Sweep(user: string)
    | Revoke(id: string)

  function Init(now: int): State { State(now, map[], map[], [], {}) }

  predicate Matches(s: State, user: string, fingerprint: string, id: string) {
    && id in Members(s.lists, user) && id in s.devices
    && s.devices[id].value.fingerprint == fingerprint
    && s.now < s.devices[id].value.expiresAt
  }

  function TrustEffect(s: State, user: string, fingerprint: string, id: string, days: Positive): State {
    var ttl := days * DAY_TTL;
    var d := Device(id, user, fingerprint, s.now, s.now, s.now + ttl * SECOND);
    State(s.now, Put(s.devices, id, d, ttl, s.now), SAdd(s.lists, user, id), s.grants + [d], s.revoked)
  }

  /** The record found is rewritten without a TTL. */
  function CheckEffect(s: State, hit: Option<string>): State {
    if hit.Some? && hit.value in s.devices
    then s.(devices := Put(s.devices, hit.value, s.devices[hit.value].value.(lastUsedAt := s.now), 0, s.now))
    else s
  }

  function Delete(s: State, id: string): State {
    if id in s.devices
    then s.(devices := s.devices - {id}, lists := SRem(s.lists, s.devices[id].value.user, id))
    else s
  }

  /** The listed devices of a user whose grant has run out. */
  function Lapsed(s: State, user: string): set<string> {
    set id | id in Members(s.lists, user) && id in s.devices && s.now >= s.devices[id].value.expiresAt
  }

  function Without(s: State, user: string, gone: set<string>): State {
    State(s.now, s.devices - gone,
          if Members(s.lists, user) <= gone then s.lists - {user}
          else s.lists[user := Entry(s.lists[user].value - gone, s.lists[user].deadline)],
          s.grants, s.revoked)
  }

  function RevokeEffect(s: State, id: string): State {
    if id in s.devices then Delete(s, id).(revoked := s.revoked + {id}) else s
  }

  function AdvanceEffect(s: State, ms: nat): State {
    State(s.now + ms, Evict(s.devices, s.now + ms), Evict(s.lists, s.now + ms), s.grants, s.revoked)
  }

  function Apply(s: State, op: Op): State {
    match op
    case Advance(ms) => AdvanceEffect(s, ms)
    case Trust(user, fingerprint, id, days) => TrustEffect(s, user, fingerprint, id, days)
    case Check(_, _, hit) => CheckEffect(s, hit)
    case Sweep(user) => Without(s, user, Lapsed(s, user))
    case Revoke(id) => RevokeEffect(s, id)
  }

  /** Ids are fresh, and a check hits some matching device if there is one. */
  ghost predicate Enabled(s: State, op: Op) {
    match op
    case Trust(_, _, id, _) => forall g :: g in s.grants ==> g.id != id
    case Check(user, fingerprint, hit) =>
      if hit.Some? then Matches(s, user, fingerprint, hit.value)
      else forall id :: !Matches(s, user, fingerprint, id)
    case _ => true
  }

  ghost predicate Legal(s: State, ops: seq<Op>)
    decreases |ops|
  {
    |ops| == 0 || (Enabled(s, ops[0]) && Legal(Apply(s, ops[0]), ops[1..]))
  }

  ghost function Run(s: State, ops: seq<Op>): State
    decreases |ops|
  {
    if |ops| == 0 then s else Run(Apply(s, ops[0]), ops[1..])
  }

  /** The reference definition: a grant to the user for the fingerprint, not revoked, not run out. */
  ghost predicate Granted(s: State, user: string, fingerprint: string) {
    exists g :: g in s.grants && g.user == user && g.fingerprint == fingerprint
      && g.id !in s.revoked && s.now < g.expiresAt
  }

  // ---------------------------------------------------------------- the invariant

  /** A record is a grant, but for its last use, and lasts at least as long. */
  ghost predicate DeviceOk(s: State, id: string)
    requires id in s.devices
  {
    var e := s.devices[id];
    && e.value.id == id && id !in s.revoked
    && e.value.(lastUsedAt := e.value.createdAt) in s.grants
    && (e.deadline.Some? ==> e.value.expiresAt <= e.deadline.value)
  }

  /** A grant in force has its record and is listed. */
  ghost predicate GrantOk(s: State, g: Device) {
    && g.lastUsedAt == g.createdAt
    && (s.now < g.expiresAt && g.id !in s.revoked ==> g.id in s.devices && g.id in Members(s.lists, g.user))
  }

  ghost predicate ListOk(s: State, user: string) {
    && (user in s.lists ==> s.lists[user].deadline.None? && s.lists[user].value != {})
    && Members(s.lists, user) <= IdsFor(s.grants, user)
  }

  function IdsFor(grants: seq<Device>, user: string): set<string> {
    set g | g in grants && g.user == user :: g.id
  }

  function AllIds(grants: seq<Device>): set<string> {
    set g | g in grants :: g.id
  }

  ghost predicate DistinctGrants(grants: seq<Device>) {
    forall i, j :: 0 <= i < j < |grants| ==> grants[i].id != grants[j].id
  }

  ghost predicate Inv(s: State) {
    && DistinctGrants(s.grants)
    && (forall id :: id in s.devices ==> DeviceOk(s, id))
    && (forall g :: g in s.grants ==> GrantOk(s, g))
    && (forall user :: ListOk(s, user))
    && s.revoked <= AllIds(s.grants)
  }

  lemma SameGrant(grants: seq<Device>, a: Device, b: Device)
    requires DistinctGrants(grants) && a in grants && b in grants && a.id == b.id
    ensures a == b
  {
  }

  lemma GrantKeepsIds(grants: seq<Device>, d: Device)
    requires DistinctGrants(grants) && forall g :: g in grants ==> g.id != d.id
    ensures DistinctGrants(grants + [d])
  {
    var next := grants + [d];
    forall i, j | 0 <= i < j < |next|
      ensures next[i].id != next[j].id
    {
      assert next[i] == grants[i] && grants[i] in grants;
    }
  }

  lemma IdsGrow(grants: seq<Device>, d: Device, user: string)
    ensures IdsFor(grants, user) <= IdsFor(grants + [d], user) && AllIds(grants) <= AllIds(grants + [d])
    ensures d.id in IdsFor(grants + [d], d.user)
  {
    assert forall g :: g in grants ==> g in grants + [d];
    assert d in grants + [d];
  }

  lemma TrustKeepsList(s: State, op: Op, user: string)
    requires op.Trust? && ListOk(s, user)
    ensures ListOk(Apply(s, op), user)
  {
    var d := Apply(s, op).grants[|s.grants|];
    IdsGrow(s.grants, d, user);
    assert d.id == op.id && d.user == op.user;
  }

  lemma TrustKeepsDevices(s: State, op: Op)
    requires (forall id :: id in s.devices ==> DeviceOk(s, id)) && s.revoked <= AllIds(s.grants)
    requires op.Trust? && Enabled(s, op)
    ensures forall id :: id in Apply(s, op).devices ==> DeviceOk(Apply(s, op), id)
  {
    var r := Apply(s, op);
    assert r.grants[|s.grants|] in r.grants;
    forall id | id in r.devices
      ensures DeviceOk(r, id)
    {
      if id != op.id {
        assert DeviceOk(s, id);
      }
    }
  }

  lemma TrustKeepsGrants(s: State, op: Op)
    requires op.Trust? && forall g :: g in s.grants ==> GrantOk(s, g)
    ensures forall g :: g in Apply(s, op).grants ==> GrantOk(Apply(s, op), g)
  {
    var r := Apply(s, op);
    forall g | g in r.grants
      ensures GrantOk(r, g)
    {
      assert g in s.grants ==> GrantOk(s, g);
    }
  }

  lemma TrustKeeps(s: State, op: Op)
    requires Inv(s) && op.Trust? && Enabled(s, op)
    ensures Inv(Apply(s, op))
  {
    var d := Apply(s, op).grants[|s.grants|];
    assert Apply(s, op).grants == s.grants + [d];
    GrantKeepsIds(s.grants, d);
    IdsGrow(s.grants, d, op.user);
    TrustKeepsDevices(s, op);
    TrustKeepsGrants(s, op);
    forall user
      ensures ListOk(Apply(s, op), user)
    {
      TrustKeepsList(s, op, user);
    }
  }

  lemma CheckKeeps(s: State, hit: Option<string>)
    requires Inv(s)
    ensures Inv(CheckEffect(s, hit))
  {
    var r := CheckEffect(s, hit);
    forall id | id in r.devices
      ensures DeviceOk(r, id)
    {
      assert DeviceOk(s, id);
      var v := s.devices[id].value;
      assert v.(lastUsedAt := s.now).(lastUsedAt := v.createdAt) == v.(lastUsedAt := v.createdAt);
    }
    assert forall g :: g in s.grants ==> GrantOk(s, g);
    assert forall g :: g in r.grants ==> GrantOk(r, g);
    forall user
      ensures ListOk(r, user)
    {
      assert ListOk(s, user);
    }
  }

  lemma AdvanceKeeps(s: State, ms: nat)
    requires Inv(s)
    ensures Inv(AdvanceEffect(s, ms))
  {
    var r := AdvanceEffect(s, ms);
    forall id | id in r.devices
      ensures DeviceOk(r, id)
    {
      assert DeviceOk(s, id);
    }
    forall user
      ensures ListOk(r, user) && Members(r.lists, user) == Members(s.lists, user)
    {
      assert ListOk(s, user);
    }
    forall g | g in r.grants
      ensures GrantOk(r, g)
    {
      assert GrantOk(s, g);
      if s.now + ms < g.expiresAt && g.id !in s.revoked {
        assert DeviceOk(s, g.id);
        var v := s.devices[g.id].value;
        SameGrant(s.grants, g, v.(lastUsedAt := v.createdAt));
      }
    }
  }

  lemma WithoutMembers(s: State, user: string, gone: set<string>, u: string)
    ensures Members(Without(s, user, gone).lists, u)
      == if u == user then Members(s.lists, u) - gone else Members(s.lists, u)
  {
    var ids := Members(s.lists, user);
    if ids <= gone {
      assert ids - gone == {};
    }
  }

  /** A list that keeps a member is not empty, and one that keeps none is deleted. */
  lemma WithoutKeepsList(s: State, user: string, gone: set<string>, u: string)
    requires ListOk(s, u)
    ensures ListOk(Without(s, user, gone), u)
  {
    var r := Without(s, user, gone);
    WithoutMembers(s, user, gone, u);
    if u == user && user in r.lists {
      var k :| k in Members(s.lists, user) && k !in gone;
      assert k in r.lists[user].value;
    }
  }

  lemma WithoutKeepsDevice(s: State, user: string, gone: set<string>, id: string)
    requires id in s.devices && DeviceOk(s, id) && id !in gone
    ensures DeviceOk(Without(s, user, gone), id)
  {
  }

  lemma SweepKeepsGrant(s: State, user: string, g: Device)
    requires DistinctGrants(s.grants) && g in s.grants && GrantOk(s, g)
    requires g.id in s.devices ==> DeviceOk(s, g.id)
    ensures GrantOk(Without(s, user, Lapsed(s, user)), g)
  {
    WithoutMembers(s, user, Lapsed(s, user), g.user);
    if g.id in Lapsed(s, user) {
      var v := s.devices[g.id].value;
      SameGrant(s.grants, g, v.(lastUsedAt := v.createdAt));
    }
  }

  lemma SweepKeeps(s: State, user: string)
    requires Inv(s)
    ensures Inv(Without(s, user, Lapsed(s, user)))
  {
    var r := Without(s, user, Lapsed(s, user));
    forall id | id in r.devices
      ensures DeviceOk(r, id)
    {
      WithoutKeepsDevice(s, user, Lapsed(s, user), id);
    }
    forall u
      ensures ListOk(r, u)
    {
      WithoutKeepsList(s, user, Lapsed(s, user), u);
    }
    forall g | g in r.grants
      ensures GrantOk(r, g)
    {
      SweepKeepsGrant(s, user, g);
    }
  }

  lemma RevokeKeeps(s: State, id: string)
    requires Inv(s) && id in s.devices
    ensures Inv(RevokeEffect(s, id))
  {
    var r := RevokeEffect(s, id);
    assert DeviceOk(s, id);
    forall k | k in r.devices
      ensures DeviceOk(r, k)
    {
      assert DeviceOk(s, k);
    }
    forall u
      ensures ListOk(r, u)
      ensures Members(r.lists, u) - {id} == Members(s.lists, u) - {id}
    {
      assert ListOk(s, u);
    }
    forall g | g in r.grants
      ensures GrantOk(r, g)
    {
      assert GrantOk(s, g);
      assert g.id != id && g.id in Members(s.lists, g.user) ==> g.id in Members(s.lists, g.user) - {id};
    }
    var v := s.devices[id].value;
    assert v.(lastUsedAt := v.createdAt).id == id;
  }

  lemma StepKeeps(s: State, op: Op)
    requires Inv(s) && Enabled(s, op)
    ensures Inv(Apply(s, op))
  {
    match op
    case Advance(ms) => AdvanceKeeps(s, ms);
    case Trust(_, _, _, _) => TrustKeeps(s, op);
    case Check(_, _, hit) => CheckKeeps(s, hit);
    case Sweep(user) => SweepKeeps(s, user);
    case Revoke(id) => if id in s.devices { RevokeKeeps(s, id); }
  }

  lemma {:induction false} RunKeeps(s: State, ops: seq<Op>)
    requires Inv(s) && Legal(s, ops)
    ensures Inv(Run(s, ops))
    decreases |ops|
  {
    if |ops| > 0 {
      StepKeeps(s, ops[0]);
      RunKeeps(Apply(s, ops[0]), ops[1..]);
    }
  }

  lemma MatchIffGranted(s: State, user: string, fingerprint: string)
    requires Inv(s)
    ensures (exists id :: Matches(s, user, fingerprint, id)) <==> Granted(s, user, fingerprint)
  {
    if id :| Matches(s, user, fingerprint, id) {
      assert DeviceOk(s, id) && ListOk(s, user);
      var v := s.devices[id].value;
      assert id in IdsFor(s.grants, user);
      var g :| g in s.grants && g.id == id && g.user == user;
      SameGrant(s.grants, g, v.(lastUsedAt := v.createdAt));
    }
    if Granted(s, user, fingerprint) {
      var g :| g in s.grants && g.user == user && g.fingerprint == fingerprint
        && g.id !in s.revoked && s.now < g.expiresAt;
      assert GrantOk(s, g) && DeviceOk(s, g.id);
      var v := s.devices[g.id].value;
      SameGrant(s.grants, g, v.(lastUsedAt := v.createdAt));
      assert Matches(s, user, fingerprint, g.id);
    }
  }

  /**
   In every run a device counts as trusted exactly when the history holds a grant for it in force:
   using a device, which clears its TTL, never prolongs the grant.
   */
  lemma TrustedIffGranted(now: int, ops: seq<Op>, user: string, fingerprint: string)
    requires Legal(Init(now), ops)
    ensures
      var s := Run(Init(now), ops);
      (exists id :: Matches(s, user, fingerprint, id)) <==> Granted(s, user, fingerprint)
  {
    RunKeeps(Init(now), ops);
    MatchIffGranted(Run(Init(now), ops), user, fingerprint);
  }

  // ---------------------------------------------------------------- the listing

  /** A listed device whose grant has not run out. */
  predicate InForce(s: State, user: string, d: Device) {
    d.id in Members(s.lists, user) && d.id in s.devices && s.devices[d.id].value == d && s.now < d.expiresAt
  }

  ghost predicate LatestUseFirst(ds: seq<Device>) {
    forall i, j :: 0 <= i < j < |ds| ==> ds[i].lastUsedAt >= ds[j].lastUsedAt
  }

  /** One step of a stable insertion sort by the time of the last use. */
  function InsertByUse(ds: seq<Device>, d: Device): (r: seq<Device>)
    ensures forall x :: x in r <==> x in ds || x == d
  {
    if |ds| == 0 || ds[0].lastUsedAt < d.lastUsedAt then [d] + ds else [ds[0]] + InsertByUse(ds[1..], d)
  }

  lemma PrependKeepsOrder(d: Device, ds: seq<Device>)
    requires LatestUseFirst(ds) && DistinctGrants(ds)
    requires forall i :: 0 <= i < |ds| ==> d.lastUsedAt >= ds[i].lastUsedAt && d.id != ds[i].id
    ensures LatestUseFirst([d] + ds) && DistinctGrants([d] + ds)
  {
    var next := [d] + ds;
    forall i, j | 0 <= i < j < |next|
      ensures next[i].lastUsedAt >= next[j].lastUsedAt && next[i].id != next[j].id
    {
      assert next[j] == ds[j - 1];
      if i > 0 {
        assert next[i] == ds[i - 1];
      }
    }
  }

  lemma TailIsLater(ds: seq<Device>, x: Device)
    requires LatestUseFirst(ds) && DistinctGrants(ds) && |ds| > 0 && x in ds[1..]
    ensures ds[0].lastUsedAt >= x.lastUsedAt && ds[0].id != x.id && x in ds
  {
    var k :| 0 <= k < |ds[1..]| && ds[1..][k] == x;
    assert ds[k + 1] == x;
  }

  lemma {:induction false} InsertKeepsOrder(ds: seq<Device>, d: Device)
    requires LatestUseFirst(ds) && DistinctGrants(ds) && forall i :: 0 <= i < |ds| ==> ds[i].id != d.id
    ensures LatestUseFirst(InsertByUse(ds, d)) && DistinctGrants(InsertByUse(ds, d))
  {
    if |ds| == 0 || ds[0].lastUsedAt < d.lastUsedAt {
      PrependKeepsOrder(d, ds);
    } else {
      InsertKeepsOrder(ds[1..], d);
      var tail := InsertByUse(ds[1..], d);
      forall i | 0 <= i < |tail|
        ensures ds[0].lastUsedAt >= tail[i].lastUsedAt && ds[0].id != tail[i].id
      {
        assert tail[i] in tail;
        if tail[i] != d {
          TailIsLater(ds, tail[i]);
        }
      }
      PrependKeepsOrder(ds[0], tail);
    }
  }

  class MfaDeviceService {
    var now: int
    var devices: map<string, Entry<Device>>
    var lists: map<string, Entry<set<string>>>
    ghost var grants: seq<Device>
    ghost var revoked: set<string>

    ghost function View(): State
      reads this
    {
      State(now, devices, lists, grants, revoked)
    }

    constructor (now: int)
      ensures View() == Init(now) && Inv(View())
    {
      this.now, devices, lists, grants, revoked := now, map[], map[], [], {};
    }

    method Wait(ms: nat)
      requires Inv(View())
      modifies this
      ensures View() == Apply(old(View()), Advance(ms)) && Inv(View())
    {
      AdvanceKeeps(View(), ms);
      now := now + ms;
      devices := Evict(devices, now);
      lists := Evict(lists, now);
    }

    method TrustDevice(user: string, fingerprint: string, id: string, days: Positive)
      requires Inv(View()) && Enabled(View(), Trust(user, fingerprint, id, days))
      modifies this
      ensures View() == Apply(old(View()), Trust(user, fingerprint, id, days)) && Inv(View())
      ensures Granted(View(), user, fingerprint)
    {
      TrustKeeps(View(), Trust(user, fingerprint, id, days));
      var ttl := days * DAY_TTL;
      var device := Device(id, user, fingerprint, now, now, now + ttl * SECOND);
      devices := Put(devices, id, device, ttl, now);
      lists := SAdd(lists, user, id);
      grants := grants + [device];
      assert device in grants && device.id !in revoked;
    }

    /** Looks through the user's devices until one matches, and records its use; `hit` tells which. */
    method IsDeviceTrusted(user: string, fingerprint: string) returns (trusted: bool, ghost hit: Option<string>)
      requires Inv(View())
      modifies this
      ensures trusted <==> Granted(old(View()), user, fingerprint)
      ensures trusted <==> hit.Some?
      ensures Enabled(old(View()), Check(user, fingerprint, hit))
      ensures View() == Apply(old(View()), Check(user, fingerprint, hit)) && Inv(View())
    {
      MatchIffGranted(View(), user, fingerprint);
      var ids := Members(lists, user);
      while ids != {}
        invariant ids <= Members(lists, user)
        invariant View() == old(View())
        invariant forall id :: Matches(View(), user, fingerprint, id) ==> id in ids
        decreases ids
      {
        var id :| id in ids;
        if id in devices {
          var device := devices[id].value;
          if device.fingerprint == fingerprint && now < device.expiresAt {
            CheckKeeps(View(), Some(id));
            assert Matches(View(), user, fingerprint, id);
            devices := Put(devices, id, device.(lastUsedAt := now), 0, now);
            return true, Some(id);
          }
        }
        ids := ids - {id};
      }
      return false, None;
    }

    method RevokeTrustedDevice(id: string)
      requires Inv(View())
      modifies this
      ensures View() == Apply(old(View()), Revoke(id)) && Inv(View())
    {
      if id in devices {
        RevokeKeeps(View(), id);
        var device := devices[id].value;
        devices := devices - {id};
        lists := SRem(lists, device.user, id);
        revoked := revoked + {id};
      }
    }

    method DeleteDevice(id: string)
      modifies this
      ensures View() == Delete(old(View()), id)
    {
      if id in devices {
        var device := devices[id].value;
        devices := devices - {id};
        lists := SRem(lists, device.user, id);
      }
    }

    /** Lists the devices in force, latest use first, deleting those whose grant has run out on the way. */
    method GetTrustedDevices(user: string) returns (found: seq<Device>)
      requires Inv(View())
      modifies this
      ensures View() == Apply(old(View()), Sweep(user)) && Inv(View())
      ensures LatestUseFirst(found) && DistinctGrants(found)
      ensures forall d :: d in found <==> InForce(old(View()), user, d)
    {
      ghost var before := View();
      SweepKeeps(before, user);
      var ids := Members(lists, user);
      ghost var gone: set<string> := {};
      found := [];
      WithoutNone(before, user);
      while ids != {}
        invariant ids <= Members(before.lists, user) && gone <= Lapsed(before, user) && ids !! gone
        invariant View() == Without(before, user, gone)
        invariant forall id :: id in Lapsed(before, user) ==> id in ids || id in gone
        invariant LatestUseFirst(found) && DistinctGrants(found)
        invariant forall d :: d in found <==> InForce(before, user, d) && d.id !in ids
        decreases ids
      {
        var id :| id in ids;
        if id in devices {
          var device := devices[id].value;
          assert DeviceOk(before, id);
          if now >= device.expiresAt {
            DeleteOneMore(before, user, gone, id);
            DeleteDevice(id);
            gone := gone + {id};
          } else {
            assert forall i :: 0 <= i < |found| ==> found[i] in found;
            InsertKeepsOrder(found, device);
            found := InsertByUse(found, device);
          }
        }
        ids := ids - {id};
      }
      assert gone == Lapsed(before, user);
    }
  }

  lemma WithoutNone(s: State, user: string)
    requires Inv(s)
    ensures Without(s, user, {}) == s
  {
    assert ListOk(s, user);
    if user in s.lists {
      assert s.lists[user].value - {} == s.lists[user].value;
    }
    assert Without(s, user, {}).lists == s.lists;
  }

  lemma ListsOneMore(s: State, user: string, gone: set<string>, id: string)
    requires user in s.lists && id in s.lists[user].value && id !in gone
    ensures SRem(Without(s, user, gone).lists, user, id) == Without(s, user, gone + {id}).lists
  {
    var ids := s.lists[user].value;
    assert ids - (gone + {id}) == (ids - gone) - {id};
    if ids - gone == {id} {
      assert ids <= gone + {id};
    } else {
      var k :| k in ids - gone && k != id;
      assert !(ids <= gone + {id});
    }
  }

  lemma DeleteOneMore(s: State, user: string, gone: set<string>, id: string)
    requires Inv(s) && gone <= Lapsed(s, user) && id in Lapsed(s, user) && id !in gone
    ensures Delete(Without(s, user, gone), id) == Without(s, user, gone + {id})
  {
    assert DeviceOk(s, id) && ListOk(s, user);
    var v := s.devices[id].value;
    assert id in IdsFor(s.grants, user);
    var g :| g in s.grants && g.user == user && g.id == id;
    SameGrant(s.grants, g, v.(lastUsedAt := v.createdAt));
    ListsOneMore(s, user, gone, id);
    assert s.devices - (gone + {id}) == (s.devices - gone) - {id};
  }
}
