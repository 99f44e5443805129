/** What syncing a user decides and writes, column by column, and what a whole run leaves in the rows. */
module UserSyncLaws {
  import opened Store
  import opened Decimal
  import opened SyncMapping
  import opened UserSync

  // ---------------------------------------------------------------- the decision

  /** Another row has the Keycloak id, the user name or the e-mail address. */
  ghost predicate Clashes(t: Tables, p: string, k: KeycloakUser, d: Profile) {
    exists q :: q in t.users && q != p
      && (t.users[q].keycloakId == Some(k.id) || t.users[q].profile.username == d.username
          || t.users[q].profile.email == d.email)
  }

  ghost predicate Found(t: Tables, k: KeycloakUser) {
    k.id in t.mappings && t.mappings[k.id].postgresId in t.users
  }

  /** Where the user's data go: the row it is mapped to, or a new one. */
  ghost function Target(t: Tables, item: Item): string {
    if Found(t, item.user) then t.mappings[item.user.id].postgresId else item.newId
  }

  lemma AcceptsUnlessClash(t: Tables, p: string, row: Row, k: KeycloakUser, d: Profile)
    requires row.keycloakId == Some(k.id) && row.profile.username == d.username && row.profile.email == d.email
    ensures Accepts(t.users, p, row) <==> !Clashes(t, p, k, d)
  {
  }

  /**
   Unchanged data are skipped unless forced.  A dry run announces an update of the row mapped, or a
   creation.  Otherwise the user fails on a fault, a clash of unique columns or an orphaned mapping,
   and an update also on numbers that were not read.
   */
  lemma OutcomeIs(env: Env, o: Options, t: Tables, item: Item)
    ensures
      var k, d := item.user, env.data(item.user);
      SyncOne(env, o, t, item).1 ==
        if k.id in t.mappings && t.mappings[k.id].syncHash == env.hash(d) && !o.forceUpdate then Skipped
        else if o.dryRun then if Found(t, k) then Updated else Outcome.Created
        else if !item.fault.NoFault? || Clashes(t, Target(t, item), k, d) then Failed
        else if Found(t, k) then
          if d.clearanceLevel.Num? && d.hierarchyLevel.Num? && d.riskScore.Some? then Updated else Failed
        else if k.id in t.mappings then Failed else Outcome.Created
  {
    var k, d := item.user, env.data(item.user);
    AcceptsUnlessClash(t, item.newId, NewRow(env, k), k, d);
    if Found(t, k) {
      AcceptsUnlessClash(t, Target(t, item), UpdatedRow(env, t.users[Target(t, item)], k), k, d);
    }
  }

  // ---------------------------------------------------------------- the rows written

  predicate Takes<T(==)>(r: Option<T>, newer: Option<T>, older: Option<T>) {
    r == if newer.Some? then newer else older
  }

  predicate AccountTaken(r: Profile, d: Profile) {
    && r.keycloakId == d.keycloakId && r.username == d.username && r.email == d.email
    && r.emailVerified == d.emailVerified && r.enabled == d.enabled && r.state == d.state
    && r.technicalExpertise == d.technicalExpertise && r.certifications == d.certifications
    && r.employmentType == d.employmentType && r.verificationStatus == d.verificationStatus
  }

  /** The columns that may be absent, of a row that was `o` and is written with `d`. */
  predicate RestTaken(r: Profile, o: Profile, d: Profile) {
    && Takes(r.firstName, d.firstName, o.firstName) && Takes(r.lastName, d.lastName, o.lastName)
    && Takes(r.department, d.department, o.department) && Takes(r.managerId, d.managerId, o.managerId)
    && Takes(r.jobTitle, d.jobTitle, o.jobTitle) && Takes(r.businessUnit, d.businessUnit, o.businessUnit)
    && Takes(r.territorialJurisdiction, d.territorialJurisdiction, o.territorialJurisdiction)
    && Takes(r.workLocation, d.workLocation, o.workLocation) && Takes(r.phoneNumber, d.phoneNumber, o.phoneNumber)
    && Takes(r.nationality, d.nationality, o.nationality) && Takes(r.gender, d.gender, o.gender)
    && Takes(r.contractExpiryDate, d.contractExpiryDate, o.contractExpiryDate)
    && Takes(r.dateOfBirth, d.dateOfBirth, o.dateOfBirth)
    && Takes(r.customAttributes, d.customAttributes, o.customAttributes)
  }

  lemma MergedTakes(o: Profile, d: Profile)
    ensures
      var m := Merged(o, d);
      && AccountTaken(m, d) && RestTaken(m, o, d)
      && m.clearanceLevel == d.clearanceLevel && m.hierarchyLevel == d.hierarchyLevel && m.riskScore == d.riskScore
  {
  }

  /**
   An update writes the mapped row and nothing else: every column takes the new data, and keeps what
   it held only where the new data have nothing; and the mapping records the new hash.
   */
  lemma UpdateWrites(env: Env, o: Options, t: Tables, item: Item)
    requires !o.dryRun && SyncOne(env, o, t, item).1.Updated?
    ensures Found(t, item.user)
    ensures
      var k, d := item.user, env.data(item.user);
      var p, next := t.mappings[k.id].postgresId, SyncOne(env, o, t, item).0;
      && p in next.users && next.users[p].keycloakId == Some(k.id) && next.users == t.users[p := next.users[p]]
      && AccountTaken(next.users[p].profile, d) && RestTaken(next.users[p].profile, t.users[p].profile, d)
      && next.users[p].profile.clearanceLevel == d.clearanceLevel
      && next.users[p].profile.hierarchyLevel == d.hierarchyLevel
      && next.users[p].profile.riskScore == d.riskScore
      && next.mappings == t.mappings[k.id := Mapping(p, env.hash(d))]
  {
    var p := t.mappings[item.user.id].postgresId;
    MergedTakes(t.users[p].profile, env.data(item.user));
  }

  predicate LevelOf(r: Number, d: Number) {
    r == if d == NaN || d == Num(0) then Num(1) else d
  }

  lemma StoredTakes(env: Env, d: Profile)
    ensures
      var r := Stored(env, d);
      && AccountTaken(r, d) && RestTaken(r.(customAttributes := d.customAttributes), d, d)
      && LevelOf(r.clearanceLevel, d.clearanceLevel) && LevelOf(r.hierarchyLevel, d.hierarchyLevel)
      && r.riskScore == (if d.riskScore.Some? then d.riskScore else Some(env.zero))
      && r.customAttributes == (if d.customAttributes.Some? then d.customAttributes else Some(Keyed(map[], map[])))
  {
  }

  /**
   A creation adds one row, the mapped data with 1 for a level that is missing or 0, zero for a
   missing risk score and no custom attributes for missing ones, and maps the user to it.
   */
  lemma CreateWrites(env: Env, o: Options, t: Tables, item: Item)
    requires !o.dryRun && SyncOne(env, o, t, item).1 == Outcome.Created
    ensures
      var k, d, p, next := item.user, env.data(item.user), item.newId, SyncOne(env, o, t, item).0;
      && k.id !in t.mappings && next.mappings == t.mappings[k.id := Mapping(p, env.hash(d))]
      && p in next.users && next.users == t.users[p := next.users[p]] && next.users[p].keycloakId == Some(k.id)
      && var r := next.users[p].profile;
      && AccountTaken(r, d) && RestTaken(r.(customAttributes := d.customAttributes), d, d)
      && LevelOf(r.clearanceLevel, d.clearanceLevel) && LevelOf(r.hierarchyLevel, d.hierarchyLevel)
      && r.riskScore == (if d.riskScore.Some? then d.riskScore else Some(env.zero))
      && r.customAttributes == (if d.customAttributes.Some? then d.customAttributes else Some(Keyed(map[], map[])))
  {
    StoredTakes(env, env.data(item.user));
  }

  /** Skipping and dry runs write nothing, and a failure maps nobody and touches one row at most. */
  lemma OthersWriteNothing(env: Env, o: Options, t: Tables, item: Item)
    ensures o.dryRun || SyncOne(env, o, t, item).1.Skipped? ==> SyncOne(env, o, t, item).0 == t
    ensures SyncOne(env, o, t, item).1.Failed? ==>
      var next := SyncOne(env, o, t, item).0;
      && next.mappings == t.mappings
      && (next.users == t.users
          || (Target(t, item) in next.users && next.users == t.users[Target(t, item) := next.users[Target(t, item)]]))
  {
  }

  // ---------------------------------------------------------------- what a run leaves

  predicate Present<T(==)>(r: Option<T>, d: Option<T>) { d.Some? ==> r == d }

  predicate NumberShown(r: Number, d: Number) { r == d || (r == Num(1) && (d == NaN || d == Num(0))) }

  /** Every column shows the data: as they are where they say something, a level of 1 where they do not. */
  predicate Shows(r: Profile, d: Profile) {
    && AccountTaken(r, d)
    && NumberShown(r.clearanceLevel, d.clearanceLevel) && NumberShown(r.hierarchyLevel, d.hierarchyLevel)
    && Present(r.riskScore, d.riskScore) && Present(r.firstName, d.firstName) && Present(r.lastName, d.lastName)
    && Present(r.department, d.department) && Present(r.managerId, d.managerId) && Present(r.jobTitle, d.jobTitle)
    && Present(r.businessUnit, d.businessUnit) && Present(r.territorialJurisdiction, d.territorialJurisdiction)
    && Present(r.workLocation, d.workLocation) && Present(r.phoneNumber, d.phoneNumber)
    && Present(r.nationality, d.nationality) && Present(r.gender, d.gender)
    && Present(r.contractExpiryDate, d.contractExpiryDate) && Present(r.dateOfBirth, d.dateOfBirth)
    && Present(r.customAttributes, d.customAttributes)
  }

  /** The user is mapped, with the hash given, to a row that carries its id and this profile. */
  ghost predicate Holds(t: Tables, id: string, hash: string, profile: Profile) {
    id in t.mappings && t.mappings[id].syncHash == hash
      && t.mappings[id].postgresId in t.users && t.users[t.mappings[id].postgresId] == Row(Some(id), profile)
  }

  ghost predicate ShowsData(env: Env, t: Tables, k: KeycloakUser) {
    && Found(t, k) && Shows(t.users[t.mappings[k.id].postgresId].profile, env.data(k))
    && Holds(t, k.id, env.hash(env.data(k)), t.users[t.mappings[k.id].postgresId].profile)
  }

  lemma WritingShows(env: Env, o: Options, t: Tables, item: Item)
    requires !o.dryRun && (SyncOne(env, o, t, item).1.Updated? || SyncOne(env, o, t, item).1 == Outcome.Created)
    ensures ShowsData(env, SyncOne(env, o, t, item).0, item.user)
  {
    if SyncOne(env, o, t, item).1.Updated? {
      UpdateWrites(env, o, t, item);
    } else {
      CreateWrites(env, o, t, item);
    }
  }

  /** Syncing one user leaves the rows of all others as they are. */
  lemma OthersKeepRows(env: Env, o: Options, t: Tables, item: Item, id: string, hash: string, profile: Profile)
    requires OneToOne(t) && FreshId(t, item.newId) && id != item.user.id && Holds(t, id, hash, profile)
    ensures Holds(SyncOne(env, o, t, item).0, id, hash, profile)
  {
  }

  lemma {:induction false} RunKeepsRow(
      env: Env, o: Options, t: Tables, c: Counts, items: seq<Item>, id: string, hash: string, profile: Profile)
    requires Inv(t) && AllFresh(env, o, t, items) && Holds(t, id, hash, profile)
    requires forall i :: 0 <= i < |items| ==> items[i].user.id != id
    ensures Holds(SyncAll(env, o, t, c, items).0, id, hash, profile)
    decreases |items|
  {
    if |items| > 0 {
      var (next, outcome) := SyncOne(env, o, t, items[0]);
      OthersKeepRows(env, o, t, items[0], id, hash, profile);
      SyncKeeps(env, o, t, items[0]);
      RunKeepsRow(env, o, next, Count(c, outcome, items[0].user.id), items[1..], id, hash, profile);
    }
  }

  /** Unchanged data, which an unforced run skips. */
  ghost predicate Unchanged(env: Env, t: Tables, k: KeycloakUser) {
    k.id in t.mappings && t.mappings[k.id].syncHash == env.hash(env.data(k))
  }

  lemma FirstShows(env: Env, o: Options, t: Tables, c: Counts, items: seq<Item>)
    requires Inv(t) && DistinctIds(items) && AllFresh(env, o, t, items) && !o.dryRun
    requires |items| > 0 && items[0].user.id !in c.failed
    ensures
      var k := items[0].user;
      var (after, r) := SyncAll(env, o, t, c, items);
      k.id !in r.failed && (o.forceUpdate || !Unchanged(env, t, k)) ==> ShowsData(env, after, k)
  {
    var k := items[0].user;
    var (next, outcome) := SyncOne(env, o, t, items[0]);
    var c' := Count(c, outcome, k.id);
    OthersFailAlone(env, o, next, c', items[1..], k.id);
    if !outcome.Failed? && (o.forceUpdate || !Unchanged(env, t, k)) {
      WritingShows(env, o, t, items[0]);
      SyncKeeps(env, o, t, items[0]);
      var profile := next.users[next.mappings[k.id].postgresId].profile;
      RunKeepsRow(env, o, next, c', items[1..], k.id, env.hash(env.data(k)), profile);
    }
  }

  /**
   After any run each of its users that is not among the errors, and was not skipped as unchanged,
   has a row that shows its data column by column, whatever was synced before and after it.
   */
  lemma {:induction false} RunShows(env: Env, o: Options, t: Tables, c: Counts, items: seq<Item>, i: nat)
    requires Inv(t) && DistinctIds(items) && AllFresh(env, o, t, items) && !o.dryRun
    requires i < |items| && items[i].user.id !in c.failed
    ensures
      var k := items[i].user;
      var (after, r) := SyncAll(env, o, t, c, items);
      k.id !in r.failed && (o.forceUpdate || !Unchanged(env, t, k)) ==> ShowsData(env, after, k)
    decreases |items|
  {
    if i == 0 {
      FirstShows(env, o, t, c, items);
    } else {
      var (next, outcome) := SyncOne(env, o, t, items[0]);
      SyncKeeps(env, o, t, items[0]);
      OthersUndisturbed(env, o, t, items[0], items[i].user.id);
      RunShows(env, o, next, Count(c, outcome, items[0].user.id), items[1..], i - 1);
    }
  }

  /** The row of a user who is not synced, or skipped as unchanged, is left as it is. */
  lemma {:induction false} RunSparesUnchanged(
      env: Env, o: Options, t: Tables, c: Counts, items: seq<Item>, k: KeycloakUser, profile: Profile)
    requires Inv(t) && AllFresh(env, o, t, items) && Holds(t, k.id, env.hash(env.data(k)), profile) && !o.forceUpdate
    requires forall i :: 0 <= i < |items| && items[i].user.id == k.id ==> items[i].user == k
    ensures Holds(SyncAll(env, o, t, c, items).0, k.id, env.hash(env.data(k)), profile)
    decreases |items|
  {
    if |items| > 0 {
      var (next, outcome) := SyncOne(env, o, t, items[0]);
      if items[0].user.id == k.id {
        OutcomeIs(env, o, t, items[0]);
        OthersWriteNothing(env, o, t, items[0]);
      } else {
        OthersKeepRows(env, o, t, items[0], k.id, env.hash(env.data(k)), profile);
      }
      SyncKeeps(env, o, t, items[0]);
      RunSparesUnchanged(env, o, next, Count(c, outcome, items[0].user.id), items[1..], k, profile);
    }
  }

  // ---------------------------------------------------------------- the counts

  /** What became of each user of a run, in order. */
  ghost function Outcomes(env: Env, o: Options, t: Tables, items: seq<Item>): (r: seq<Outcome>)
    ensures |r| == |items|
    decreases |items|
  {
    if |items| == 0 then []
    else [SyncOne(env, o, t, items[0]).1] + Outcomes(env, o, SyncOne(env, o, t, items[0]).0, items[1..])
  }

  ghost function HowMany(outcomes: seq<Outcome>, x: Outcome): nat {
    if |outcomes| == 0 then 0 else (if outcomes[0] == x then 1 else 0) + HowMany(outcomes[1..], x)
  }

  ghost function FailedOnes(items: seq<Item>, outcomes: seq<Outcome>): seq<string>
    requires |items| == |outcomes|
  {
    if |items| == 0 then []
    else (if outcomes[0].Failed? then [items[0].user.id] else []) + FailedOnes(items[1..], outcomes[1..])
  }

  /** The counts of a run are those of its outcomes, and the errors name the users that failed, in order. */
  lemma {:induction false} CountsTally(env: Env, o: Options, t: Tables, c: Counts, items: seq<Item>)
    ensures
      var r, outs := SyncAll(env, o, t, c, items).1, Outcomes(env, o, t, items);
      && r.created == c.created + HowMany(outs, Outcome.Created)
      && r.updated == c.updated + HowMany(outs, Updated)
      && r.skipped == c.skipped + HowMany(outs, Skipped)
      && r.failed == c.failed + FailedOnes(items, outs)
    decreases |items|
  {
    if |items| > 0 {
      var (next, outcome) := SyncOne(env, o, t, items[0]);
      CountsTally(env, o, next, Count(c, outcome, items[0].user.id), items[1..]);
      assert Outcomes(env, o, t, items)[1..] == Outcomes(env, o, next, items[1..]);
    }
  }

  // ---------------------------------------------------------------- the other direction

  /** A row sent to Keycloak gets the new id and keeps all else, and the user is mapped to it from then on. */
  lemma SyncBackDelivers(t: Tables, id: string, newId: string, hash: string, dryRun: bool)
    requires OneToOne(t) && newId !in t.mappings
    ensures
      var r := SyncBackEffect(t, id, newId, hash, dryRun);
      var sent := id in t.users && t.users[id].keycloakId.None? && !dryRun
        && forall p :: p in t.users && p != id ==>
             && t.users[p].keycloakId != Some(newId)
             && t.users[p].profile.username != t.users[id].profile.username
             && t.users[p].profile.email != t.users[id].profile.email;
      && r.users == (if sent then t.users[id := Row(Some(newId), t.users[id].profile)] else t.users)
      && r.mappings == (if sent then t.mappings[newId := Mapping(id, hash)] else t.mappings)
  {
  }
}
