/**
 The synchroniser's effect on the user table and the mapping table.

 Uniqueness constraints and faults of the user service are modelled: a failing call may leave a row
 behind without its mapping, as the code's non-nested transactions do.
 */
module UserSync {
  import opened Store
  import opened Decimal
  import opened SyncMapping

  datatype Row = Row(keycloakId: Option<string>, profile: Profile)

  datatype Mapping = Mapping(postgresId: string, syncHash: string)

  datatype Tables = Tables(users: map<string, Row>, mappings: map<string, Mapping>)

  /** What the service works with: the mapping of users to rows, the hash of a mapped row, and zero. */
  datatype Env = Env(data: KeycloakUser -> Profile, hash: Profile -> string, zero: Double)

  function ServiceEnv(c: Codec, hash: Profile -> string): Env {
    Env(k => ToPostgres(c, k), hash, c.zero)
  }

  datatype Options = Options(dryRun: bool, forceUpdate: bool, batchSize: nat)

  /** Where the user service fails, if it does: before writing the row, or after. */
  datatype Fault = NoFault | WriteFails | RolesFail

  /** A Keycloak user, with the id its row would get and the fault that would strike it. */
  datatype Item = Item(user: KeycloakUser, newId: string, fault: Fault)

  datatype Outcome = Created | Updated | Skipped | Failed

  datatype Counts = Counts(created: nat, updated: nat, skipped: nat, failed: seq<string>)

  function HashOf(env: Env, k: KeycloakUser): string { env.hash(env.data(k)) }

  /** What `createUser` stores: falsy numbers and missing lists get defaults. */
  function Stored(env: Env, d: Profile): Profile {
    d.(clearanceLevel := if NormalLevel(d.clearanceLevel) then d.clearanceLevel else Num(1),
       hierarchyLevel := if NormalLevel(d.hierarchyLevel) then d.hierarchyLevel else Num(1),
       riskScore := if d.riskScore.Some? then d.riskScore else Some(env.zero),
       customAttributes := if d.customAttributes.Some? then d.customAttributes else Some(Keyed(map[], map[])))
  }

  function Or<T>(newer: Option<T>, older: Option<T>): Option<T> {
    if newer.Some? then newer else older
  }

  /** What `updateUser` stores: an undefined field leaves the column as it is. */
  function Merged(o: Profile, d: Profile): Profile {
    d.(firstName := Or(d.firstName, o.firstName), lastName := Or(d.lastName, o.lastName),
       department := Or(d.department, o.department),
       contractExpiryDate := Or(d.contractExpiryDate, o.contractExpiryDate),
       managerId := Or(d.managerId, o.managerId), jobTitle := Or(d.jobTitle, o.jobTitle),
       businessUnit := Or(d.businessUnit, o.businessUnit),
       territorialJurisdiction := Or(d.territorialJurisdiction, o.territorialJurisdiction),
       workLocation := Or(d.workLocation, o.workLocation), phoneNumber := Or(d.phoneNumber, o.phoneNumber),
       nationality := Or(d.nationality, o.nationality), dateOfBirth := Or(d.dateOfBirth, o.dateOfBirth),
       gender := Or(d.gender, o.gender), customAttributes := Or(d.customAttributes, o.customAttributes))
  }

  /** The defaults for levels and risk are what an absent value is read as; nothing else is added. */
  lemma DefaultIsRead(c: Codec, hash: Profile -> string, d: Profile, key: Attr)
    ensures Read(c, key, Sent(c, Stored(ServiceEnv(c, hash), d), key)) == Read(c, key, Sent(c, d, key))
  {
    var u := Stored(ServiceEnv(c, hash), d);
    assert Override(u, key) == Override(d, key);
    if Override(d, key).None? {
      if key.ClearanceLevel? {
        LevelIsRead(c, key, u.clearanceLevel, d.clearanceLevel);
      } else if key.HierarchyLevel? {
        LevelIsRead(c, key, u.hierarchyLevel, d.hierarchyLevel);
      }
    }
  }

  lemma LevelIsRead(c: Codec, key: Attr, n: Number, m: Number)
    requires (key.ClearanceLevel? || key.HierarchyLevel?) && n == (if NormalLevel(m) then m else Num(1))
    ensures Read(c, key, ListOfLevel(n)) == Read(c, key, ListOfLevel(m))
  {
    LevelBack(n);
    LevelBack(m);
  }

  /**
   The defaults `createUser` fills in are invisible to Keycloak: a stored row is sent back, and read
   again, exactly as the mapped data it was created from would be.
   */
  lemma StoringIsInvisible(c: Codec, hash: Profile -> string, d: Profile)
    ensures RoundTrip(c, Stored(ServiceEnv(c, hash), d)) == RoundTrip(c, d)
  {
    var u := Stored(ServiceEnv(c, hash), d);
    LookAlike(c, u, d);
    assert Extract(Expand(u.customAttributes)) == Extract(Expand(d.customAttributes)) by {
      if d.customAttributes.None? {
        assert Expand(u.customAttributes).other == map[] == Expand(None).other;
      }
    }
    forall key
      ensures Read(c, key, Sent(c, u, key)) == Read(c, key, Sent(c, d, key))
    {
      DefaultIsRead(c, hash, d, key);
    }
  }

  predicate Covers<T>(newer: Option<T>, older: Option<T>) {
    newer.Some? || older.None?
  }

  /** No value of the row outlives its absence from the new data; an empty text reads as absent. */
  predicate Covered(o: Profile, d: Profile, key: Attr) {
    match key
    case Department => Covers(d.department, Keep(o.department))
    case ContractExpiryDate => Covers(d.contractExpiryDate, o.contractExpiryDate)
    case ManagerId => Covers(d.managerId, Keep(o.managerId))
    case JobTitle => Covers(d.jobTitle, Keep(o.jobTitle))
    case BusinessUnit => Covers(d.businessUnit, Keep(o.businessUnit))
    case TerritorialJurisdiction => Covers(d.territorialJurisdiction, Keep(o.territorialJurisdiction))
    case WorkLocation => Covers(d.workLocation, Keep(o.workLocation))
    case PhoneNumber => Covers(d.phoneNumber, Keep(o.phoneNumber))
    case Nationality => Covers(d.nationality, Keep(o.nationality))
    case DateOfBirth => Covers(d.dateOfBirth, o.dateOfBirth)
    case Gender => Covers(d.gender, Keep(o.gender))
    case _ => true
  }

  /**
   Nothing stale under a standard key: the new data override it, or an override that stays in the
   row reads as the new data do, or the column is covered.
   */
  predicate FreshAt(c: Codec, o: Profile, d: Profile, key: Attr) {
    if Override(d, key).Some? then true
    else if d.customAttributes.None? && Override(o, key).Some? then
      Read(c, key, Override(o, key).value) == Read(c, key, StandardValue(c, d, key))
    else Covered(o, d, key)
  }

  ghost predicate NothingStale(c: Codec, o: Profile, d: Profile) {
    && Covers(d.firstName, o.firstName) && Covers(d.lastName, o.lastName)
    && Covers(d.customAttributes, Extract(Expand(o.customAttributes)))
    && forall key :: FreshAt(c, o, d, key)
  }

  lemma CustomShows(o: Profile, d: Profile)
    ensures Extract(Expand(Merged(o, d).customAttributes)) == Extract(Expand(d.customAttributes))
      <==> Covers(d.customAttributes, Extract(Expand(o.customAttributes)))
  {
    if d.customAttributes.None? {
      assert Expand(None).other == map[];
    }
  }

  lemma TextShows(newer: Option<string>, older: Option<string>)
    ensures FirstOf(ListOf(Or(newer, older))) == FirstOf(ListOf(newer)) <==> Covers(newer, Keep(older))
  {
  }

  lemma DateShows(c: Codec, newer: Option<int>, older: Option<int>)
    requires older.Some? ==> DateLaw(c, older.value)
    ensures ParseDate(c, FirstOf(ListOfDate(c, Or(newer, older)))) == ParseDate(c, FirstOf(ListOfDate(c, newer)))
      <==> Covers(newer, older)
  {
  }

  /** Without an override a column shows its new value exactly if it is covered. */
  lemma ColumnShows(c: Codec, o: Profile, d: Profile, key: Attr)
    requires Lawful(c, o)
    ensures Read(c, key, StandardValue(c, Merged(o, d), key)) == Read(c, key, StandardValue(c, d, key))
      <==> Covered(o, d, key)
  {
    match key
    case Department => TextShows(d.department, o.department);
    case ContractExpiryDate => DateShows(c, d.contractExpiryDate, o.contractExpiryDate);
    case ManagerId => TextShows(d.managerId, o.managerId);
    case JobTitle => TextShows(d.jobTitle, o.jobTitle);
    case BusinessUnit => TextShows(d.businessUnit, o.businessUnit);
    case TerritorialJurisdiction => TextShows(d.territorialJurisdiction, o.territorialJurisdiction);
    case WorkLocation => TextShows(d.workLocation, o.workLocation);
    case PhoneNumber => TextShows(d.phoneNumber, o.phoneNumber);
    case Nationality => TextShows(d.nationality, o.nationality);
    case DateOfBirth => DateShows(c, d.dateOfBirth, o.dateOfBirth);
    case Gender => TextShows(d.gender, o.gender);
    case _ =>
  }

  lemma KeyShows(c: Codec, o: Profile, d: Profile, key: Attr)
    requires Lawful(c, o)
    ensures Read(c, key, Sent(c, Merged(o, d), key)) == Read(c, key, Sent(c, d, key)) <==> FreshAt(c, o, d, key)
  {
    var m := Merged(o, d);
    assert Override(m, key) == if d.customAttributes.Some? then Override(d, key) else Override(o, key);
    if Override(m, key).None? {
      ColumnShows(c, o, d, key);
    }
  }

  /**
   An updated row is sent back to Keycloak, and read again, as the data it was updated with would be,
   exactly when no column holds a value that Keycloak no longer has: clearing a field in Keycloak
   never clears it in the table, and neither does an override of a standard key ever go away.
   */
  lemma UpdateShowsIffNothingStale(c: Codec, o: Profile, d: Profile)
    requires Lawful(c, o)
    ensures RoundTrip(c, Merged(o, d)) == RoundTrip(c, d) <==> NothingStale(c, o, d)
  {
    LookAlike(c, Merged(o, d), d);
    CustomShows(o, d);
    forall key
      ensures Read(c, key, Sent(c, Merged(o, d), key)) == Read(c, key, Sent(c, d, key)) <==> FreshAt(c, o, d, key)
    {
      KeyShows(c, o, d, key);
    }
  }

  /** The unique columns: Keycloak id, user name and e-mail address. */
  predicate Conflict(a: Row, b: Row) {
    || (a.keycloakId.Some? && a.keycloakId == b.keycloakId)
    || a.profile.username == b.profile.username
    || a.profile.email == b.profile.email
  }

  /** Whether the table accepts a row under an id, next to the rows of all other ids. */
  predicate Accepts(users: map<string, Row>, id: string, row: Row) {
    forall p :: p in users && p != id ==> !Conflict(users[p], row)
  }

  /** The user service writes a row unless it conflicts, and may fail before the write or after it. */
  function Save(users: map<string, Row>, id: string, row: Row, fault: Fault): (map<string, Row>, bool) {
    if fault.WriteFails? || !Accepts(users, id, row) then (users, false) else (users[id := row], !fault.RolesFail?)
  }

  /** Numbers that were not read are NaN, which the table refuses when a row is updated. */
  predicate NumbersRead(d: Profile) {
    d.clearanceLevel.Num? && d.hierarchyLevel.Num? && d.riskScore.Some?
  }

  function UpdateFault(env: Env, item: Item): Fault {
    if NumbersRead(env.data(item.user)) then item.fault else WriteFails
  }

  function UpdatedRow(env: Env, row: Row, k: KeycloakUser): Row {
    Row(Some(k.id), Merged(row.profile, env.data(k)))
  }

  function NewRow(env: Env, k: KeycloakUser): Row {
    Row(Some(k.id), Stored(env, env.data(k)))
  }

  function Update(env: Env, t: Tables, item: Item): (Tables, Outcome)
    requires item.user.id in t.mappings && t.mappings[item.user.id].postgresId in t.users
  {
    var k := item.user;
    var p := t.mappings[k.id].postgresId;
    var (users, ok) := Save(t.users, p, UpdatedRow(env, t.users[p], k), UpdateFault(env, item));
    if !ok then (Tables(users, t.mappings), Failed)
    else (Tables(users, t.mappings[k.id := Mapping(p, HashOf(env, k))]), Updated)
  }

  function Create(env: Env, t: Tables, item: Item): (Tables, Outcome) {
    var k := item.user;
    var (users, ok) := Save(t.users, item.newId, NewRow(env, k), item.fault);
    if !ok || k.id in t.mappings then (Tables(users, t.mappings), Failed)
    else (Tables(users, t.mappings[k.id := Mapping(item.newId, HashOf(env, k))]), Outcome.Created)
  }

  function SyncOne(env: Env, o: Options, t: Tables, item: Item): (Tables, Outcome) {
    var k := item.user;
    if k.id in t.mappings && t.mappings[k.id].syncHash == HashOf(env, k) && !o.forceUpdate then (t, Skipped)
    else if k.id in t.mappings && t.mappings[k.id].postgresId in t.users then
      if o.dryRun then (t, Updated) else Update(env, t, item)
    else if o.dryRun then (t, Outcome.Created)
    else Create(env, t, item)
  }

  function Count(c: Counts, outcome: Outcome, id: string): Counts {
    match outcome
    case Created => c.(created := c.created + 1)
    case Updated => c.(updated := c.updated + 1)
    case Skipped => c.(skipped := c.skipped + 1)
    case Failed => c.(failed := c.failed + [id])
  }

  function SyncAll(env: Env, o: Options, t: Tables, c: Counts, items: seq<Item>): (Tables, Counts)
    decreases |items|
  {
    if |items| == 0 then (t, c)
    else
      var (t', outcome) := SyncOne(env, o, t, items[0]);
      SyncAll(env, o, t', Count(c, outcome, items[0].user.id), items[1..])
  }

  const NONE := Counts(0, 0, 0, [])

  // ---------------------------------------------------------------- runs over distinct users

  ghost predicate DistinctIds(items: seq<Item>) {
    forall i, j :: 0 <= i < j < |items| ==> items[i].user.id != items[j].user.id
  }

  /** A new row's id is new to both tables. */
  ghost predicate FreshId(t: Tables, id: string) {
    id !in t.users && forall k :: k in t.mappings ==> t.mappings[k].postgresId != id
  }

  ghost predicate AllFresh(env: Env, o: Options, t: Tables, items: seq<Item>)
    decreases |items|
  {
    |items| == 0 || (FreshId(t, items[0].newId) && AllFresh(env, o, SyncOne(env, o, t, items[0]).0, items[1..]))
  }

  /** No user fails. */
  ghost predicate ErrorFree(env: Env, o: Options, t: Tables, items: seq<Item>)
    decreases |items|
  {
    |items| == 0 ||
    (!SyncOne(env, o, t, items[0]).1.Failed? && ErrorFree(env, o, SyncOne(env, o, t, items[0]).0, items[1..]))
  }

  /** Two tables look the same to the decision made for one Keycloak id. */
  ghost predicate SameFor(t: Tables, d: Tables, id: string) {
    && (id in t.mappings <==> id in d.mappings)
    && (id in t.mappings ==>
          && t.mappings[id] == d.mappings[id]
          && (t.mappings[id].postgresId in t.users <==> d.mappings[id].postgresId in d.users))
  }

  lemma OthersUndisturbed(env: Env, o: Options, t: Tables, item: Item, id: string)
    requires FreshId(t, item.newId) && id != item.user.id
    ensures SameFor(SyncOne(env, o, t, item).0, t, id)
  {
  }

  lemma {:induction false} DryRunMatches(env: Env, o: Options, t: Tables, d: Tables, c: Counts, items: seq<Item>)
    requires DistinctIds(items) && AllFresh(env, o, t, items) && ErrorFree(env, o, t, items) && !o.dryRun
    requires forall i :: 0 <= i < |items| ==> SameFor(t, d, items[i].user.id)
    ensures SyncAll(env, o.(dryRun := true), d, c, items) == (d, SyncAll(env, o, t, c, items).1)
    decreases |items|
  {
    if |items| > 0 {
      var (next, outcome) := SyncOne(env, o, t, items[0]);
      assert SameFor(t, d, items[0].user.id);
      assert SyncOne(env, o.(dryRun := true), d, items[0]) == (d, outcome);
      forall i | 0 <= i < |items[1..]|
        ensures SameFor(next, d, items[1..][i].user.id)
      {
        assert SameFor(t, d, items[i + 1].user.id);
        OthersUndisturbed(env, o, t, items[0], items[i + 1].user.id);
      }
      DryRunMatches(env, o, next, d, Count(c, outcome, items[0].user.id), items[1..]);
    }
  }

  /** A dry run changes no table and reports what an error-free real run from there reports. */
  lemma DryRunIsFaithful(env: Env, o: Options, t: Tables, items: seq<Item>)
    requires DistinctIds(items) && AllFresh(env, o, t, items) && ErrorFree(env, o, t, items) && !o.dryRun
    ensures SyncAll(env, o.(dryRun := true), t, NONE, items) == (t, SyncAll(env, o, t, NONE, items).1)
  {
    DryRunMatches(env, o, t, t, NONE, items);
  }

  /** The mapping of a user carries the hash of its current data. */
  ghost predicate Settled(env: Env, t: Tables, k: KeycloakUser) {
    k.id in t.mappings && t.mappings[k.id].syncHash == HashOf(env, k)
  }

  lemma SyncSettles(env: Env, o: Options, t: Tables, item: Item)
    requires !o.dryRun && !SyncOne(env, o, t, item).1.Failed?
    ensures Settled(env, SyncOne(env, o, t, item).0, item.user)
  {
  }

  lemma {:induction false} StaysSettled(env: Env, o: Options, t: Tables, c: Counts, items: seq<Item>, k: KeycloakUser)
    requires AllFresh(env, o, t, items) && Settled(env, t, k)
    requires forall i :: 0 <= i < |items| ==> items[i].user.id != k.id
    ensures Settled(env, SyncAll(env, o, t, c, items).0, k)
    decreases |items|
  {
    if |items| > 0 {
      var (next, outcome) := SyncOne(env, o, t, items[0]);
      OthersUndisturbed(env, o, t, items[0], k.id);
      StaysSettled(env, o, next, Count(c, outcome, items[0].user.id), items[1..], k);
    }
  }

  lemma {:induction false} RunSettles(env: Env, o: Options, t: Tables, c: Counts, items: seq<Item>, i: nat)
    requires DistinctIds(items) && AllFresh(env, o, t, items) && ErrorFree(env, o, t, items) && !o.dryRun
    requires i < |items|
    ensures Settled(env, SyncAll(env, o, t, c, items).0, items[i].user)
    decreases |items|
  {
    var (next, outcome) := SyncOne(env, o, t, items[0]);
    var c' := Count(c, outcome, items[0].user.id);
    if i == 0 {
      SyncSettles(env, o, t, items[0]);
      StaysSettled(env, o, next, c', items[1..], items[0].user);
    } else {
      RunSettles(env, o, next, c', items[1..], i - 1);
    }
  }

  lemma {:induction false} SettledIsSkipped(env: Env, o: Options, t: Tables, c: Counts, items: seq<Item>)
    requires !o.forceUpdate && forall i :: 0 <= i < |items| ==> Settled(env, t, items[i].user)
    ensures SyncAll(env, o, t, c, items) == (t, c.(skipped := c.skipped + |items|))
    decreases |items|
  {
    if |items| > 0 {
      assert Settled(env, t, items[0].user);
      SettledIsSkipped(env, o, t, Count(c, Skipped, items[0].user.id), items[1..]);
    }
  }

  lemma AllSettled(env: Env, o: Options, t: Tables, items: seq<Item>, after: Tables)
    requires DistinctIds(items) && AllFresh(env, o, t, items) && ErrorFree(env, o, t, items) && !o.dryRun
    requires after == SyncAll(env, o, t, NONE, items).0
    ensures forall i :: 0 <= i < |items| ==> Settled(env, after, items[i].user)
  {
    forall i | 0 <= i < |items| {
      RunSettles(env, o, t, NONE, items, i);
    }
  }

  lemma IdleWhenSettled(env: Env, o: Options, t: Tables, items: seq<Item>)
    requires !o.forceUpdate && forall i :: 0 <= i < |items| ==> Settled(env, t, items[i].user)
    ensures SyncAll(env, o, t, NONE, items) == (t, Counts(0, 0, |items|, []))
  {
    SettledIsSkipped(env, o, t, NONE, items);
  }

  /** After an error-free run a second one on the same users does nothing and reports nothing. */
  lemma SecondRunIsIdle(env: Env, o: Options, t: Tables, items: seq<Item>, again: Options, retry: seq<Item>)
    requires DistinctIds(items) && AllFresh(env, o, t, items) && ErrorFree(env, o, t, items) && !o.dryRun
    requires !again.forceUpdate
    requires |retry| == |items| && forall i :: 0 <= i < |items| ==> retry[i].user == items[i].user
    ensures
      var after := SyncAll(env, o, t, NONE, items).0;
      SyncAll(env, again, after, NONE, retry) == (after, Counts(0, 0, |items|, []))
  {
    var after := SyncAll(env, o, t, NONE, items).0;
    assert forall i :: 0 <= i < |retry| ==> Settled(env, after, retry[i].user) by {
      AllSettled(env, o, t, items, after);
    }
    IdleWhenSettled(env, again, after, retry);
  }

  /** Every user is counted once, as created, updated, skipped or failed. */
  lemma {:induction false} EveryUserCounted(env: Env, o: Options, t: Tables, c: Counts, items: seq<Item>)
    ensures
      var r := SyncAll(env, o, t, c, items).1;
      r.created + r.updated + r.skipped + |r.failed| == c.created + c.updated + c.skipped + |c.failed| + |items|
    decreases |items|
  {
    if |items| > 0 {
      var (next, outcome) := SyncOne(env, o, t, items[0]);
      EveryUserCounted(env, o, next, Count(c, outcome, items[0].user.id), items[1..]);
    }
  }

  lemma {:induction false} SyncInParts(env: Env, o: Options, t: Tables, c: Counts, a: seq<Item>, b: seq<Item>)
    ensures
      var (m, d) := SyncAll(env, o, t, c, a);
      SyncAll(env, o, t, c, a + b) == SyncAll(env, o, m, d, b)
    decreases |a|
  {
    if |a| == 0 {
      assert a + b == b;
    } else {
      assert (a + b)[1..] == a[1..] + b;
      var (next, outcome) := SyncOne(env, o, t, a[0]);
      SyncInParts(env, o, next, Count(c, outcome, a[0].user.id), a[1..], b);
    }
  }

  // ---------------------------------------------------------------- the one-to-one mapping

  ghost predicate UniqueRows(users: map<string, Row>) {
    forall p, q :: p in users && q in users && p != q ==> !Conflict(users[p], users[q])
  }

  /** No two Keycloak ids share a row, and a mapped row that exists carries its Keycloak id. */
  ghost predicate OneToOne(t: Tables) {
    && (forall k :: k in t.mappings && t.mappings[k].postgresId in t.users ==>
          t.users[t.mappings[k].postgresId].keycloakId == Some(k))
    && (forall k, l :: k in t.mappings && l in t.mappings && k != l ==>
          t.mappings[k].postgresId != t.mappings[l].postgresId)
  }

  ghost predicate Inv(t: Tables) { UniqueRows(t.users) && OneToOne(t) }

  // ---------------------------------------------------------------- what a run delivers

  /** The user has a row of its own that carries its Keycloak id. */
  ghost predicate Delivered(t: Tables, k: KeycloakUser) {
    && k.id in t.mappings && t.mappings[k.id].postgresId in t.users
    && t.users[t.mappings[k.id].postgresId].keycloakId == Some(k.id)
  }

  /** A mapping whose row is gone. */
  predicate Orphaned(t: Tables, k: KeycloakUser) {
    k.id in t.mappings && t.mappings[k.id].postgresId !in t.users
  }

  lemma SaveKeepsUnique(users: map<string, Row>, id: string, row: Row, fault: Fault)
    requires UniqueRows(users)
    ensures UniqueRows(Save(users, id, row, fault).0)
  {
    if Accepts(users, id, row) {
      WriteKeepsUnique(users, id, row);
    }
  }

  lemma WriteKeepsUnique(users: map<string, Row>, id: string, row: Row)
    requires UniqueRows(users) && Accepts(users, id, row)
    ensures UniqueRows(users[id := row])
  {
    var r := users[id := row];
    forall p, q | p in r && q in r && p != q
      ensures !Conflict(r[p], r[q])
    {
      if p == id {
        assert !Conflict(users[q], row);
      } else if q == id {
        assert !Conflict(users[p], row);
      } else {
        assert !Conflict(users[p], users[q]);
      }
    }
  }

  /** Updating a mapped user, even when it fails half-way, keeps the mapping one-to-one. */
  lemma UpdateKeeps(env: Env, t: Tables, item: Item)
    requires Inv(t) && item.user.id in t.mappings && t.mappings[item.user.id].postgresId in t.users
    ensures Inv(Update(env, t, item).0)
  {
    var p := t.mappings[item.user.id].postgresId;
    SaveKeepsUnique(t.users, p, UpdatedRow(env, t.users[p], item.user), UpdateFault(env, item));
  }

  lemma CreateKeeps(env: Env, t: Tables, item: Item)
    requires Inv(t) && FreshId(t, item.newId)
    ensures Inv(Create(env, t, item).0)
  {
    SaveKeepsUnique(t.users, item.newId, NewRow(env, item.user), item.fault);
  }

  lemma SyncKeeps(env: Env, o: Options, t: Tables, item: Item)
    requires Inv(t) && FreshId(t, item.newId)
    ensures Inv(SyncOne(env, o, t, item).0)
  {
    if item.user.id in t.mappings && t.mappings[item.user.id].postgresId in t.users {
      UpdateKeeps(env, t, item);
    } else {
      CreateKeeps(env, t, item);
    }
  }

  /** After its own sync a user has its row unless that was lost before, or had to be created in vain. */
  lemma SyncDelivers(env: Env, o: Options, t: Tables, item: Item)
    requires OneToOne(t) && FreshId(t, item.newId) && !o.dryRun
    ensures Delivered(SyncOne(env, o, t, item).0, item.user)
      <==> !Orphaned(t, item.user) && (item.user.id in t.mappings || !SyncOne(env, o, t, item).1.Failed?)
  {
  }

  /** Syncing others neither takes a user's row nor gives it one. */
  lemma {:induction false} OthersDeliverNothing(
    env: Env, o: Options, t: Tables, c: Counts, items: seq<Item>, k: KeycloakUser)
    requires Inv(t) && AllFresh(env, o, t, items)
    requires forall i :: 0 <= i < |items| ==> items[i].user.id != k.id
    ensures Delivered(SyncAll(env, o, t, c, items).0, k) <==> Delivered(t, k)
    decreases |items|
  {
    if |items| > 0 {
      var (next, outcome) := SyncOne(env, o, t, items[0]);
      OthersUndisturbed(env, o, t, items[0], k.id);
      SyncKeeps(env, o, t, items[0]);
      OthersDeliverNothing(env, o, next, Count(c, outcome, items[0].user.id), items[1..], k);
    }
  }

  /** Syncing others adds nothing about a user to the errors. */
  lemma {:induction false} OthersFailAlone(
    env: Env, o: Options, t: Tables, c: Counts, items: seq<Item>, id: string)
    requires forall i :: 0 <= i < |items| ==> items[i].user.id != id
    ensures id in SyncAll(env, o, t, c, items).1.failed <==> id in c.failed
    decreases |items|
  {
    if |items| > 0 {
      var (next, outcome) := SyncOne(env, o, t, items[0]);
      OthersFailAlone(env, o, next, Count(c, outcome, items[0].user.id), items[1..], id);
    }
  }

  lemma FirstIsDelivered(env: Env, o: Options, t: Tables, c: Counts, items: seq<Item>)
    requires Inv(t) && DistinctIds(items) && AllFresh(env, o, t, items) && !o.dryRun
    requires |items| > 0 && items[0].user.id !in c.failed
    ensures
      var k := items[0].user;
      var (after, r) := SyncAll(env, o, t, c, items);
      Delivered(after, k) <==> !Orphaned(t, k) && (k.id in t.mappings || k.id !in r.failed)
  {
    var (next, outcome) := SyncOne(env, o, t, items[0]);
    var c' := Count(c, outcome, items[0].user.id);
    SyncDelivers(env, o, t, items[0]);
    SyncKeeps(env, o, t, items[0]);
    OthersDeliverNothing(env, o, next, c', items[1..], items[0].user);
    OthersFailAlone(env, o, next, c', items[1..], items[0].user.id);
    assert items[0].user.id in c'.failed <==> outcome.Failed?;
  }

  lemma DecidedAlike(env: Env, t: Tables, d: Tables, k: KeycloakUser)
    requires SameFor(t, d, k.id)
    ensures Orphaned(t, k) == Orphaned(d, k) && (k.id in t.mappings <==> k.id in d.mappings)
  {
  }

  /**
   After any run, failures included, a user has a row of its own exactly if its mapping had not lost
   its row before, and, where there was no mapping yet, the user is not among the errors.
   */
  lemma {:induction false} RunDelivers(env: Env, o: Options, t: Tables, c: Counts, items: seq<Item>, i: nat)
    requires Inv(t) && DistinctIds(items) && AllFresh(env, o, t, items) && !o.dryRun
    requires i < |items| && items[i].user.id !in c.failed
    ensures
      var k := items[i].user;
      var (after, r) := SyncAll(env, o, t, c, items);
      Delivered(after, k) <==> !Orphaned(t, k) && (k.id in t.mappings || k.id !in r.failed)
    decreases |items|
  {
    if i == 0 {
      FirstIsDelivered(env, o, t, c, items);
    } else {
      var (next, outcome) := SyncOne(env, o, t, items[0]);
      SyncKeeps(env, o, t, items[0]);
      OthersUndisturbed(env, o, t, items[0], items[i].user.id);
      DecidedAlike(env, next, t, items[i].user);
      RunDelivers(env, o, next, Count(c, outcome, items[0].user.id), items[1..], i - 1);
    }
  }

  /**
   What syncing a user whose row is gone does: without force and with unchanged data it is skipped,
   else it fails and its mapping stays, though a dry run announces a creation; and the failing sync
   leaves a row behind, mapped to nobody, whenever the user service accepts it.
   */
  lemma OrphanFails(env: Env, o: Options, t: Tables, item: Item)
    requires Orphaned(t, item.user) && FreshId(t, item.newId)
    ensures
      var (next, outcome) := SyncOne(env, o, t, item);
      var tried := o.forceUpdate || !Settled(env, t, item.user);
      && outcome == (if !tried then Skipped else if o.dryRun then Outcome.Created else Failed)
      && next.mappings == t.mappings
      && (next.users != t.users <==>
            tried && !o.dryRun && !item.fault.WriteFails? && Accepts(t.users, item.newId, NewRow(env, item.user)))
      && (next.users != t.users ==>
            && next.users == t.users[item.newId := NewRow(env, item.user)]
            && forall k :: k in next.mappings ==> next.mappings[k].postgresId != item.newId)
  {
    var users := t.users[item.newId := NewRow(env, item.user)];
    assert item.newId in users && item.newId !in t.users;
  }

  /** Once such a row has been left behind, no later attempt leaves another. */
  lemma OneRowIsLeftBehind(env: Env, o: Options, t: Tables, item: Item, p: string)
    requires Orphaned(t, item.user) && FreshId(t, item.newId)
    requires p in t.users && t.users[p].keycloakId == Some(item.user.id)
    ensures SyncOne(env, o, t, item).0 == t
  {
    assert Conflict(t.users[p], NewRow(env, item.user));
    OrphanFails(env, o, t, item);
  }

  lemma OrphanStays(env: Env, o: Options, t: Tables, item: Item, k: KeycloakUser)
    requires FreshId(t, item.newId) && Orphaned(t, k)
    ensures Orphaned(SyncOne(env, o, t, item).0, k)
  {
    if item.user.id != k.id {
      OthersUndisturbed(env, o, t, item, k.id);
    }
  }

  /** No run of any kind, forced or not, repairs a mapping whose row is gone. */
  lemma {:induction false} OrphansAreNeverRepaired(
    env: Env, o: Options, t: Tables, c: Counts, items: seq<Item>, k: KeycloakUser)
    requires AllFresh(env, o, t, items) && Orphaned(t, k)
    ensures Orphaned(SyncAll(env, o, t, c, items).0, k)
    decreases |items|
  {
    if |items| > 0 {
      var (next, outcome) := SyncOne(env, o, t, items[0]);
      OrphanStays(env, o, t, items[0], k);
      OrphansAreNeverRepaired(env, o, next, Count(c, outcome, items[0].user.id), items[1..], k);
    }
  }

  // ---------------------------------------------------------------- all writers of the tables

  /**
   The writers of the two tables: both sync directions, the user service (creation, with or without
   a Keycloak id, edits including logical deletion, physical deletion), and the deletion of mappings.
   */
  datatype Op =
    | Sync(options: Options, item: Item)
    | SyncBack(id: string, newKeycloakId: string, hash: string, dryRun: bool)
    | CreateLocal(id: string, row: Row)
    | Edit(id: string, profile: Profile)
    | DeleteUser(id: string)
    | DeleteMapping(keycloakId: string)

  /** A row without Keycloak id is given one, then mapped; other rows only update Keycloak. */
  function SyncBackEffect(t: Tables, id: string, newKeycloakId: string, hash: string, dryRun: bool): Tables {
    if id !in t.users || t.users[id].keycloakId.Some? || dryRun then t
    else
      var row := t.users[id].(keycloakId := Some(newKeycloakId));
      if !Accepts(t.users, id, row) then t
      else
        var users := t.users[id := row];
        if newKeycloakId in t.mappings || exists k :: k in t.mappings && t.mappings[k].postgresId == id
        then Tables(users, t.mappings)
        else Tables(users, t.mappings[newKeycloakId := Mapping(id, hash)])
  }

  function Apply(env: Env, t: Tables, op: Op): Tables {
    match op
    case Sync(options, item) => SyncOne(env, options, t, item).0
    case SyncBack(id, newKeycloakId, hash, dryRun) => SyncBackEffect(t, id, newKeycloakId, hash, dryRun)
    case CreateLocal(id, row) => Tables(Save(t.users, id, row, NoFault).0, t.mappings)
    case Edit(id, profile) =>
      if id in t.users then Tables(Save(t.users, id, t.users[id].(profile := profile), NoFault).0, t.mappings) else t
    case DeleteUser(id) => Tables(t.users - {id}, t.mappings)
    case DeleteMapping(keycloakId) => Tables(t.users, t.mappings - {keycloakId})
  }

  /** Row ids are fresh; a Keycloak id just assigned has never been seen. */
  ghost predicate Enabled(t: Tables, op: Op) {
    match op
    case Sync(_, item) => FreshId(t, item.newId)
    case SyncBack(_, newKeycloakId, _, _) => newKeycloakId !in t.mappings
    case CreateLocal(id, _) => FreshId(t, id)
    case _ => true
  }

  ghost predicate Legal(env: Env, t: Tables, ops: seq<Op>)
    decreases |ops|
  {
    |ops| == 0 || (Enabled(t, ops[0]) && Legal(env, Apply(env, t, ops[0]), ops[1..]))
  }

  ghost function Run(env: Env, t: Tables, ops: seq<Op>): Tables
    decreases |ops|
  {
    if |ops| == 0 then t else Run(env, Apply(env, t, ops[0]), ops[1..])
  }

  lemma SyncBackKeeps(env: Env, t: Tables, op: Op)
    requires Inv(t) && op.SyncBack? && Enabled(t, op)
    ensures Inv(Apply(env, t, op))
  {
    if op.id in t.users && t.users[op.id].keycloakId.None? {
      var row := t.users[op.id].(keycloakId := Some(op.newKeycloakId));
      if Accepts(t.users, op.id, row) {
        WriteKeepsUnique(t.users, op.id, row);
      }
    }
  }

  lemma LocalKeeps(env: Env, t: Tables, op: Op)
    requires Inv(t) && (op.CreateLocal? || op.Edit?) && Enabled(t, op)
    ensures Inv(Apply(env, t, op))
  {
    if op.CreateLocal? {
      SaveKeepsUnique(t.users, op.id, op.row, NoFault);
    } else if op.id in t.users {
      SaveKeepsUnique(t.users, op.id, t.users[op.id].(profile := op.profile), NoFault);
    }
  }

  lemma StepKeeps(env: Env, t: Tables, op: Op)
    requires Inv(t) && Enabled(t, op)
    ensures Inv(Apply(env, t, op))
  {
    match op {
      case Sync(options, item) => SyncKeeps(env, options, t, item);
      case SyncBack(_, _, _, _) => SyncBackKeeps(env, t, op);
      case CreateLocal(_, _) => LocalKeeps(env, t, op);
      case Edit(_, _) => LocalKeeps(env, t, op);
      case DeleteUser(_) =>
      case DeleteMapping(_) =>
    }
  }

  /** In every run, faults included, the mapping stays one-to-one. */
  lemma {:induction false} MappingStaysOneToOne(env: Env, t: Tables, ops: seq<Op>)
    requires Inv(t) && Legal(env, t, ops)
    ensures OneToOne(Run(env, t, ops)) && Inv(Run(env, t, ops))
    decreases |ops|
  {
    if |ops| > 0 {
      StepKeeps(env, t, ops[0]);
      MappingStaysOneToOne(env, Apply(env, t, ops[0]), ops[1..]);
    }
  }
}
