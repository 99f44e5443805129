/** The synchroniser's loops: paging through the server's users and syncing them batch by batch. */
module UserSyncService {
  import opened Store
  import opened SyncMapping
  import opened UserSync

  const PAGE := 100
  const DEFAULT_BATCH := 50

  datatype SyncResult = SyncResult(processed: nat, created: nat, updated: nat, errors: seq<string>)

  function Least(a: nat, b: nat): nat { if a < b then a else b }

  /** The server's answer to a page request, for a list that stays as it is. */
  function Page<T>(server: seq<T>, first: nat, max: nat): seq<T> {
    if first < |server| then server[first..Least(first + max, |server|)] else []
  }

  /** Asks page after page until an empty or short one: the whole list, once, in order. */
  method GetAllKeycloakUsers<T>(server: seq<T>) returns (users: seq<T>)
    ensures users == server
  {
    users := [];
    var first := 0;
    while true
      invariant users == server[..Least(first, |server|)]
      decreases |server| + PAGE - first
    {
      var batch := Page(server, first, PAGE);
      if |batch| == 0 {
        break;
      }
      users := users + batch;
      first := first + PAGE;
      if |batch| < PAGE {
        break;
      }
    }
  }

  /** The tables and counts after the first n users. */
  ghost predicate SyncedUpTo(env: Env, o: Options, before: Tables, items: seq<Item>, n: nat, t: Tables, c: Counts)
    requires n <= |items|
  {
    (t, c) == SyncAll(env, o, before, NONE, items[..n])
  }

  lemma NothingDone(env: Env, o: Options, before: Tables, items: seq<Item>)
    ensures SyncedUpTo(env, o, before, items, 0, before, NONE)
  {
    assert items[..0] == [];
  }

  lemma BatchAdds(env: Env, o: Options, before: Tables, items: seq<Item>, i: nat, next: nat, t: Tables, c: Counts)
    requires i <= next <= |items| && SyncedUpTo(env, o, before, items, i, t, c)
    ensures
      var (t', c') := SyncAll(env, o, t, c, items[i..next]);
      SyncedUpTo(env, o, before, items, next, t', c')
  {
    SyncInParts(env, o, before, NONE, items[..i], items[i..next]);
    assert items[..i] + items[i..next] == items[..next];
  }

  class KeycloakPostgresSyncService {
    const env: Env
    var users: map<string, Row>
    var mappings: map<string, Mapping>

    ghost function View(): Tables
      reads this
    {
      Tables(users, mappings)
    }

    constructor (codec: Codec, hash: Profile -> string, users: map<string, Row>, mappings: map<string, Mapping>)
      ensures env == ServiceEnv(codec, hash) && View() == Tables(users, mappings)
    {
      this.env, this.users, this.mappings := ServiceEnv(codec, hash), users, mappings;
    }

    /** The user service's `updateUser` and the role updates after it. */
    method UpdateExistingUser(id: string, item: Item) returns (ok: bool)
      requires id in users
      modifies this`users
      ensures (users, ok) == Save(old(users), id, UpdatedRow(env, old(users)[id], item.user), UpdateFault(env, item))
      ensures UniqueRows(old(users)) ==> UniqueRows(users)
      ensures users.Keys == old(users).Keys && forall p :: p in users && p != id ==> users[p] == old(users)[p]
      ensures ok ==> users[id].keycloakId == Some(item.user.id)
    {
      var row := UpdatedRow(env, users[id], item.user);
      if UniqueRows(users) {
        SaveKeepsUnique(users, id, row, UpdateFault(env, item));
      }
      var fault := UpdateFault(env, item);
      if fault.WriteFails? || !Accepts(users, id, row) {
        return false;
      }
      users := users[id := row];
      return !fault.RolesFail?;
    }

    /** The user service's `createUser` and the role assignments after it. */
    method CreateNewUser(item: Item) returns (ok: bool)
      modifies this`users
      ensures (users, ok) == Save(old(users), item.newId, NewRow(env, item.user), item.fault)
      ensures UniqueRows(old(users)) ==> UniqueRows(users)
      ensures users.Keys <= old(users).Keys + {item.newId}
      ensures forall p :: p in old(users) && p != item.newId ==> p in users && users[p] == old(users)[p]
      ensures ok ==> item.newId in users && users[item.newId].keycloakId == Some(item.user.id)
    {
      var row := NewRow(env, item.user);
      if UniqueRows(users) {
        SaveKeepsUnique(users, item.newId, row, item.fault);
      }
      if item.fault.WriteFails? || !Accepts(users, item.newId, row) {
        return false;
      }
      users := users[item.newId := row];
      return !item.fault.RolesFail?;
    }

    method SyncKeycloakUserToPostgres(item: Item, o: Options) returns (outcome: Outcome)
      modifies this
      ensures (View(), outcome) == SyncOne(env, o, old(View()), item)
    {
      var k := item.user;
      var syncHash := HashOf(env, k);
      if k.id in mappings {
        var existing := mappings[k.id];
        if existing.syncHash == syncHash && !o.forceUpdate {
          return Skipped;
        }
        if existing.postgresId in users {
          if !o.dryRun {
            var ok := UpdateExistingUser(existing.postgresId, item);
            if !ok {
              return Failed;
            }
            mappings := mappings[k.id := Mapping(existing.postgresId, syncHash)];
          }
          return Updated;
        }
      }
      if !o.dryRun {
        var ok := CreateNewUser(item);
        if !ok || k.id in mappings {
          return Failed;
        }
        mappings := mappings[k.id := Mapping(item.newId, syncHash)];
      }
      return Outcome.Created;
    }

    /** One batch, user by user. */
    method SyncBatch(batch: seq<Item>, o: Options, c: Counts) returns (r: Counts)
      modifies this
      ensures (View(), r) == SyncAll(env, o, old(View()), c, batch)
    {
      r := c;
      var i := 0;
      assert batch[..0] == [] && batch[0..] == batch;
      while i < |batch|
        invariant 0 <= i <= |batch|
        invariant SyncAll(env, o, View(), r, batch[i..]) == SyncAll(env, o, old(View()), c, batch)
      {
        assert batch[i..][1..] == batch[i + 1..];
        var outcome := SyncKeycloakUserToPostgres(batch[i], o);
        r := Count(r, outcome, batch[i].user.id);
        i := i + 1;
      }
    }

    /** Batch after batch; the last one may be short. */
    method SyncInBatches(items: seq<Item>, size: nat, o: Options) returns (counts: Counts)
      requires size > 0
      modifies this
      ensures (View(), counts) == SyncAll(env, o, old(View()), NONE, items)
    {
      ghost var before := View();
      counts := NONE;
      var i := 0;
      NothingDone(env, o, before, items);
      while i < |items|
        invariant 0 <= i
        invariant SyncedUpTo(env, o, before, items, Least(i, |items|), View(), counts)
        decreases |items| - i
      {
        var next := Least(i + size, |items|);
        BatchAdds(env, o, before, items, i, next, View(), counts);
        counts := SyncBatch(items[i..next], o, counts);
        i := i + size;
      }
      assert items[..|items|] == items;
    }

    method SyncKeycloakToPostgres(server: seq<Item>, o: Options) returns (r: SyncResult)
      modifies this
      ensures
        var (t, c) := SyncAll(env, o, old(View()), NONE, server);
        && View() == t && r == SyncResult(|server|, c.created, c.updated, c.failed)
        && r.processed == r.created + r.updated + c.skipped + |r.errors|
    {
      EveryUserCounted(env, o, View(), NONE, server);
      var items := GetAllKeycloakUsers(server);
      var counts := SyncInBatches(items, if o.batchSize == 0 then DEFAULT_BATCH else o.batchSize, o);
      r := SyncResult(|items|, counts.created, counts.updated, counts.failed);
    }
  }
}
