/**
 The authorization log's indexes: sorted sets of log ids, one for each user, one for each resource and
 one for all, each cut to its highest ranks after every insertion.
 */
module AuthorizationLog {

  const USER_CAP := 1000
  const RESOURCE_CAP := 1000
  const GLOBAL_CAP := 10_000

  /** A sorted set: the score of each member. */
  type Index = map<string, int>

  datatype Decision = Decision(id: string, user: string, resource: string, at: int)

  datatype State = State(
    users: map<string, Index>, resources: map<string, Index>, everything: Index, history: seq<Decision>)

  const EMPTY := State(map[], map[], map[], [])

  // ---------------------------------------------------------------- sorted sets

  /** Members of equal score are ordered as texts. */
  predicate Less(a: string, b: string) {
    |b| > 0 && (|a| == 0 || a[0] < b[0] || (a[0] == b[0] && Less(a[1..], b[1..])))
  }

  predicate Below(m: Index, a: string, b: string) {
    a in m && b in m && (m[a] < m[b] || (m[a] == m[b] && Less(a, b)))
  }

  function Above(m: Index, k: string): set<string> {
    set j | j in m && Below(m, k, j)
  }

  /** ZREMRANGEBYRANK from the lowest rank: a member stays if fewer than `cap` rank above it. */
  function Top(m: Index, cap: nat): Index {
    map k | k in m && |Above(m, k)| < cap :: m[k]
  }

  lemma {:induction false} LessIsTotal(a: string, b: string)
    requires a != b
    ensures Less(a, b) || Less(b, a)
  {
    if |a| > 0 && |b| > 0 && a[0] == b[0] {
      assert a == [a[0]] + a[1..] && b == [b[0]] + b[1..];
      LessIsTotal(a[1..], b[1..]);
    }
  }

  lemma {:induction false} LessIsOrder(a: string, b: string, c: string)
    requires Less(a, b) && Less(b, c)
    ensures Less(a, c) && a != c
  {
    if |a| > 0 && a[0] == b[0] == c[0] {
      LessIsOrder(a[1..], b[1..], c[1..]);
    }
  }

  lemma {:induction false} LessIsStrict(a: string)
    ensures !Less(a, a)
  {
    if |a| > 0 {
      LessIsStrict(a[1..]);
    }
  }

  lemma BelowIsTotal(m: Index, a: string, b: string)
    requires a in m && b in m && a != b
    ensures Below(m, a, b) || Below(m, b, a)
  {
    LessIsTotal(a, b);
  }

  lemma BelowIsTransitive(m: Index, a: string, b: string, c: string)
    requires Below(m, a, b) && Below(m, b, c)
    ensures Below(m, a, c)
  {
    if Less(a, b) && Less(b, c) {
      LessIsOrder(a, b, c);
    }
  }

  lemma BelowIsStrict(m: Index, a: string, b: string)
    requires Below(m, a, b)
    ensures a != b && !Below(m, b, a)
  {
    LessIsStrict(a);
    if Below(m, b, a) {
      BelowIsTransitive(m, a, b, a);
    }
  }

  lemma SubsetSize(a: set<string>, b: set<string>)
    requires a <= b
    ensures |a| <= |b|
  {
    assert b == a + (b - a);
  }

  /** Whatever ranks above a kept member is kept. */
  lemma TopIsClosed(m: Index, cap: nat, k: string, j: string)
    requires k in Top(m, cap) && Below(m, k, j)
    ensures j in Top(m, cap)
  {
    forall i | i in Above(m, j)
      ensures i in Above(m, k)
    {
      BelowIsTransitive(m, k, j, i);
    }
    SubsetSize(Above(m, j), Above(m, k));
  }

  /** A dropped member ranks below every kept one. */
  lemma DroppedIsBelow(m: Index, cap: nat, d: string, k: string)
    requires d in m && d !in Top(m, cap) && k in Top(m, cap)
    ensures Below(m, d, k)
  {
    BelowIsTotal(m, d, k);
    if Below(m, k, d) {
      TopIsClosed(m, cap, k, d);
    }
  }

  lemma {:induction false} Lowest(m: Index) returns (v: string)
    requires m != map[]
    ensures v in m && forall k :: k in m && k != v ==> Below(m, v, k)
    decreases |m|
  {
    var k :| k in m;
    var rest := m - {k};
    if rest == map[] {
      assert rest.Keys == m.Keys - {k} == {};
      assert forall j :: j in m && j != k ==> j in rest.Keys;
      return k;
    }
    var low := Lowest(rest);
    assert forall j :: j in rest && j != low ==> Below(m, low, j);
    BelowIsTotal(m, k, low);
    if Below(m, k, low) {
      forall j | j in m && j != k
        ensures Below(m, k, j)
      {
        if j != low {
          BelowIsTransitive(m, k, low, j);
        }
      }
      return k;
    }
    return low;
  }

  lemma AllStay(m: Index, cap: nat)
    requires |m| <= cap
    ensures Top(m, cap) == m
  {
    forall k | k in m
      ensures |Above(m, k)| < cap
    {
      assert k !in Above(m, k) by {
        LessIsStrict(k);
      }
      SubsetSize(Above(m, k), m.Keys - {k});
    }
  }

  lemma LowestGoes(m: Index, cap: nat, v: string)
    requires |m| > cap && v in m && forall k :: k in m && k != v ==> Below(m, v, k)
    ensures Top(m, cap) == Top(m - {v}, cap) && |m - {v}| == |m| - 1
  {
    var rest := m - {v};
    assert rest.Keys == m.Keys - {v};
    SubsetSize(rest.Keys, Above(m, v));
    forall k | k in rest
      ensures Above(m, k) == Above(rest, k)
    {
      BelowIsStrict(m, v, k);
    }
  }

  /** The cut keeps as many members as it may. */
  lemma {:induction false} TopSize(m: Index, cap: nat)
    ensures |Top(m, cap)| == if |m| <= cap then |m| else cap
    decreases |m|
  {
    if |m| <= cap {
      AllStay(m, cap);
    } else {
      var v := Lowest(m);
      LowestGoes(m, cap, v);
      TopSize(m - {v}, cap);
    }
  }

  // ---------------------------------------------------------------- cutting early

  lemma OldStaysOrGoes(m: Index, id: string, at: int, cap: nat, k: string)
    requires id !in m && k in m
    ensures k in Top(Top(m, cap)[id := at], cap) <==> k in Top(m[id := at], cap)
  {
    var all, cut := m[id := at], Top(m, cap)[id := at];
    if k in Top(m, cap) {
      forall j | j in Above(all, k)
        ensures j in Above(cut, k)
      {
        if j != id {
          TopIsClosed(m, cap, k, j);
        }
      }
      assert Above(cut, k) == Above(all, k);
    } else {
      SubsetSize(Above(m, k), Above(all, k));
    }
  }

  lemma DroppedMeansFull(m: Index, cap: nat, d: string)
    requires d in m && d !in Top(m, cap)
    ensures |Top(m, cap)| == cap
  {
    assert d !in Above(m, d) by {
      LessIsStrict(d);
    }
    SubsetSize(Above(m, d), m.Keys - {d});
    TopSize(m, cap);
  }

  lemma KeptAreAbove(m: Index, id: string, at: int, cap: nat, d: string, k: string)
    requires id !in m && d in m && d !in Top(m, cap) && k in Top(m, cap) && Below(m[id := at], id, d)
    ensures Below(Top(m, cap)[id := at], id, k)
  {
    DroppedIsBelow(m, cap, d, k);
    assert Below(m[id := at], d, k);
    BelowIsTransitive(m[id := at], id, d, k);
  }

  /** A new member below a dropped one finds the index full of members above it. */
  lemma NewBelowDropped(m: Index, id: string, at: int, cap: nat, d: string)
    requires id !in m && d in m && d !in Top(m, cap) && Below(m[id := at], id, d)
    ensures |Above(Top(m, cap)[id := at], id)| >= cap
  {
    forall k | k in Top(m, cap)
      ensures k in Above(Top(m, cap)[id := at], id)
    {
      KeptAreAbove(m, id, at, cap, d, k);
    }
    DroppedMeansFull(m, cap, d);
    SubsetSize(Top(m, cap).Keys, Above(Top(m, cap)[id := at], id));
  }

  lemma NewStaysOrGoes(m: Index, id: string, at: int, cap: nat)
    requires id !in m
    ensures id in Top(Top(m, cap)[id := at], cap) <==> id in Top(m[id := at], cap)
  {
    var all, cut := m[id := at], Top(m, cap)[id := at];
    assert Above(cut, id) <= Above(all, id);
    SubsetSize(Above(cut, id), Above(all, id));
    if d :| d in m && d !in Top(m, cap) && Below(all, id, d) {
      NewBelowDropped(m, id, at, cap, d);
    } else {
      LessIsStrict(id);
      assert Above(cut, id) == Above(all, id);
    }
  }

  /** Cutting after every insertion leaves what cutting once at the end would leave. */
  lemma CuttingEarly(m: Index, id: string, at: int, cap: nat)
    requires id !in m
    ensures Top(Top(m, cap)[id := at], cap) == Top(m[id := at], cap)
  {
    var all, cut := m[id := at], Top(m, cap)[id := at];
    forall k | k in all
      ensures k in Top(cut, cap) <==> k in Top(all, cap)
    {
      if k == id {
        NewStaysOrGoes(m, id, at, cap);
      } else {
        OldStaysOrGoes(m, id, at, cap, k);
      }
    }
    assert Top(cut, cap).Keys == Top(all, cap).Keys;
  }

  // ---------------------------------------------------------------- logging

  function At(m: map<string, Index>, k: string): Index { if k in m then m[k] else map[] }

  function ZAdd(m: map<string, Index>, key: string, d: Decision): map<string, Index> {
    m[key := At(m, key)[d.id := d.at]]
  }

  function Cut(m: map<string, Index>, key: string, cap: nat): map<string, Index> {
    m[key := Top(At(m, key), cap)]
  }

  /** ZADD, then the cut. */
  function Add(x: Index, d: Decision, cap: nat): Index { Top(x[d.id := d.at], cap) }

  function Log(s: State, d: Decision): State {
    State(s.users[d.user := Add(At(s.users, d.user), d, USER_CAP)],
          s.resources[d.resource := Add(At(s.resources, d.resource), d, RESOURCE_CAP)],
          Add(s.everything, d, GLOBAL_CAP),
          s.history + [d])
  }

  function LogAll(s: State, ds: seq<Decision>): State
    decreases |ds|
  {
    if |ds| == 0 then s else LogAll(Log(s, ds[0]), ds[1..])
  }

  /** The reference: the scores of the chosen decisions of a whole history. */
  function Scores(h: seq<Decision>, chosen: Decision -> bool): Index {
    if |h| == 0 then map[]
    else
      var d := h[|h| - 1];
      var older := Scores(h[..|h| - 1], chosen);
      if chosen(d) then older[d.id := d.at] else older
  }

  function OfUser(user: string): Decision -> bool { (d: Decision) => d.user == user }

  function OfResource(resource: string): Decision -> bool { (d: Decision) => d.resource == resource }

  function Any(): Decision -> bool { (d: Decision) => true }

  /** Log ids come from a generator: a new one differs from all before. */
  ghost predicate FreshId(h: seq<Decision>, id: string) {
    forall i :: 0 <= i < |h| ==> h[i].id != id
  }

  ghost predicate Legal(s: State, ds: seq<Decision>)
    decreases |ds|
  {
    |ds| == 0 || (FreshId(s.history, ds[0].id) && Legal(Log(s, ds[0]), ds[1..]))
  }

  ghost predicate UserExact(s: State, user: string) {
    At(s.users, user) == Top(Scores(s.history, OfUser(user)), USER_CAP)
  }

  ghost predicate ResourceExact(s: State, resource: string) {
    At(s.resources, resource) == Top(Scores(s.history, OfResource(resource)), RESOURCE_CAP)
  }

  ghost predicate GlobalExact(s: State) {
    s.everything == Top(Scores(s.history, Any()), GLOBAL_CAP)
  }

  /** Every index is the full history, filtered, and cut to its highest ranks. */
  ghost predicate Exact(s: State) {
    && (forall user :: UserExact(s, user))
    && (forall resource :: ResourceExact(s, resource))
    && GlobalExact(s)
  }

  lemma {:induction false} FreshIsUnscored(h: seq<Decision>, chosen: Decision -> bool, id: string)
    requires FreshId(h, id)
    ensures id !in Scores(h, chosen)
  {
    if |h| > 0 {
      FreshIsUnscored(h[..|h| - 1], chosen, id);
    }
  }

  /** One insertion into an exact index. */
  lemma AddKeeps(h: seq<Decision>, d: Decision, chosen: Decision -> bool, cap: nat)
    requires FreshId(h, d.id)
    ensures Top(Scores(h + [d], chosen), cap) ==
      if chosen(d) then Add(Top(Scores(h, chosen), cap), d, cap) else Top(Scores(h, chosen), cap)
  {
    assert (h + [d])[..|h|] == h;
    FreshIsUnscored(h, chosen, d.id);
    if chosen(d) {
      CuttingEarly(Scores(h, chosen), d.id, d.at, cap);
    }
  }

  lemma LogKeepsUser(s: State, d: Decision, user: string)
    requires UserExact(s, user) && FreshId(s.history, d.id)
    ensures UserExact(Log(s, d), user)
  {
    AddKeeps(s.history, d, OfUser(user), USER_CAP);
  }

  lemma LogKeepsResource(s: State, d: Decision, resource: string)
    requires ResourceExact(s, resource) && FreshId(s.history, d.id)
    ensures ResourceExact(Log(s, d), resource)
  {
    AddKeeps(s.history, d, OfResource(resource), RESOURCE_CAP);
  }

  lemma LogKeeps(s: State, d: Decision)
    requires Exact(s) && FreshId(s.history, d.id)
    ensures Exact(Log(s, d))
  {
    AddKeeps(s.history, d, Any(), GLOBAL_CAP);
    forall user
      ensures UserExact(Log(s, d), user)
    {
      assert UserExact(s, user);
      LogKeepsUser(s, d, user);
    }
    forall resource
      ensures ResourceExact(Log(s, d), resource)
    {
      assert ResourceExact(s, resource);
      LogKeepsResource(s, d, resource);
    }
  }

  lemma {:induction false} HistoryGrows(s: State, ds: seq<Decision>)
    ensures LogAll(s, ds).history == s.history + ds
    decreases |ds|
  {
    if |ds| > 0 {
      HistoryGrows(Log(s, ds[0]), ds[1..]);
      assert ds == [ds[0]] + ds[1..];
    }
  }

  /** Whatever is logged, the cut indexes refine the full history. */
  lemma {:induction false} IndexesRefineHistory(s: State, ds: seq<Decision>)
    requires Exact(s) && Legal(s, ds)
    ensures Exact(LogAll(s, ds))
    decreases |ds|
  {
    if |ds| > 0 {
      LogKeeps(s, ds[0]);
      IndexesRefineHistory(Log(s, ds[0]), ds[1..]);
    }
  }

  /** An index next to the history it indexes: as full as its bound allows, and nothing newer lost. */
  ghost predicate Newest(x: Index, all: Index, cap: nat) {
    && x.Keys <= all.Keys && |x| == (if |all| <= cap then |all| else cap)
    && (forall k :: k in x ==> x[k] == all[k])
    && (forall d, k :: d in all && d !in x && k in x ==> all[d] < all[k] || (all[d] == all[k] && Less(d, k)))
  }

  lemma TopIsNewest(m: Index, cap: nat)
    ensures Newest(Top(m, cap), m, cap)
  {
    TopSize(m, cap);
    forall d, k | d in m && d !in Top(m, cap) && k in Top(m, cap)
      ensures m[d] < m[k] || (m[d] == m[k] && Less(d, k))
    {
      DroppedIsBelow(m, cap, d, k);
    }
  }

  /**
   From the empty log on, whatever is logged: the index of a user and of a resource holds at most
   1000 of its ids and the global one at most 10,000, each as many as there are up to its bound, and
   an id dropped is older than every id kept, or as old and before it as a text.
   */
  lemma IndexesKeepTheNewest(ds: seq<Decision>, user: string, resource: string)
    requires Legal(EMPTY, ds)
    ensures
      var s := LogAll(EMPTY, ds);
      && Newest(At(s.users, user), Scores(ds, OfUser(user)), 1000)
      && Newest(At(s.resources, resource), Scores(ds, OfResource(resource)), 1000)
      && Newest(s.everything, Scores(ds, Any()), 10_000)
  {
    IndexesRefineHistory(EMPTY, ds);
    HistoryGrows(EMPTY, ds);
    var s := LogAll(EMPTY, ds);
    assert s.history == ds;
    assert UserExact(s, user) && ResourceExact(s, resource) && GlobalExact(s);
    TopIsNewest(Scores(ds, OfUser(user)), USER_CAP);
    TopIsNewest(Scores(ds, OfResource(resource)), RESOURCE_CAP);
    TopIsNewest(Scores(ds, Any()), GLOBAL_CAP);
  }

  lemma AddThenCut(m: map<string, Index>, key: string, d: Decision, cap: nat)
    ensures Cut(ZAdd(m, key, d), key, cap) == m[key := Add(At(m, key), d, cap)]
  {
  }

  class AuthorizationLogger {
    var users: map<string, Index>
    var resources: map<string, Index>
    var everything: Index
    ghost var history: seq<Decision>

    ghost function View(): State
      reads this
    {
      State(users, resources, everything, history)
    }

    constructor ()
      ensures View() == EMPTY && Exact(View())
    {
      users, resources, everything, history := map[], map[], map[], [];
    }

    /** Adds the id to its three indexes, then cuts each of them. */
    method LogAuthorizationDecision(d: Decision)
      requires Exact(View()) && FreshId(history, d.id)
      modifies this
      ensures View() == Log(old(View()), d) && Exact(View())
    {
      LogKeeps(View(), d);
      AddThenCut(users, d.user, d, USER_CAP);
      AddThenCut(resources, d.resource, d, RESOURCE_CAP);
      users := ZAdd(users, d.user, d);
      resources := ZAdd(resources, d.resource, d);
      everything := everything[d.id := d.at];
      users := Cut(users, d.user, USER_CAP);
      resources := Cut(resources, d.resource, RESOURCE_CAP);
      everything := Top(everything, GLOBAL_CAP);
      history := history + [d];
    }
  }
}
