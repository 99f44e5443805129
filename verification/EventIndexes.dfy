/** Bounded lists over a growing history of events, whose records expire on their own. */
module EventIndexes {
  import opened Store

  const RECENT := 1000
  const BY_TYPE := 500
  const BY_USER := 100

  type Positive = n: int | 0 < n witness 1

  /** An empty user id counts as none: such an event is on no user's list. */
  datatype Event = Event(id: string, kind: string, user: string, at: int)

  /** Records live for `ttl` seconds; the lists of ids have no deadline. */
  datatype State = State(
    now: int, ttl: Positive, records: map<string, Entry<Event>>,
    recent: seq<string>, byType: map<string, seq<string>>, byUser: map<string, seq<string>>, history: seq<Event>)

  datatype Op =
    | Advance(ms: nat)
    | Log(id: string, kind: string, user: string)

  function Init(now: int, ttl: Positive): State { State(now, ttl, map[], [], map[], map[], []) }

  function Take<T>(s: seq<T>, n: nat): seq<T> { if |s| <= n then s else s[..n] }

  /** LPUSH followed by LTRIM to the first n. */
  function PushTrim(s: seq<string>, id: string, n: nat): seq<string> { Take([id] + s, n) }

  function At(m: map<string, seq<string>>, k: string): seq<string> { if k in m then m[k] else [] }

  function LogEffect(s: State, e: Event): State {
    s.(records := Put(s.records, e.id, e, s.ttl, s.now),
       recent := PushTrim(s.recent, e.id, RECENT),
       byType := s.byType[e.kind := PushTrim(At(s.byType, e.kind), e.id, BY_TYPE)],
       byUser := if e.user == "" then s.byUser else s.byUser[e.user := PushTrim(At(s.byUser, e.user), e.id, BY_USER)],
       history := s.history + [e])
  }

  function Apply(s: State, op: Op): State {
    match op
    case Advance(ms) => s.(now := s.now + ms, records := Evict(s.records, s.now + ms))
    case Log(id, kind, user) => LogEffect(s, Event(id, kind, user, s.now))
  }

  /** Event ids come from a generator. */
  ghost predicate Enabled(s: State, op: Op) {
    op.Log? ==> forall i :: 0 <= i < |s.history| ==> s.history[i].id != op.id
  }

  ghost predicate Legal(s: State, ops: seq<Op>)
    decreases |ops|
  {
    |ops| == 0 || (Enabled(s, ops[0]) && Legal(Apply(s, ops[0]), ops[1..]))
  }

  ghost function Run(s: State, ops: seq<Op>): State
    decreases |ops|
  {
    if |ops| == 0 then s else Run(Apply(s, ops[0]), ops[1..])
  }

  // ---------------------------------------------------------------- the reference

  datatype Choice = Any | OfKind(kind: string) | OfUser(user: string)

  predicate Chosen(c: Choice, e: Event) {
    match c
    case Any => true
    case OfKind(kind) => e.kind == kind
    case OfUser(user) => user != "" && e.user == user
  }

  /** The chosen events of a history, newest first. */
  function NewestFirst(h: seq<Event>, c: Choice): seq<Event> {
    if |h| == 0 then []
    else
      var e := h[|h| - 1];
      var older := NewestFirst(h[..|h| - 1], c);
      if Chosen(c, e) then [e] + older else older
  }

  function Ids(es: seq<Event>): seq<string> {
    seq(|es|, i requires 0 <= i < |es| => es[i].id)
  }

  predicate Young(s: State, e: Event) { s.now < e.at + s.ttl * 1000 }

  /** The events whose records have not outlived their TTL. */
  function Kept(s: State, es: seq<Event>): seq<Event> {
    if |es| == 0 then []
    else if Young(s, es[0]) then [es[0]] + Kept(s, es[1..]) else Kept(s, es[1..])
  }

  // ---------------------------------------------------------------- the lists

  /** A list is the chosen part of the history, newest first, and cut to its bound. */
  ghost predicate ExactList(list: seq<string>, h: seq<Event>, c: Choice, bound: nat) {
    list == Ids(Take(NewestFirst(h, c), bound))
  }

  ghost predicate ExactKind(s: State, kind: string) {
    ExactList(At(s.byType, kind), s.history, OfKind(kind), BY_TYPE)
  }

  ghost predicate ExactUser(s: State, user: string) {
    ExactList(At(s.byUser, user), s.history, OfUser(user), BY_USER)
  }

  ghost predicate Exact(s: State) {
    && ExactList(s.recent, s.history, Any, RECENT)
    && (forall kind :: ExactKind(s, kind))
    && (forall user :: ExactUser(s, user))
  }

  lemma IdsOfTake(es: seq<Event>, n: nat)
    ensures Ids(Take(es, n)) == Take(Ids(es), n)
  {
  }

  lemma TrimEarly(s: seq<string>, id: string, n: nat)
    ensures PushTrim(Take(s, n), id, n) == Take([id] + s, n)
  {
  }

  lemma PushKeeps(list: seq<string>, h: seq<Event>, e: Event, c: Choice, bound: nat)
    requires ExactList(list, h, c, bound)
    ensures ExactList(if Chosen(c, e) then PushTrim(list, e.id, bound) else list, h + [e], c, bound)
  {
    assert (h + [e])[..|h|] == h;
    var older := NewestFirst(h, c);
    IdsOfTake(older, bound);
    TrimEarly(Ids(older), e.id, bound);
    IdsOfTake([e] + older, bound);
    assert Ids([e] + older) == [e.id] + Ids(older);
  }

  lemma LogKeepsKind(s: State, e: Event, kind: string)
    requires ExactKind(s, kind)
    ensures ExactKind(LogEffect(s, e), kind)
  {
    PushKeeps(At(s.byType, kind), s.history, e, OfKind(kind), BY_TYPE);
  }

  lemma LogKeepsUser(s: State, e: Event, user: string)
    requires ExactUser(s, user)
    ensures ExactUser(LogEffect(s, e), user)
  {
    PushKeeps(At(s.byUser, user), s.history, e, OfUser(user), BY_USER);
  }

  lemma LogKeepsExact(s: State, e: Event)
    requires Exact(s)
    ensures Exact(LogEffect(s, e))
  {
    PushKeeps(s.recent, s.history, e, Any, RECENT);
    forall kind
      ensures ExactKind(LogEffect(s, e), kind)
    {
      assert ExactKind(s, kind);
      LogKeepsKind(s, e, kind);
    }
    forall user
      ensures ExactUser(LogEffect(s, e), user)
    {
      assert ExactUser(s, user);
      LogKeepsUser(s, e, user);
    }
  }

  lemma WaitKeepsExact(s: State, ms: nat)
    requires Exact(s)
    ensures Exact(Apply(s, Advance(ms)))
  {
    var r := Apply(s, Advance(ms));
    forall kind
      ensures ExactKind(r, kind)
    {
      assert ExactKind(s, kind);
    }
    forall user
      ensures ExactUser(r, user)
    {
      assert ExactUser(s, user);
    }
  }

  /** Whatever is logged, in whatever order, the trimmed lists refine the full history. */
  lemma {:induction false} ListsRefineHistory(s: State, ops: seq<Op>)
    requires Exact(s)
    ensures Exact(Run(s, ops))
    decreases |ops|
  {
    if |ops| > 0 {
      match ops[0] {
        case Advance(ms) => WaitKeepsExact(s, ms);
        case Log(id, kind, user) => LogKeepsExact(s, Event(id, kind, user, s.now));
      }
      ListsRefineHistory(Apply(s, ops[0]), ops[1..]);
    }
  }

  // ---------------------------------------------------------------- the records

  ghost predicate InTime(s: State) {
    && (forall i, j :: 0 <= i < j < |s.history| ==> s.history[i].at <= s.history[j].at)
    && (forall i :: 0 <= i < |s.history| ==> s.history[i].at <= s.now)
  }

  /** An event has its record exactly while it is young. */
  ghost predicate RecordOk(s: State, e: Event) {
    && (Young(s, e) <==> e.id in s.records)
    && (e.id in s.records ==> s.records[e.id] == Entry(e, Some(e.at + s.ttl * SECOND)))
  }

  ghost predicate RecordsOk(s: State) {
    forall i :: 0 <= i < |s.history| ==> RecordOk(s, s.history[i])
  }

  ghost predicate Inv(s: State) { Exact(s) && InTime(s) && RecordsOk(s) }

  lemma LogKeepsRecords(s: State, op: Op)
    requires InTime(s) && RecordsOk(s) && op.Log? && Enabled(s, op)
    ensures InTime(Apply(s, op)) && RecordsOk(Apply(s, op))
  {
    var r := Apply(s, op);
    forall i | 0 <= i < |r.history|
      ensures RecordOk(r, r.history[i])
    {
      if i < |s.history| {
        assert RecordOk(s, s.history[i]) && r.history[i] == s.history[i];
      }
    }
  }

  lemma WaitKeepsRecords(s: State, ms: nat)
    requires InTime(s) && RecordsOk(s)
    ensures InTime(Apply(s, Advance(ms))) && RecordsOk(Apply(s, Advance(ms)))
  {
    var r := Apply(s, Advance(ms));
    forall i | 0 <= i < |r.history|
      ensures RecordOk(r, r.history[i])
    {
      assert RecordOk(s, s.history[i]);
    }
  }

  lemma StepKeeps(s: State, op: Op)
    requires Inv(s) && Enabled(s, op)
    ensures Inv(Apply(s, op))
  {
    match op
    case Advance(ms) =>
      WaitKeepsExact(s, ms);
      WaitKeepsRecords(s, ms);
    case Log(id, kind, user) =>
      LogKeepsExact(s, Event(id, kind, user, s.now));
      LogKeepsRecords(s, op);
  }

  lemma {:induction false} RunKeeps(s: State, ops: seq<Op>)
    requires Inv(s) && Legal(s, ops)
    ensures Inv(Run(s, ops))
    decreases |ops|
  {
    if |ops| > 0 {
      StepKeeps(s, ops[0]);
      RunKeeps(Apply(s, ops[0]), ops[1..]);
    }
  }

  // ---------------------------------------------------------------- reading

  /** LRANGE with non-negative start; a negative stop counts from the end. */
  function LRange(s: seq<string>, stop: int): seq<string> {
    var last := if stop < 0 then |s| + stop else stop;
    if last < 0 then [] else Take(s, last + 1)
  }

  /** What is found under some ids: those without a record are dropped. */
  function Found(records: map<string, Entry<Event>>, ids: seq<string>): seq<Event> {
    if |ids| == 0 then []
    else if ids[0] in records then [records[ids[0]].value] + Found(records, ids[1..]) else Found(records, ids[1..])
  }

  function Least(a: nat, b: nat): nat { if a < b then a else b }

  /** How many events are asked for; none at all means the whole list. */
  function Wanted(limit: nat, bound: nat): nat { if limit == 0 then bound else Least(limit, bound) }

  lemma ReadingIsTaking(es: seq<Event>, bound: nat, limit: nat)
    requires bound > 0
    ensures LRange(Ids(Take(es, bound)), limit - 1) == Ids(Take(es, Wanted(limit, bound)))
  {
    IdsOfTake(es, bound);
    IdsOfTake(es, Wanted(limit, bound));
    var all, cut := Ids(es), Take(Ids(es), bound);
    if 0 < limit < |cut| {
      assert cut[..limit] == all[..limit];
    }
  }

  lemma {:induction false} FoundAreKept(s: State, es: seq<Event>)
    requires RecordsOk(s) && forall i :: 0 <= i < |es| ==> es[i] in s.history
    ensures Found(s.records, Ids(es)) == Kept(s, es)
  {
    if |es| > 0 {
      var i :| 0 <= i < |s.history| && s.history[i] == es[0];
      assert RecordOk(s, s.history[i]);
      FoundAreKept(s, es[1..]);
      assert Ids(es)[1..] == Ids(es[1..]);
    }
  }

  ghost predicate LatestFirst(es: seq<Event>) {
    forall i, j :: 0 <= i < j < |es| ==> es[i].at >= es[j].at
  }

  lemma {:induction false} NoneKept(s: State, es: seq<Event>)
    requires forall i :: 0 <= i < |es| ==> !Young(s, es[i])
    ensures Kept(s, es) == []
  {
    if |es| > 0 {
      NoneKept(s, es[1..]);
    }
  }

  /** The young events come first, so cutting and forgetting commute. */
  lemma {:induction false} KeptIsPrefix(s: State, es: seq<Event>, n: nat)
    requires LatestFirst(es)
    ensures Kept(s, Take(es, n)) == Take(Kept(s, es), n)
  {
    if |es| > 0 && n > 0 {
      if Young(s, es[0]) {
        KeptIsPrefix(s, es[1..], n - 1);
        assert Take(es, n) == [es[0]] + Take(es[1..], n - 1);
      } else {
        NoneKept(s, es);
        NoneKept(s, Take(es, n));
      }
    }
  }

  lemma {:induction false} NewestAreSorted(h: seq<Event>, c: Choice)
    requires forall i, j :: 0 <= i < j < |h| ==> h[i].at <= h[j].at
    ensures LatestFirst(NewestFirst(h, c))
    ensures forall i :: 0 <= i < |NewestFirst(h, c)| ==> NewestFirst(h, c)[i] in h
  {
    if |h| > 0 {
      var e, rest := h[|h| - 1], h[..|h| - 1];
      NewestAreSorted(rest, c);
      var older := NewestFirst(rest, c);
      forall i | 0 <= i < |older|
        ensures older[i].at <= e.at && older[i] in h
      {
        var k :| 0 <= k < |rest| && rest[k] == older[i];
        assert h[k] == older[i];
      }
    }
  }

  lemma ListIsRead(s: State, list: seq<string>, c: Choice, bound: nat, limit: nat)
    requires InTime(s) && RecordsOk(s) && ExactList(list, s.history, c, bound) && bound > 0
    ensures Found(s.records, LRange(list, limit - 1)) == Take(Kept(s, NewestFirst(s.history, c)), Wanted(limit, bound))
  {
    var es := NewestFirst(s.history, c);
    ReadingIsTaking(es, bound, limit);
    NewestAreSorted(s.history, c);
    FoundAreKept(s, Take(es, Wanted(limit, bound)));
    KeptIsPrefix(s, es, Wanted(limit, bound));
  }

  lemma ListsAreRead(s: State, kind: string, user: string, limit: nat)
    requires Inv(s)
    ensures Found(s.records, LRange(s.recent, limit - 1))
      == Take(Kept(s, NewestFirst(s.history, Any)), Wanted(limit, 1000))
    ensures Found(s.records, LRange(At(s.byType, kind), limit - 1))
      == Take(Kept(s, NewestFirst(s.history, OfKind(kind))), Wanted(limit, 500))
    ensures Found(s.records, LRange(At(s.byUser, user), limit - 1))
      == Take(Kept(s, NewestFirst(s.history, OfUser(user))), Wanted(limit, 100))
  {
    assert ExactKind(s, kind) && ExactUser(s, user);
    ListIsRead(s, s.recent, Any, RECENT, limit);
    ListIsRead(s, At(s.byType, kind), OfKind(kind), BY_TYPE, limit);
    ListIsRead(s, At(s.byUser, user), OfUser(user), BY_USER, limit);
  }

  /** The events a run logs, oldest first. */
  ghost function Logged(now: int, ops: seq<Op>): seq<Event>
    decreases |ops|
  {
    if |ops| == 0 then []
    else match ops[0]
      case Advance(ms) => Logged(now + ms, ops[1..])
      case Log(id, kind, user) => [Event(id, kind, user, now)] + Logged(now, ops[1..])
  }

  lemma {:induction false} HistoryIsLogged(s: State, ops: seq<Op>)
    ensures Run(s, ops).history == s.history + Logged(s.now, ops)
    decreases |ops|
  {
    if |ops| > 0 {
      HistoryIsLogged(Apply(s, ops[0]), ops[1..]);
    }
  }

  /**
   In every run all three readers return the newest of the events logged and still kept: of all, of a
   type, or of a user, as many as asked for, and 1000, 500 or 100 at most.
   */
  lemma ReadersSeeHistory(now: int, ttl: Positive, ops: seq<Op>, kind: string, user: string, limit: nat)
    requires Legal(Init(now, ttl), ops)
    ensures
      var s, h := Run(Init(now, ttl), ops), Logged(now, ops);
      && Found(s.records, LRange(s.recent, limit - 1)) == Take(Kept(s, NewestFirst(h, Any)), Wanted(limit, 1000))
      && Found(s.records, LRange(At(s.byType, kind), limit - 1))
           == Take(Kept(s, NewestFirst(h, OfKind(kind))), Wanted(limit, 500))
      && Found(s.records, LRange(At(s.byUser, user), limit - 1))
           == Take(Kept(s, NewestFirst(h, OfUser(user))), Wanted(limit, 100))
  {
    RunKeeps(Init(now, ttl), ops);
    HistoryIsLogged(Init(now, ttl), ops);
    var s := Run(Init(now, ttl), ops);
    assert s.history == Logged(now, ops);
    ListsAreRead(s, kind, user, limit);
  }

  /** LPUSH onto the list of a key, then LTRIM. */
  method PushList(m: map<string, seq<string>>, key: string, id: string, n: nat) returns (r: map<string, seq<string>>)
    ensures r == m[key := PushTrim(At(m, key), id, n)]
  {
    r := m[key := [id] + At(m, key)];
    r := r[key := Take(r[key], n)];
  }

  /** Reads the records of some ids one by one. */
  method Fetch(records: map<string, Entry<Event>>, ids: seq<string>) returns (events: seq<Event>)
    ensures events == Found(records, ids)
  {
    events := [];
    var i := 0;
    while i < |ids|
      invariant 0 <= i <= |ids|
      invariant events + Found(records, ids[i..]) == Found(records, ids)
    {
      if ids[i] in records {
        events := events + [records[ids[i]].value];
      }
      i := i + 1;
    }
  }

  class EventLoggerService {
    var now: int
    const ttl: Positive
    var records: map<string, Entry<Event>>
    var recent: seq<string>
    var byType: map<string, seq<string>>
    var byUser: map<string, seq<string>>
    ghost var history: seq<Event>

    ghost function View(): State
      reads this
    {
      State(now, ttl, records, recent, byType, byUser, history)
    }

    constructor (now: int, ttl: Positive)
      ensures View() == Init(now, ttl) && Inv(View())
    {
      this.now, this.ttl := now, ttl;
      records, recent, byType, byUser, history := map[], [], map[], map[], [];
    }

    method Wait(ms: nat)
      requires Inv(View())
      modifies this
      ensures View() == Apply(old(View()), Advance(ms)) && Inv(View())
    {
      StepKeeps(View(), Advance(ms));
      now := now + ms;
      records := Evict(records, now);
    }

    /** Stores the record, then pushes its id to the lists and trims them. */
    method StoreEvent(event: Event)
      modifies this
      ensures View() == LogEffect(old(View()), event)
    {
      records := Put(records, event.id, event, ttl, now);
      recent := [event.id] + recent;
      recent := Take(recent, RECENT);
      byType := PushList(byType, event.kind, event.id, BY_TYPE);
      if event.user != "" {
        byUser := PushList(byUser, event.user, event.id, BY_USER);
      }
      history := history + [event];
    }

    method LogEvent(id: string, kind: string, user: string)
      requires Inv(View()) && Enabled(View(), Log(id, kind, user))
      modifies this
      ensures View() == Apply(old(View()), Log(id, kind, user)) && Inv(View())
    {
      StepKeeps(View(), Log(id, kind, user));
      StoreEvent(Event(id, kind, user, now));
    }

    method GetRecentEvents(limit: nat) returns (events: seq<Event>)
      requires Inv(View())
      ensures events == Take(Kept(View(), NewestFirst(history, Any)), Wanted(limit, 1000))
    {
      ListIsRead(View(), recent, Any, RECENT, limit);
      events := Fetch(records, LRange(recent, limit - 1));
    }

    method GetEventsByType(kind: string, limit: nat) returns (events: seq<Event>)
      requires Inv(View())
      ensures events == Take(Kept(View(), NewestFirst(history, OfKind(kind))), Wanted(limit, 500))
    {
      assert ExactKind(View(), kind);
      ListIsRead(View(), At(byType, kind), OfKind(kind), BY_TYPE, limit);
      events := Fetch(records, LRange(At(byType, kind), limit - 1));
    }

    method GetEventsByUser(user: string, limit: nat) returns (events: seq<Event>)
      requires Inv(View())
      ensures events == Take(Kept(View(), NewestFirst(history, OfUser(user))), Wanted(limit, 100))
    {
      assert ExactUser(View(), user);
      ListIsRead(View(), At(byUser, user), OfUser(user), BY_USER, limit);
      events := Fetch(records, LRange(At(byUser, user), limit - 1));
    }
  }
}
