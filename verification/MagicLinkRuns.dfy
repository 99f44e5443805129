/** What every run of the magic-link service keeps: one usable link per address, one use per token. */
module MagicLinkRuns {
  import opened Store
  import opened MagicLink

  /** A link as it was issued: every later rewrite of its record touches the status only. */
  function Issued(l: Link): Link { l.(status := Pending) }

  /** The id of the link issued last to an address. */
  ghost function Latest(stored: seq<Link>, email: string): Option<string> {
    if |stored| == 0 then None
    else if stored[|stored| - 1].email == email then Some(stored[|stored| - 1].id)
    else Latest(stored[..|stored| - 1], email)
  }

  /** How many links were issued to an address on a UTC day. */
  ghost function IssuedOn(stored: seq<Link>, email: string, day: int): nat {
    if |stored| == 0 then 0
    else
      var l := stored[|stored| - 1];
      IssuedOn(stored[..|stored| - 1], email, day) + (if l.email == email && Day(l.createdAt) == day then 1 else 0)
  }

  /** A pending record whose token still leads to it. */
  ghost predicate Open(s: State, id: string) {
    && id in s.links
    && s.links[id].value.status.Pending?
    && s.links[id].value.token in s.tokens
    && s.tokens[s.links[id].value.token].value == id
  }

  ghost predicate Usable(s: State, id: string) {
    Open(s, id) && s.now <= s.links[id].value.expiresAt
  }

  // ---------------------------------------------------------------- the invariant

  ghost predicate DistinctLinks(stored: seq<Link>) {
    forall i, j :: 0 <= i < j < |stored| ==> stored[i].id != stored[j].id && stored[i].token != stored[j].token
  }

  ghost predicate RecordsAreIssued(s: State) {
    && (forall id :: id in s.links ==> s.links[id].value.id == id && Issued(s.links[id].value) in s.stored)
    && (forall l :: l in s.stored ==> l.status.Pending? && l.createdAt <= s.now)
  }

  /** A token key that leads to its link, and lasts up to the link's expiry. */
  ghost predicate LeadsTo(s: State, t: string, l: Link)
    requires t in s.tokens
  {
    l.token == t && s.tokens[t] == Entry(l.id, Some(l.expiresAt)) && s.now < l.expiresAt
  }

  ghost predicate TokensAreIssued(s: State) {
    forall t :: t in s.tokens ==> exists l :: l in s.stored && LeadsTo(s, t, l)
  }

  /** The ids of the links issued to an address. */
  function IdsFor(stored: seq<Link>, email: string): set<string> {
    set l | l in stored && l.email == email :: l.id
  }

  ghost predicate SetsAreIssued(s: State) {
    forall e :: e in s.emails ==> s.emails[e].value != {} && s.emails[e].value <= IdsFor(s.stored, e)
  }

  ghost predicate ExpiredIsPast(s: State) {
    forall id :: id in s.links && s.links[id].value.status.Expired? ==> s.links[id].value.expiresAt < s.now
  }

  ghost predicate UsesAreSpent(s: State) {
    && (forall u :: u in s.uses ==>
          && u.link.status.Pending? && u.link in s.stored
          && u.link.createdAt <= u.at < u.link.expiresAt
          && (u.link.id in s.links ==> !s.links[u.link.id].value.status.Pending?))
    && (forall i, j :: 0 <= i < j < |s.uses| ==> s.uses[i].link.token != s.uses[j].link.token)
  }

  /** The address's set knows an open link and outlives its token. */
  ghost predicate Covered(s: State, id: string)
    requires Open(s, id)
  {
    var l := s.links[id].value;
    && id in Members(s.emails, l.email)
    && s.tokens[l.token].deadline.Some?
    && s.emails[l.email].deadline.Some?
    && s.tokens[l.token].deadline.value <= s.emails[l.email].deadline.value
    && Latest(s.stored, l.email) == Some(id)
  }

  ghost predicate OpenIsCovered(s: State) {
    forall id :: Open(s, id) ==> Covered(s, id)
  }

  ghost predicate CounterIsExact(s: State) {
    && (forall e :: DailyCount(s, e) == IssuedOn(s.stored, e, Day(s.now)))
    && (forall k :: k in s.daily ==>
          && k.1 <= Day(s.now)
          && s.daily[k].deadline.Some?
          && (k.1 + 1) * DAY <= s.daily[k].deadline.value)
  }

  ghost predicate Inv(s: State) {
    && DistinctLinks(s.stored)
    && RecordsAreIssued(s)
    && TokensAreIssued(s)
    && SetsAreIssued(s)
    && ExpiredIsPast(s)
    && UsesAreSpent(s)
    && OpenIsCovered(s)
    && CounterIsExact(s)
  }

  // ---------------------------------------------------------------- helper facts

  lemma SameToken(stored: seq<Link>, a: Link, b: Link)
    requires DistinctLinks(stored) && a in stored && b in stored
    requires a.token == b.token || a.id == b.id
    ensures a == b
  {
  }

  lemma {:induction false} NoneIssuedLater(stored: seq<Link>, now: int, email: string, day: int)
    requires forall l :: l in stored ==> l.createdAt <= now
    requires Day(now) < day
    ensures IssuedOn(stored, email, day) == 0
  {
    if |stored| > 0 {
      assert stored[|stored| - 1] in stored;
      NoneIssuedLater(stored[..|stored| - 1], now, email, day);
    }
  }

  lemma RecordOfToken(s: State, token: string)
    requires DistinctLinks(s.stored) && RecordsAreIssued(s) && TokensAreIssued(s) && Resolve(s, token).Some?
    ensures s.tokens[token].value == Resolve(s, token).value.id
    ensures Resolve(s, token).value.token == token && s.now < Resolve(s, token).value.expiresAt
  {
    var l := Resolve(s, token).value;
    var m :| m in s.stored && LeadsTo(s, token, m);
    SameToken(s.stored, m, Issued(l));
  }

  // ---------------------------------------------------------------- preservation, call by call

  lemma InitInv(now: int, config: Config)
    ensures Inv(Init(now, config))
  {
  }

  lemma AdvanceKeepsOpen(s: State, ms: nat)
    requires OpenIsCovered(s)
    ensures OpenIsCovered(AdvanceEffect(s, ms))
  {
    var r := AdvanceEffect(s, ms);
    forall id | Open(r, id)
      ensures Covered(r, id)
    {
      assert Open(s, id);
      assert Covered(s, id);
    }
  }

  lemma AdvanceKeepsCounter(s: State, ms: nat)
    requires CounterIsExact(s) && RecordsAreIssued(s)
    ensures CounterIsExact(AdvanceEffect(s, ms))
  {
    var r := AdvanceEffect(s, ms);
    forall e
      ensures DailyCount(r, e) == IssuedOn(r.stored, e, Day(r.now))
    {
      if Day(r.now) == Day(s.now) {
        assert DailyCount(s, e) == IssuedOn(s.stored, e, Day(s.now));
      } else {
        NoneIssuedLater(s.stored, s.now, e, Day(r.now));
      }
    }
  }

  /** Tokens are dropped when their time comes, and by cleanup, but never rewritten. */
  lemma TokensStayIssued(s: State, r: State)
    requires TokensAreIssued(s) && s.stored <= r.stored
    requires forall t :: t in r.tokens ==> t in s.tokens && r.tokens[t] == s.tokens[t] && LiveAt(s.tokens[t], r.now)
    ensures TokensAreIssued(r)
  {
    forall t | t in r.tokens
      ensures exists m :: m in r.stored && LeadsTo(r, t, m)
    {
      var m :| m in s.stored && LeadsTo(s, t, m);
      assert m in r.stored && LeadsTo(r, t, m);
    }
  }

  lemma TokensAreLive(s: State, t: string)
    requires TokensAreIssued(s) && t in s.tokens
    ensures LiveAt(s.tokens[t], s.now)
  {
    var m :| m in s.stored && LeadsTo(s, t, m);
  }

  lemma AdvanceKeepsRecords(s: State, ms: nat)
    requires RecordsAreIssued(s) && TokensAreIssued(s) && SetsAreIssued(s) && ExpiredIsPast(s)
    ensures
      var r := AdvanceEffect(s, ms);
      RecordsAreIssued(r) && TokensAreIssued(r) && SetsAreIssued(r) && ExpiredIsPast(r)
  {
    TokensStayIssued(s, AdvanceEffect(s, ms));
  }

  lemma AdvanceKeepsUses(s: State, ms: nat)
    requires UsesAreSpent(s)
    ensures UsesAreSpent(AdvanceEffect(s, ms))
  {
  }

  lemma AdvanceKeeps(s: State, ms: nat)
    requires Inv(s)
    ensures Inv(AdvanceEffect(s, ms))
  {
    AdvanceKeepsOpen(s, ms);
    AdvanceKeepsCounter(s, ms);
    AdvanceKeepsRecords(s, ms);
    AdvanceKeepsUses(s, ms);
  }

  lemma RewriteKeepsRecords(s: State, id: string, status: Status)
    requires RecordsAreIssued(s) && ExpiredIsPast(s) && id in s.links
    requires status.Expired? ==> s.links[id].value.expiresAt < s.now
    ensures RecordsAreIssued(SetStatus(s, id, status)) && ExpiredIsPast(SetStatus(s, id, status))
  {
  }

  lemma RewriteKeepsUses(s: State, id: string, status: Status)
    requires RecordsAreIssued(s) && UsesAreSpent(s) && id in s.links
    requires status.Pending? ==> s.links[id].value.status.Pending?
    ensures UsesAreSpent(SetStatus(s, id, status))
  {
  }

  lemma RewriteKeepsOpen(s: State, id: string, status: Status)
    requires OpenIsCovered(s) && id in s.links
    requires status.Pending? ==> s.links[id].value.status.Pending?
    ensures OpenIsCovered(SetStatus(s, id, status))
  {
    var r := SetStatus(s, id, status);
    forall k | Open(r, k)
      ensures Covered(r, k)
    {
      assert Open(s, k);
      assert Covered(s, k);
    }
  }

  /** The conjuncts that do not look at the records. */
  lemma SameIndexesKeep(s: State, r: State)
    requires TokensAreIssued(s) && SetsAreIssued(s) && CounterIsExact(s)
    requires r.tokens == s.tokens && r.emails == s.emails && r.daily == s.daily && r.stored == s.stored && r.now == s.now
    ensures TokensAreIssued(r) && SetsAreIssued(r) && CounterIsExact(r)
  {
    forall t | t in s.tokens { TokensAreLive(s, t); }
    TokensStayIssued(s, r);
    assert forall e :: DailyCount(r, e) == DailyCount(s, e);
  }

  /** Rewriting a record with a later status, or with the same one, keeps the invariant. */
  lemma RewriteKeeps(s: State, id: string, status: Status)
    requires Inv(s) && id in s.links
    requires status.Pending? ==> s.links[id].value.status.Pending?
    requires status.Expired? ==> s.links[id].value.expiresAt < s.now
    ensures Inv(SetStatus(s, id, status))
  {
    RewriteKeepsRecords(s, id, status);
    RewriteKeepsUses(s, id, status);
    RewriteKeepsOpen(s, id, status);
    SameIndexesKeep(s, SetStatus(s, id, status));
  }

  /** Recording a use touches nothing but the history. */
  lemma UseKeeps(s: State, u: Use)
    requires Inv(s)
    requires u.link.status.Pending? && u.link in s.stored
    requires u.link.createdAt <= u.at < u.link.expiresAt
    requires u.link.id in s.links && !s.links[u.link.id].value.status.Pending?
    requires forall v :: v in s.uses ==> v.link.token != u.link.token
    ensures Inv(s.(uses := s.uses + [u]))
  {
    var r := s.(uses := s.uses + [u]);
    assert OpenIsCovered(r) by {
      forall k | Open(r, k)
        ensures Covered(r, k)
      {
        assert Open(s, k);
        assert Covered(s, k);
      }
    }
    assert CounterIsExact(r) by {
      assert forall e :: DailyCount(r, e) == DailyCount(s, e);
    }
    assert UsesAreSpent(r) by {
      forall i, j | 0 <= i < j < |r.uses|
        ensures r.uses[i].link.token != r.uses[j].link.token
      {
        assert s.uses[i] in s.uses;
      }
    }
  }

  /** A token that resolves to a pending record has not been used. */
  lemma PendingIsUnspent(s: State, l: Link, u: Use)
    requires Inv(s) && u in s.uses
    requires l.id in s.links && s.links[l.id].value == l && l.status.Pending?
    ensures u.link.token != l.token
  {
    assert Issued(l) == l;
    if u.link.token == l.token {
      SameToken(s.stored, u.link, l);
    }
  }

  lemma AcceptKeeps(s: State, l: Link)
    requires Inv(s) && l.status.Pending? && s.now < l.expiresAt
    requires l.id in s.links && s.links[l.id].value == l
    ensures Inv(SetStatus(s, l.id, Used).(uses := s.uses + [Use(l, s.now)]))
  {
    assert Issued(l) == l;
    forall u | u in s.uses
      ensures u.link.token != l.token
    {
      PendingIsUnspent(s, l, u);
    }
    assert l in s.stored && l.createdAt <= s.now;
    RewriteKeeps(s, l.id, Used);
    UseKeeps(SetStatus(s, l.id, Used), Use(l, s.now));
  }

  lemma VerifyKeeps(s: State, token: string)
    requires Inv(s)
    ensures Inv(VerifyEffect(s, token))
  {
    if Resolve(s, token).Some? {
      var l := Resolve(s, token).value;
      RecordOfToken(s, token);
      if l.status.Used? || l.status.Revoked? {
      } else if s.now > l.expiresAt {
        RewriteKeeps(s, l.id, Expired);
      } else {
        assert l.status.Pending?;
        AcceptKeeps(s, l);
      }
    }
  }

  lemma ResendKeeps(s: State, id: string, emailed: bool)
    requires Inv(s)
    ensures Inv(ResendEffect(s, id, emailed))
  {
    if id in s.links {
      var l := s.links[id].value;
      if s.now > l.expiresAt {
        RewriteKeeps(s, id, Expired);
      } else if l.status.Used? || l.status.Revoked? || !emailed {
      } else {
        assert l.status.Pending?;
        RewriteKeeps(s, id, Pending);
        assert l.(status := Pending) == l;
      }
    }
  }

  lemma CleanupKeepsOpen(s: State)
    requires OpenIsCovered(s)
    ensures OpenIsCovered(CleanupEffect(s))
  {
    var r := CleanupEffect(s);
    forall k | Open(r, k)
      ensures Covered(r, k)
    {
      assert Open(s, k);
      assert Covered(s, k);
      assert k in Kept(s, Stale(s), s.links[k].value.email);
    }
  }

  lemma CleanupKeepsSets(s: State)
    requires SetsAreIssued(s)
    ensures SetsAreIssued(CleanupEffect(s))
  {
  }

  lemma CleanupKeepsRecords(s: State)
    requires RecordsAreIssued(s) && TokensAreIssued(s) && ExpiredIsPast(s) && UsesAreSpent(s) && CounterIsExact(s)
    ensures
      var r := CleanupEffect(s);
      RecordsAreIssued(r) && TokensAreIssued(r) && ExpiredIsPast(r) && UsesAreSpent(r) && CounterIsExact(r)
  {
    forall t | t in s.tokens { TokensAreLive(s, t); }
    TokensStayIssued(s, CleanupEffect(s));
    assert forall e :: DailyCount(CleanupEffect(s), e) == DailyCount(s, e);
  }

  lemma CleanupKeeps(s: State)
    requires Inv(s)
    ensures Inv(CleanupEffect(s))
  {
    CleanupKeepsOpen(s);
    CleanupKeepsSets(s);
    CleanupKeepsRecords(s);
  }

  lemma RevokeExistingKeepsOpen(s: State, email: string)
    requires OpenIsCovered(s)
    ensures OpenIsCovered(RevokeExisting(s, email))
    ensures forall k :: Open(RevokeExisting(s, email), k) ==> s.links[k].value.email != email
  {
    var r := RevokeExisting(s, email);
    forall k | Open(r, k)
      ensures Covered(r, k) && s.links[k].value.email != email
    {
      assert Open(s, k);
      assert Covered(s, k);
    }
  }

  lemma RevokeExistingKeepsRecords(s: State, email: string)
    requires RecordsAreIssued(s) && ExpiredIsPast(s) && UsesAreSpent(s)
    ensures
      var r := RevokeExisting(s, email);
      RecordsAreIssued(r) && ExpiredIsPast(r) && UsesAreSpent(r)
  {
  }

  lemma RevokeExistingKeeps(s: State, email: string)
    requires Inv(s)
    ensures Inv(RevokeExisting(s, email))
    ensures forall k :: Open(RevokeExisting(s, email), k) ==> s.links[k].value.email != email
  {
    RevokeExistingKeepsOpen(s, email);
    RevokeExistingKeepsRecords(s, email);
    SameIndexesKeep(s, RevokeExisting(s, email));
  }

  ghost predicate Storable(s: State, l: Link) {
    && Inv(s) && Fresh(s.stored, l.id, l.token)
    && l.status.Pending? && l.createdAt == s.now && l.expiresAt == s.now + LinkTtl(s.config) * SECOND
    && l.id !in s.links && l.token !in s.tokens
  }

  lemma FreshIsAbsent(s: State, l: Link)
    requires Inv(s) && Fresh(s.stored, l.id, l.token)
    ensures l.id !in s.links && l.token !in s.tokens
  {
  }

  /** A link just stored is covered: its set gets a new deadline, that of its token. */
  lemma StoredIsCovered(s: State, l: Link)
    requires Open(StoreLink(s, l), l.id)
    ensures Covered(StoreLink(s, l), l.id)
  {
    assert StoreLink(s, l).links[l.id].value == l;
  }

  /** An open link of another address stays covered: nothing of that address is touched. */
  lemma StoreKeepsCovered(s: State, l: Link, k: string)
    requires Open(s, k) && Covered(s, k) && s.links[k].value.email != l.email
    requires k != l.id && s.links[k].value.token != l.token && Open(StoreLink(s, l), k)
    ensures Covered(StoreLink(s, l), k)
  {
    assert StoreLink(s, l).stored[..|s.stored|] == s.stored;
  }

  lemma StoreKeepsOpen(s: State, l: Link)
    requires Storable(s, l)
    requires forall k :: Open(s, k) ==> s.links[k].value.email != l.email
    ensures OpenIsCovered(StoreLink(s, l))
  {
    forall k | Open(StoreLink(s, l), k)
      ensures Covered(StoreLink(s, l), k)
    {
      if k == l.id {
        StoredIsCovered(s, l);
      } else {
        assert Issued(s.links[k].value) in s.stored;
        assert s.links[k].value.token != l.token;
        assert Open(s, k) && Covered(s, k);
        StoreKeepsCovered(s, l, k);
      }
    }
  }

  lemma FreshKeepsDistinct(stored: seq<Link>, l: Link)
    requires DistinctLinks(stored) && Fresh(stored, l.id, l.token)
    ensures DistinctLinks(stored + [l])
  {
    forall i, j | 0 <= i < j < |stored + [l]|
      ensures (stored + [l])[i].id != (stored + [l])[j].id && (stored + [l])[i].token != (stored + [l])[j].token
    {
      assert stored[i] in stored;
    }
  }

  lemma StoreKeepsTables(s: State, l: Link)
    requires RecordsAreIssued(s) && ExpiredIsPast(s)
    requires l.status.Pending? && l.createdAt == s.now
    ensures RecordsAreIssued(StoreLink(s, l)) && ExpiredIsPast(StoreLink(s, l))
  {
    var r := StoreLink(s, l);
    assert l in r.stored;
    assert forall m :: m in s.stored ==> m in r.stored;
  }

  lemma StoreKeepsSets(s: State, l: Link)
    requires SetsAreIssued(s)
    ensures SetsAreIssued(StoreLink(s, l))
  {
    var r := StoreLink(s, l);
    assert l in r.stored;
    assert forall e :: IdsFor(s.stored, e) <= IdsFor(r.stored, e);
    assert l.id in IdsFor(r.stored, l.email);
  }

  lemma StoreKeepsTokens(s: State, l: Link)
    requires TokensAreIssued(s) && l.expiresAt == s.now + LinkTtl(s.config) * SECOND
    ensures TokensAreIssued(StoreLink(s, l))
  {
    var r := StoreLink(s, l);
    assert l in r.stored;
    forall t | t in r.tokens
      ensures exists m :: m in r.stored && LeadsTo(r, t, m)
    {
      if t != l.token {
        var m :| m in s.stored && LeadsTo(s, t, m);
        assert m in r.stored && LeadsTo(r, t, m);
      } else {
        assert LeadsTo(r, t, l);
      }
    }
  }

  lemma StoreKeepsUses(s: State, l: Link)
    requires Storable(s, l)
    ensures UsesAreSpent(StoreLink(s, l))
  {
    var r := StoreLink(s, l);
    forall u | u in s.uses
      ensures u.link in r.stored && u.link.id != l.id
    {
      assert u.link in s.stored;
    }
  }

  lemma CountIsExact(s: State, l: Link, e: string)
    requires DailyCount(s, e) == IssuedOn(s.stored, e, Day(s.now)) && l.createdAt == s.now
    ensures
      var r := CountOne(StoreLink(s, l), l.email);
      DailyCount(r, e) == IssuedOn(r.stored, e, Day(r.now))
  {
    assert CountOne(StoreLink(s, l), l.email).stored[..|s.stored|] == s.stored;
  }

  lemma CountKeepsCounter(s: State, l: Link)
    requires CounterIsExact(s) && l.createdAt == s.now
    ensures CounterIsExact(CountOne(StoreLink(s, l), l.email))
  {
    var r := CountOne(StoreLink(s, l), l.email);
    forall e
      ensures DailyCount(r, e) == IssuedOn(r.stored, e, Day(r.now))
    {
      assert DailyCount(s, e) == IssuedOn(s.stored, e, Day(s.now));
      CountIsExact(s, l, e);
    }
  }

  /** Counting touches the counter only. */
  lemma CountKeepsOpen(s: State, email: string)
    requires OpenIsCovered(s)
    ensures OpenIsCovered(CountOne(s, email))
  {
    var r := CountOne(s, email);
    forall k | Open(r, k)
      ensures Covered(r, k)
    {
      assert Open(s, k);
      assert Covered(s, k);
    }
  }

  lemma CountKeepsRest(s: State, email: string)
    requires RecordsAreIssued(s) && TokensAreIssued(s) && SetsAreIssued(s) && ExpiredIsPast(s) && UsesAreSpent(s)
    ensures
      var r := CountOne(s, email);
      RecordsAreIssued(r) && TokensAreIssued(r) && SetsAreIssued(r) && ExpiredIsPast(r) && UsesAreSpent(r)
  {
    forall t | t in s.tokens { TokensAreLive(s, t); }
    TokensStayIssued(s, CountOne(s, email));
  }

  /** Storing a fresh link for an address without open links, and counting it. */
  lemma StoreKeeps(s: State, l: Link)
    requires Storable(s, l)
    requires forall k :: Open(s, k) ==> s.links[k].value.email != l.email
    ensures Inv(CountOne(StoreLink(s, l), l.email))
  {
    var m := StoreLink(s, l);
    StoreKeepsOpen(s, l);
    FreshKeepsDistinct(s.stored, l);
    StoreKeepsTables(s, l);
    StoreKeepsSets(s, l);
    StoreKeepsTokens(s, l);
    StoreKeepsUses(s, l);
    CountKeepsCounter(s, l);
    CountKeepsOpen(m, l.email);
    CountKeepsRest(m, l.email);
  }

  lemma RevokedIsStorable(s: State, op: Op)
    requires Inv(s) && op.Generate? && Enabled(s, op)
    ensures Storable(RevokeExisting(s, op.email), NewLink(s, op.email, op.id, op.token, op.lookup, op.action))
  {
    RevokeExistingKeeps(s, op.email);
    FreshIsAbsent(RevokeExisting(s, op.email), NewLink(s, op.email, op.id, op.token, op.lookup, op.action));
  }

  lemma GenerateKeeps(s: State, op: Op)
    requires Inv(s) && op.Generate? && Enabled(s, op)
    ensures Inv(Apply(s, op))
  {
    if Admits(s, op.email, op.lookup) {
      var l := NewLink(s, op.email, op.id, op.token, op.lookup, op.action);
      var revoked := RevokeExisting(s, op.email);
      RevokeExistingKeeps(s, op.email);
      RevokedIsStorable(s, op);
      StoreKeeps(revoked, l);
      var counted := CountOne(StoreLink(revoked, l), op.email);
      RewriteKeeps(counted, l.id, Pending);
    }
  }

  lemma ConfigureKeeps(s: State, config: Config)
    requires Inv(s)
    ensures Inv(s.(config := config))
  {
    var r := s.(config := config);
    SameIndexesKeep(s, r);
    forall k | Open(r, k)
      ensures Covered(r, k)
    {
      assert Open(s, k);
      assert Covered(s, k);
    }
  }

  lemma StepKeeps(s: State, op: Op)
    requires Inv(s) && Enabled(s, op)
    ensures Inv(Apply(s, op))
  {
    match op
    case Advance(ms) => AdvanceKeeps(s, ms);
    case Configure(config) => ConfigureKeeps(s, config);
    case Generate(_, _, _, _, _, _) => GenerateKeeps(s, op);
    case Verify(token) => VerifyKeeps(s, token);
    case Resend(id, emailed) => ResendKeeps(s, id, emailed);
    case Revoke(id) => if id in s.links { RewriteKeeps(s, id, Revoked); }
    case Cleanup => CleanupKeeps(s);
  }

  lemma GenerateReopensNothing(s: State, op: Op, id: string)
    requires op.Generate? && id in s.links && id != op.id && !s.links[id].value.status.Pending?
    ensures id in Apply(s, op).links && !Apply(s, op).links[id].value.status.Pending?
  {
  }

  lemma ResendReopensNothing(s: State, k: string, emailed: bool, id: string)
    requires id in s.links && !s.links[id].value.status.Pending?
    ensures id in ResendEffect(s, k, emailed).links && !ResendEffect(s, k, emailed).links[id].value.status.Pending?
  {
  }

  lemma VerifyReopensNothing(s: State, token: string, id: string)
    requires id in s.links && !s.links[id].value.status.Pending?
    ensures id in VerifyEffect(s, token).links && !VerifyEffect(s, token).links[id].value.status.Pending?
  {
  }

  /** No call makes a link pending again, although statuses are rewritten in several ways. */
  lemma NeverReopened(s: State, op: Op, id: string)
    requires RecordsAreIssued(s) && Enabled(s, op)
    requires id in s.links && !s.links[id].value.status.Pending? && id in Apply(s, op).links
    ensures !Apply(s, op).links[id].value.status.Pending?
  {
    if op.Generate? {
      assert Issued(s.links[id].value) in s.stored;
      GenerateReopensNothing(s, op, id);
    } else if op.Resend? {
      ResendReopensNothing(s, op.id, op.emailed, id);
    } else if op.Verify? {
      VerifyReopensNothing(s, op.token, id);
    }
  }

  lemma {:induction false} RunKeeps(s: State, ops: seq<Op>)
    requires Inv(s) && Legal(s, ops)
    ensures Inv(Run(s, ops))
    decreases |ops|
  {
    if |ops| > 0 {
      StepKeeps(s, ops[0]);
      RunKeeps(Apply(s, ops[0]), ops[1..]);
    }
  }

  // ---------------------------------------------------------------- main results

  /** At every moment of every run an address has at most one usable link, the one issued last. */
  lemma AtMostOneUsable(now: int, config: Config, ops: seq<Op>, a: string, b: string)
    requires Legal(Init(now, config), ops)
    ensures
      var s := Run(Init(now, config), ops);
      && (Usable(s, a) ==> Latest(s.stored, s.links[a].value.email) == Some(a))
      && (Usable(s, a) && Usable(s, b) && s.links[a].value.email == s.links[b].value.email ==> a == b)
  {
    InitInv(now, config);
    RunKeeps(Init(now, config), ops);
    var s := Run(Init(now, config), ops);
    assert Usable(s, a) ==> Covered(s, a);
    assert Usable(s, b) ==> Covered(s, b);
  }

  /** Over a whole run no token reaches its action twice, and none outside its original lifetime. */
  lemma TokensWorkOnce(now: int, config: Config, ops: seq<Op>)
    requires Legal(Init(now, config), ops)
    ensures
      var s := Run(Init(now, config), ops);
      && (forall i, j :: 0 <= i < j < |s.uses| ==> s.uses[i].link.token != s.uses[j].link.token)
      && (forall u :: u in s.uses ==> u.link in s.stored && u.link.createdAt <= u.at < u.link.expiresAt)
  {
    InitInv(now, config);
    RunKeeps(Init(now, config), ops);
  }

  /** In any state the invariant holds of, a token is accepted exactly when a usable link owns it. */
  lemma AcceptedIffUsable(s: State, token: string)
    requires Inv(s)
    ensures (exists id :: Usable(s, id) && s.links[id].value.token == token)
      <==> Resolve(s, token).Some? && Acceptable(s, Resolve(s, token).value)
  {
    if Resolve(s, token).Some? {
      RecordOfToken(s, token);
      if Acceptable(s, Resolve(s, token).value) {
        assert Usable(s, s.tokens[token].value);
      }
    }
  }

  /** A call to verify succeeds exactly when the token is that of a usable link. */
  lemma VerifyAcceptsUsable(now: int, config: Config, ops: seq<Op>, token: string)
    requires Legal(Init(now, config), ops)
    ensures
      var s := Run(Init(now, config), ops);
      (exists id :: Usable(s, id) && s.links[id].value.token == token)
        <==> |VerifyEffect(s, token).uses| == |s.uses| + 1
  {
    InitInv(now, config);
    RunKeeps(Init(now, config), ops);
    AcceptedIffUsable(Run(Init(now, config), ops), token);
  }

  // ---------------------------------------------------------------- an issued link works

  /** A pending link whose record the store keeps until `until`, and whose token it keeps to the expiry. */
  ghost predicate HeldUntil(s: State, l: Link, until: int) {
    && l.status.Pending?
    && l.id in s.links && s.links[l.id] == Entry(l, Some(until)) && s.now < until
    && l.token in s.tokens && s.tokens[l.token].value == l.id
    && s.tokens[l.token].deadline.Some? && l.expiresAt <= s.tokens[l.token].deadline.value
  }

  /** The store has dropped the record of a link that was issued. */
  ghost predicate Dropped(s: State, l: Link) {
    l.id !in s.links && Issued(l) in s.stored
  }

  /** An issued link whose record is gone or no longer pending. */
  ghost predicate Closed(s: State, l: Link) {
    Issued(l) in s.stored && (l.id in s.links ==> !s.links[l.id].value.status.Pending?)
  }

  /** The calls that neither use, revoke nor supersede a link: a request that is refused does not. */
  predicate Spares(s: State, op: Op, l: Link) {
    match op
    case Generate(email, _, _, lookup, _, _) => email != l.email || !Admits(s, email, lookup)
    case Verify(token) => token != l.token
    case Revoke(id) => id != l.id
    case _ => true
  }

  ghost predicate LeftAlone(s: State, ops: seq<Op>, l: Link)
    decreases |ops|
  {
    |ops| == 0 || (Spares(s, ops[0], l) && LeftAlone(Apply(s, ops[0]), ops[1..], l))
  }

  /** Until when the record is kept after a call: only resending the link itself moves it. */
  function KeptUntil(s: State, op: Op, l: Link, until: int): int {
    if op == Resend(l.id, true) then s.now + LinkTtl(s.config) * SECOND else until
  }

  /** At every moment of the run the TTL of the link's latest rewrite is still running. */
  ghost predicate Lasts(s: State, ops: seq<Op>, l: Link, until: int)
    decreases |ops|
  {
    |ops| == 0 ||
    (Apply(s, ops[0]).now < KeptUntil(s, ops[0], l, until)
     && Lasts(Apply(s, ops[0]), ops[1..], l, KeptUntil(s, ops[0], l, until)))
  }

  /** The sets of other addresses do not hold the link's id. */
  lemma SetsOfOthers(s: State, email: string, l: Link)
    requires DistinctLinks(s.stored) && SetsAreIssued(s) && Issued(l) in s.stored && email != l.email
    ensures l.id !in Members(s.emails, email)
  {
    if l.id in Members(s.emails, email) {
      assert l.id in IdsFor(s.stored, email);
      var m :| m in s.stored && m.email == email && m.id == l.id;
      SameToken(s.stored, m, Issued(l));
    }
  }

  lemma HeldIsIssued(s: State, l: Link, until: int)
    requires RecordsAreIssued(s) && HeldUntil(s, l, until)
    ensures Issued(l) in s.stored
  {
    assert Issued(s.links[l.id].value) in s.stored;
  }

  lemma GenerateSpares(s: State, op: Op, l: Link, until: int)
    requires HeldUntil(s, l, until) && op.Generate? && op.id != l.id && op.token != l.token
    requires l.id !in Members(s.emails, op.email)
    ensures HeldUntil(Apply(s, op), l, until)
  {
    if Admits(s, op.email, op.lookup) {
      var m := RevokeExisting(s, op.email);
      assert m.links[l.id] == s.links[l.id] && m.tokens == s.tokens;
    }
  }

  lemma GenerateSparesOthers(s: State, op: Op, l: Link, until: int)
    requires Inv(s) && op.Generate? && Enabled(s, op) && HeldUntil(s, l, until) && op.email != l.email
    ensures HeldUntil(Apply(s, op), l, until)
  {
    HeldIsIssued(s, l, until);
    SetsOfOthers(s, op.email, l);
    GenerateSpares(s, op, l, until);
  }

  lemma OtherTokensLeadElsewhere(s: State, token: string, l: Link)
    requires DistinctLinks(s.stored) && RecordsAreIssued(s) && TokensAreIssued(s)
    requires Resolve(s, token).Some? && token != l.token && l.id in s.links && s.links[l.id].value == l
    ensures s.tokens[token].value != l.id
  {
    RecordOfToken(s, token);
  }

  lemma VerifySpares(s: State, token: string, l: Link, until: int)
    requires HeldUntil(s, l, until)
    requires Resolve(s, token).Some? ==> s.tokens[token].value != l.id
    ensures HeldUntil(VerifyEffect(s, token), l, until)
  {
  }

  lemma CleanupSpares(s: State, l: Link, until: int)
    requires Inv(s) && HeldUntil(s, l, until) && s.now < l.expiresAt
    ensures HeldUntil(CleanupEffect(s), l, until)
  {
    assert l.id !in Stale(s);
    forall id | id in Stale(s)
      ensures s.links[id].value.token != l.token
    {
      HeldIsIssued(s, l, until);
      if s.links[id].value.token == l.token {
        SameToken(s.stored, Issued(s.links[id].value), Issued(l));
      }
    }
  }

  lemma ResendSpares(s: State, id: string, emailed: bool, l: Link, until: int)
    requires HeldUntil(s, l, until) && s.now < l.expiresAt
    ensures HeldUntil(ResendEffect(s, id, emailed), l, KeptUntil(s, Resend(id, emailed), l, until))
  {
  }

  /** Kept up to the given moment, and gone from then on. */
  ghost predicate HeldOrDropped(s: State, l: Link, until: int) {
    if s.now < until then HeldUntil(s, l, until) else Dropped(s, l)
  }

  lemma AdvanceSpares(s: State, ms: nat, l: Link, until: int)
    requires HeldUntil(s, l, until) && Issued(l) in s.stored && s.now + ms < l.expiresAt
    ensures HeldOrDropped(AdvanceEffect(s, ms), l, until)
  {
  }

  lemma RevokeSpares(s: State, id: string, l: Link, until: int)
    requires HeldUntil(s, l, until) && id != l.id
    ensures HeldUntil(SetStatus(s, id, Revoked), l, until)
  {
  }

  /** A call at one instant other than a resend does not touch the record. */
  lemma OthersSpare(s: State, op: Op, l: Link, until: int)
    requires Inv(s) && Enabled(s, op) && HeldUntil(s, l, until) && Spares(s, op, l)
    requires !op.Advance? && !op.Resend? && s.now < l.expiresAt
    ensures HeldUntil(Apply(s, op), l, until)
  {
    if op.Generate? {
      if op.email == l.email {
        assert Apply(s, op) == s;
      } else {
        GenerateSparesOthers(s, op, l, until);
      }
    } else if op.Verify? {
      if Resolve(s, op.token).Some? {
        OtherTokensLeadElsewhere(s, op.token, l);
      }
      VerifySpares(s, op.token, l, until);
    } else if op.Cleanup? {
      CleanupSpares(s, l, until);
    } else if op.Revoke? {
      RevokeSpares(s, op.id, l, until);
    } else {
      assert op.Configure?;
    }
  }

  lemma OthersTakeNoTime(s: State, op: Op)
    requires !op.Advance?
    ensures Apply(s, op).now == s.now
  {
  }

  lemma StepSpares(s: State, op: Op, l: Link, until: int)
    requires Inv(s) && Enabled(s, op) && HeldUntil(s, l, until) && Spares(s, op, l)
    requires Apply(s, op).now < l.expiresAt
    ensures HeldOrDropped(Apply(s, op), l, KeptUntil(s, op, l, until))
  {
    if op.Advance? {
      HeldIsIssued(s, l, until);
      AdvanceSpares(s, op.ms, l, until);
    } else {
      OthersTakeNoTime(s, op);
      if op.Resend? {
        ResendSpares(s, op.id, op.emailed, l, until);
      } else {
        OthersSpare(s, op, l, until);
      }
    }
  }

  /** Ids are never used twice, so a dropped record does not come back. */
  lemma GenerateAddsOne(s: State, op: Op)
    requires op.Generate?
    ensures Apply(s, op).links.Keys <= s.links.Keys + {op.id} && s.stored <= Apply(s, op).stored
  {
  }

  lemma OthersAddNone(s: State, op: Op)
    requires !op.Generate?
    ensures Apply(s, op).links.Keys <= s.links.Keys && Apply(s, op).stored == s.stored
  {
  }

  lemma StaysDropped(s: State, op: Op, l: Link)
    requires Enabled(s, op) && Dropped(s, l)
    ensures Dropped(Apply(s, op), l)
  {
    if op.Generate? {
      GenerateAddsOne(s, op);
      assert op.id != Issued(l).id;
    } else {
      OthersAddNone(s, op);
    }
  }

  /** Nor is a record that is no longer pending ever pending again. */
  lemma StaysClosed(s: State, op: Op, l: Link)
    requires RecordsAreIssued(s) && Enabled(s, op) && Closed(s, l)
    ensures Closed(Apply(s, op), l)
  {
    if l.id !in s.links {
      StaysDropped(s, op, l);
    } else {
      if op.Generate? {
        GenerateAddsOne(s, op);
      } else {
        OthersAddNone(s, op);
      }
      if l.id in Apply(s, op).links {
        NeverReopened(s, op, l.id);
      }
    }
  }

  lemma {:induction false} ClosedForGood(s: State, ops: seq<Op>, l: Link)
    requires Inv(s) && Legal(s, ops) && Closed(s, l)
    ensures Closed(Run(s, ops), l)
    decreases |ops|
  {
    if |ops| > 0 {
      StaysClosed(s, ops[0], l);
      StepKeeps(s, ops[0]);
      ClosedForGood(Apply(s, ops[0]), ops[1..], l);
    }
  }

  /** A request that is granted closes the address's pending link, which its set is known to hold. */
  lemma GrantCloses(s: State, op: Op, l: Link, until: int)
    requires OpenIsCovered(s) && HeldUntil(s, l, until) && Issued(l) in s.stored
    requires op.Generate? && op.email == l.email && Admits(s, op.email, op.lookup) && op.id != l.id
    ensures Closed(Apply(s, op), l)
  {
    assert Open(s, l.id);
    assert Covered(s, l.id);
    assert Revocable(s, op.email, l.id);
    assert RevokeExisting(s, op.email).links[l.id].value.status == Revoked;
    GenerateAddsOne(s, op);
  }

  /** Every other call that does not spare a link closes it. */
  lemma DisturbingCloses(s: State, op: Op, l: Link, until: int)
    requires Inv(s) && Enabled(s, op) && HeldUntil(s, l, until) && s.now < l.expiresAt && !Spares(s, op, l)
    ensures Closed(Apply(s, op), l) && Apply(s, op).now == s.now
  {
    HeldIsIssued(s, l, until);
    if op.Generate? {
      OthersTakeNoTime(s, op);
      GrantCloses(s, op, l, until);
    } else if op.Verify? {
      assert Resolve(s, op.token) == Some(l);
    }
  }

  lemma {:induction false} ClockIsMonotone(s: State, ops: seq<Op>)
    ensures s.now <= Run(s, ops).now
    decreases |ops|
  {
    if |ops| > 0 {
      ClockIsMonotone(Apply(s, ops[0]), ops[1..]);
    }
  }

  /** In any run the link is held at the end exactly if it was left alone and its record always lasted. */
  lemma {:induction false} HeldIffLasts(s: State, ops: seq<Op>, l: Link, until: int)
    requires Inv(s) && Legal(s, ops) && HeldUntil(s, l, until)
    requires Run(s, ops).now < l.expiresAt
    ensures
      var r := Run(s, ops);
      if LeftAlone(s, ops, l) && Lasts(s, ops, l, until) then exists d :: HeldUntil(r, l, d) else Closed(r, l)
    decreases |ops|
  {
    if |ops| > 0 {
      var op, r := ops[0], Apply(s, ops[0]);
      ClockIsMonotone(r, ops[1..]);
      StepKeeps(s, op);
      if !Spares(s, op, l) {
        ClockIsMonotone(s, ops);
        DisturbingCloses(s, op, l, until);
        ClosedForGood(r, ops[1..], l);
      } else {
        StepSpares(s, op, l, until);
        if r.now < KeptUntil(s, op, l, until) {
          HeldIffLasts(r, ops[1..], l, KeptUntil(s, op, l, until));
        } else {
          ClosedForGood(r, ops[1..], l);
        }
      }
    }
  }

  /** A held link is accepted before its expiry, a closed one is not. */
  lemma HeldIsAccepted(s: State, l: Link, until: int)
    requires HeldUntil(s, l, until) && s.now < l.expiresAt
    ensures VerifyEffect(s, l.token) == SetStatus(s, l.id, Used).(uses := s.uses + [Use(l, s.now)])
  {
  }

  lemma ClosedIsRefused(s: State, l: Link)
    requires DistinctLinks(s.stored) && RecordsAreIssued(s) && TokensAreIssued(s) && ExpiredIsPast(s)
    requires Closed(s, l) && s.now < l.expiresAt
    ensures VerifyEffect(s, l.token) == s
  {
    if Resolve(s, l.token).Some? {
      var m := Resolve(s, l.token).value;
      RecordOfToken(s, l.token);
      SameToken(s.stored, Issued(m), Issued(l));
      assert m.expiresAt == l.expiresAt;
    }
  }

  lemma {:induction false} IssuedStays(s: State, ops: seq<Op>, l: Link)
    requires l in s.stored
    ensures l in Run(s, ops).stored
    decreases |ops|
  {
    if |ops| > 0 {
      if ops[0].Generate? {
        GenerateAddsOne(s, ops[0]);
      } else {
        OthersAddNone(s, ops[0]);
      }
      IssuedStays(Apply(s, ops[0]), ops[1..], l);
    }
  }

  lemma ExpiredIsRefused(s: State, l: Link)
    requires DistinctLinks(s.stored) && TokensAreIssued(s) && Issued(l) in s.stored && l.expiresAt <= s.now
    ensures VerifyEffect(s, l.token) == s
  {
    if l.token in s.tokens {
      var m :| m in s.stored && LeadsTo(s, l.token, m);
      SameToken(s.stored, m, Issued(l));
    }
  }

  /**
   Over every run of the service, settings changes included, an issued link is accepted at the end
   exactly if that is before its expiry, no call has used, revoked or superseded it, and the TTL of
   its latest rewrite never ran out; otherwise its token is refused and nothing changes.
   */
  lemma WorksIffLasts(s: State, ops: seq<Op>, l: Link, until: int)
    requires Inv(s) && Legal(s, ops) && HeldUntil(s, l, until)
    ensures
      var r := Run(s, ops);
      VerifyEffect(r, l.token) ==
        if r.now < l.expiresAt && LeftAlone(s, ops, l) && Lasts(s, ops, l, until)
        then SetStatus(r, l.id, Used).(uses := r.uses + [Use(l, r.now)]) else r
  {
    var r := Run(s, ops);
    RunKeeps(s, ops);
    if l.expiresAt <= r.now {
      HeldIsIssued(s, l, until);
      IssuedStays(s, ops, Issued(l));
      ExpiredIsRefused(r, l);
    } else {
      HeldIffLasts(s, ops, l, until);
      if LeftAlone(s, ops, l) && Lasts(s, ops, l, until) {
        var d :| HeldUntil(r, l, d);
        HeldIsAccepted(r, l, d);
      } else {
        ClosedIsRefused(r, l);
      }
    }
  }

  /** Every successful resend of the link is made under a TTL that reaches its expiry. */
  ghost predicate ResendsReach(s: State, ops: seq<Op>, l: Link)
    decreases |ops|
  {
    |ops| == 0 ||
    ((ops[0] == Resend(l.id, true) ==> l.expiresAt <= s.now + LinkTtl(s.config) * SECOND)
     && ResendsReach(Apply(s, ops[0]), ops[1..], l))
  }

  lemma {:induction false} ReachingLasts(s: State, ops: seq<Op>, l: Link, until: int)
    requires ResendsReach(s, ops, l) && l.expiresAt <= until && Run(s, ops).now < l.expiresAt
    ensures Lasts(s, ops, l, until)
    decreases |ops|
  {
    if |ops| > 0 {
      ClockIsMonotone(Apply(s, ops[0]), ops[1..]);
      ReachingLasts(Apply(s, ops[0]), ops[1..], l, KeptUntil(s, ops[0], l, until));
    }
  }

  /** An issued link works at any time before its expiry unless a resend of it shortens its record's life. */
  lemma IssuedLinkWorks(s: State, ops: seq<Op>, l: Link, until: int)
    requires Inv(s) && Legal(s, ops) && HeldUntil(s, l, until) && l.expiresAt <= until
    requires LeftAlone(s, ops, l)
    requires ResendsReach(s, ops, l) && Run(s, ops).now < l.expiresAt
    ensures VerifyEffect(Run(s, ops), l.token).uses == Run(s, ops).uses + [Use(l, Run(s, ops).now)]
  {
    ReachingLasts(s, ops, l, until);
    WorksIffLasts(s, ops, l, until);
  }

  /** Settings that never shorten the expiry below the link's own lifetime. */
  predicate NotShortened(ops: seq<Op>, l: Link) {
    forall op :: op in ops && op.Configure? ==> l.expiresAt <= l.createdAt + LinkTtl(op.config) * SECOND
  }

  /** Then every resend reaches the expiry, so the condition of the theorem is met. */
  lemma {:induction false} UnshortenedReaches(s: State, ops: seq<Op>, l: Link)
    requires NotShortened(ops, l) && l.createdAt <= s.now
    requires l.expiresAt <= l.createdAt + LinkTtl(s.config) * SECOND
    ensures ResendsReach(s, ops, l)
    decreases |ops|
  {
    if |ops| > 0 {
      assert ops[0] in ops && forall o :: o in ops[1..] ==> o in ops;
      assert Apply(s, ops[0]).config == if ops[0].Configure? then ops[0].config else s.config;
      ClockIsMonotone(s, [ops[0]]);
      assert Run(s, [ops[0]]) == Apply(s, ops[0]);
      UnshortenedReaches(Apply(s, ops[0]), ops[1..], l);
    }
  }

  lemma ShortResendDrops(s: State, l: Link, until: int)
    requires RecordsAreIssued(s) && HeldUntil(s, l, until)
    requires s.now + LinkTtl(s.config) * SECOND < l.expiresAt
    ensures Dropped(AdvanceEffect(ResendEffect(s, l.id, true), LinkTtl(s.config) * SECOND), l)
  {
    HeldIsIssued(s, l, until);
    ResendSpares(s, l.id, true, l, until);
    AdvanceSpares(ResendEffect(s, l.id, true), LinkTtl(s.config) * SECOND, l, s.now + LinkTtl(s.config) * SECOND);
  }

  /** Resending a link under a TTL that ends before its expiry ends the link's life with that TTL. */
  lemma ShortResendBreaks(s: State, l: Link, until: int)
    requires Inv(s) && HeldUntil(s, l, until)
    requires s.now + LinkTtl(s.config) * SECOND < l.expiresAt
    ensures
      var r := AdvanceEffect(ResendEffect(s, l.id, true), LinkTtl(s.config) * SECOND);
      r.now < l.expiresAt && VerifyEffect(r, l.token) == r
  {
    ResendKeeps(s, l.id, true);
    AdvanceKeeps(ResendEffect(s, l.id, true), LinkTtl(s.config) * SECOND);
    ShortResendDrops(s, l, until);
    ClosedIsRefused(AdvanceEffect(ResendEffect(s, l.id, true), LinkTtl(s.config) * SECOND), l);
  }

  lemma GenerateHolds(s: State, op: Op)
    requires op.Generate? && Admits(s, op.email, op.lookup)
    ensures
      var l := NewLink(s, op.email, op.id, op.token, op.lookup, op.action);
      HeldUntil(Apply(s, op), l, l.expiresAt) && Apply(s, op).stored == s.stored + [l]
  {
  }

  lemma GenerateClosesOthers(s: State, op: Op, id: string)
    requires RecordsAreIssued(s) && OpenIsCovered(s)
    requires op.Generate? && Enabled(s, op) && Admits(s, op.email, op.lookup)
    requires Open(Apply(s, op), id) && id != op.id
    ensures Apply(s, op).links[id].value.email != op.email
  {
    var m := RevokeExisting(s, op.email);
    RevokeExistingKeepsOpen(s, op.email);
    assert Issued(s.links[id].value) in s.stored;
    assert Open(m, id);
  }

  /** A successful generate leaves a link that works, and the address's earlier links closed. */
  lemma GenerateMakesReady(s: State, op: Op)
    requires Inv(s) && op.Generate? && Enabled(s, op) && Admits(s, op.email, op.lookup)
    ensures
      var l := NewLink(s, op.email, op.id, op.token, op.lookup, op.action);
      var r := Apply(s, op);
      && Inv(r) && HeldUntil(r, l, l.expiresAt) && r.stored == s.stored + [l]
      && (forall id :: Open(r, id) && id != l.id ==> r.links[id].value.email != op.email)
  {
    GenerateHolds(s, op);
    GenerateKeeps(s, op);
    forall id | Open(Apply(s, op), id) && id != op.id
      ensures Apply(s, op).links[id].value.email != op.email
    {
      GenerateClosesOthers(s, op, id);
    }
  }

  /** The counter an address is limited by is the number of links it was issued that day. */
  lemma CounterCountsIssued(now: int, config: Config, ops: seq<Op>, email: string)
    requires Legal(Init(now, config), ops)
    ensures
      var s := Run(Init(now, config), ops);
      DailyCount(s, email) == IssuedOn(s.stored, email, Day(s.now))
  {
    InitInv(now, config);
    RunKeeps(Init(now, config), ops);
  }

  ghost predicate LimitedTo(ops: seq<Op>, limit: nat) {
    forall op :: op in ops && op.Configure? ==> op.config.maxUsesPerDay <= limit
  }

  lemma IssuedGrows(stored: seq<Link>, l: Link, email: string, day: int)
    ensures IssuedOn(stored + [l], email, day)
      == IssuedOn(stored, email, day) + (if l.email == email && Day(l.createdAt) == day then 1 else 0)
  {
    assert (stored + [l])[..|stored|] == stored;
  }

  lemma GenerateIssuesOne(s: State, op: Op)
    requires op.Generate? && Admits(s, op.email, op.lookup)
    ensures Apply(s, op).stored == s.stored + [NewLink(s, op.email, op.id, op.token, op.lookup, op.action)]
  {
  }

  lemma GenerateWithinLimit(s: State, op: Op, email: string, day: int, limit: nat)
    requires CounterIsExact(s) && op.Generate?
    requires s.config.maxUsesPerDay <= limit && IssuedOn(s.stored, email, day) <= limit
    ensures IssuedOn(Apply(s, op).stored, email, day) <= limit
  {
    if Admits(s, op.email, op.lookup) {
      assert DailyCount(s, op.email) == IssuedOn(s.stored, op.email, Day(s.now));
      GenerateIssuesOne(s, op);
      IssuedGrows(s.stored, NewLink(s, op.email, op.id, op.token, op.lookup, op.action), email, day);
    }
  }

  lemma StepWithinLimit(s: State, op: Op, email: string, day: int, limit: nat)
    requires CounterIsExact(s)
    requires s.config.maxUsesPerDay <= limit
    requires op.Configure? ==> op.config.maxUsesPerDay <= limit
    requires IssuedOn(s.stored, email, day) <= limit
    ensures IssuedOn(Apply(s, op).stored, email, day) <= limit
    ensures Apply(s, op).config.maxUsesPerDay <= limit
  {
    if op.Generate? {
      GenerateWithinLimit(s, op, email, day, limit);
    } else {
      OthersAddNone(s, op);
    }
  }

  /** No address is issued more links on any day than the largest limit in force allows. */
  lemma {:induction false} DailyLimitHolds(s: State, ops: seq<Op>, email: string, day: int, limit: nat)
    requires Inv(s) && Legal(s, ops)
    requires s.config.maxUsesPerDay <= limit && LimitedTo(ops, limit)
    requires IssuedOn(s.stored, email, day) <= limit
    ensures IssuedOn(Run(s, ops).stored, email, day) <= limit
    decreases |ops|
  {
    if |ops| > 0 {
      var op := ops[0];
      assert op in ops;
      StepKeeps(s, op);
      StepWithinLimit(s, op, email, day, limit);
      assert forall o :: o in ops[1..] ==> o in ops;
      DailyLimitHolds(Apply(s, op), ops[1..], email, day, limit);
    }
  }

  lemma NeverOverDailyLimit(now: int, config: Config, ops: seq<Op>, email: string, day: int, limit: nat)
    requires Legal(Init(now, config), ops)
    requires config.maxUsesPerDay <= limit && LimitedTo(ops, limit)
    ensures IssuedOn(Run(Init(now, config), ops).stored, email, day) <= limit
  {
    InitInv(now, config);
    DailyLimitHolds(Init(now, config), ops, email, day, limit);
  }
}
