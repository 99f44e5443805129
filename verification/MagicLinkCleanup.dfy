/** Deleting expired links early is invisible: no later call can tell a cleaned store from one left alone. */
module MagicLinkCleanup {
  import opened Store
  import opened MagicLink
  import opened MagicLinkRuns

  /** A record the left store still has and the cleaned one lacks. */
  ghost predicate Missing(s: State, c: State, id: string) {
    id in s.links && id !in c.links
  }

  ghost predicate LinkAlike(s: State, c: State, id: string) {
    && (id in c.links ==> id in s.links && c.links[id] == s.links[id])
    && (Missing(s, c, id) ==>
          var l := s.links[id].value;
          l.expiresAt < s.now && l.token !in c.tokens && id !in Members(c.emails, l.email))
  }

  ghost predicate TokenAlike(s: State, c: State, t: string) {
    && (t in c.tokens ==> t in s.tokens && c.tokens[t] == s.tokens[t])
    && (t in s.tokens && t !in c.tokens ==> s.tokens[t].value !in c.links)
  }

  ghost predicate SetAlike(s: State, c: State, e: string) {
    && (e in c.emails ==>
          && e in s.emails && c.emails[e].deadline == s.emails[e].deadline
          && c.emails[e].value <= s.emails[e].value)
    && (forall id :: id in Members(s.emails, e) && id !in Members(c.emails, e) ==> id !in c.links)
  }

  /** The cleaned store c behaves as the store s: it only lacks links that have expired. */
  ghost predicate Alike(s: State, c: State) {
    && s.now == c.now && s.config == c.config && s.daily == c.daily
    && s.stored == c.stored && s.uses == c.uses
    && (forall id :: LinkAlike(s, c, id))
    && (forall t :: TokenAlike(s, c, t))
    && (forall e :: SetAlike(s, c, e))
  }

  /** Each token key leads to the link that owns the token. */
  lemma TokenOwner(s: State, token: string, l: Link)
    requires DistinctLinks(s.stored) && TokensAreIssued(s) && token in s.tokens
    requires Issued(l) in s.stored && l.token == token
    ensures s.tokens[token].value == l.id
  {
    var m :| m in s.stored && LeadsTo(s, token, m);
    SameToken(s.stored, m, Issued(l));
  }

  lemma CleanedLinkAlike(s: State, id: string)
    ensures LinkAlike(s, CleanupEffect(s), id)
  {
    if Missing(s, CleanupEffect(s), id) {
      assert s.links[id].value.token in TokensOf(s, Stale(s));
    }
  }

  lemma CleanedTokenAlike(s: State, t: string)
    requires DistinctLinks(s.stored) && TokensAreIssued(s) && RecordsAreIssued(s)
    ensures TokenAlike(s, CleanupEffect(s), t)
  {
    if t in s.tokens && t !in CleanupEffect(s).tokens {
      var id :| id in Stale(s) && s.links[id].value.token == t;
      TokenOwner(s, t, s.links[id].value);
    }
  }

  lemma CleanedSetAlike(s: State, e: string)
    ensures SetAlike(s, CleanupEffect(s), e)
  {
    assert e in s.emails && e !in CleanupEffect(s).emails ==> Kept(s, Stale(s), e) == {};
  }

  lemma CleanupAlike(s: State)
    requires Inv(s)
    ensures Alike(s, CleanupEffect(s))
  {
    forall id { CleanedLinkAlike(s, id); }
    forall t { CleanedTokenAlike(s, t); }
    forall e { CleanedSetAlike(s, e); }
  }

  lemma AdvanceAlike(s: State, c: State, ms: nat)
    requires Alike(s, c)
    ensures Alike(AdvanceEffect(s, ms), AdvanceEffect(c, ms))
  {
    var s', c' := AdvanceEffect(s, ms), AdvanceEffect(c, ms);
    forall id
      ensures LinkAlike(s', c', id)
    {
      assert LinkAlike(s, c, id);
      if Missing(s', c', id) {
        assert SetAlike(s, c, s.links[id].value.email);
      }
    }
    forall t
      ensures TokenAlike(s', c', t)
    {
      assert TokenAlike(s, c, t);
    }
    forall e
      ensures SetAlike(s', c', e)
    {
      assert SetAlike(s, c, e);
    }
  }

  /** The same rewrite on both sides. */
  lemma RewriteAlike(s: State, c: State, id: string, status: Status)
    requires Alike(s, c) && !Missing(s, c, id)
    ensures Alike(SetStatus(s, id, status), SetStatus(c, id, status))
  {
    assert LinkAlike(s, c, id);
    var s', c' := SetStatus(s, id, status), SetStatus(c, id, status);
    forall k
      ensures LinkAlike(s', c', k)
    {
      assert LinkAlike(s, c, k);
    }
    forall t
      ensures TokenAlike(s', c', t)
    {
      assert TokenAlike(s, c, t);
    }
    forall e
      ensures SetAlike(s', c', e)
    {
      assert SetAlike(s, c, e);
    }
  }

  /** A rewrite of a record only one side has. */
  lemma MissingAlike(s: State, c: State, id: string, status: Status)
    requires Alike(s, c) && Missing(s, c, id)
    ensures Alike(SetStatus(s, id, status), c)
  {
    var s', c' := SetStatus(s, id, status), c;
    forall k
      ensures LinkAlike(s', c', k)
    {
      assert LinkAlike(s, c, k);
    }
    forall t
      ensures TokenAlike(s', c', t)
    {
      assert TokenAlike(s, c, t);
    }
    forall e
      ensures SetAlike(s', c', e)
    {
      assert SetAlike(s, c, e);
    }
  }

  lemma SetStatusAlike(s: State, c: State, id: string, status: Status)
    requires Alike(s, c)
    ensures Alike(SetStatus(s, id, status), SetStatus(c, id, status))
  {
    if Missing(s, c, id) {
      MissingAlike(s, c, id, status);
    } else {
      RewriteAlike(s, c, id, status);
    }
  }

  lemma UseAlike(s: State, c: State, u: Use)
    requires Alike(s, c)
    ensures Alike(s.(uses := s.uses + [u]), c.(uses := c.uses + [u]))
  {
    var s', c' := s.(uses := s.uses + [u]), c.(uses := c.uses + [u]);
    forall k
      ensures LinkAlike(s', c', k)
    {
      assert LinkAlike(s, c, k);
    }
    forall t
      ensures TokenAlike(s', c', t)
    {
      assert TokenAlike(s, c, t);
    }
    forall e
      ensures SetAlike(s', c', e)
    {
      assert SetAlike(s, c, e);
    }
  }

  /** A token that resolves in the cleaned store resolves to the same record in the other. */
  lemma VerifyBothAlike(s: State, c: State, token: string)
    requires Alike(s, c) && Resolve(c, token).Some?
    ensures Alike(VerifyEffect(s, token), VerifyEffect(c, token))
  {
    var id := c.tokens[token].value;
    assert TokenAlike(s, c, token) && LinkAlike(s, c, id);
    var l := c.links[id].value;
    assert Resolve(s, token) == Some(l) == Resolve(c, token);
    if l.status.Used? || l.status.Revoked? {
    } else if s.now > l.expiresAt {
      SetStatusAlike(s, c, id, Expired);
    } else {
      SetStatusAlike(s, c, id, Used);
      UseAlike(SetStatus(s, id, Used), SetStatus(c, id, Used), Use(l, s.now));
    }
  }

  /** Any other token is refused on both sides. */
  lemma VerifyNeitherAlike(s: State, c: State, token: string)
    requires Alike(s, c) && Resolve(c, token).None?
    ensures Alike(VerifyEffect(s, token), c)
  {
    if Resolve(s, token).Some? {
      var id := s.tokens[token].value;
      assert TokenAlike(s, c, token) && LinkAlike(s, c, id);
      MissingAlike(s, c, id, Expired);
    }
  }

  lemma VerifyAlike(s: State, c: State, token: string)
    requires Alike(s, c)
    ensures Alike(VerifyEffect(s, token), VerifyEffect(c, token))
  {
    if Resolve(c, token).Some? {
      VerifyBothAlike(s, c, token);
    } else {
      VerifyNeitherAlike(s, c, token);
    }
  }

  lemma ResendAlike(s: State, c: State, id: string, emailed: bool)
    requires Alike(s, c)
    ensures Alike(ResendEffect(s, id, emailed), ResendEffect(c, id, emailed))
  {
    assert LinkAlike(s, c, id);
    SetStatusAlike(s, c, id, Expired);
    if id in s.links {
      var l := s.links[id].value;
      assert l.(status := l.status) == l;
      SetStatusAlike(s, c, id, l.status);
    }
  }

  lemma ConfigureAlike(s: State, c: State, config: Config)
    requires Alike(s, c)
    ensures Alike(s.(config := config), c.(config := config))
  {
    var s', c' := s.(config := config), c.(config := config);
    forall k
      ensures LinkAlike(s', c', k)
    {
      assert LinkAlike(s, c, k);
    }
    forall t
      ensures TokenAlike(s', c', t)
    {
      assert TokenAlike(s, c, t);
    }
    forall e
      ensures SetAlike(s', c', e)
    {
      assert SetAlike(s, c, e);
    }
  }

  lemma RevokeExistingAlike(s: State, c: State, email: string)
    requires Alike(s, c)
    ensures Alike(RevokeExisting(s, email), RevokeExisting(c, email))
  {
    var s', c' := RevokeExisting(s, email), RevokeExisting(c, email);
    assert SetAlike(s, c, email);
    forall k
      ensures LinkAlike(s', c', k)
    {
      assert LinkAlike(s, c, k);
    }
    forall t
      ensures TokenAlike(s', c', t)
    {
      assert TokenAlike(s, c, t);
    }
    forall e
      ensures SetAlike(s', c', e)
    {
      assert SetAlike(s, c, e);
    }
  }

  lemma StoredLinkAlike(s: State, c: State, l: Link, id: string)
    requires LinkAlike(s, c, id) && s.now == c.now && s.config == c.config
    requires Missing(s, c, id) ==> id != l.id && s.links[id].value.token != l.token
    ensures LinkAlike(StoreLink(s, l), StoreLink(c, l), id)
  {
  }

  lemma StoredTokenAlike(s: State, c: State, l: Link, t: string)
    requires Storable(s, l) && Storable(c, l) && Alike(s, c)
    ensures TokenAlike(StoreLink(s, l), StoreLink(c, l), t)
  {
    assert TokenAlike(s, c, t);
    if t in s.tokens {
      var m :| m in s.stored && LeadsTo(s, t, m);
    }
  }

  lemma StoredSetAlike(s: State, c: State, l: Link, e: string)
    requires SetAlike(s, c, e) && s.now == c.now && s.config == c.config
    requires l.id !in Members(s.emails, e)
    ensures SetAlike(StoreLink(s, l), StoreLink(c, l), e)
  {
  }

  lemma FreshIsNowhere(s: State, l: Link)
    requires Storable(s, l)
    ensures forall id :: id in s.links ==> id != l.id && s.links[id].value.token != l.token
    ensures forall e :: l.id !in Members(s.emails, e)
  {
    forall id | id in s.links
      ensures id != l.id && s.links[id].value.token != l.token
    {
      assert Issued(s.links[id].value) in s.stored;
    }
    assert forall e :: l.id !in IdsFor(s.stored, e);
  }

  lemma StoreAlike(s: State, c: State, l: Link)
    requires Storable(s, l) && Storable(c, l) && Alike(s, c)
    ensures Alike(StoreLink(s, l), StoreLink(c, l))
  {
    FreshIsNowhere(s, l);
    forall k
      ensures LinkAlike(StoreLink(s, l), StoreLink(c, l), k)
    {
      assert LinkAlike(s, c, k);
      StoredLinkAlike(s, c, l, k);
    }
    forall t { StoredTokenAlike(s, c, l, t); }
    forall e
      ensures SetAlike(StoreLink(s, l), StoreLink(c, l), e)
    {
      assert SetAlike(s, c, e);
      StoredSetAlike(s, c, l, e);
    }
  }

  lemma CountAlike(s: State, c: State, email: string)
    requires Alike(s, c)
    ensures Alike(CountOne(s, email), CountOne(c, email))
  {
    var s', c' := CountOne(s, email), CountOne(c, email);
    forall k
      ensures LinkAlike(s', c', k)
    {
      assert LinkAlike(s, c, k);
    }
    forall t
      ensures TokenAlike(s', c', t)
    {
      assert TokenAlike(s, c, t);
    }
    forall e
      ensures SetAlike(s', c', e)
    {
      assert SetAlike(s, c, e);
    }
  }

  lemma IssueAlike(s: State, c: State, l: Link)
    requires Storable(s, l) && Storable(c, l) && Alike(s, c)
    ensures
      var s', c' := CountOne(StoreLink(s, l), l.email), CountOne(StoreLink(c, l), l.email);
      Alike(s', c') && Alike(PutLink(s', l.id, l), PutLink(c', l.id, l))
  {
    StoreAlike(s, c, l);
    CountAlike(StoreLink(s, l), StoreLink(c, l), l.email);
    SetStatusAlike(CountOne(StoreLink(s, l), l.email), CountOne(StoreLink(c, l), l.email), l.id, Pending);
  }

  /** What a call issues depends on the clock, the settings and the counter only. */
  lemma SameIssue(s: State, c: State, op: Op)
    requires op.Generate? && s.now == c.now && s.config == c.config && s.daily == c.daily
    ensures Admits(s, op.email, op.lookup) <==> Admits(c, op.email, op.lookup)
    ensures
      var l := NewLink(s, op.email, op.id, op.token, op.lookup, op.action);
      var r, q := CountOne(StoreLink(RevokeExisting(s, op.email), l), l.email),
                  CountOne(StoreLink(RevokeExisting(c, op.email), l), l.email);
      && l == NewLink(c, op.email, op.id, op.token, op.lookup, op.action)
      && (Admits(s, op.email, op.lookup) ==>
            && Apply(s, op) == (if op.emailed then PutLink(r, l.id, l) else r)
            && Apply(c, op) == (if op.emailed then PutLink(q, l.id, l) else q))
  {
  }

  lemma GenerateAlike(s: State, c: State, op: Op)
    requires Inv(s) && Inv(c) && Alike(s, c) && op.Generate? && Enabled(s, op)
    ensures Alike(Apply(s, op), Apply(c, op))
  {
    SameIssue(s, c, op);
    if Admits(s, op.email, op.lookup) {
      var l := NewLink(s, op.email, op.id, op.token, op.lookup, op.action);
      var rs, rc := RevokeExisting(s, op.email), RevokeExisting(c, op.email);
      assert Storable(rs, l) by { RevokedIsStorable(s, op); }
      assert Storable(rc, l) by { RevokedIsStorable(c, op); }
      assert Alike(rs, rc) by { RevokeExistingAlike(s, c, op.email); }
      IssueAlike(rs, rc, l);
    }
  }

  lemma SameStaleTokens(s: State, c: State, t: string)
    requires Inv(s) && Inv(c) && Alike(s, c)
    ensures TokenAlike(CleanupEffect(s), CleanupEffect(c), t)
  {
    assert TokenAlike(s, c, t);
    if t in c.tokens {
      if t in TokensOf(c, Stale(c)) {
        var id :| id in Stale(c) && c.links[id].value.token == t;
        TokenOwner(c, t, c.links[id].value);
        assert LinkAlike(s, c, id);
      }
      if t in TokensOf(s, Stale(s)) {
        var id :| id in Stale(s) && s.links[id].value.token == t;
        assert LinkAlike(s, c, id);
        assert id in Stale(c);
      }
    }
  }

  lemma SameKept(s: State, c: State, e: string)
    requires Inv(s) && Inv(c) && Alike(s, c)
    ensures Kept(c, Stale(c), e) <= Kept(s, Stale(s), e)
    ensures forall id :: id in Kept(s, Stale(s), e) && id !in Kept(c, Stale(c), e) ==> id !in c.links
  {
    assert SetAlike(s, c, e);
    forall id | id in Members(s.emails, e)
      ensures id in Kept(c, Stale(c), e) ==> id in Kept(s, Stale(s), e)
      ensures id in Kept(s, Stale(s), e) && id !in Kept(c, Stale(c), e) ==> id !in c.links
    {
      assert LinkAlike(s, c, id);
    }
  }

  lemma SameCleanedLinks(s: State, c: State, id: string)
    requires Alike(s, c)
    ensures LinkAlike(CleanupEffect(s), CleanupEffect(c), id)
  {
    assert LinkAlike(s, c, id);
  }

  lemma SameCleanedSets(s: State, c: State, e: string)
    requires SetsAreIssued(s) && SetsAreIssued(c) && SetAlike(s, c, e)
    requires Kept(c, Stale(c), e) <= Kept(s, Stale(s), e)
    requires forall id :: id in Kept(s, Stale(s), e) && id !in Kept(c, Stale(c), e) ==> id !in c.links
    ensures SetAlike(CleanupEffect(s), CleanupEffect(c), e)
  {
  }

  lemma BothCleanedAlike(s: State, c: State)
    requires Inv(s) && Inv(c) && Alike(s, c)
    ensures Alike(CleanupEffect(s), CleanupEffect(c))
  {
    forall id { SameCleanedLinks(s, c, id); }
    forall t { SameStaleTokens(s, c, t); }
    forall e
      ensures SetAlike(CleanupEffect(s), CleanupEffect(c), e)
    {
      assert SetAlike(s, c, e);
      SameKept(s, c, e);
      SameCleanedSets(s, c, e);
    }
  }

  lemma StepAlike(s: State, c: State, op: Op)
    requires Inv(s) && Inv(c) && Alike(s, c) && Enabled(s, op)
    ensures Alike(Apply(s, op), Apply(c, op))
  {
    match op
    case Advance(ms) => AdvanceAlike(s, c, ms);
    case Configure(config) => ConfigureAlike(s, c, config);
    case Generate(_, _, _, _, _, _) => GenerateAlike(s, c, op);
    case Verify(token) => VerifyAlike(s, c, token);
    case Resend(id, emailed) => ResendAlike(s, c, id, emailed);
    case Revoke(id) => SetStatusAlike(s, c, id, Revoked);
    case Cleanup => BothCleanedAlike(s, c);
  }

  lemma {:induction false} RunAlike(s: State, c: State, ops: seq<Op>)
    requires Inv(s) && Inv(c) && Alike(s, c) && Legal(s, ops)
    ensures Legal(c, ops) && Alike(Run(s, ops), Run(c, ops))
    decreases |ops|
  {
    if |ops| > 0 {
      StepAlike(s, c, ops[0]);
      StepKeeps(s, ops[0]);
      StepKeeps(c, ops[0]);
      RunAlike(Apply(s, ops[0]), Apply(c, ops[0]), ops[1..]);
    }
  }

  /**
   Inserting a cleanup anywhere in a run changes neither which links are issued later nor which
   verifications succeed, and at what time.
   */
  lemma CleanupIsInvisible(now: int, config: Config, before: seq<Op>, after: seq<Op>)
    requires Legal(Init(now, config), before)
    requires Legal(Run(Init(now, config), before), after)
    ensures
      var s := Run(Init(now, config), before);
      && Legal(CleanupEffect(s), after)
      && Run(CleanupEffect(s), after).uses == Run(s, after).uses
      && Run(CleanupEffect(s), after).stored == Run(s, after).stored
  {
    InitInv(now, config);
    RunKeeps(Init(now, config), before);
    var s := Run(Init(now, config), before);
    CleanupAlike(s);
    CleanupKeeps(s);
    RunAlike(s, CleanupEffect(s), after);
  }
}
