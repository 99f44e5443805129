/** What each call on magic links does, told by the settings, the history and the records alone. */
module MagicLinkLaws {
  import opened Store
  import opened MagicLink
  import opened MagicLinkRuns

  // ---------------------------------------------------------------- requests

  /** The counter, the identity provider's answer and the registration setting decide. */
  lemma GrantedIff(s: State, op: Op)
    requires Inv(s) && op.Generate? && Enabled(s, op)
    ensures
      var granted :=
        && IssuedOn(s.stored, op.email, s.now / 86_400_000) < s.config.maxUsesPerDay
        && !op.lookup.LookupFailed? && (op.lookup.Known? || !s.config.requireExistingUser);
      var owner := if op.lookup.Known? then Some(op.lookup.userId) else None;
      var expiry := s.now + s.config.expiryMinutes * 60_000;
      var l := Link(op.id, op.token, op.email, owner, op.action, Pending, s.now, expiry);
      var r := Apply(s, op);
      if granted then
        && r.stored == s.stored + [l] && r.now == s.now
        && op.id in r.links && r.links[op.id] == Entry(l, Some(expiry))
        && op.token in r.tokens && r.tokens[op.token] == Entry(op.id, Some(expiry))
        && op.email in r.emails && op.id in r.emails[op.email].value && r.emails[op.email].deadline == Some(expiry)
      else r == s
  {
    assert DailyCount(s, op.email) == IssuedOn(s.stored, op.email, Day(s.now));
    if Admits(s, op.email, op.lookup) {
      GrantStores(s, op);
    }
  }

  lemma GrantStores(s: State, op: Op)
    requires op.Generate? && Admits(s, op.email, op.lookup)
    ensures
      var r := Apply(s, op);
      var l := NewLink(s, op.email, op.id, op.token, op.lookup, op.action);
      && r.stored == s.stored + [l] && r.now == s.now
      && op.id in r.links && r.links[op.id] == Entry(l, Some(l.expiresAt))
      && op.token in r.tokens && r.tokens[op.token] == Entry(op.id, Some(l.expiresAt))
      && op.email in r.emails && op.id in r.emails[op.email].value && r.emails[op.email].deadline == Some(l.expiresAt)
  {
  }

  /** The settings last given before the end of a run. */
  ghost function InForce(config: Config, ops: seq<Op>): Config
    decreases |ops|
  {
    if |ops| == 0 then config
    else InForce(if ops[0].Configure? then ops[0].config else config, ops[1..])
  }

  lemma StepConfig(s: State, op: Op)
    ensures Apply(s, op).config == if op.Configure? then op.config else s.config
  {
  }

  lemma {:induction false} SettingsInForce(s: State, ops: seq<Op>)
    ensures Run(s, ops).config == InForce(s.config, ops)
    decreases |ops|
  {
    if |ops| > 0 {
      StepConfig(s, ops[0]);
      SettingsInForce(Apply(s, ops[0]), ops[1..]);
    }
  }

  /**
   After any run a request issues exactly one link, for its address, owner and action and for the
   minutes set last, if fewer links than allowed were issued to the address that UTC day, the lookup
   answered, and the owner is known or need not be; otherwise it changes nothing.
   */
  lemma RequestsAreGranted(now: int, config: Config, ops: seq<Op>, op: Op)
    requires Legal(Init(now, config), ops) && op.Generate? && Enabled(Run(Init(now, config), ops), op)
    ensures
      var s := Run(Init(now, config), ops);
      var c := InForce(config, ops);
      var granted :=
        && IssuedOn(s.stored, op.email, s.now / 86_400_000) < c.maxUsesPerDay
        && !op.lookup.LookupFailed? && (op.lookup.Known? || !c.requireExistingUser);
      var owner := if op.lookup.Known? then Some(op.lookup.userId) else None;
      var l := Link(op.id, op.token, op.email, owner, op.action, Pending, s.now, s.now + c.expiryMinutes * 60_000);
      if granted then Apply(s, op).stored == s.stored + [l] else Apply(s, op) == s
  {
    InitInv(now, config);
    RunKeeps(Init(now, config), ops);
    SettingsInForce(Init(now, config), ops);
    GrantedIff(Run(Init(now, config), ops), op);
  }

  // ---------------------------------------------------------------- statuses

  lemma RequestWritesStatus(s: State, op: Op, id: string)
    requires op.Generate? && id in s.links && id != op.id
    ensures
      var r := Apply(s, op);
      id in r.links && r.links[id].value.status ==
        (if r.stored != s.stored && id in Members(s.emails, op.email) && s.links[id].value.status.Pending?
         then Revoked else s.links[id].value.status)
  {
    if Admits(s, op.email, op.lookup) {
      GrantStores(s, op);
    }
  }

  lemma VerifyWritesStatus(s: State, token: string, id: string)
    requires Inv(s) && id in s.links
    ensures
      var r := VerifyEffect(s, token);
      id in r.links && r.links[id].value.status ==
        (if token in s.tokens && s.tokens[token].value == id && s.links[id].value.status.Pending?
         then Used else s.links[id].value.status)
  {
    if Resolve(s, token).Some? {
      RecordOfToken(s, token);
    }
  }

  lemma ResendWritesStatus(s: State, k: string, emailed: bool, id: string)
    requires id in s.links
    ensures
      var r := ResendEffect(s, k, emailed);
      id in r.links && r.links[id].value.status ==
        (if k == id && s.links[id].value.expiresAt < s.now then Expired else s.links[id].value.status)
  {
  }

  /**
   The status of a record after a call: a request that is granted revokes the pending links its
   address's set knows, a verification uses the link it leads to, revoking revokes whatever the
   status, resending past the expiry expires it, and nothing else touches it.
   */
  lemma StatusAfter(s: State, op: Op, id: string)
    requires Inv(s) && Enabled(s, op) && id in s.links && id in Apply(s, op).links
    ensures
      var l, r := s.links[id].value, Apply(s, op);
      r.links[id].value.status ==
        (match op
         case Generate(email, _, _, _, _, _) =>
           if r.stored != s.stored && id in Members(s.emails, email) && l.status.Pending? then Revoked else l.status
         case Verify(token) =>
           if token in s.tokens && s.tokens[token].value == id && l.status.Pending? then Used else l.status
         case Resend(k, _) => if k == id && l.expiresAt < s.now then Expired else l.status
         case Revoke(k) => if k == id then Revoked else l.status
         case _ => l.status)
  {
    if op.Generate? {
      assert Issued(s.links[id].value) in s.stored;
      RequestWritesStatus(s, op, id);
    } else if op.Verify? {
      VerifyWritesStatus(s, op.token, id);
    } else if op.Resend? {
      ResendWritesStatus(s, op.id, op.emailed, id);
    }
  }

  // ---------------------------------------------------------------- cleaning up

  /** Cleaning up removes the records past their expiry, their tokens and their places in the sets, and no more. */
  lemma CleanupRemovesExpired(s: State, id: string, token: string, email: string)
    ensures
      var r := Apply(s, Cleanup);
      && (id in r.links <==> id in s.links && s.now <= s.links[id].value.expiresAt)
      && (id in r.links ==> r.links[id] == s.links[id])
      && (token in r.tokens <==>
            token in s.tokens && forall k :: k in s.links && s.links[k].value.token == token ==> k in r.links)
      && (token in r.tokens ==> r.tokens[token] == s.tokens[token])
      && (id in Members(r.emails, email) <==>
            id in Members(s.emails, email) && (id in s.links && s.links[id].value.email == email ==> id in r.links))
  {
    var r := Apply(s, Cleanup);
    if token in s.tokens && token !in r.tokens {
      var k :| k in Stale(s) && s.links[k].value.token == token;
    }
    forall k | k in s.links && s.links[k].value.token == token && k !in r.links
      ensures token !in r.tokens
    {
      assert token in TokensOf(s, Stale(s));
    }
  }
}
