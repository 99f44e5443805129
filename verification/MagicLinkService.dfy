/** The service as it runs: records, token keys, e-mail sets and counters updated in place. */
module MagicLinkService {
  import opened Store
  import opened MagicLink

  class MagicLinkServiceImpl {
    var now: int
    var config: Config
    var links: map<string, Entry<Link>>
    var tokens: map<string, Entry<string>>
    var emails: map<string, Entry<set<string>>>
    var daily: map<(string, int), Entry<nat>>
    ghost var stored: seq<Link>
    ghost var uses: seq<Use>

    ghost function View(): State
      reads this
    {
      State(now, config, links, tokens, emails, daily, stored, uses)
    }

    constructor (now: int, config: Config)
      ensures View() == Init(now, config)
    {
      this.now, this.config := now, config;
      links, tokens, emails, daily := map[], map[], map[], map[];
      stored, uses := [], [];
    }

    method Wait(ms: nat)
      modifies this
      ensures View() == Apply(old(View()), Advance(ms))
    {
      ghost var before := View();
      now := now + ms;
      links := Evict(links, now);
      tokens := Evict(tokens, now);
      emails := Evict(emails, now);
      daily := Evict(daily, now);
      AdvanceIs(before, ms, View());
    }

    method UpdateMagicLinkConfig(config: Config)
      modifies this
      ensures View() == Apply(old(View()), Configure(config))
    {
      this.config := config;
    }

    method UpdateMagicLink(id: string, link: Link)
      modifies this
      ensures View() == PutLink(old(View()), id, link)
    {
      links := Put(links, id, link, LinkTtl(config), now);
    }

    method UpdateLinkStatus(id: string, status: Status)
      modifies this
      ensures View() == SetStatus(old(View()), id, status)
    {
      if id in links {
        var link := links[id].value;
        UpdateMagicLink(id, link.(status := status));
      }
    }

    /** Rewrites the pending links of an address one by one. */
    method RevokeExistingLinks(email: string)
      modifies this
      ensures View() == RevokeExisting(old(View()), email)
    {
      var existing := Members(emails, email);
      var pending := existing;
      ghost var before := View();
      while pending != {}
        invariant pending <= existing
        invariant View() == before.(links := links)
        invariant links.Keys == before.links.Keys
        invariant forall id :: id in links ==>
          links[id] == if id !in pending then RevokeExisting(before, email).links[id] else before.links[id]
        decreases pending
      {
        var id :| id in pending;
        if id in links && links[id].value.status.Pending? {
          UpdateLinkStatus(id, Revoked);
        }
        pending := pending - {id};
      }
      assert links == RevokeExisting(before, email).links;
    }

    method StoreMagicLink(link: Link)
      modifies this
      ensures View() == StoreLink(old(View()), link)
    {
      UpdateMagicLink(link.id, link);
      tokens := Put(tokens, link.token, link.id, LinkTtl(config), now);
      emails := SAdd(emails, link.email, link.id);
      emails := Expire(emails, link.email, LinkTtl(config), now);
      stored := stored + [link];
    }

    method CheckDailyLimit(email: string) returns (ok: bool)
      ensures ok <==> DailyCount(View(), email) < config.maxUsesPerDay
    {
      var key := (email, Day(now));
      var count := if key in daily then daily[key].value else 0;
      ok := !(count >= config.maxUsesPerDay);
    }

    method IncrementDailyCounter(email: string)
      modifies this
      ensures View() == CountOne(old(View()), email)
    {
      var key := (email, Day(now));
      var count := if key in daily then daily[key].value + 1 else 1;
      daily := Put(daily, key, count, DAY_TTL, now);
    }

    method GenerateMagicLink(email: string, id: string, token: string, lookup: Lookup, action: Action, emailed: bool)
      returns (success: bool)
      modifies this
      ensures View() == Apply(old(View()), Generate(email, id, token, lookup, action, emailed))
      ensures success <==>
        && DailyCount(old(View()), email) < config.maxUsesPerDay
        && !lookup.LookupFailed? && (lookup.Known? || !config.requireExistingUser)
      ensures success <==> |stored| == |old(stored)| + 1
    {
      var withinLimit := CheckDailyLimit(email);
      if !withinLimit || lookup.LookupFailed? {
        return false;
      }
      var userId := None;
      if lookup.Known? {
        userId := Some(lookup.userId);
      } else if config.requireExistingUser {
        return false;
      }
      RevokeExistingLinks(email);
      var link := Link(id, token, email, userId, action, Pending,
                       now, now + config.expiryMinutes * MINUTE * SECOND);
      StoreMagicLink(link);
      IncrementDailyCounter(email);
      if emailed {
        UpdateMagicLink(id, link);
      }
      return true;
    }

    /** True when the token's action is carried out. */
    method VerifyMagicLink(token: string) returns (accepted: bool)
      modifies this
      ensures View() == Apply(old(View()), Verify(token))
      ensures accepted <==>
        && token in old(tokens) && old(tokens)[token].value in old(links)
        && var l := old(links)[old(tokens)[token].value].value; l.status !in {Used, Revoked} && now <= l.expiresAt
      ensures accepted ==> exists u :: uses == old(uses) + [u] && u.at == now && Resolve(old(View()), token) == Some(u.link)
    {
      if token !in tokens {
        return false;
      }
      var id := tokens[token].value;
      if id !in links {
        return false;
      }
      var link := links[id].value;
      if link.status == Used || link.status == Revoked {
        return false;
      }
      if now > link.expiresAt {
        UpdateLinkStatus(id, Expired);
        return false;
      }
      UpdateLinkStatus(id, Used);
      uses := uses + [Use(link, now)];
      return true;
    }

    method SendMagicLink(id: string, emailed: bool) returns (sent: bool)
      modifies this
      ensures View() == Apply(old(View()), Resend(id, emailed))
      ensures sent <==>
        && emailed && id in old(links)
        && old(links)[id].value.status !in {Used, Revoked} && now <= old(links)[id].value.expiresAt
    {
      if id !in links {
        return false;
      }
      var link := links[id].value;
      if now > link.expiresAt {
        UpdateLinkStatus(id, Expired);
        return false;
      }
      if link.status == Used || link.status == Revoked {
        return false;
      }
      if emailed {
        UpdateMagicLink(id, link);
      }
      return emailed;
    }

    method RevokeMagicLink(id: string)
      modifies this
      ensures View() == Apply(old(View()), Revoke(id))
    {
      UpdateLinkStatus(id, Revoked);
    }

    method DeleteMagicLink(id: string)
      modifies this
      ensures View() == DeleteLink(old(View()), id)
    {
      if id in links {
        var link := links[id].value;
        links := links - {id};
        tokens := tokens - {link.token};
        emails := SRem(emails, link.email, id);
      }
    }

    /** One step of the scan: deletes the record if it has expired, which adds it to those gone. */
    method CleanOne(id: string, ghost before: State, ghost gone: set<string>, ghost next: set<string>)
      returns (deleted: bool)
      requires gone <= before.links.Keys && id in before.links && id !in gone
      requires next == if before.now > before.links[id].value.expiresAt then gone + {id} else gone
      requires View() == Purge(before, gone)
      modifies this
      ensures deleted <==> before.now > before.links[id].value.expiresAt
      ensures View() == Purge(before, next)
    {
      StillThere(before, gone, id);
      deleted := now > links[id].value.expiresAt;
      if deleted {
        PurgeOneMore(before, gone, id);
        DeleteMagicLink(id);
      }
    }

    /** Scans the record keys and deletes the expired ones one by one, collecting their ids. */
    method ScanAndDelete(ghost before: State, ghost stale: set<string>) returns (deleted: set<string>)
      requires View() == before
      requires stale <= links.Keys
      requires forall id :: id in links ==> (id in stale <==> now > links[id].value.expiresAt)
      modifies this
      ensures View() == Purge(before, stale)
      ensures deleted == stale
    {
      var keys := links.Keys;
      deleted := {};
      PurgeNothing(before);
      assert stale - keys == {};
      while keys != {}
        invariant keys <= before.links.Keys
        invariant deleted == stale - keys
        invariant View() == Purge(before, deleted)
        decreases keys
      {
        var id :| id in keys;
        ghost var next := Scanned(stale, keys, id, deleted);
        var expired := CleanOne(id, before, deleted, next);
        keys := keys - {id};
        if expired {
          deleted := deleted + {id};
        }
      }
      assert deleted == stale;
    }

    method CleanupExpiredLinks() returns (cleaned: nat)
      modifies this
      ensures View() == Apply(old(View()), Cleanup)
      ensures cleaned == |set id | id in old(links) && now > old(links)[id].value.expiresAt|
    {
      ghost var before := View();
      var deleted := ScanAndDelete(before, Stale(before));
      cleaned := |deleted|;
    }
  }

  /** Scanning one more key settles it, as deleted or kept. */
  lemma Scanned(stale: set<string>, keys: set<string>, id: string, gone: set<string>) returns (next: set<string>)
    requires id in keys && gone == stale - keys
    ensures id !in gone && next == stale - (keys - {id})
    ensures next == if id in stale then gone + {id} else gone
  {
    next := if id in stale then gone + {id} else gone;
  }

  lemma StillThere(s: State, gone: set<string>, id: string)
    requires gone <= s.links.Keys && id in s.links && id !in gone
    ensures id in Purge(s, gone).links && Purge(s, gone).links[id] == s.links[id]
  {
  }

  lemma AdvanceIs(s: State, ms: nat, r: State)
    requires r == State(s.now + ms, s.config, Evict(s.links, s.now + ms), Evict(s.tokens, s.now + ms),
                        Evict(s.emails, s.now + ms), Evict(s.daily, s.now + ms), s.stored, s.uses)
    ensures r == AdvanceEffect(s, ms)
  {
  }

  lemma PurgeNothing(s: State)
    ensures Purge(s, {}) == s
  {
    assert forall e :: Kept(s, {}, e) == Members(s.emails, e);
    assert s.emails == Purge(s, {}).emails;
  }

  lemma KeptOneMore(s: State, gone: set<string>, id: string, e: string)
    requires gone <= s.links.Keys && id in s.links && id !in gone
    ensures Kept(s, gone + {id}, e) == if e == s.links[id].value.email then Kept(s, gone, e) - {id} else Kept(s, gone, e)
  {
  }

  /** The address's set after one more deletion. */
  lemma PurgedSet(s: State, gone: set<string>, e: string)
    requires gone <= s.links.Keys && e in s.emails
    ensures Members(Purge(s, gone).emails, e) == Kept(s, gone, e)
    ensures e in Purge(s, gone).emails ==> Purge(s, gone).emails[e] == Entry(Kept(s, gone, e), s.emails[e].deadline)
  {
  }

  /** The set of the link's own address loses the id, and its key with the last one. */
  lemma OwnSetOneMore(s: State, gone: set<string>, id: string, e: string)
    requires gone <= s.links.Keys && id in s.links && id !in gone && e == s.links[id].value.email && e in s.emails
    ensures
      var d, p := SRem(Purge(s, gone).emails, e, id), Purge(s, gone + {id}).emails;
      (e in d <==> e in p) && (e in d ==> d[e] == p[e])
  {
    KeptOneMore(s, gone, id, e);
    PurgedSet(s, gone, e);
    PurgedSet(s, gone + {id}, e);
    if id !in Kept(s, gone, e) {
      assert Kept(s, gone, e) - {id} == Kept(s, gone, e);
    }
  }

  lemma SetOneMore(s: State, gone: set<string>, id: string, e: string)
    requires gone <= s.links.Keys && id in s.links && id !in gone
    ensures
      var d, p := DeleteLink(Purge(s, gone), id).emails, Purge(s, gone + {id}).emails;
      (e in d <==> e in p) && (e in d ==> d[e] == p[e])
  {
    assert DeleteLink(Purge(s, gone), id).emails == SRem(Purge(s, gone).emails, s.links[id].value.email, id);
    if e in s.emails {
      if e == s.links[id].value.email {
        OwnSetOneMore(s, gone, id, e);
      } else {
        KeptOneMore(s, gone, id, e);
      }
    }
  }

  /** Deleting one more link after a purge is the purge of one link more. */
  lemma PurgeOneMore(s: State, gone: set<string>, id: string)
    requires gone <= s.links.Keys && id in s.links && id !in gone
    ensures DeleteLink(Purge(s, gone), id) == Purge(s, gone + {id})
  {
    var d, p := DeleteLink(Purge(s, gone), id), Purge(s, gone + {id});
    assert d.links == p.links;
    assert d.tokens == p.tokens by {
      assert TokensOf(s, gone + {id}) == TokensOf(s, gone) + {s.links[id].value.token};
    }
    assert d.emails == p.emails by {
      forall e { SetOneMore(s, gone, id, e); }
    }
  }
}
