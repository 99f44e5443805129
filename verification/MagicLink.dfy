/**
 Magic links: the state kept for them and the effect of every public call on it.

 A link lives in four tables with separate deadlines: the record under its id, the token that
 points to the id, the set of ids of an e-mail address, and a counter for the address and day.
 `stored` and `uses` record what happened: the links ever issued and the links that reached their
 action, oldest first.
 */
module MagicLink {
  import opened Store

  const MINUTE := 60
  const DAY := 86_400_000
  const DAY_TTL := 86_400

  datatype Status = Pending | Used | Revoked | Expired

  datatype Action = Login | Register | ResetPassword | VerifyEmail

  datatype Link = Link(
    id: string, token: string, email: string, userId: Option<string>, action: Action,
    status: Status, createdAt: int, expiresAt: int)

  type Positive = n: int | 0 < n witness 1

  datatype Config = Config(expiryMinutes: Positive, maxUsesPerDay: Positive, requireExistingUser: bool)

  /** The identity provider's answer when asked for the owner of an address. */
  datatype Lookup = Known(userId: string) | Unknown | LookupFailed

  datatype Use = Use(link: Link, at: int)

  datatype State = State(
    now: int, config: Config,
    links: map<string, Entry<Link>>,
    tokens: map<string, Entry<string>>,
    emails: map<string, Entry<set<string>>>,
    daily: map<(string, int), Entry<nat>>,
    stored: seq<Link>, uses: seq<Use>)

  datatype Op =
    | Advance(ms: nat)
    | Configure(config: Config)
    | Generate(email: string, id: string, token: string, lookup: Lookup, action: Action, emailed: bool)
    | Verify(token: string)
    | Resend(id: string, emailed: bool)
    | Revoke(id: string)
    | Cleanup

  function Init(now: int, config: Config): State {
    State(now, config, map[], map[], map[], map[], [], [])
  }

  function Day(now: int): int { now / DAY }

  function LinkTtl(c: Config): nat { c.expiryMinutes * MINUTE }

  /** Rewriting a record gives it a full TTL again; the token and the e-mail set keep theirs. */
  function PutLink(s: State, id: string, l: Link): State {
    s.(links := Put(s.links, id, l, LinkTtl(s.config), s.now))
  }

  function SetStatus(s: State, id: string, status: Status): State {
    if id in s.links then PutLink(s, id, s.links[id].value.(status := status)) else s
  }

  predicate Revocable(s: State, email: string, id: string) {
    id in Members(s.emails, email) && id in s.links && s.links[id].value.status.Pending?
  }

  function RevokeExisting(s: State, email: string): State {
    s.(links := map id | id in s.links ::
      if Revocable(s, email, id)
      then Entry(s.links[id].value.(status := Revoked), DeadlineAfter(LinkTtl(s.config), s.now))
      else s.links[id])
  }

  function StoreLink(s: State, l: Link): State {
    var ttl := LinkTtl(s.config);
    PutLink(s, l.id, l).(
      tokens := Put(s.tokens, l.token, l.id, ttl, s.now),
      emails := Expire(SAdd(s.emails, l.email, l.id), l.email, ttl, s.now),
      stored := s.stored + [l])
  }

  function DailyCount(s: State, email: string): nat {
    var key := (email, Day(s.now));
    if key in s.daily then s.daily[key].value else 0
  }

  function CountOne(s: State, email: string): State {
    s.(daily := Put(s.daily, (email, Day(s.now)), DailyCount(s, email) + 1, DAY_TTL, s.now))
  }

  predicate Admits(s: State, email: string, lookup: Lookup) {
    && DailyCount(s, email) < s.config.maxUsesPerDay
    && !lookup.LookupFailed?
    && (lookup.Unknown? ==> !s.config.requireExistingUser)
  }

  function NewLink(s: State, email: string, id: string, token: string, lookup: Lookup, action: Action): Link {
    Link(id, token, email, if lookup.Known? then Some(lookup.userId) else None, action, Pending,
         s.now, s.now + LinkTtl(s.config) * SECOND)
  }

  function GenerateEffect(s: State, email: string, id: string, token: string,
                          lookup: Lookup, action: Action, emailed: bool): State
  {
    if !Admits(s, email, lookup) then s
    else
      var l := NewLink(s, email, id, token, lookup, action);
      var counted := CountOne(StoreLink(RevokeExisting(s, email), l), email);
      if emailed then PutLink(counted, id, l) else counted
  }

  /** The link a token leads to, when both keys are still there. */
  function Resolve(s: State, token: string): Option<Link> {
    if token in s.tokens && s.tokens[token].value in s.links
    then Some(s.links[s.tokens[token].value].value) else None
  }

  predicate Acceptable(s: State, l: Link) {
    !l.status.Used? && !l.status.Revoked? && s.now <= l.expiresAt
  }

  function VerifyEffect(s: State, token: string): State {
    match Resolve(s, token)
    case None => s
    case Some(l) =>
      var id := s.tokens[token].value;
      if l.status.Used? || l.status.Revoked? then s
      else if s.now > l.expiresAt then SetStatus(s, id, Expired)
      else SetStatus(s, id, Used).(uses := s.uses + [Use(l, s.now)])
  }

  /** A failed delivery leaves the record as it was; a successful one rewrites it. */
  function ResendEffect(s: State, id: string, emailed: bool): State {
    if id !in s.links then s
    else
      var l := s.links[id].value;
      if s.now > l.expiresAt then SetStatus(s, id, Expired)
      else if l.status.Used? || l.status.Revoked? || !emailed then s
      else PutLink(s, id, l)
  }

  /** The records `Cleanup` deletes: past their own expiry but not yet dropped by the store. */
  function Stale(s: State): set<string> {
    set id | id in s.links && s.now > s.links[id].value.expiresAt
  }

  /** DEL of the record and the token, and SREM from the address's set. */
  function DeleteLink(s: State, id: string): State {
    if id !in s.links then s
    else
      var l := s.links[id].value;
      s.(links := s.links - {id}, tokens := s.tokens - {l.token}, emails := SRem(s.emails, l.email, id))
  }

  function TokensOf(s: State, gone: set<string>): set<string>
    requires gone <= s.links.Keys
  {
    set id | id in gone :: s.links[id].value.token
  }

  /** What stays of the ids of one address once the links in `gone` are deleted. */
  function Kept(s: State, gone: set<string>, email: string): set<string>
    requires gone <= s.links.Keys
  {
    set id | id in Members(s.emails, email) && !(id in gone && s.links[id].value.email == email)
  }

  /** The store without some links: the net effect of deleting them one by one, in any order. */
  function Purge(s: State, gone: set<string>): State
    requires gone <= s.links.Keys
  {
    s.(links := s.links - gone,
       tokens := s.tokens - TokensOf(s, gone),
       emails := map e | e in s.emails && (Kept(s, gone, e) != {} || s.emails[e].value == {})
                 :: Entry(Kept(s, gone, e), s.emails[e].deadline))
  }

  function CleanupEffect(s: State): State {
    Purge(s, Stale(s))
  }

  function AdvanceEffect(s: State, ms: nat): State {
    var now := s.now + ms;
    State(now, s.config, Evict(s.links, now), Evict(s.tokens, now), Evict(s.emails, now),
          Evict(s.daily, now), s.stored, s.uses)
  }

  function Apply(s: State, op: Op): State {
    match op
    case Advance(ms) => AdvanceEffect(s, ms)
    case Configure(config) => s.(config := config)
    case Generate(email, id, token, lookup, action, emailed) =>
      GenerateEffect(s, email, id, token, lookup, action, emailed)
    case Verify(token) => VerifyEffect(s, token)
    case Resend(id, emailed) => ResendEffect(s, id, emailed)
    case Revoke(id) => SetStatus(s, id, Revoked)
    case Cleanup => CleanupEffect(s)
  }

  /** Ids and tokens come from a random generator: a new one differs from all issued before. */
  ghost predicate Fresh(stored: seq<Link>, id: string, token: string) {
    forall l :: l in stored ==> l.id != id && l.token != token
  }

  ghost predicate Enabled(s: State, op: Op) {
    op.Generate? ==> Fresh(s.stored, op.id, op.token)
  }

  ghost predicate Legal(s: State, ops: seq<Op>)
    decreases |ops|
  {
    |ops| == 0 || (Enabled(s, ops[0]) && Legal(Apply(s, ops[0]), ops[1..]))
  }

  ghost function Run(s: State, ops: seq<Op>): State
    decreases |ops|
  {
    if |ops| == 0 then s else Run(Apply(s, ops[0]), ops[1..])
  }
}
