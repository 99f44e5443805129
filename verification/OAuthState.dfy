/** The OAuth `state` parameter (section 10.12 of RFC 6749): one-time tokens of a limited lifetime. */
module OAuthState {
  import opened Store

  const STATE_EXPIRY := 600

  datatype Pending = Pending(provider: string, timestamp: int)

  datatype Issued = Issued(token: string, provider: string, at: int)

  /** A code exchanged for tokens with a provider. */
  datatype Exchange = Exchange(token: string, provider: string, at: int)

  datatype State = State(
    now: int, providers: set<string>, states: map<string, Entry<Pending>>,
    issued: seq<Issued>, exchanges: seq<Exchange>)

  /** `refused` is an error reported by the provider; `hasCode` tells whether a code came along. */
  datatype Op =
    | Advance(ms: nat)
    | Authorize(provider: string, token: string)
    | Callback(token: string, provider: string, refused: bool, hasCode: bool)

  function Init(now: int, providers: set<string>): State { State(now, providers, map[], [], []) }

  function AuthorizeEffect(s: State, provider: string, token: string): State {
    if provider !in s.providers then s
    else State(s.now, s.providers, Put(s.states, token, Pending(provider, s.now), STATE_EXPIRY, s.now),
               s.issued + [Issued(token, provider, s.now)], s.exchanges)
  }

  /** Whether a callback gets as far as the exchange of its code. */
  predicate Exchanges(s: State, op: Op)
    requires op.Callback?
  {
    && !op.refused && op.hasCode && op.token in s.states
    && s.now - s.states[op.token].value.timestamp <= STATE_EXPIRY * SECOND
    && s.states[op.token].value.provider == op.provider && op.provider in s.providers
  }

  /** A callback with a code consumes its state, whatever comes of it. */
  function CallbackEffect(s: State, op: Op): State
    requires op.Callback?
  {
    if op.refused || !op.hasCode || op.token !in s.states then s
    else State(s.now, s.providers, s.states - {op.token}, s.issued,
               if Exchanges(s, op) then s.exchanges + [Exchange(op.token, op.provider, s.now)] else s.exchanges)
  }

  function Apply(s: State, op: Op): State {
    match op
    case Advance(ms) => State(s.now + ms, s.providers, Evict(s.states, s.now + ms), s.issued, s.exchanges)
    case Authorize(provider, token) => AuthorizeEffect(s, provider, token)
    case Callback(_, _, _, _) => CallbackEffect(s, op)
  }

  ghost predicate Enabled(s: State, op: Op) {
    op.Authorize? ==> forall i :: i in s.issued ==> i.token != op.token
  }

  ghost predicate Legal(s: State, ops: seq<Op>)
    decreases |ops|
  {
    |ops| == 0 || (Enabled(s, ops[0]) && Legal(Apply(s, ops[0]), ops[1..]))
  }

  function Run(s: State, ops: seq<Op>): State
    decreases |ops|
  {
    if |ops| == 0 then s else Run(Apply(s, ops[0]), ops[1..])
  }

  // ---------------------------------------------------------------- the invariant

  ghost predicate PendingOk(s: State, token: string)
    requires token in s.states
  {
    var e := s.states[token];
    && Issued(token, e.value.provider, e.value.timestamp) in s.issued
    && e.deadline == Some(e.value.timestamp + STATE_EXPIRY * SECOND)
  }

  /** An exchange answers an issued state, with its provider, within its lifetime. */
  ghost predicate ExchangeOk(s: State, x: Exchange) {
    && x.token !in s.states
    && exists i :: i in s.issued && i.token == x.token && i.provider == x.provider
         && i.at <= x.at <= i.at + STATE_EXPIRY * SECOND
  }

  ghost predicate IssuedOk(s: State) {
    && (forall i, j :: 0 <= i < j < |s.issued| ==> s.issued[i].token != s.issued[j].token)
    && (forall i :: i in s.issued ==> i.at <= s.now)
  }

  ghost predicate ExchangedOnce(exchanges: seq<Exchange>) {
    forall i, j :: 0 <= i < j < |exchanges| ==> exchanges[i].token != exchanges[j].token
  }

  ghost predicate Inv(s: State) {
    && IssuedOk(s)
    && (forall token :: token in s.states ==> PendingOk(s, token))
    && (forall x :: x in s.exchanges ==> ExchangeOk(s, x))
    && ExchangedOnce(s.exchanges)
  }

  lemma IssuingKeeps(s: State, op: Op)
    requires IssuedOk(s) && op.Authorize? && Enabled(s, op)
    ensures IssuedOk(Apply(s, op))
  {
    var r := Apply(s, op);
    forall i, j | 0 <= i < j < |r.issued|
      ensures r.issued[i].token != r.issued[j].token
    {
      assert s.issued[i] in s.issued;
    }
  }

  /** An exchange made stays in order while its token is not issued again. */
  lemma ExchangeStays(s: State, r: State, x: Exchange)
    requires ExchangeOk(s, x) && x.token !in r.states && s.issued <= r.issued
    ensures ExchangeOk(r, x)
  {
    var i :| i in s.issued && i.token == x.token && i.provider == x.provider
      && i.at <= x.at <= i.at + STATE_EXPIRY * SECOND;
    assert i in r.issued;
  }

  lemma AuthorizeKeeps(s: State, op: Op)
    requires Inv(s) && op.Authorize? && Enabled(s, op)
    ensures Inv(Apply(s, op))
  {
    var r := Apply(s, op);
    if r != s {
      IssuingKeeps(s, op);
      assert Issued(op.token, op.provider, s.now) in r.issued;
      assert forall i :: i in s.issued ==> i in r.issued;
      forall token | token in r.states
        ensures PendingOk(r, token)
      {
        assert token in s.states ==> PendingOk(s, token);
      }
      forall x | x in r.exchanges
        ensures ExchangeOk(r, x)
      {
        assert x.token != op.token by {
          assert ExchangeOk(s, x);
        }
        ExchangeStays(s, r, x);
      }
    }
  }

  lemma ExchangingKeeps(exchanges: seq<Exchange>, x: Exchange)
    requires ExchangedOnce(exchanges) && forall y :: y in exchanges ==> y.token != x.token
    ensures ExchangedOnce(exchanges + [x])
  {
    var next := exchanges + [x];
    forall i, j | 0 <= i < j < |next|
      ensures next[i].token != next[j].token
    {
      assert next[i] == exchanges[i] && exchanges[i] in exchanges;
    }
  }

  lemma NewExchangeOk(s: State, op: Op)
    requires op.Callback? && Exchanges(s, op) && PendingOk(s, op.token)
    requires forall i :: i in s.issued ==> i.at <= s.now
    ensures ExchangeOk(Apply(s, op), Exchange(op.token, op.provider, s.now))
  {
    assert Issued(op.token, op.provider, s.states[op.token].value.timestamp) in Apply(s, op).issued;
  }

  lemma CallbackKeeps(s: State, op: Op)
    requires Inv(s) && op.Callback?
    ensures Inv(Apply(s, op))
  {
    var r := Apply(s, op);
    assert r.issued == s.issued && r.now == s.now && r.states.Keys <= s.states.Keys;
    forall token | token in r.states
      ensures PendingOk(r, token)
    {
      assert PendingOk(s, token);
    }
    forall x | x in s.exchanges
      ensures ExchangeOk(r, x) && x.token !in s.states
    {
      ExchangeStays(s, r, x);
    }
    if Exchanges(s, op) {
      assert PendingOk(s, op.token);
      NewExchangeOk(s, op);
      ExchangingKeeps(s.exchanges, Exchange(op.token, op.provider, s.now));
    }
  }

  lemma StepKeeps(s: State, op: Op)
    requires Inv(s) && Enabled(s, op)
    ensures Inv(Apply(s, op))
  {
    match op
    case Advance(_) =>
      var r := Apply(s, op);
      assert forall token :: token in s.states ==> PendingOk(s, token);
      assert forall token :: token in r.states ==> PendingOk(r, token);
      forall x | x in r.exchanges
        ensures ExchangeOk(r, x)
      {
        assert ExchangeOk(s, x);
      }
    case Authorize(_, _) => AuthorizeKeeps(s, op);
    case Callback(_, _, _, _) => CallbackKeeps(s, op);
  }

  lemma {:induction false} RunKeeps(s: State, ops: seq<Op>)
    requires Inv(s) && Legal(s, ops)
    ensures Inv(Run(s, ops))
    decreases |ops|
  {
    if |ops| > 0 {
      StepKeeps(s, ops[0]);
      RunKeeps(Apply(s, ops[0]), ops[1..]);
    }
  }

  /**
   In every run, callbacks repeated by a retrying wrapper included, each issued state leads to at
   most one exchange, with the provider it was issued for and within ten minutes.
   */
  lemma StatesWorkOnce(now: int, providers: set<string>, ops: seq<Op>)
    requires Legal(Init(now, providers), ops)
    ensures
      var s := Run(Init(now, providers), ops);
      && (forall i, j :: 0 <= i < j < |s.exchanges| ==> s.exchanges[i].token != s.exchanges[j].token)
      && (forall x :: x in s.exchanges ==>
            exists i :: i in s.issued && i.token == x.token && i.provider == x.provider
              && i.at <= x.at <= i.at + 600_000)
  {
    RunKeeps(Init(now, providers), ops);
    var s := Run(Init(now, providers), ops);
    assert forall x :: x in s.exchanges ==> ExchangeOk(s, x);
  }

  /** A call that uses a state up: a callback with a code that the provider did not refuse. */
  predicate Consumes(op: Op, token: string) {
    op.Callback? && op.token == token && !op.refused && op.hasCode
  }

  /** The state of an issued token, as it was stored. */
  ghost predicate Waiting(s: State, i: Issued) {
    && i in s.issued && i.token in s.states
    && s.states[i.token] == Entry(Pending(i.provider, i.at), Some(i.at + STATE_EXPIRY * SECOND))
  }

  ghost predicate Gone(s: State, i: Issued) {
    i in s.issued && i.token !in s.states
  }

  lemma IssuedIsWaiting(s: State, provider: string, token: string)
    requires provider in s.providers
    ensures Waiting(AuthorizeEffect(s, provider, token), Issued(token, provider, s.now))
  {
    assert AuthorizeEffect(s, provider, token).issued[|s.issued|] == Issued(token, provider, s.now);
  }

  lemma StepKeepsWaiting(s: State, op: Op, i: Issued)
    requires Waiting(s, i) && Enabled(s, op)
    ensures
      var r := Apply(s, op);
      if !Consumes(op, i.token) && (op.Advance? ==> r.now < i.at + STATE_EXPIRY * SECOND) then Waiting(r, i) else Gone(r, i)
  {
    if op.Authorize? {
      assert op.token != i.token;
    }
  }

  lemma {:induction false} GoneForGood(s: State, ops: seq<Op>, i: Issued)
    requires Gone(s, i) && Legal(s, ops)
    ensures Gone(Run(s, ops), i)
    decreases |ops|
  {
    if |ops| > 0 {
      if ops[0].Authorize? {
        assert ops[0].token != i.token;
      }
      GoneForGood(Apply(s, ops[0]), ops[1..], i);
    }
  }

  lemma {:induction false} WaitingIffUnused(s: State, ops: seq<Op>, i: Issued)
    requires Legal(s, ops) && Waiting(s, i) && s.now < i.at + STATE_EXPIRY * SECOND
    ensures
      var r := Run(s, ops);
      if r.now < i.at + STATE_EXPIRY * SECOND && forall op :: op in ops ==> !Consumes(op, i.token)
      then Waiting(r, i) else Gone(r, i)
    decreases |ops|
  {
    if |ops| > 0 {
      var op, r := ops[0], Apply(s, ops[0]);
      assert op in ops && forall o :: o in ops <==> o == op || o in ops[1..];
      ClockIsMonotone(r, ops[1..]);
      StepKeepsWaiting(s, op, i);
      if Consumes(op, i.token) || r.now >= i.at + STATE_EXPIRY * SECOND {
        GoneForGood(r, ops[1..], i);
      } else {
        WaitingIffUnused(r, ops[1..], i);
      }
    }
  }

  /**
   After any run a callback with an issued state and a code leads to an exchange exactly if the state
   is younger than ten minutes, no earlier callback has used it up, and the provider is the state's
   own and a known one.  Callbacks that were refused, or came without a code, leave it alone.
   */
  lemma ExchangesIffUnused(s: State, ops: seq<Op>, i: Issued, provider: string)
    requires Legal(s, ops) && Waiting(s, i) && s.now < i.at + 600_000
    ensures
      var r := Run(s, ops);
      Exchanges(r, Callback(i.token, provider, false, true)) <==>
        && r.now < i.at + 600_000
        && (forall op :: op in ops ==> !Consumes(op, i.token))
        && provider == i.provider && provider in s.providers
  {
    WaitingIffUnused(s, ops, i);
    ProvidersStay(s, ops);
  }

  /**
   In every run a state given out for a known provider is good for one exchange with it: a callback
   with a code is recorded as an exchange exactly within ten minutes, with the same provider, and if
   no callback with the state and a code came before.
   */
  lemma IssuedStateWorks(
      now: int, providers: set<string>, before: seq<Op>, provider: string, token: string, after: seq<Op>, call: Op)
    requires Legal(Init(now, providers), before) && provider in providers
    requires Enabled(Run(Init(now, providers), before), Authorize(provider, token))
    requires Legal(Apply(Run(Init(now, providers), before), Authorize(provider, token)), after)
    requires call.Callback? && call.token == token
    ensures
      var s := Run(Init(now, providers), before);
      var t := Run(Apply(s, Authorize(provider, token)), after);
      var works :=
        && t.now < s.now + 600_000 && (forall op :: op in after ==> !Consumes(op, token))
        && !call.refused && call.hasCode && call.provider == provider;
      Apply(t, call).exchanges == if works then t.exchanges + [Exchange(token, provider, t.now)] else t.exchanges
  {
    var s := Run(Init(now, providers), before);
    ProvidersStay(Init(now, providers), before);
    IssuedIsWaiting(s, provider, token);
    ExchangesIffUnused(Apply(s, Authorize(provider, token)), after, Issued(token, provider, s.now), call.provider);
  }

  lemma {:induction false} ProvidersStay(s: State, ops: seq<Op>)
    ensures Run(s, ops).providers == s.providers
    decreases |ops|
  {
    if |ops| > 0 {
      ProvidersStay(Apply(s, ops[0]), ops[1..]);
    }
  }

  lemma {:induction false} ClockIsMonotone(s: State, ops: seq<Op>)
    ensures s.now <= Run(s, ops).now
    decreases |ops|
  {
    if |ops| > 0 {
      ClockIsMonotone(Apply(s, ops[0]), ops[1..]);
    }
  }

  class OAuthServiceImpl {
    var now: int
    const providers: set<string>
    var states: map<string, Entry<Pending>>
    ghost var issued: seq<Issued>
    ghost var exchanges: seq<Exchange>

    ghost function View(): State
      reads this
    {
      State(now, providers, states, issued, exchanges)
    }

    constructor (now: int, providers: set<string>)
      ensures View() == Init(now, providers)
    {
      this.now, this.providers, states, issued, exchanges := now, providers, map[], [], [];
    }

    method Wait(ms: nat)
      modifies this
      ensures View() == Apply(old(View()), Advance(ms))
    {
      now := now + ms;
      states := Evict(states, now);
    }

    method GetAuthorizationUrl(provider: string, token: string) returns (ok: bool)
      modifies this
      ensures View() == Apply(old(View()), Authorize(provider, token))
      ensures ok <==> provider in providers
    {
      if provider !in providers {
        return false;
      }
      states := Put(states, token, Pending(provider, now), STATE_EXPIRY, now);
      issued := issued + [Issued(token, provider, now)];
      return true;
    }

    /** The stored state of a token, which is deleted in any case; nothing if it is too old. */
    method ValidateAndRetrieveState(token: string) returns (r: Option<Pending>)
      modifies this`states
      ensures states == old(states) - {token}
      ensures r.Some? <==> token in old(states) && now - old(states)[token].value.timestamp <= STATE_EXPIRY * SECOND
      ensures r.Some? ==> r.value == old(states)[token].value
    {
      if token !in states {
        return None;
      }
      var data := states[token].value;
      states := states - {token};
      if now - data.timestamp > STATE_EXPIRY * SECOND {
        return None;
      }
      return Some(data);
    }

    method HandleCallback(token: string, provider: string, refused: bool, hasCode: bool) returns (exchanged: bool)
      modifies this
      ensures View() == Apply(old(View()), Callback(token, provider, refused, hasCode))
      ensures exchanged <==> Exchanges(old(View()), Callback(token, provider, refused, hasCode))
    {
      if refused || !hasCode {
        return false;
      }
      var data := ValidateAndRetrieveState(token);
      if data.None? || data.value.provider != provider || provider !in providers {
        return false;
      }
      exchanges := exchanges + [Exchange(token, provider, now)];
      return true;
    }
  }
}
