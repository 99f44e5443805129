/**
 The OAuth callback under the retry wrapper: a callback consumes its one-time state, so retrying it
 after a timeout cannot succeed.
 */
module OAuthRetry {
  import opened Decimal
  import opened Retry
  import S = OAuthState

  const RETRY_ATTEMPTS := 3
  const RETRY_DELAY := 3000
  const OAUTH_CALLBACK_TIMEOUT := 90_000

  /** How long an attempt takes, and whether all that follows its code exchange succeeds. */
  datatype Reply = Reply(takes: nat, ok: bool)

  /** What the wrapper cannot control: the replies, and what others do after an attempt has started. */
  datatype World = World(replies: nat -> Reply, others: nat -> seq<S.Op>)

  /** The service's state when an attempt starts. */
  function Before(s: S.State, call: S.Op, w: World, attempt: nat): S.State
    requires call.Callback?
  {
    if attempt <= 1 then s else S.Run(S.Apply(Before(s, call, w, attempt - 1), call), w.others(attempt - 1))
  }

  /** The callback never throws: whatever goes wrong becomes a response without success. */
  function Respond(s: S.State, call: S.Op, w: World, attempt: nat): Try<bool>
    requires call.Callback?
  {
    var reply := w.replies(attempt);
    Try(Success(S.Exchanges(Before(s, call, w, attempt), call) && reply.ok), reply.takes)
  }

  ghost predicate Possible(s: S.State, call: S.Op, w: World)
    requires call.Callback?
  {
    forall k: nat :: k >= 1 ==> S.Legal(S.Apply(Before(s, call, w, k), call), w.others(k))
  }

  ghost predicate WasIssued(s: S.State, token: string) {
    exists i :: i in s.issued && i.token == token
  }

  ghost predicate WasExchanged(s: S.State, token: string) {
    exists x :: x in s.exchanges && x.token == token
  }

  /** An issued token that is not waiting to be called back; its state is gone for good. */
  ghost predicate Spent(s: S.State, token: string) {
    WasIssued(s, token) && token !in s.states
  }

  lemma StepKeepsExchanged(s: S.State, op: S.Op, token: string)
    requires WasExchanged(s, token)
    ensures WasExchanged(S.Apply(s, op), token)
  {
    var x :| x in s.exchanges && x.token == token;
    assert x in S.Apply(s, op).exchanges;
  }

  lemma {:induction false} RunKeepsExchanged(s: S.State, ops: seq<S.Op>, token: string)
    requires WasExchanged(s, token)
    ensures WasExchanged(S.Run(s, ops), token)
    decreases |ops|
  {
    if |ops| > 0 {
      StepKeepsExchanged(s, ops[0], token);
      RunKeepsExchanged(S.Apply(s, ops[0]), ops[1..], token);
    }
  }

  lemma StepKeepsIssued(s: S.State, op: S.Op, token: string)
    requires S.Enabled(s, op) && WasIssued(s, token)
    ensures WasIssued(S.Apply(s, op), token)
    ensures Spent(s, token) ==> Spent(S.Apply(s, op), token)
  {
    var i :| i in s.issued && i.token == token;
    assert i in S.Apply(s, op).issued;
  }

  lemma {:induction false} RunKeepsIssued(s: S.State, ops: seq<S.Op>, token: string)
    requires S.Legal(s, ops) && WasIssued(s, token)
    ensures WasIssued(S.Run(s, ops), token)
    ensures Spent(s, token) ==> Spent(S.Run(s, ops), token)
    decreases |ops|
  {
    if |ops| > 0 {
      StepKeepsIssued(s, ops[0], token);
      RunKeepsIssued(S.Apply(s, ops[0]), ops[1..], token);
    }
  }

  lemma {:induction false} AttemptsKeep(s: S.State, call: S.Op, w: World, k: nat)
    requires S.Inv(s) && call.Callback? && Possible(s, call, w)
    ensures S.Inv(Before(s, call, w, k))
  {
    if k > 1 {
      AttemptsKeep(s, call, w, k - 1);
      S.StepKeeps(Before(s, call, w, k - 1), call);
      S.RunKeeps(S.Apply(Before(s, call, w, k - 1), call), w.others(k - 1));
    }
  }

  lemma ExchangeIsRecorded(s: S.State, call: S.Op)
    requires call.Callback? && S.Exchanges(s, call)
    ensures WasExchanged(S.Apply(s, call), call.token)
  {
    var r := S.Apply(s, call);
    assert r.exchanges[|s.exchanges|].token == call.token;
  }

  lemma {:induction false} ExchangedStays(s: S.State, call: S.Op, w: World, j: nat, k: nat)
    requires call.Callback? && 1 <= j < k && S.Exchanges(Before(s, call, w, j), call)
    ensures WasExchanged(Before(s, call, w, k), call.token)
    decreases k
  {
    var b := Before(s, call, w, k - 1);
    if j < k - 1 {
      ExchangedStays(s, call, w, j, k - 1);
      StepKeepsExchanged(b, call, call.token);
    } else {
      ExchangeIsRecorded(b, call);
    }
    RunKeepsExchanged(S.Apply(b, call), w.others(k - 1), call.token);
  }

  lemma ExchangedIsNotRepeated(s: S.State, call: S.Op)
    requires S.Inv(s) && call.Callback? && WasExchanged(s, call.token)
    ensures !S.Exchanges(s, call)
  {
    var x :| x in s.exchanges && x.token == call.token;
    assert S.ExchangeOk(s, x);
  }

  /** At most one attempt of a callback gets as far as the exchange of its code. */
  lemma OneExchange(s: S.State, call: S.Op, w: World, j: nat, k: nat)
    requires S.Inv(s) && call.Callback? && Possible(s, call, w) && 1 <= j < k
    requires S.Exchanges(Before(s, call, w, j), call)
    ensures !S.Exchanges(Before(s, call, w, k), call)
  {
    AttemptsKeep(s, call, w, k);
    ExchangedStays(s, call, w, j, k);
    ExchangedIsNotRepeated(Before(s, call, w, k), call);
  }

  lemma {:induction false} IssuedStays(s: S.State, call: S.Op, w: World, k: nat)
    requires call.Callback? && Possible(s, call, w) && WasIssued(s, call.token)
    ensures WasIssued(Before(s, call, w, k), call.token)
    ensures k > 1 && !call.refused && call.hasCode ==> Spent(Before(s, call, w, k), call.token)
  {
    if k > 1 {
      var b := Before(s, call, w, k - 1);
      IssuedStays(s, call, w, k - 1);
      StepKeepsIssued(b, call, call.token);
      RunKeepsIssued(S.Apply(b, call), w.others(k - 1), call.token);
    }
  }

  /** With a state that was issued, no attempt but the first ever exchanges its code. */
  lemma OnlyFirstExchanges(s: S.State, call: S.Op, w: World, k: nat)
    requires call.Callback? && Possible(s, call, w) && k > 1 && WasIssued(s, call.token)
    ensures !S.Exchanges(Before(s, call, w, k), call)
  {
    IssuedStays(s, call, w, k);
  }

  /**
   The wrapped callback.  It logs in exactly if its first attempt does, in time: once an attempt has
   used up the state and timed out, what the later ones return is a failure.  It is over within 324
   seconds in any case.
   */
  method HandleCallback(s: S.State, call: S.Op, w: World, name: string)
    returns (result: Result<bool>, elapsed: nat, attempts: nat)
    requires S.Inv(s) && call.Callback? && Possible(s, call, w)
    ensures WasIssued(s, call.token) ==>
      (result == Success(true) <==>
        S.Exchanges(s, call) && w.replies(1).ok && w.replies(1).takes <= 90_000)
    ensures S.Exchanges(s, call) && w.replies(1).takes > 90_000 ==>
      attempts > 1 && result != Success(true)
    ensures elapsed <= 324_000
  {
    var op := (attempt: nat) => Respond(s, call, w, attempt);
    var show := (n: nat) => Print(n);
    result, elapsed, attempts := ExecuteWithRetry(op, name, show, RETRY_ATTEMPTS, OAUTH_CALLBACK_TIMEOUT, RETRY_DELAY);
    assert elapsed <= 324_000 by {
      assert Pow2(RETRY_ATTEMPTS - 1) == 4;
    }
    ghost var first := Raced(op, name, show, OAUTH_CALLBACK_TIMEOUT, 1);
    if w.replies(1).takes > OAUTH_CALLBACK_TIMEOUT {
      TimeoutsAreRetried(name, show(OAUTH_CALLBACK_TIMEOUT));
      assert !Final(first.result);
    } else {
      assert first.result == Success(S.Exchanges(s, call) && w.replies(1).ok);
      assert attempts > 1 ==> GivesWay(op, name, show, OAUTH_CALLBACK_TIMEOUT, 1);
    }
    if attempts > 1 {
      if WasIssued(s, call.token) {
        OnlyFirstExchanges(s, call, w, attempts);
      }
      if S.Exchanges(s, call) {
        OneExchange(s, call, w, 1, attempts);
      }
    }
  }
}
