/** The retry wrapper: adaptive timeouts, retryable errors, exponential backoff. */
module Retry {

  const ADAPTIVE_STEP := 15_000

  datatype Result<T> = Success(value: T) | Failure(message: string)

  /** What an attempt of the operation would give, and after how long. */
  datatype Try<T> = Try(result: Result<T>, takes: nat)

  // ---------------------------------------------------------------- retryable errors

  function Lower(c: char): char {
    if 'A' <= c <= 'Z' then c - 'A' + 'a' else c
  }

  function ToLower(s: string): string {
    seq(|s|, i requires 0 <= i < |s| => Lower(s[i]))
  }

  predicate OccursAt(s: string, pattern: string, i: nat) {
    i + |pattern| <= |s| && s[i..i + |pattern|] == pattern
  }

  predicate Includes(s: string, pattern: string) {
    exists i: nat :: i <= |s| && OccursAt(s, pattern, i)
  }

  const PATTERNS := [
    "timeout", "etimedout", "econnrefused", "econnreset", "enotfound", "ehostunreach", "socket hang up",
    "network error", "connection refused", "request timeout to github api", "github api server error", "rate limit"]

  predicate Retryable(message: string) {
    exists p :: p in PATTERNS && Includes(ToLower(message), p)
  }

  function TimeoutMessage(name: string, shown: string): string {
    name + " timeout after " + shown + "ms"
  }

  lemma MessageSaysTimeout(name: string, shown: string)
    ensures OccursAt(TimeoutMessage(name, shown), "timeout", |name| + 1)
  {
    var m := TimeoutMessage(name, shown);
    assert m == name + (" timeout after " + shown + "ms");
    assert m[|name|..] == " timeout after " + shown + "ms";
    assert m[|name| + 1..|name| + 8] == m[|name|..][1..8];
  }

  lemma LowerCaseStays(s: string, pattern: string, i: nat)
    requires OccursAt(s, pattern, i) && forall k :: 0 <= k < |pattern| ==> Lower(pattern[k]) == pattern[k]
    ensures OccursAt(ToLower(s), pattern, i)
  {
    var lower := ToLower(s)[i..i + |pattern|];
    forall k | 0 <= k < |pattern|
      ensures lower[k] == pattern[k]
    {
      assert s[i..i + |pattern|][k] == s[i + k];
    }
    assert lower == pattern;
  }

  /** The wrapper's own timeouts are always retried, whatever the operation is called. */
  lemma TimeoutsAreRetried(name: string, shown: string)
    ensures Retryable(TimeoutMessage(name, shown))
  {
    MessageSaysTimeout(name, shown);
    LowerCaseStays(TimeoutMessage(name, shown), "timeout", |name| + 1);
    assert Includes(ToLower(TimeoutMessage(name, shown)), "timeout");
    assert PATTERNS[0] == "timeout";
  }

  lemma LowerSlice(s: string, i: nat, j: nat)
    requires i <= j <= |s|
    ensures ToLower(s)[i..j] == ToLower(s[i..j])
  {
  }

  /** Some stretch of the text reads like the pattern when written in lower case. */
  ghost predicate ReadsAt(s: string, pattern: string, i: nat) {
    i + |pattern| <= |s| && ToLower(s[i..i + |pattern|]) == pattern
  }

  /** An error is retried exactly if some stretch of its message is one of twelve texts, in any case. */
  lemma RetriedIffListed(message: string)
    ensures Retryable(message) <==> exists p, i: nat ::
      && p in [
        "timeout", "etimedout", "econnrefused", "econnreset", "enotfound", "ehostunreach", "socket hang up",
        "network error", "connection refused", "request timeout to github api", "github api server error", "rate limit"]
      && ReadsAt(message, p, i)
  {
    forall p, i: nat
      ensures OccursAt(ToLower(message), p, i) <==> ReadsAt(message, p, i)
    {
      if i + |p| <= |message| {
        LowerSlice(message, i, i + |p|);
      }
    }
  }

  lemma NetworkCodesAreListed(code: string)
    requires code in ["ETIMEDOUT", "ECONNREFUSED", "ECONNRESET", "ENOTFOUND", "EHOSTUNREACH"]
    ensures ToLower(code) in PATTERNS
  {
    if code == "ETIMEDOUT" {
      assert ToLower(code) == "etimedout" == PATTERNS[1];
    } else if code == "ECONNREFUSED" {
      assert ToLower(code) == "econnrefused" == PATTERNS[2];
    } else if code == "ECONNRESET" {
      assert ToLower(code) == "econnreset" == PATTERNS[3];
    } else if code == "ENOTFOUND" {
      assert ToLower(code) == "enotfound" == PATTERNS[4];
    } else {
      assert ToLower(code) == "ehostunreach" == PATTERNS[5];
    }
  }

  lemma ListedIsRetried(before: string, code: string, after: string)
    requires ToLower(code) in PATTERNS
    ensures Retryable(before + code + after)
  {
    var s := before + code + after;
    LowerSlice(s, |before|, |before| + |code|);
    assert s[|before|..|before| + |code|] == code;
    assert OccursAt(ToLower(s), ToLower(code), |before|);
  }

  /** The network errors are retried as the runtime spells them, whatever the rest of the message says. */
  lemma NetworkErrorsAreRetried(before: string, code: string, after: string)
    requires code in ["ETIMEDOUT", "ECONNREFUSED", "ECONNRESET", "ENOTFOUND", "EHOSTUNREACH"]
    ensures Retryable(before + code + after)
  {
    NetworkCodesAreListed(code);
    ListedIsRetried(before, code, after);
  }

  // ---------------------------------------------------------------- one attempt

  function TimeoutOf(timeout: nat, attempt: nat): nat
    requires attempt >= 1
  {
    timeout + (attempt - 1) * ADAPTIVE_STEP
  }

  /** The operation raced against the attempt's timeout; `print` shows a number. */
  function Race<T>(t: Try<T>, name: string, show: nat -> string, limit: nat): Try<T> {
    if t.takes <= limit then t else Try(Failure(TimeoutMessage(name, show(limit))), limit)
  }

  function Pow2(n: nat): (p: nat)
    ensures p >= 1
  {
    if n == 0 then 1 else 2 * Pow2(n - 1)
  }

  function Backoff(delay: nat, attempt: nat): nat
    requires attempt >= 1
  {
    delay * Pow2(attempt - 1)
  }

  predicate Final<T>(r: Result<T>) {
    r.Success? || !Retryable(r.message)
  }

  /** The longest the wrapper can take over n attempts. */
  function Budget(n: nat, timeout: nat, delay: nat): nat
    requires n >= 1
  {
    if n == 1 then TimeoutOf(timeout, 1)
    else Budget(n - 1, timeout, delay) + Backoff(delay, n - 1) + TimeoutOf(timeout, n)
  }

  lemma ProductStep(n: nat, timeout: nat)
    requires n >= 1
    ensures n * timeout == (n - 1) * timeout + timeout
  {
  }

  lemma SquareStep(n: int)
    ensures n * (n - 1) == (n - 1) * (n - 2) + 2 * (n - 1)
  {
  }

  lemma PowerStep(delay: nat, p: nat)
    ensures delay * (p - 1) + delay * p == delay * (2 * p - 1)
  {
  }

  lemma {:induction false} BudgetClosedForm(n: nat, timeout: nat, delay: nat)
    requires n >= 1
    ensures Budget(n, timeout, delay) == n * timeout + 7500 * (n * (n - 1)) + delay * (Pow2(n - 1) - 1)
  {
    if n > 1 {
      BudgetClosedForm(n - 1, timeout, delay);
      ProductStep(n, timeout);
      SquareStep(n);
      PowerStep(delay, Pow2(n - 2));
    }
  }

  /** What attempt number `attempt` gives once raced against its timeout. */
  function Raced<T>(op: nat -> Try<T>, name: string, show: nat -> string, timeout: nat, attempt: nat): Try<T>
    requires attempt >= 1
  {
    Race(op(attempt), name, show, TimeoutOf(timeout, attempt))
  }

  /** An attempt that fails retryably, its own timeout included. */
  predicate GivesWay<T>(op: nat -> Try<T>, name: string, show: nat -> string, timeout: nat, attempt: nat)
    requires attempt >= 1
  {
    !Final(Raced(op, name, show, timeout, attempt).result)
  }

  /** What n attempts take, the first n - 1 of them each followed by its pause. */
  function TimeSpent<T>(op: nat -> Try<T>, name: string, show: nat -> string, timeout: nat, delay: nat, n: nat): nat
    requires n >= 1
  {
    Raced(op, name, show, timeout, n).takes +
      if n == 1 then 0 else TimeSpent(op, name, show, timeout, delay, n - 1) + Backoff(delay, n - 1)
  }

  lemma {:induction false} WithinBudget<T>(
      op: nat -> Try<T>, name: string, show: nat -> string, timeout: nat, delay: nat, n: nat)
    requires n >= 1
    ensures TimeSpent(op, name, show, timeout, delay, n) <= Budget(n, timeout, delay)
  {
    if n > 1 {
      WithinBudget(op, name, show, timeout, delay, n - 1);
    }
  }

  lemma {:induction false} BudgetGrows(m: nat, n: nat, timeout: nat, delay: nat)
    requires 1 <= m <= n
    ensures Budget(m, timeout, delay) <= Budget(n, timeout, delay)
    decreases n
  {
    if m < n {
      BudgetGrows(m, n - 1, timeout, delay);
    }
  }

  lemma TimeIsBounded<T>(
      op: nat -> Try<T>, name: string, show: nat -> string, timeout: nat, delay: nat, m: nat, n: nat)
    requires 1 <= m <= n
    ensures TimeSpent(op, name, show, timeout, delay, m) <= n * timeout + 7500 * (n * (n - 1)) + delay * (Pow2(n - 1) - 1)
  {
    WithinBudget(op, name, show, timeout, delay, m);
    BudgetGrows(m, n, timeout, delay);
    BudgetClosedForm(n, timeout, delay);
  }

  /** The bound is reached: operations that never end take the longest. */
  lemma {:induction false} BudgetIsReached<T>(
      op: nat -> Try<T>, name: string, show: nat -> string, timeout: nat, delay: nat, n: nat)
    requires n >= 1 && forall k :: 1 <= k <= n ==> op(k).takes > timeout + (k - 1) * 15_000
    ensures TimeSpent(op, name, show, timeout, delay, n) == n * timeout + 7500 * (n * (n - 1)) + delay * (Pow2(n - 1) - 1)
  {
    assert op(n).takes > timeout + (n - 1) * 15_000;
    if n > 1 {
      BudgetIsReached(op, name, show, timeout, delay, n - 1);
      ProductStep(n, timeout);
      SquareStep(n);
      PowerStep(delay, Pow2(n - 2));
    }
  }

  /**
   Runs the operation until it succeeds, fails for good, or has been tried n times.  The result is
   that of the first attempt that settles the matter, all earlier ones having failed retryably.
   */
  method ExecuteWithRetry<T>(op: nat -> Try<T>, name: string, show: nat -> string, n: nat, timeout: nat, delay: nat)
    returns (result: Result<T>, elapsed: nat, attempts: nat)
    requires n >= 1
    ensures 1 <= attempts <= n
    ensures result == Raced(op, name, show, timeout, attempts).result
    ensures forall k :: 1 <= k < attempts ==> GivesWay(op, name, show, timeout, k)
    ensures Final(result) || attempts == n
    ensures elapsed == TimeSpent(op, name, show, timeout, delay, attempts)
    ensures elapsed <= n * timeout + 7500 * (n * (n - 1)) + delay * (Pow2(n - 1) - 1)
  {
    attempts, elapsed := 1, 0;
    while true
      invariant 1 <= attempts <= n
      invariant forall k :: 1 <= k < attempts ==> GivesWay(op, name, show, timeout, k)
      invariant elapsed + Raced(op, name, show, timeout, attempts).takes
        == TimeSpent(op, name, show, timeout, delay, attempts)
      decreases n - attempts
    {
      var t := Raced(op, name, show, timeout, attempts);
      elapsed := elapsed + t.takes;
      result := t.result;
      if result.Success? || !Retryable(result.message) || attempts >= n {
        break;
      }
      elapsed := elapsed + Backoff(delay, attempts);
      attempts := attempts + 1;
    }
    TimeIsBounded(op, name, show, timeout, delay, attempts, n);
  }
}
