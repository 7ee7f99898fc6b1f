/** How long one tool call can take (tools/contracts.py, tools/gateway.py). */
module Retries {
  /** The numeric part of a tool definition; times are exact. */
  datatype ToolDefinition = ToolDefinition(timeout: real, maxAttempts: int, initialDelay: real)

  const MAX_ATTEMPTS := 5
  const MAX_TIMEOUT := 60.0
  const MAX_INITIAL_DELAY := 5.0

  /** `__post_init__` raises nothing. */
  predicate Valid(d: ToolDefinition) {
    && 0.0 < d.timeout <= MAX_TIMEOUT
    && 1 <= d.maxAttempts <= MAX_ATTEMPTS
    && 0.0 <= d.initialDelay <= MAX_INITIAL_DELAY
  }

  function Power(n: nat): nat {
    if n == 0 then 1 else 2 * Power(n - 1)
  }

  /** `delay_seconds`. */
  function Delay(d: ToolDefinition, attempt: nat): real
    requires attempt >= 1
  {
    d.initialDelay * Power(attempt - 1) as real
  }

  /** One attempt: how long its handler ran and whether it failed in a way that can pass.  An
      injected fault runs no handler; a handler that reaches its limit is a transient failure. */
  datatype Trial = Trial(seconds: real, transient: bool)

  predicate Limited(d: ToolDefinition, trials: seq<Trial>) {
    forall i :: 0 <= i < |trials| ==> 0.0 <= trials[i].seconds <= d.timeout
  }

  /** How many attempts are made, from `n` made so far: up to the first that is not retried. */
  function AttemptsMade(trials: seq<Trial>, limit: nat, n: nat): (made: nat)
    requires n < limit <= |trials|
    ensures n < made <= limit
    decreases limit - n
  {
    if !trials[n].transient || n + 1 == limit then n + 1 else AttemptsMade(trials, limit, n + 1)
  }

  /** The time the handlers of the first `n` attempts take. */
  function Handling(trials: seq<Trial>, n: nat): real
    requires n <= |trials|
  {
    if n == 0 then 0.0 else Handling(trials, n - 1) + trials[n - 1].seconds
  }

  /** The time waited before the `n`-th attempt. */
  function Waiting(d: ToolDefinition, n: nat): real
    requires n >= 1
  {
    if n == 1 then 0.0 else Waiting(d, n - 1) + Delay(d, n - 1)
  }

  lemma {:induction false} WaitingIs(d: ToolDefinition, n: nat)
    requires n >= 1
    ensures Waiting(d, n) == d.initialDelay * (Power(n - 1) - 1) as real
  {
    if n > 1 {
      WaitingIs(d, n - 1);
    }
  }

  lemma {:induction false} PowerGrows(m: nat, n: nat)
    requires m <= n
    ensures Power(m) <= Power(n)
    decreases n
  {
    if m < n {
      PowerGrows(m, n - 1);
    }
  }

  lemma Product(a: real, b: real, c: real)
    requires a <= c && 0.0 <= b
    ensures a * b <= c * b
  {
  }

  lemma Scale(delay: real, power: int)
    requires 0.0 <= delay <= MAX_INITIAL_DELAY && 0 <= power <= 15
    ensures delay * power as real <= 75.0
  {
    var scale := power as real;
    assert 0.0 <= scale <= 15.0;
    Product(delay, scale, 5.0);
    assert 5.0 * scale <= 75.0;
    assert delay * scale <= 75.0;
  }

  /** The attempt loop with its waits: `trials` is what each attempt would do. */
  method Spend(d: ToolDefinition, trials: seq<Trial>, fragile: bool)
      returns (attempts: nat, handling: real, waiting: real)
    requires Valid(d) && Limited(d, trials) && |trials| >= d.maxAttempts
    ensures attempts == AttemptsMade(trials, if fragile then 1 else d.maxAttempts, 0)
    ensures handling == Handling(trials, attempts) && waiting == Waiting(d, attempts)
    ensures handling <= 300.0 && waiting <= 75.0
  {
    hide Power, Delay;
    var limit := if fragile then 1 else d.maxAttempts;
    attempts, handling, waiting := 0, 0.0, 0.0;
    while true
      invariant 0 <= attempts < limit
      invariant AttemptsMade(trials, limit, attempts) == AttemptsMade(trials, limit, 0)
      invariant handling == Handling(trials, attempts)
      invariant waiting == Waiting(d, attempts + 1)
      decreases limit - attempts
    {
      var trial := trials[attempts];
      attempts := attempts + 1;
      handling := handling + trial.seconds;
      if !trial.transient || attempts == limit {
        break;
      }
      waiting := waiting + Delay(d, attempts);
    }
    WithinCaps(d, trials, attempts);
  }

  lemma {:induction false} WithinCaps(d: ToolDefinition, trials: seq<Trial>, n: nat)
    requires Valid(d) && Limited(d, trials) && 1 <= n <= MAX_ATTEMPTS && n <= |trials|
    ensures Handling(trials, n) <= 300.0 && Waiting(d, n) <= 75.0
  {
    SpendBounds(d, trials, n);
  }

  /** What n attempts cost: handlers at most their limit each, and waits that add up to the initial
      delay times 2^(n-1) - 1. */
  lemma {:induction false} SpendBounds(d: ToolDefinition, trials: seq<Trial>, n: nat)
    requires Valid(d) && Limited(d, trials) && 1 <= n <= MAX_ATTEMPTS && n <= |trials|
    ensures Handling(trials, n) <= n as real * d.timeout && Handling(trials, n) <= 300.0
    ensures Waiting(d, n) == d.initialDelay * (Power(n - 1) - 1) as real && Waiting(d, n) <= 75.0
  {
    HandlingBounded(d, trials, n);
    Bounded(n, d.timeout);
    WaitingIs(d, n);
    WaitingBounded(d, n);
  }

  lemma {:induction false} HandlingBounded(d: ToolDefinition, trials: seq<Trial>, n: nat)
    requires Limited(d, trials) && n <= |trials|
    ensures Handling(trials, n) <= n as real * d.timeout
  {
    if n > 0 {
      HandlingBounded(d, trials, n - 1);
      assert n as real * d.timeout == (n - 1) as real * d.timeout + d.timeout;
    }
  }

  lemma WaitingBounded(d: ToolDefinition, n: nat)
    requires Valid(d) && 1 <= n <= MAX_ATTEMPTS
    ensures d.initialDelay * (Power(n - 1) - 1) as real <= 75.0
  {
    PowerGrows(n - 1, 4);
    PowerGrows(0, n - 1);
    assert Power(4) == 16 && Power(0) == 1;
    Scale(d.initialDelay, Power(n - 1) - 1);
  }

  lemma Bounded(attempts: nat, timeout: real)
    requires attempts <= MAX_ATTEMPTS && 0.0 <= timeout <= MAX_TIMEOUT
    ensures attempts as real * timeout <= 300.0
  {
    var scale := attempts as real;
    assert 0.0 <= scale <= 5.0;
    Product(timeout, scale, 60.0);
    assert 60.0 * scale <= 300.0;
    assert timeout * scale <= 300.0;
    assert scale * timeout <= 300.0;
  }

  /** Both bounds are reached, by a valid tool whose handler always runs to its limit: the loop
      makes all five attempts, handles for 300 seconds and waits for 75. */
  lemma BoundsAreTight()
    ensures exists d, trials ::
              && Valid(d) && Limited(d, trials) && |trials| == d.maxAttempts
              && AttemptsMade(trials, d.maxAttempts, 0) == MAX_ATTEMPTS
              && Handling(trials, MAX_ATTEMPTS) == 300.0 && Waiting(d, MAX_ATTEMPTS) == 75.0
  {
    var d, slow := ToolDefinition(MAX_TIMEOUT, MAX_ATTEMPTS, MAX_INITIAL_DELAY), Trial(MAX_TIMEOUT, true);
    var trials := [slow, slow, slow, slow, slow];
    assert AttemptsMade(trials, 5, 2) == 5;
    assert Handling(trials, 1) == 60.0;
    assert Handling(trials, 2) == 120.0;
    assert Handling(trials, 3) == 180.0;
    assert Handling(trials, 4) == 240.0;
    assert Power(4) == 2 * Power(3) == 4 * Power(2) == 16;
    WaitingIs(d, 5);
  }
}
