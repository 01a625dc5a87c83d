/** Exponential backoff (`reconnection.py`): the bounded retry loop and the lazy gate that
    orders the outcomes of overlapping attempts. Times are reals on a monotone clock. */
module Backoff {
  import opened Health

  function Min(a: real, b: real): real { if a <= b then a else b }

  /** `initial * 2^k` */
  function Doubled(initial: real, k: nat): real { if k == 0 then initial else 2.0 * Doubled(initial, k - 1) }

  /** The wait after `k` failures in a row, as the code arrives at it: doubled each time, and
      cut to `limit`. */
  function Window(initial: real, limit: real, k: nat): real {
    if k == 0 then initial else Min(Window(initial, limit, k - 1) * 2.0, limit)
  }

  lemma {:induction false} WindowIsPower(initial: real, limit: real, k: nat)
    requires 0.0 < initial <= limit
    ensures Window(initial, limit, k) == Min(Doubled(initial, k), limit)
  {
    if k == 0 {
    } else {
      WindowIsPower(initial, limit, k - 1);
    }
  }

  lemma {:induction false} WindowGrows(initial: real, limit: real, k: nat)
    requires 0.0 < initial <= limit
    ensures initial <= Window(initial, limit, k) <= Window(initial, limit, k + 1) <= limit
  {
    if k == 0 {
    } else {
      WindowGrows(initial, limit, k - 1);
    }
  }

  // ---------------------------------------------------------------- reconnect_with_backoff

  /** How the world answers: whether attempt `k` succeeds, how long it takes, and how long the
      sleep after it really lasts. */
  datatype World = World(ok: nat -> bool, took: nat -> real, slept: nat -> real)

  predicate Works(w: World, k: nat) { w.ok(k) }

  function Took(w: World, k: nat): real { w.took(k) }

  function Slept(w: World, k: nat): real { w.slept(k) }

  /** No time runs backwards and `sleep(d)` takes at least `d`. */
  ghost predicate Fair(w: World, initial: real, limit: real) {
    forall k: nat :: Took(w, k) >= 0.0 && Slept(w, k) >= Window(initial, limit, k)
  }

  /** Time from the start to the end of attempt `n`, counting from 1. */
  function Spent(w: World, n: nat): real
    requires n > 0
  {
    if n == 1 then Took(w, 0) else Spent(w, n - 1) + Slept(w, n - 2) + Took(w, n - 1)
  }

  /** The total of the first `n` waits. */
  function Waits(initial: real, limit: real, n: nat): real {
    if n == 0 then 0.0 else Waits(initial, limit, n - 1) + Window(initial, limit, n - 1)
  }

  lemma {:induction false} SpentCoversWaits(w: World, initial: real, limit: real, n: nat)
    requires n > 0 && Fair(w, initial, limit)
    ensures Spent(w, n) >= Waits(initial, limit, n - 1)
  {
    assert Took(w, n - 1) >= 0.0;
    if n > 1 {
      assert Slept(w, n - 2) >= Window(initial, limit, n - 2);
      SpentCoversWaits(w, initial, limit, n - 1);
    }
  }

  lemma {:induction false} WaitsGrow(initial: real, limit: real, n: nat)
    requires 0.0 < initial <= limit
    ensures Waits(initial, limit, n) >= (n as real) * initial
  {
    if n == 0 {
    } else {
      WaitsGrow(initial, limit, n - 1);
      WindowGrows(initial, limit, n - 1);
      assert (n as real) * initial == ((n - 1) as real) * initial + initial;
    }
  }

  /** Attempt `k` failed before the time was up. */
  predicate GoesOn(w: World, maxDuration: real, k: nat) {
    k > 0 && !Works(w, k - 1) && Spent(w, k) < maxDuration
  }

  /** Attempt `n` is the first that the loop does not go on from. */
  ghost predicate StopsAt(w: World, maxDuration: real, n: nat) {
    n > 0 && !GoesOn(w, maxDuration, n) && forall k :: 0 < k < n ==> GoesOn(w, maxDuration, k)
  }

  /** The number of attempts is bounded whatever the world does. */
  lemma AttemptsAreBounded(w: World, initial: real, limit: real, maxDuration: real, n: nat)
    requires 0.0 < initial <= limit && Fair(w, initial, limit) && StopsAt(w, maxDuration, n)
    ensures n >= 2 ==> ((n - 2) as real) * initial <= Waits(initial, limit, n - 2) < maxDuration
  {
    if n >= 2 {
      assert GoesOn(w, maxDuration, n - 1);
      SpentCoversWaits(w, initial, limit, n - 1);
      WaitsGrow(initial, limit, n - 2);
    }
  }

  lemma MulReflects(a: real, b: real, c: real)
    requires a * c < b * c && 0.0 < c
    ensures a < b
  {
  }

  lemma QuotientExceeds(n: real, initial: real, d: real)
    requires 0.0 < initial && n * initial < d
    ensures n < d / initial
  {
    assert (d / initial) * initial == d;
    MulReflects(n, d / initial, initial);
  }

  lemma WithinBudget(w: World, initial: real, limit: real, maxDuration: real, n: nat)
    requires 0.0 < initial <= limit && Fair(w, initial, limit) && n > 0 && Spent(w, n) < maxDuration
    ensures n < (maxDuration / initial).Floor + 2
  {
    SpentCoversWaits(w, initial, limit, n);
    WaitsGrow(initial, limit, n - 1);
    QuotientExceeds((n - 1) as real, initial, maxDuration);
  }

  /** A number of attempts that the loop cannot reach. */
  lemma Budget(w: World, initial: real, limit: real, maxDuration: real) returns (budget: int)
    requires 0.0 < initial <= limit && Fair(w, initial, limit)
    ensures forall n: nat :: n > 0 && Spent(w, n) < maxDuration ==> n < budget
  {
    budget := (maxDuration / initial).Floor + 2;
    forall n: nat | n > 0 && Spent(w, n) < maxDuration
      ensures n < budget
    {
      WithinBudget(w, initial, limit, maxDuration, n);
    }
  }

  /** `reconnect_with_backoff`. It ends at the first attempt that succeeds or that ends at or
      past `maxDuration`, never giving up before; the health tells which. */
  method ReconnectWithBackoff(w: World, health: ServiceHealth, initial: real, limit: real, maxDuration: real)
    returns (recovered: bool, attempts: nat)
    requires 0.0 < initial <= limit && Fair(w, initial, limit) && health.Valid()
    modifies health
    ensures StopsAt(w, maxDuration, attempts) && recovered == Works(w, attempts - 1)
    ensures health.Valid() && health.state == if recovered then Connected else Degraded
    ensures health.reconnectAttempts == if recovered then 0 else old(health.reconnectAttempts) + attempts
    ensures health.failed == !recovered
    ensures |health.announced| <= |old(health.announced)| + 1
  {
    var now, backoff := 0.0, initial;
    attempts := 0;
    ghost var budget := Budget(w, initial, limit, maxDuration);
    while true
      invariant health.Valid() && health.state == old(health.state) && health.announced == old(health.announced)
      invariant health.reconnectAttempts == old(health.reconnectAttempts) + attempts
      invariant backoff == Window(initial, limit, attempts)
      invariant forall k :: 0 < k <= attempts ==> GoesOn(w, maxDuration, k)
      invariant now == if attempts == 0 then 0.0 else Spent(w, attempts) + Slept(w, attempts - 1)
      decreases budget - attempts
    {
      now := now + Took(w, attempts);
      attempts := attempts + 1;
      assert now == Spent(w, attempts);
      if Works(w, attempts - 1) {
        health.MarkConnected();
        return true, attempts;
      }
      health.MarkAttemptFailed();
      if now >= maxDuration {
        health.SetState(Degraded);
        return false, attempts;
      }
      now := now + Slept(w, attempts - 1);
      backoff := Min(backoff * 2.0, limit);
    }
  }

  // ---------------------------------------------------------------- the lazy gate

  datatype Gate = Gate(backoff: real, failing: bool, lastFailure: real, started: nat, marker: nat)

  function NewGate(initial: real): Gate { Gate(initial, false, 0.0, 0, 0) }

  predicate Refuses(g: Gate, now: real) { g.failing && now - g.lastFailure < g.backoff }

  /** What a caller does to the gate. `token` was handed out by an earlier `Begin`. */
  datatype Op = Begin(now: real) | Failure(token: nat, now: real) | Success

  function Do(initial: real, limit: real, g: Gate, op: Op): Gate {
    match op
    case Begin(now) => if Refuses(g, now) then g else g.(started := g.started + 1)
    case Failure(token, now) =>
      if token <= g.marker then g
      else g.(marker := g.started, failing := true, lastFailure := now, backoff := Min(g.backoff * 2.0, limit))
    case Success =>
      g.(marker := if g.marker >= g.started then g.marker else g.started, failing := false, backoff := initial)
  }

  class LazyBackoffGate {
    const initialBackoff: real
    const maxBackoff: real
    var backoff: real
    var failing: bool
    var lastFailureAt: real
    var started: nat
    var marker: nat

    function Abs(): Gate
      reads this
    {
      Gate(backoff, failing, lastFailureAt, started, marker)
    }

    constructor (initial: real, limit: real)
      ensures initialBackoff == initial && maxBackoff == limit && Abs() == NewGate(initial)
    {
      initialBackoff, maxBackoff, backoff := initial, limit, initial;
      failing, lastFailureAt, started, marker := false, 0.0, 0, 0;
    }

    /** The token of the attempt, or 0 while the window is open. */
    method BeginAttempt(now: real) returns (token: nat)
      modifies this`started
      ensures Abs() == Do(initialBackoff, maxBackoff, old(Abs()), Begin(now))
      ensures token == if Refuses(old(Abs()), now) then 0 else started
    {
      if failing && now - lastFailureAt < backoff {
        return 0;
      }
      started := started + 1;
      return started;
    }

    method RecordFailure(token: nat, now: real) returns (applied: bool)
      modifies this
      ensures Abs() == Do(initialBackoff, maxBackoff, old(Abs()), Failure(token, now))
      ensures applied <==> token > old(marker)
    {
      if token <= marker {
        return false;
      }
      marker := started;
      failing, lastFailureAt := true, now;
      backoff := Min(backoff * 2.0, maxBackoff);
      return true;
    }

    method RecordSuccess()
      modifies this
      ensures Abs() == Do(initialBackoff, maxBackoff, old(Abs()), Success)
    {
      marker := if marker >= started then marker else started;
      failing := false;
      backoff := initialBackoff;
    }
  }

  /** A gate's settings. */
  datatype Settings = Settings(initial: real, limit: real)

  function After(c: Settings, ops: seq<Op>): Gate {
    if |ops| == 0 then NewGate(c.initial)
    else Do(c.initial, c.limit, After(c, ops[..|ops| - 1]), ops[|ops| - 1])
  }

  /** Latest time seen. */
  function Clock(ops: seq<Op>): real {
    if |ops| == 0 then 0.0
    else if ops[|ops| - 1].Success? then Clock(ops[..|ops| - 1])
    else ops[|ops| - 1].now
  }

  /** The clock never runs back, and failures are reported for tokens handed out. */
  predicate Proper(c: Settings, ops: seq<Op>) {
    if |ops| == 0 then 0.0 < c.initial <= c.limit
    else
      var before, op := ops[..|ops| - 1], ops[|ops| - 1];
      && Proper(c, before)
      && (!op.Success? ==> op.now >= Clock(before))
      && (op.Failure? ==> 0 < op.token <= After(c, before).started)
  }

  /** Operation `i` is a failure that the gate applies. */
  predicate Applied(c: Settings, ops: seq<Op>, i: nat)
    requires i < |ops|
  {
    ops[i].Failure? && ops[i].token > After(c, ops[..i]).marker
  }

  predicate Outcome(c: Settings, ops: seq<Op>, i: nat)
    requires i < |ops|
  {
    ops[i].Success? || Applied(c, ops, i)
  }

  /** Failures applied since the last success. */
  function Streak(c: Settings, ops: seq<Op>): nat {
    if |ops| == 0 || ops[|ops| - 1].Success? then 0
    else Streak(c, ops[..|ops| - 1]) + if Applied(c, ops, |ops| - 1) then 1 else 0
  }

  lemma {:induction false} BackoffAfter(c: Settings, ops: seq<Op>)
    ensures After(c, ops).backoff == Window(c.initial, c.limit, Streak(c, ops))
    ensures After(c, ops).failing <==> Streak(c, ops) > 0
  {
    if |ops| == 0 {
    } else {
      BackoffAfter(c, ops[..|ops| - 1]);
    }
  }

  /** The backoff is the initial one doubled once per failure applied since the last success,
      up to the limit. */
  lemma {:induction false} BackoffIsExponential(c: Settings, ops: seq<Op>)
    requires 0.0 < c.initial <= c.limit
    ensures After(c, ops).backoff == Min(Doubled(c.initial, Streak(c, ops)), c.limit)
  {
    BackoffAfter(c, ops);
    WindowIsPower(c.initial, c.limit, Streak(c, ops));
  }

  /** Tokens handed out by the end of operation `j`. */
  function HandedOut(c: Settings, ops: seq<Op>, j: nat): nat
    requires j < |ops|
  {
    After(c, ops[..j + 1]).started
  }

  lemma {:induction false} MarkerBounds(c: Settings, ops: seq<Op>, j: nat)
    requires j < |ops|
    ensures HandedOut(c, ops, j) <= After(c, ops).started
    ensures Outcome(c, ops, j) ==> After(c, ops).marker >= HandedOut(c, ops, j)
  {
    var before := ops[..|ops| - 1];
    if j == |before| {
      assert ops[..j + 1] == ops;
    } else {
      MarkerBounds(c, before, j);
      assert before[..j] == ops[..j] && before[..j + 1] == ops[..j + 1];
    }
  }

  /** The marker is the number of tokens handed out by some recorded outcome, or 0. */
  lemma {:induction false} MarkerIsAnOutcome(c: Settings, ops: seq<Op>) returns (j: nat)
    ensures After(c, ops).marker <= After(c, ops).started
    ensures After(c, ops).marker > 0 ==> j < |ops| && Outcome(c, ops, j) && HandedOut(c, ops, j) == After(c, ops).marker
  {
    j := 0;
    if |ops| > 0 {
      var before := ops[..|ops| - 1];
      j := MarkerIsAnOutcome(c, before);
      if Outcome(c, ops, |ops| - 1) {
        j := |ops| - 1;
        assert ops[..j + 1] == ops;
      } else if After(c, ops).marker > 0 {
        assert before[..j] == ops[..j] && before[..j + 1] == ops[..j + 1];
      }
    }
  }

  /** A failure is applied exactly when its attempt began after every outcome recorded before
      it, successes and applied failures alike, in any interleaving of attempts. */
  lemma FailureAppliesExactly(c: Settings, ops: seq<Op>, i: nat)
    requires Proper(c, ops) && i < |ops| && ops[i].Failure? && ops[i].token > 0
    ensures Applied(c, ops, i) <==> forall j :: 0 <= j < i && Outcome(c, ops, j) ==> ops[i].token > HandedOut(c, ops, j)
  {
    var before := ops[..i];
    forall j | 0 <= j < i && Outcome(c, ops, j)
      ensures After(c, before).marker >= HandedOut(c, ops, j)
    {
      MarkerBounds(c, before, j);
      assert before[..j] == ops[..j] && before[..j + 1] == ops[..j + 1];
    }
    if !Applied(c, ops, i) {
      var j := MarkerIsAnOutcome(c, before);
      assert before[..j] == ops[..j] && before[..j + 1] == ops[..j + 1];
      assert Outcome(c, ops, j) && ops[i].token <= HandedOut(c, ops, j);
    }
  }

  // ---------------------------------------------------------------- windows between failures

  lemma {:induction false} ProperPrefix(c: Settings, ops: seq<Op>, n: nat)
    requires n <= |ops| && Proper(c, ops)
    ensures Proper(c, ops[..n])
  {
    if n < |ops| {
      ProperPrefix(c, ops[..|ops| - 1], n);
      assert ops[..|ops| - 1][..n] == ops[..n];
    } else {
      assert ops[..n] == ops;
    }
  }

  predicate NoSuccess(ops: seq<Op>, i: nat, j: nat)
    requires j <= |ops|
  {
    forall k :: i < k < j ==> !ops[k].Success?
  }

  /** From the applied failure `i` on, without a success: the window it opened only grows, and
      an attempt that is still fresh began after the current window was over. */
  lemma {:induction false} WindowHolds(c: Settings, ops: seq<Op>, i: nat)
    requires Proper(c, ops) && i < |ops| && Applied(c, ops, i) && NoSuccess(ops, i, |ops|)
    ensures var g := After(c, ops);
            && g.failing && g.lastFailure >= ops[i].now
            && g.backoff >= After(c, ops[..i + 1]).backoff
            && g.marker <= g.started
            && (g.started > g.marker ==> Clock(ops) >= g.lastFailure + g.backoff)
            && Clock(ops) >= g.lastFailure
  {
    var before := ops[..|ops| - 1];
    if i == |before| {
      assert ops[..i + 1] == ops;
    } else {
      assert before[..i] == ops[..i] && before[..i + 1] == ops[..i + 1];
      WindowHolds(c, before, i);
      ProperPrefix(c, ops, 0);
      assert ops[..0] == [];
      BackoffAfter(c, before);
      WindowGrows(c.initial, c.limit, Streak(c, before));
    }
  }

  /** Two applied failures with no success between them are at least the window apart that
      the first of them opened. */
  lemma FailuresAreApart(c: Settings, ops: seq<Op>, i: nat, j: nat)
    requires Proper(c, ops) && i < j < |ops|
    requires Applied(c, ops, i) && Applied(c, ops, j) && NoSuccess(ops, i, j)
    ensures ops[j].now - ops[i].now >= Min(Doubled(c.initial, Streak(c, ops[..i + 1])), c.limit)
  {
    var before := ops[..j];
    ProperPrefix(c, ops, j + 1);
    assert ops[..j + 1][..j] == before;
    assert before[..i] == ops[..i] && before[..i + 1] == ops[..i + 1];
    WindowHolds(c, before, i);
    ProperPrefix(c, ops, 0);
    assert ops[..0] == [];
    BackoffIsExponential(c, ops[..i + 1]);
  }
}
