/** The run's budget: three ceilings, the recorded spend and the sizing of parallel waves. Money and
    time are real numbers. */
module Budgeting {
  const EPSILON: real := 0.000000001

  /** The largest call cost starts at zero and only grows. */
  type Cost = x: real | x >= 0.0

  /** The assumed cost of a call nobody has seen yet. */
  type Positive = x: real | x > 0.0 witness 0.25

  /** A snapshot of the budget object. */
  datatype Ledger = Ledger(maxUsd: real, spent: real, maxCalls: int, calls: int,
                           maxSeconds: real, startedAt: real, maxCallCost: Cost, defaultReserve: Positive)

  function Remaining(b: Ledger): real {
    if b.maxUsd - b.spent > 0.0 then b.maxUsd - b.spent else 0.0
  }

  /** Any of the three ceilings exhausts the budget. */
  predicate Exhausted(b: Ledger, now: real) {
    b.spent >= b.maxUsd || b.calls >= b.maxCalls || now - b.startedAt >= b.maxSeconds
  }

  function Recorded(b: Ledger, cost: real, calls: int, trackMax: bool): Ledger {
    b.(spent := b.spent + cost, calls := b.calls + calls,
       maxCallCost := if trackMax && calls > 0 && cost / calls as real > b.maxCallCost
                      then cost / calls as real else b.maxCallCost)
  }

  /** What one parallel call is assumed to cost: the largest seen, or the default before any. */
  function Reserve(b: Ledger): (r: real)
    ensures r > 0.0
  {
    if b.maxCallCost != 0.0 then b.maxCallCost else b.defaultReserve
  }

  function AffordableCalls(b: Ledger, wanted: int, now: real): int
  {
    if wanted <= 0 || Exhausted(b, now) then 0
    else
      var n := ((Remaining(b) + EPSILON) / Reserve(b)).Floor;
      var capped := if n < wanted then n else wanted;
      if capped > 1 then capped else 1
  }

  lemma FloorQuotient(x: real, r: real, m: int)
    requires r > 0.0
    ensures m as real * r <= x <==> m <= (x / r).Floor
  {
    var q := x / r;
    assert q * r == x;
    if m <= q.Floor {
      assert m as real <= q;
      assert m as real * r <= q * r;
    } else {
      assert m as real > q;
      assert m as real * r > q * r;
    }
  }

  /** `m` calls fit: their reserves are within what remains, with the slack the code allows. */
  predicate Fits(b: Ledger, m: int) {
    m as real * Reserve(b) <= Remaining(b) + EPSILON
  }

  /** The wave size is the largest number of calls, up to the number wanted, that fit; at least one
      call always goes out. It is zero exactly when nothing is wanted or the budget is exhausted. */
  lemma AffordableIsLargest(b: Ledger, wanted: int, now: real)
    ensures var n := AffordableCalls(b, wanted, now);
      && (n == 0 <==> wanted <= 0 || Exhausted(b, now))
      && (n > 0 ==>
            && 1 <= n <= wanted
            && (n == 1 || Fits(b, n))
            && forall m :: n < m <= wanted ==> !Fits(b, m))
  {
    var n := AffordableCalls(b, wanted, now);
    if n > 0 {
      FloorQuotient(Remaining(b) + EPSILON, Reserve(b), n);
      forall m | n < m <= wanted ensures !Fits(b, m) {
        FloorQuotient(Remaining(b) + EPSILON, Reserve(b), m);
      }
    }
  }

  /** `n` calls at `cost` each are within the money left, with a slack of a billionth of a dollar. */
  predicate WithinMoney(b: Ledger, n: int, cost: real) {
    n as real * cost <= b.maxUsd - b.spent + 0.000000001
  }

  /** The same in dollars. Once a call has been observed, a wave of several calls is the largest, up to the
      number wanted, whose calls at the largest observed cost are within the money left; before that, at the
      default cost. */
  lemma WaveInMoney(b: Ledger, wanted: int, now: real)
    ensures var n := AffordableCalls(b, wanted, now);
      n > 0 ==>
        && (b.maxCallCost > 0.0 ==>
              (n == 1 || WithinMoney(b, n, b.maxCallCost)) && (n < wanted ==> !WithinMoney(b, n + 1, b.maxCallCost)))
        && (b.maxCallCost == 0.0 ==>
              (n == 1 || WithinMoney(b, n, b.defaultReserve)) && (n < wanted ==> !WithinMoney(b, n + 1, b.defaultReserve)))
  {
    AffordableIsLargest(b, wanted, now);
    var n := AffordableCalls(b, wanted, now);
    if 0 < n < wanted {
      assert !Fits(b, n + 1);
    }
  }

  function Larger(x: real, y: real): real {
    if x > y then x else y
  }

  lemma MulMonotone(x: real, y: real, z: real)
    requires x <= y && z >= 0.0
    ensures x * z <= y * z && z * x <= z * y
  {
  }

  function Times(n: nat, cost: real): real {
    n as real * cost
  }

  /** The worst case of a wave: every call goes through at the highest cost. */
  lemma WorstWave(b: Ledger, wanted: int, now: real, high: real)
    requires high >= 0.0 && AffordableCalls(b, wanted, now) > 0
    ensures var n := AffordableCalls(b, wanted, now);
      b.spent + Times(n, high) <= b.maxUsd + Larger(high, Times(n, high - Reserve(b)) + EPSILON)
  {
    AffordableIsLargest(b, wanted, now);
    var n, r := AffordableCalls(b, wanted, now) as real, Reserve(b);
    assert n * high == n * r + n * (high - r);
  }

  function Repeated(n: nat, cost: real): (r: seq<real>)
    ensures |r| == n && forall i :: 0 <= i < n ==> r[i] == cost
  {
    seq(n, _ => cost)
  }

  /** What a wave of at most `n` calls may record: failed calls record nothing. */
  predicate WaveCosts(costs: seq<real>, n: nat, high: real) {
    |costs| <= n && forall i :: 0 <= i < |costs| ==> 0.0 <= costs[i] <= high
  }

  lemma {:induction false} SumWithin(costs: seq<real>, n: nat, high: real)
    requires WaveCosts(costs, n, high) && high >= 0.0
    ensures 0.0 <= Sum(costs) <= Times(n, high)
    decreases |costs|
  {
    if costs == [] {
      MulMonotone(0.0, high, n as real);
    } else {
      SumWithin(costs[..|costs| - 1], n - 1, high);
      OneTimeFewer(n, high);
    }
  }

  /** Whatever the calls of a wave record, at most `high` each, the wave ends over the ceiling by at most
      one call, or by what its calls may cost beyond their reserves plus the slack. */
  lemma WaveOvershoot(b: Ledger, wanted: int, now: real, high: real, costs: seq<real>)
    requires high >= 0.0 && AffordableCalls(b, wanted, now) > 0
    requires WaveCosts(costs, AffordableCalls(b, wanted, now), high)
    ensures var n := AffordableCalls(b, wanted, now);
      b.spent <= RecordAll(b, costs).spent <= b.maxUsd + Larger(high, Times(n, high - Reserve(b)) + EPSILON)
  {
    WorstWave(b, wanted, now, high);
    hide Times, AffordableCalls, Reserve, RecordAll;
    SumWithin(costs, AffordableCalls(b, wanted, now), high);
    RecordAllTotals(b, costs);
  }

  ghost predicate OneCallOver(b: Ledger, n: nat, high: real) {
    forall costs :: WaveCosts(costs, n, high) ==> RecordAll(b, costs).spent <= b.maxUsd + high
  }

  /** A wave whose calls cost at most `high` each is sure to end over the ceiling by at most one such
      call exactly when all of its calls but one fit in what remains. */
  lemma OneCallOvershoot(b: Ledger, wanted: int, now: real, high: real)
    requires high >= 0.0 && AffordableCalls(b, wanted, now) > 0
    ensures var n := AffordableCalls(b, wanted, now);
      OneCallOver(b, n, high) <==> Times(n - 1, high) <= Remaining(b)
  {
    var n := AffordableCalls(b, wanted, now);
    assert b.spent < b.maxUsd;
    hide AffordableCalls, RecordAll, Times;
    RepeatedSpend(b, n, high);
    OneTimeFewer(n, high);
    if OneCallOver(b, n, high) {
      assert WaveCosts(Repeated(n, high), n, high);
    }
    if Times(n - 1, high) <= Remaining(b) {
      forall costs | WaveCosts(costs, n, high) ensures RecordAll(b, costs).spent <= b.maxUsd + high {
        SumWithin(costs, n, high);
        RecordAllTotals(b, costs);
      }
    }
  }

  lemma RepeatedSpend(b: Ledger, n: nat, cost: real)
    ensures RecordAll(b, Repeated(n, cost)).spent == b.spent + Times(n, cost)
  {
    RecordAllTotals(b, Repeated(n, cost));
    SumSame(n, cost);
  }

  lemma OneTimeFewer(n: nat, cost: real)
    requires n > 0
    ensures Times(n - 1, cost) + cost == Times(n, cost)
  {
    assert (n - 1) as real == n as real - 1.0;
  }

  lemma {:induction false} SumSame(n: nat, cost: real)
    ensures Sum(Repeated(n, cost)) == Times(n, cost)
  {
    if n > 0 {
      SumSame(n - 1, cost);
      assert Repeated(n, cost)[..n - 1] == Repeated(n - 1, cost);
      OneTimeFewer(n, cost);
    }
  }

  /** The most a run with at most `n` tasks may exceed its cost ceiling when every call costs
      between `low` and `high`. */
  function MaxOvershoot(n: nat, low: real, high: real): real {
    Larger(high, Times(n, high - low) + EPSILON)
  }

  lemma OvershootGrows(k: nat, n: nat, r: real, low: real, high: real)
    requires k <= n && low <= r && low <= high
    ensures Larger(high, Times(k, high - r) + EPSILON) <= MaxOvershoot(n, low, high)
  {
    MulChain(k as real, n as real, high - r, high - low);
  }

  lemma MulChain(k: real, n: real, x: real, y: real)
    requires 0.0 <= k <= n && x <= y && 0.0 <= y
    ensures k * x <= n * y
  {
    MulMonotone(x, y, k);
    MulMonotone(k, n, y);
  }

  /** Whatever the wave, it stays within the bound for the whole run. */
  lemma WaveFits(b: Ledger, wanted: nat, now: real, n: nat, low: real, high: real)
    requires 0.0 <= low <= high && low <= Reserve(b)
    requires wanted <= n && AffordableCalls(b, wanted, now) > 0
    ensures b.spent + Times(AffordableCalls(b, wanted, now), high) <= b.maxUsd + MaxOvershoot(n, low, high)
  {
    AffordableIsLargest(b, wanted, now);
    var k := AffordableCalls(b, wanted, now);
    WorstWave(b, wanted, now, high);
    OvershootGrows(k, n, Reserve(b), low, high);
    hide AffordableCalls, Reserve, Fits, Remaining, Times;
  }

  /** With calls no dearer than the reserve, a wave ends over the ceiling by at most one call or the
      slack. */
  lemma WaveWithinReserve(b: Ledger, wanted: nat, now: real, high: real, costs: seq<real>)
    requires 0.0 <= high <= Reserve(b) && AffordableCalls(b, wanted, now) > 0
    requires WaveCosts(costs, AffordableCalls(b, wanted, now), high)
    ensures RecordAll(b, costs).spent <= b.maxUsd + Larger(high, EPSILON)
  {
    AffordableIsLargest(b, wanted, now);
    WaveFits(b, wanted, now, wanted, high, high);
    ZeroTimes(wanted as real, high);
    SumWithin(costs, AffordableCalls(b, wanted, now), high);
    RecordAllTotals(b, costs);
  }

  lemma ZeroTimes(x: real, y: real)
    ensures x * (y - y) == 0.0
  {
  }

  function Sum(costs: seq<real>): real {
    if costs == [] then 0.0 else Sum(costs[..|costs| - 1]) + costs[|costs| - 1]
  }

  function RecordAll(b: Ledger, costs: seq<real>): Ledger {
    if costs == [] then b
    else Recorded(RecordAll(b, costs[..|costs| - 1]), costs[|costs| - 1], 1, true)
  }

  lemma {:induction false} RecordAllTotals(b: Ledger, costs: seq<real>)
    ensures var r := RecordAll(b, costs);
      && r == b.(spent := b.spent + Sum(costs), calls := b.calls + |costs|, maxCallCost := r.maxCallCost)
      && r.maxCallCost >= b.maxCallCost
      && (forall i :: 0 <= i < |costs| ==> r.maxCallCost >= costs[i])
      && (r.maxCallCost == b.maxCallCost || exists i :: 0 <= i < |costs| && r.maxCallCost == costs[i])
  {
    if costs != [] {
      var n := |costs| - 1;
      RecordAllTotals(b, costs[..n]);
      assert costs[n] / 1 as real == costs[n];
    }
  }

  lemma {:induction false} SumAppend(a: seq<real>, b: seq<real>)
    ensures Sum(a + b) == Sum(a) + Sum(b)
  {
    if b == [] {
      assert a + b == a;
    } else {
      assert (a + b)[..|a + b| - 1] == a + b[..|b| - 1];
      SumAppend(a, b[..|b| - 1]);
    }
  }

  lemma {:induction false} RecordAllAppend(b: Ledger, x: seq<real>, y: seq<real>)
    ensures RecordAll(b, x + y) == RecordAll(RecordAll(b, x), y)
  {
    if y == [] {
      assert x + y == x;
    } else {
      assert (x + y)[..|x + y| - 1] == x + y[..|y| - 1];
      RecordAllAppend(b, x, y[..|y| - 1]);
    }
  }

  lemma {:induction false} RecordLast(b: Ledger, c: real, y: seq<real>)
    ensures RecordAll(b, [c] + y) == Recorded(RecordAll(b, y), c, 1, true)
  {
    if y == [] {
      assert [c] + y == [c];
      assert RecordAll(b, [c][..0]) == b;
    } else {
      var n := |y| - 1;
      assert ([c] + y)[..n + 1] == [c] + y[..n];
      RecordLast(b, c, y[..n]);
    }
  }

  /** The books do not depend on the order in which parallel branches reported their costs. */
  lemma {:induction false} RecordAllPermuted(b: Ledger, x: seq<real>, y: seq<real>)
    requires multiset(x) == multiset(y)
    ensures RecordAll(b, x) == RecordAll(b, y)
    decreases |x|
  {
    assert |multiset(x)| == |x| && |multiset(y)| == |y|;
    if x != [] {
      var n := |x| - 1;
      assert x == x[..n] + [x[n]];
      assert x[n] in multiset(y);
      var i :| 0 <= i < |y| && y[i] == x[n];
      assert y == y[..i] + ([y[i]] + y[i + 1..]);
      assert multiset(x) == multiset(x[..n]) + multiset{x[n]};
      assert multiset(y) == multiset(y[..i] + y[i + 1..]) + multiset{y[i]};
      assert multiset(x[..n]) == multiset(x) - multiset{x[n]};
      RecordAllPermuted(b, x[..n], y[..i] + y[i + 1..]);
      RecordAllAppend(b, y[..i], y[i + 1..]);
      RecordAllAppend(b, y[..i], [y[i]] + y[i + 1..]);
      RecordLast(RecordAll(b, y[..i]), y[i], y[i + 1..]);
    }
  }

  /** The budget object, updated in place. */
  class Budget {
    var maxUsd: real
    var spentUsd: real
    var maxLlmCalls: int
    var llmCallsMade: int
    var maxWallClockSeconds: real
    var startedAt: real
    var maxCallCostUsd: Cost
    var defaultCallReserveUsd: Positive

    constructor (b: Ledger)
      ensures View() == b
    {
      maxUsd, spentUsd, maxLlmCalls, llmCallsMade := b.maxUsd, b.spent, b.maxCalls, b.calls;
      maxWallClockSeconds, startedAt, maxCallCostUsd, defaultCallReserveUsd :=
        b.maxSeconds, b.startedAt, b.maxCallCost, b.defaultReserve;
    }

    function View(): Ledger
      reads this
    {
      Ledger(maxUsd, spentUsd, maxLlmCalls, llmCallsMade, maxWallClockSeconds, startedAt,
             maxCallCostUsd, defaultCallReserveUsd)
    }

    method RecordCall(cost: real, calls: int, trackMax: bool)
      modifies this
      ensures View() == Recorded(old(View()), cost, calls, trackMax)
    {
      spentUsd := spentUsd + cost;
      llmCallsMade := llmCallsMade + calls;
      if trackMax && calls > 0 {
        var perCall := cost / calls as real;
        if perCall > maxCallCostUsd {
          maxCallCostUsd := perCall;
        }
      }
    }
  }

  function Unconsumed(deltas: seq<real>, consumed: nat): seq<real> {
    if consumed <= |deltas| then deltas[consumed..] else []
  }

  /** Folds the deltas not yet consumed into the budget, once each, and returns the new index. */
  method BudgetReconcile(budget: Budget, deltas: seq<real>, consumed: nat) returns (consumed': nat)
    modifies budget
    ensures consumed' == |deltas|
    ensures budget.View() == RecordAll(old(budget.View()), Unconsumed(deltas, consumed))
  {
    var todo := Unconsumed(deltas, consumed);
    for i := 0 to |todo|
      invariant budget.View() == RecordAll(old(budget.View()), todo[..i])
    {
      assert todo[..i + 1][..i] == todo[..i];
      budget.RecordCall(todo[i], 1, true);
    }
    assert todo[..|todo|] == todo;
    consumed' := |deltas|;
  }
}
