/** The run's books: every cost is folded into the budget exactly once, and the ceilings are
    overshot by no more than a stated bound. */
module Books {
  import opened PlanTypes
  import opened Budgeting
  import opened Workspaces
  import opened Scheduling
  import opened RunTypes
  import opened Machine
  import opened Shape
  import Attempts
  import EA = ErrorAnalysing
  import Comprehending

  predicate InWave(n: Node) {
    n.Editors? || n == Reconcile
  }

  function ComprehensionCost(h: History): real {
    match h.comprehension case Some(c) => c case None => 0.0
  }

  function ComprehensionCalls(h: History): int {
    if h.comprehension.Some? then 1 else 0
  }

  /** Outside a wave every delta is consumed; the budget holds each consumed cost once. */
  predicate BooksBalance(s: State) {
    && s.consumed <= |s.deltas|
    && (!InWave(s.node) ==> s.consumed == |s.deltas|)
    && s.budget.spent == s.cfg.budget.spent + ComprehensionCost(s.h) + Sum(s.deltas[..s.consumed]) + Sum(s.h.analyses)
    && s.budget.calls == s.cfg.budget.calls + ComprehensionCalls(s.h) + s.consumed + |s.h.analyses|
    && (Unplanned(s.node) && s.node != Synthesis ==> s.h.comprehension.None?)
  }

  lemma FoldBalances(s: State)
    requires BooksBalance(s)
    ensures BooksBalance(Reconciled(s).(node := SandboxTest))
  {
    var todo := Unconsumed(s.deltas, s.consumed);
    RecordAllTotals(s.budget, todo);
    assert s.deltas == s.deltas[..s.consumed] + todo;
    assert s.deltas[..|s.deltas|] == s.deltas;
    SumAppend(s.deltas[..s.consumed], todo);
  }

  /** An analysis charges exactly its answered call. */
  lemma JudgedCharge(s: State, a: Answer)
    requires a.Analysed?
    ensures var t := Judged(s, a);
      if AnalysisOf(s, a).called && a.response.Some? then
        t.budget == Recorded(s.budget, a.response.value.cost, 1, true) && t.h.analyses == s.h.analyses + [a.response.value.cost]
      else
        t.budget == s.budget && t.h.analyses == s.h.analyses
  {
    hide EA.Verdicts, EA.Escalated, EA.Candidates, Exhausted, Recorded, Merge;
  }

  lemma ChargeBalances(s: State, a: Answer)
    requires BooksBalance(s) && s.node == ErrorAnalysis && Legal(s, a)
    ensures BooksBalance(Judged(s, a))
  {
    JudgedCharge(s, a);
    hide EA.Analyse, Merge, Legal;
    if AnalysisOf(s, a).called && a.response.Some? {
      assert (s.h.analyses + [a.response.value.cost])[..|s.h.analyses|] == s.h.analyses;
    }
  }

  lemma DispatchBalances(s: State, now1: real, now2: real, idle: Node)
    requires BooksBalance(s) && s.consumed == |s.deltas| && !Unplanned(idle)
    ensures BooksBalance(Dispatch(s, now1, now2, idle))
  {
  }

  lemma BranchBalances(s: State, a: Answer)
    requires BooksBalance(s) && s.node.Editors? && Legal(s, a)
    ensures BooksBalance(RunBranch(s, a))
  {
    var t := RunBranch(s, a);
    assert t.deltas[..s.consumed] == s.deltas[..s.consumed];
  }

  lemma BooksRouted(s: State, a: Answer)
    requires BooksBalance(s) && Legal(s, a) && Routes(s.node)
    ensures BooksBalance(Step(s, a))
  {
    match s.node
    case Synthesis => DispatchBalances(Planned(s), a.now1, a.now2, SandboxTest);
    case Reconcile =>
      FoldBalances(s);
      DispatchBalances(Reconciled(s), a.now1, a.now2, SandboxTest);
    case ErrorAnalysis =>
      ChargeBalances(s, a);
      DispatchBalances(Judged(s, a), a.now1, a.now2, End);
  }

  lemma BooksQuiet(s: State, a: Answer)
    requires BooksBalance(s) && Legal(s, a) && Quiet(s.node)
    ensures BooksBalance(Step(s, a))
  {
    QuietStep(s, a);
  }

  lemma BooksStep(s: State, a: Answer)
    requires BooksBalance(s) && Legal(s, a)
    ensures BooksBalance(Step(s, a))
  {
    if Quiet(s.node) {
      BooksQuiet(s, a);
    } else if Routes(s.node) {
      BooksRouted(s, a);
    } else if s.node.Editors? {
      BranchBalances(s, a);
    }
  }

  lemma {:induction false} BooksRun(s: State, run: seq<Answer>)
    requires BooksBalance(s) && LegalRun(s, run)
    ensures BooksBalance(Exec(s, run))
    decreases |run|
  {
    if run != [] {
      BooksStep(s, run[0]);
      BooksRun(Step(s, run[0]), run[1..]);
    }
  }

  /** Exactly-once folding: whenever the run is not inside a wave (so at every routing decision and at
      the end), all deltas are consumed, the spend is the comprehension cost plus every editor cost
      plus every analysis cost, and the call count is the number of those entries. */
  lemma FoldedExactlyOnce(cfg: Config, files: Files, run: seq<Answer>)
    requires Untouched(cfg.budget) && LegalRun(Init(cfg, files), run)
    requires !InWave(Exec(Init(cfg, files), run).node)
    ensures var s := Exec(Init(cfg, files), run);
      && s.consumed == |s.deltas|
      && s.budget.spent == ComprehensionCost(s.h) + Sum(s.deltas) + Sum(s.h.analyses)
      && s.budget.calls == ComprehensionCalls(s.h) + |s.deltas| + |s.h.analyses|
  {
    BooksRun(Init(cfg, files), run);
    ConfigRun(Init(cfg, files), run);
    var s := Exec(Init(cfg, files), run);
    assert s.deltas[..|s.deltas|] == s.deltas;
  }

  lemma {:induction false} ConfigRun(s: State, run: seq<Answer>)
    requires LegalRun(s, run)
    ensures Exec(s, run).cfg == s.cfg
    decreases |run|
  {
    if run != [] {
      ConfigRun(Step(s, run[0]), run[1..]);
      SameConfig(s, run[0]);
    }
  }

  lemma SameConfig(s: State, a: Answer)
    requires Legal(s, a)
    ensures Step(s, a).cfg == s.cfg
  {
  }

  // ---- the call ceiling ----

  function Outstanding(s: State): nat
    requires s.consumed <= |s.deltas|
  {
    |s.deltas| - s.consumed + if s.node.Editors? then |s.node.pending| else 0
  }

  /** Calls made and in flight stay under the ceiling plus one wave. */
  predicate CallsCapped(s: State) {
    && s.consumed <= |s.deltas|
    && s.budget.maxCalls == s.cfg.budget.maxCalls
    && (s.node == Comprehension ==> s.budget.calls == 0)
    && (s.node == Synthesis ==> s.budget.calls <= s.budget.maxCalls)
    && (s.tasks == [] && !InWave(s.node) ==> s.budget.calls == 0 || s.budget.calls <= s.budget.maxCalls)
    && (s.tasks != [] ==> s.budget.calls + Outstanding(s) <= s.budget.maxCalls + |s.tasks| - 1)
    && (!InWave(s.node) ==> s.consumed == |s.deltas|)
    && (InWave(s.node) ==> s.tasks != [])
  }

  lemma CallsDispatch(s: State, now1: real, now2: real, idle: Node)
    requires CallsCapped(s.(node := SandboxTest)) && DistinctTasks(s.tasks) && !InWave(idle) && !Unplanned(idle)
    ensures CallsCapped(Dispatch(s, now1, now2, idle))
  {
    DispatchShape(s, now1, now2, idle);
    var t := Dispatch(s, now1, now2, idle);
    if t.node.Editors? {
      assert !Exhausted(s.budget, now1);
    }
  }

  lemma CallsBranch(s: State, a: Answer)
    requires WellFormed(s) && CallsCapped(s) && s.node.Editors? && Legal(s, a)
    ensures CallsCapped(RunBranch(s, a))
  {
    PickExact(s.node.pending, a.id);
    MoveBranch(s, a);
  }

  lemma CallsReconcile(s: State)
    requires CallsCapped(s) && s.node == Reconcile
    ensures CallsCapped(Reconciled(s).(node := SandboxTest))
  {
    RecordAllTotals(s.budget, Unconsumed(s.deltas, s.consumed));
  }

  lemma CallsAnalysis(s: State, a: Answer)
    requires WellFormed(s) && CallsCapped(s) && s.node == ErrorAnalysis && Legal(s, a)
    ensures CallsCapped(Judged(s, a).(node := SandboxTest)) && DistinctTasks(Judged(s, a).tasks)
  {
    MoveAnalysis(s, a);
    EA.CandidatesExact(s.tasks, s.results);
  }

  lemma CallsPlan(s: State, a: Answer)
    requires WellFormed(s) && CallsCapped(s) && s.node == Synthesis && Legal(s, a)
    ensures CallsCapped(Dispatch(Planned(s), a.now1, a.now2, SandboxTest))
  {
    PlanWellFormed(s);
    CallsDispatch(Planned(s), a.now1, a.now2, SandboxTest);
  }

  lemma CallsJudge(s: State, a: Answer)
    requires WellFormed(s) && CallsCapped(s) && s.node == ErrorAnalysis && Legal(s, a)
    ensures CallsCapped(Dispatch(Judged(s, a), a.now1, a.now2, End))
  {
    CallsAnalysis(s, a);
    CallsDispatch(Judged(s, a), a.now1, a.now2, End);
  }

  lemma CallsFold(s: State, a: Answer)
    requires WellFormed(s) && CallsCapped(s) && s.node == Reconcile && Legal(s, a)
    ensures CallsCapped(Dispatch(Reconciled(s), a.now1, a.now2, SandboxTest))
  {
    CallsReconcile(s);
    CallsDispatch(Reconciled(s), a.now1, a.now2, SandboxTest);
  }

  lemma CallsRouted(s: State, a: Answer)
    requires WellFormed(s) && CallsCapped(s) && Legal(s, a) && Routes(s.node)
    ensures CallsCapped(Step(s, a))
  {
    if s.node == Synthesis {
      CallsPlan(s, a);
    } else if s.node == Reconcile {
      CallsFold(s, a);
    } else {
      CallsJudge(s, a);
    }
  }

  lemma CallsQuiet(s: State, a: Answer)
    requires CallsCapped(s) && Legal(s, a) && Quiet(s.node)
    ensures CallsCapped(Step(s, a))
  {
    QuietStep(s, a);
  }

  lemma CallsAbort(s: State, a: Answer)
    requires WellFormed(s) && CallsCapped(s) && s.node == BudgetAbort && Legal(s, a)
    ensures CallsCapped(RunAbort(s))
  {
    MoveAbort(s, a);
  }

  lemma CallsStep(s: State, a: Answer)
    requires WellFormed(s) && CallsCapped(s) && Legal(s, a)
    ensures CallsCapped(Step(s, a))
  {
    if Quiet(s.node) {
      CallsQuiet(s, a);
    } else if Routes(s.node) {
      CallsRouted(s, a);
    } else if s.node.Editors? {
      CallsBranch(s, a);
    } else if s.node == BudgetAbort {
      CallsAbort(s, a);
    }
  }

  lemma {:induction false} CallsRun(s: State, run: seq<Answer>)
    requires WellFormed(s) && CallsCapped(s) && LegalRun(s, run)
    ensures CallsCapped(Exec(s, run))
    decreases |run|
  {
    if run != [] {
      WellFormedStep(s, run[0]);
      CallsStep(s, run[0]);
      CallsRun(Step(s, run[0]), run[1..]);
    }
  }

  /** The recorded calls never exceed the ceiling by more than one task list less one. */
  lemma CallCeiling(cfg: Config, files: Files, run: seq<Answer>)
    requires Untouched(cfg.budget) && LegalRun(Init(cfg, files), run)
    ensures var s := Exec(Init(cfg, files), run);
      s.tasks != [] ==> s.budget.calls <= cfg.budget.maxCalls + |s.tasks| - 1
  {
    CallsRun(Init(cfg, files), run);
    ConfigRun(Init(cfg, files), run);
  }

  // ---- the cost ceiling ----

  /** Every call of the run costs between `low` and `high`. */
  predicate Priced(a: Answer, low: real, high: real) {
    match a
    case Extracted(_, sources) => Comprehending.CallsWithin(sources, low, high)
    case Branch(_, _, gen) => gen.Some? ==> low <= gen.value.cost <= high
    case Analysed(_, response, _, _) => response.Some? ==> low <= response.value.cost <= high
    case _ => true
  }

  ghost predicate PricedRun(run: seq<Answer>, low: real, high: real) {
    forall i :: 0 <= i < |run| ==> Priced(run[i], low, high)
  }

  function Due(s: State): real {
    Sum(Unconsumed(s.deltas, s.consumed))
  }

  /** The spend, the costs not yet folded and the worst cost of the branches in flight. */
  function Exposure(s: State, high: real): real {
    s.budget.spent + Due(s) + (if s.node.Editors? then Times(|s.node.pending|, high) else 0.0)
  }

  predicate SpendBounded(s: State, low: real, high: real) {
    && s.budget.maxUsd == s.cfg.budget.maxUsd
    && s.budget.defaultReserve >= low && (s.budget.maxCallCost == 0.0 || s.budget.maxCallCost >= low)
    && (forall i :: 0 <= i < |s.deltas| ==> low <= s.deltas[i] <= high)
    && (!InWave(s.node) ==> s.consumed == |s.deltas|)
    && (s.node == Comprehension ==> s.budget.spent == 0.0)
    && (!InWave(s.node) ==>
          s.budget.spent == 0.0 || s.budget.spent <= s.budget.maxUsd + MaxOvershoot(|s.tasks|, low, high))
    && (InWave(s.node) ==> Exposure(s, high) <= s.budget.maxUsd + MaxOvershoot(|s.tasks|, low, high))
  }

  lemma BoundGrows(m: nat, n: nat, low: real, high: real)
    requires m <= n && low <= high
    ensures high <= MaxOvershoot(m, low, high) <= MaxOvershoot(n, low, high)
  {
    OvershootGrows(m, n, low, low, high);
  }

  lemma WaveExposure(s: State, now1: real, now2: real, idle: Node, low: real, high: real)
    requires 0.0 <= low <= high && low <= Reserve(s.budget) && s.consumed == |s.deltas|
    requires DistinctTasks(s.tasks) && !InWave(idle)
    requires Dispatch(s, now1, now2, idle).node.Editors?
    ensures Exposure(Dispatch(s, now1, now2, idle), high) <= s.budget.maxUsd + MaxOvershoot(|s.tasks|, low, high)
  {
    RouteExact(s.tasks, s.budget, now1, now2);
    ReadyUpToExact(s.tasks, |s.tasks|);
    WaveFits(s.budget, |Ready(s.tasks)|, now2, |s.tasks|, low, high);
    assert Due(s) == 0.0;
    hide Times, MaxOvershoot, AffordableCalls, Ready, Reserve;
  }

  lemma SpendDispatch(s: State, now1: real, now2: real, idle: Node, low: real, high: real)
    requires SpendBounded(s.(node := SandboxTest), low, high) && 0.0 <= low <= high
    requires DistinctTasks(s.tasks) && !InWave(idle) && idle != Comprehension
    ensures SpendBounded(Dispatch(s, now1, now2, idle), low, high)
  {
    if Dispatch(s, now1, now2, idle).node.Editors? {
      WaveExposure(s, now1, now2, idle, low, high);
    }
  }

  lemma TimesNonNegative(n: nat, x: real)
    requires x >= 0.0
    ensures Times(n, x) >= 0.0
  {
  }

  /** A branch's cost was already counted at its worst when the wave went out. */
  lemma ExposureFalls(s: State, a: Answer, high: real)
    requires WellFormed(s) && s.node.Editors? && Legal(s, a) && Priced(a, 0.0, high)
    requires high >= 0.0 && s.consumed <= |s.deltas|
    ensures Exposure(RunBranch(s, a), high) <= Exposure(s, high)
  {
    var t := RunBranch(s, a);
    PickExact(s.node.pending, a.id);
    OneTimeFewer(|s.node.pending|, high);
    TimesNonNegative(|s.node.pending| - 1, high);
    hide Times, Merge, BranchTask, WellFormed;
    if t.deltas != s.deltas {
      assert t.deltas[s.consumed..] == s.deltas[s.consumed..] + [a.gen.value.cost];
      SumAppend(s.deltas[s.consumed..], [a.gen.value.cost]);
      SumOne(a.gen.value.cost);
    }
  }

  lemma SpendBranch(s: State, a: Answer, low: real, high: real)
    requires WellFormed(s) && s.node.Editors? && Legal(s, a) && Priced(a, low, high)
    requires SpendBounded(s, low, high) && 0.0 <= low <= high && s.consumed <= |s.deltas|
    ensures SpendBounded(RunBranch(s, a), low, high)
  {
    ExposureFalls(s, a, high);
    MoveBranch(s, a);
  }

  lemma SumOne(c: real)
    ensures Sum([c]) == c
  {
    assert [c][..0] == [];
  }

  lemma SpendReconcile(s: State, low: real, high: real)
    requires SpendBounded(s, low, high) && s.node == Reconcile && 0.0 <= low && s.consumed <= |s.deltas|
    ensures SpendBounded(Reconciled(s).(node := SandboxTest), low, high)
  {
    var todo := Unconsumed(s.deltas, s.consumed);
    RecordAllTotals(s.budget, todo);
    var r := RecordAll(s.budget, todo);
    if r.maxCallCost != s.budget.maxCallCost {
      var i :| 0 <= i < |todo| && r.maxCallCost == todo[i];
      assert todo[i] == s.deltas[s.consumed + i];
    }
  }

  /** One call made before the ceiling is reached overshoots by less than its cost. */
  lemma ChargeBounded(b: Ledger, now: real, cost: real, low: real, high: real, n: nat)
    requires !Exhausted(b, now) && 0.0 <= low <= cost <= high
    ensures Recorded(b, cost, 1, true).spent <= b.maxUsd + MaxOvershoot(n, low, high)
    ensures Recorded(b, cost, 1, true).maxCallCost >= low
  {
    BoundGrows(0, n, low, high);
    assert cost / 1 as real == cost;
  }

  lemma SpendAnalysis(s: State, a: Answer, low: real, high: real)
    requires WellFormed(s) && s.node == ErrorAnalysis && Legal(s, a) && Priced(a, low, high)
    requires SpendBounded(s, low, high) && 0.0 <= low <= high
    ensures SpendBounded(Judged(s, a).(node := SandboxTest), low, high)
  {
    MoveAnalysis(s, a);
    if AnalysisOf(s, a).called && a.response.Some? {
      ChargeBounded(s.budget, a.now, a.response.value.cost, low, high, |s.tasks|);
    }
  }

  lemma SpendComprehension(s: State, a: Answer, low: real, high: real)
    requires WellFormed(s) && s.node == Comprehension && Legal(s, a) && Priced(a, low, high)
    requires SpendBounded(s, low, high) && 0.0 <= low <= high
    ensures SpendBounded(Comprehended(s, a.now, a.sources), low, high)
  {
    BoundGrows(0, 0, low, high);
    if !Exhausted(s.budget, a.now) {
      Comprehending.CollectOvershoot(a.sources, Remaining(s.budget), Comprehending.Harvest(0.0, []), high);
    }
  }

  lemma SpendPlan(s: State, low: real, high: real)
    requires SpendBounded(s, low, high) && s.node == Synthesis && s.tasks == [] && 0.0 <= low <= high
    ensures SpendBounded(Planned(s).(node := SandboxTest), low, high) && DistinctTasks(Planned(s).tasks)
  {
    PlanWellFormed(s);
    BoundGrows(0, |Planned(s).tasks|, low, high);
  }

  lemma SpendRouted(s: State, a: Answer, low: real, high: real)
    requires WellFormed(s) && BooksBalance(s) && Legal(s, a) && Priced(a, low, high) && Routes(s.node)
    requires SpendBounded(s, low, high) && 0.0 <= low <= high
    ensures SpendBounded(Step(s, a), low, high)
  {
    match s.node
    case Synthesis =>
      SpendPlan(s, low, high);
      SpendDispatch(Planned(s), a.now1, a.now2, SandboxTest, low, high);
    case Reconcile =>
      SpendReconcile(s, low, high);
      SpendDispatch(Reconciled(s), a.now1, a.now2, SandboxTest, low, high);
    case ErrorAnalysis =>
      SpendAnalysis(s, a, low, high);
      WellFormedMoves(s, a);
      SpendDispatch(Judged(s, a), a.now1, a.now2, End, low, high);
  }

  lemma SpendQuiet(s: State, a: Answer, low: real, high: real)
    requires SpendBounded(s, low, high) && Legal(s, a) && Quiet(s.node)
    ensures SpendBounded(Step(s, a), low, high)
  {
    QuietStep(s, a);
  }

  lemma SpendAbort(s: State, a: Answer, low: real, high: real)
    requires WellFormed(s) && SpendBounded(s, low, high) && s.node == BudgetAbort && Legal(s, a)
    ensures SpendBounded(RunAbort(s), low, high)
  {
    MoveAbort(s, a);
  }

  lemma SpendStep(s: State, a: Answer, low: real, high: real)
    requires WellFormed(s) && BooksBalance(s) && Legal(s, a) && Priced(a, low, high)
    requires SpendBounded(s, low, high) && 0.0 <= low <= high
    ensures SpendBounded(Step(s, a), low, high)
  {
    if Quiet(s.node) {
      SpendQuiet(s, a, low, high);
    } else if Routes(s.node) {
      SpendRouted(s, a, low, high);
    } else if s.node.Editors? {
      SpendBranch(s, a, low, high);
    } else if s.node == BudgetAbort {
      SpendAbort(s, a, low, high);
    } else {
      SpendComprehension(s, a, low, high);
    }
  }

  lemma {:induction false} SpendRun(s: State, run: seq<Answer>, low: real, high: real)
    requires WellFormed(s) && BooksBalance(s) && LegalRun(s, run) && PricedRun(run, low, high)
    requires SpendBounded(s, low, high) && 0.0 <= low <= high
    ensures SpendBounded(Exec(s, run), low, high)
    decreases |run|
  {
    if run != [] {
      WellFormedStep(s, run[0]);
      BooksStep(s, run[0]);
      SpendStep(s, run[0], low, high);
      SpendRun(Step(s, run[0]), run[1..], low, high);
    }
  }

  /** When every call of a run costs between `low` and `high`, and the default reserve is at least
      `low`, the spend recorded outside a wave exceeds the ceiling by at most one call, or by
      |tasks| * (high - low) plus the slack. */
  lemma CostCeiling(cfg: Config, files: Files, run: seq<Answer>, low: real, high: real)
    requires Untouched(cfg.budget) && 0.0 <= low <= high && low <= cfg.budget.defaultReserve
    requires LegalRun(Init(cfg, files), run) && PricedRun(run, low, high)
    requires !InWave(Exec(Init(cfg, files), run).node)
    ensures var s := Exec(Init(cfg, files), run);
      s.budget.spent == 0.0 || s.budget.spent <= cfg.budget.maxUsd + MaxOvershoot(|s.tasks|, low, high)
  {
    SpendRun(Init(cfg, files), run, low, high);
    ConfigRun(Init(cfg, files), run);
  }

  // ---- exhaustion ----

  predicate Spent(s: State) {
    && !s.node.Editors? && Exhausted(s.budget, s.clock)
    && forall i :: 0 <= i < |s.deltas| ==> s.deltas[i] >= 0.0
  }

  lemma {:induction false} SumNonNegative(costs: seq<real>)
    requires forall i :: 0 <= i < |costs| ==> costs[i] >= 0.0
    ensures Sum(costs) >= 0.0
  {
    if costs != [] {
      SumNonNegative(costs[..|costs| - 1]);
    }
  }

  lemma StaysExhausted(b: Ledger, costs: seq<real>, now: real, later: real)
    requires Exhausted(b, now) && now <= later && forall i :: 0 <= i < |costs| ==> costs[i] >= 0.0
    ensures Exhausted(RecordAll(b, costs), later) && Exhausted(b, later)
  {
    RecordAllTotals(b, costs);
    SumNonNegative(costs);
  }

  /** An exhausted budget sends the router anywhere but to the editors, now and later. */
  lemma SpentDispatch(s: State, now1: real, now2: real, idle: Node)
    requires Exhausted(s.budget, now1) && Exhausted(s.budget, now2) && !idle.Editors?
    requires forall i :: 0 <= i < |s.deltas| ==> s.deltas[i] >= 0.0
    ensures Spent(Dispatch(s, now1, now2, idle))
  {
  }

  lemma SpentRouted(s: State, a: Answer)
    requires Spent(s) && Legal(s, a) && Routes(s.node)
    ensures Spent(Step(s, a)) && Step(s, a).h.analyzerCalls == s.h.analyzerCalls
  {
    match s.node
    case Synthesis => SpentDispatch(Planned(s), a.now1, a.now2, SandboxTest);
    case Reconcile =>
      StaysExhausted(s.budget, Unconsumed(s.deltas, s.consumed), s.clock, a.now1);
      StaysExhausted(s.budget, Unconsumed(s.deltas, s.consumed), s.clock, a.now2);
      SpentDispatch(Reconciled(s), a.now1, a.now2, SandboxTest);
    case ErrorAnalysis => SpentDispatch(Judged(s, a), a.now1, a.now2, End);
  }

  lemma SpentQuiet(s: State, a: Answer)
    requires Spent(s) && Legal(s, a) && Quiet(s.node)
    ensures Spent(Step(s, a))
  {
    QuietStep(s, a);
    assert Step(s, a).clock == s.clock;
  }

  lemma SpentStep(s: State, a: Answer)
    requires WellFormed(s) && Spent(s) && Legal(s, a)
    ensures var t := Step(s, a);
      && Spent(t) && t.h.generated == s.h.generated
      && t.h.analyzerCalls == s.h.analyzerCalls && t.h.comprehension == s.h.comprehension
  {
    if Quiet(s.node) {
      QuietStep(s, a);
      SpentQuiet(s, a);
    } else if Routes(s.node) {
      Attempts.CallsOnlyInWaves(s, a);
      SpentRouted(s, a);
    }
  }

  /** Exhaustion is final: once the budget is exhausted outside a wave, no model is ever called again:
      no generator, no extractor, no analyzer, whether the call would have been answered or not. */
  lemma {:induction false} ExhaustionIsFinal(s: State, run: seq<Answer>)
    requires WellFormed(s) && Spent(s) && LegalRun(s, run)
    ensures var t := Exec(s, run);
      && Exhausted(t.budget, t.clock) && !t.node.Editors?
      && t.h.generated == s.h.generated
      && t.h.analyzerCalls == s.h.analyzerCalls && t.h.comprehension == s.h.comprehension
    decreases |run|
  {
    if run != [] {
      WellFormedStep(s, run[0]);
      SpentStep(s, run[0]);
      ExhaustionIsFinal(Step(s, run[0]), run[1..]);
    }
  }
}
