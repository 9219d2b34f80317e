/** A run that can end well does: with an outside that always succeeds and enough money and time, every run
    over an acyclic plan ends DONE, with every task SUCCEEDED and one publication, and such runs exist. */
module Progress {
  import opened OrderedDict
  import opened PlanTypes
  import opened Budgeting
  import opened Paths
  import opened Diffs
  import opened Workspaces
  import opened Scheduling
  import opened RunTypes
  import opened Machine
  import opened Shape
  import opened Attempts
  import opened Publication
  import opened Books
  import opened Charges
  import opened Termination
  import opened Text
  import Synthesising
  import Comprehending

  predicate InTime(b: Ledger, now: real) {
    now - b.startedAt < b.maxSeconds
  }

  predicate Clean(cfg: Config, diffs: seq<FileDiff>) {
    diffs != [] && AllPublishable(cfg, diffs)
  }

  /** The outside succeeds, in time as long as a task waits: code that may be published at a cost of at most
      `high`, a passed suite, an approval, a published pull request. */
  predicate Good(s: State, a: Answer, high: real)
    requires Legal(s, a)
  {
    match s.node
    case Comprehension => InTime(s.budget, a.now)
    case Synthesis => InTime(s.budget, a.now2)
    case Editors(_, _) =>
      InTime(s.budget, a.now) && a.gen.Some? && a.gen.value.cost <= high && Clean(s.cfg, a.gen.value.diffs)
    case Reconcile => Waiting(s.tasks) > 0 ==> InTime(s.budget, a.now2)
    case SandboxTest => a.outcome == Passed
    case ApprovalGate => IsApproval(a.value)
    case PrPublish => a.ok
    case _ => true
  }

  ghost predicate GoodRun(s: State, run: seq<Answer>, high: real)
    requires LegalRun(s, run)
    decreases |run|
  {
    run == [] || (Good(s, run[0], high) && GoodRun(Step(s, run[0]), run[1..], high))
  }

  function Waiting(tasks: seq<Task>): nat {
    if tasks == [] then 0
    else Waiting(tasks[..|tasks| - 1]) + if tasks[|tasks| - 1].status == Pending then 1 else 0
  }

  lemma {:induction false} WaitingDrops(tasks: seq<Task>, i: nat, u: Task)
    requires i < |tasks| && tasks[i].status == Pending && u.status == Succeeded
    ensures Waiting(tasks[i := u]) == Waiting(tasks) - 1
  {
    var n := |tasks| - 1;
    if i < n {
      assert tasks[i := u][..n] == tasks[..n][i := u];
      WaitingDrops(tasks[..n], i, u);
    } else {
      assert tasks[i := u][..n] == tasks[..n];
    }
  }

  lemma {:induction false} WaitingSome(tasks: seq<Task>, i: nat)
    requires i < |tasks| && tasks[i].status == Pending
    ensures Waiting(tasks) > 0
  {
    if i < |tasks| - 1 {
      WaitingSome(tasks[..|tasks| - 1], i);
    }
  }

  /** While tasks wait: time, a call for each of them, and money for all but the last, which may use up
      the budget since nothing is asked of it afterwards. */
  predicate Provided(s: State, waiting: nat, high: real)
    requires s.consumed <= |s.deltas|
  {
    waiting > 0 ==>
      && Owed(s) + Times(waiting - 1, high) < s.budget.maxUsd && CallsOwed(s) + waiting <= s.budget.maxCalls
      && InTime(s.budget, s.clock)
  }

  predicate Funds(s: State, high: real) {
    && s.consumed <= |s.deltas| && (forall i :: 0 <= i < |s.deltas| ==> s.deltas[i] >= 0.0)
    && Provided(s, Waiting(s.tasks), high) && (s.node.Editors? ==> InTime(s.budget, s.node.since))
  }

  lemma DueNonNegative(s: State)
    requires s.consumed <= |s.deltas| && forall i :: 0 <= i < |s.deltas| ==> s.deltas[i] >= 0.0
    ensures Due(s) >= 0.0
  {
    SumNonNegative(Unconsumed(s.deltas, s.consumed));
  }

  lemma NeverShort(s: State, high: real, now: real)
    requires Funds(s, high) && high >= 0.0 && InTime(s.budget, now) && Waiting(s.tasks) > 0
    ensures !Exhausted(s.budget, now)
  {
    DueNonNegative(s);
    TimesAtLeastZero(Waiting(s.tasks) - 1, high);
    hide Times, Waiting, Due;
  }

  lemma TimesAtLeastZero(n: nat, x: real)
    requires x >= 0.0
    ensures Times(n, x) >= 0.0
  {
  }

  predicate Bright(t: Task) {
    t.status == Pending || t.status == Succeeded
  }

  predicate AllBright(s: State) {
    && s.tasks != [] && (forall i :: 0 <= i < |s.tasks| ==> Bright(s.tasks[i]))
    && forall k :: 0 <= k < |s.results| ==> Clean(s.cfg, s.results[k].diffs)
  }

  predicate AllDone(tasks: seq<Task>) {
    forall i :: 0 <= i < |tasks| ==> tasks[i].status == Succeeded
  }

  /** Where a run that goes well can be. */
  predicate GoesWell(s: State) {
    && (s.node.Editors? || s.node == Reconcile || s.node == SandboxTest || Late(s.node) || s.node == End)
    && (s.node == SandboxTest || Late(s.node) || s.node == End ==> AllDone(s.tasks))
    && (s.node == End ==> s.phase == Done && |s.h.publishCalls| == if s.cfg.hasRepo then 1 else 0)
  }

  /** What is particular to a run that goes well. */
  ghost predicate Lit(s: State, rank: seq<nat>, high: real) {
    Acyclic(s.tasks, rank) && AllBright(s) && Funds(s, high) && GoesWell(s)
  }

  ghost predicate Grounded(s: State) {
    WellFormed(s) && CodeStored(s) && Ship(s)
  }

  // ---- a wave ----

  lemma SucceedsInPlace(s: State, a: Answer, high: real) returns (i: nat)
    requires WellFormed(s) && AllBright(s) && Funds(s, high) && high >= 0.0
    requires s.node.Editors? && Legal(s, a) && Good(s, a, high)
    ensures i < |s.tasks| && s.tasks[i].status == Pending
    ensures RunBranch(s, a).tasks == s.tasks[i := s.tasks[i].(status := Succeeded)]
    ensures RunBranch(s, a).results == s.results + [EditorResult(a.id, a.gen.value.diffs)]
    ensures ChargeOf(s, a) == [a.gen.value.cost]
  {
    i := BranchEffect(s, a);
    assert Bright(s.tasks[i]);
    WaitingSome(s.tasks, i);
    NeverShort(s, high, a.now);
  }

  lemma BrightBranch(s: State, a: Answer, high: real)
    requires WellFormed(s) && AllBright(s) && Funds(s, high) && high >= 0.0
    requires s.node.Editors? && Legal(s, a) && Good(s, a, high)
    ensures AllBright(RunBranch(s, a))
    ensures RunBranch(s, a).node.Editors? || RunBranch(s, a).node == Reconcile
  {
    var i := SucceedsInPlace(s, a, high);
  }

  lemma FundsBranch(s: State, a: Answer, high: real)
    requires WellFormed(s) && AllBright(s) && Funds(s, high) && high >= 0.0
    requires s.node.Editors? && Legal(s, a) && Good(s, a, high)
    ensures Funds(RunBranch(s, a), high)
  {
    var i := SucceedsInPlace(s, a, high);
    WaitingDrops(s.tasks, i, s.tasks[i].(status := Succeeded));
    ChargesBranch(s, a);
    SumOne(a.gen.value.cost);
    WaitingSome(s.tasks, i);
    if Waiting(s.tasks) > 1 {
      OneTimeFewer(Waiting(s.tasks) - 1, high);
    }
    assert RunBranch(s, a).deltas == s.deltas + [a.gen.value.cost];
    hide Waiting, Times, Due, AllBright, WellFormed;
  }

  lemma AcyclicCarries(before: seq<Task>, after: seq<Task>, rank: seq<nat>)
    requires SameTasks(before, after) && Acyclic(before, rank)
    ensures Acyclic(after, rank)
  {
    forall i: nat, j: nat | Edge(after, i, j) ensures rank[j] < rank[i] {
      assert Edge(before, i, j);
    }
  }

  lemma TrackWave(s: State, a: Answer, rank: seq<nat>, high: real)
    requires WellFormed(s) && Lit(s, rank, high) && high >= 0.0 && s.node.Editors? && Legal(s, a) && Good(s, a, high)
    ensures Lit(RunBranch(s, a), rank, high)
  {
    MoveBranch(s, a);
    FundsBranch(s, a, high);
    BrightBranch(s, a, high);
    AcyclicCarries(s.tasks, RunBranch(s, a).tasks, rank);
    hide RunBranch, WellFormed, Funds, AllBright;
  }

  // ---- dispatching ----

  /** With nothing blocked and no cycle, nothing ready means everything done. */
  lemma NothingReadyAllDone(tasks: seq<Task>, rank: seq<nat>)
    requires DistinctTasks(tasks) && Closed(tasks) && Ready(tasks) == [] && Acyclic(tasks, rank)
    requires forall i :: 0 <= i < |tasks| ==> Bright(tasks[i])
    ensures AllDone(tasks)
  {
    forall i | 0 <= i < |tasks| ensures tasks[i].status == Succeeded {
      if IsWaiting(tasks[i]) {
        IdleMeansBlocked(tasks, rank, i);
      }
    }
  }

  lemma ReadyWaits(tasks: seq<Task>)
    requires DistinctTasks(tasks) && Ready(tasks) != [] && forall i :: 0 <= i < |tasks| ==> Bright(tasks[i])
    ensures Waiting(tasks) > 0
  {
    ReadyUpToExact(tasks, |tasks|);
    var i :| 0 <= i < |tasks| && IsWaiting(tasks[i]);
    assert Bright(tasks[i]);
    WaitingSome(tasks, i);
  }

  lemma FundsFold(s: State, high: real)
    requires Funds(s, high) && s.node == Reconcile
    ensures Funds(Reconciled(s).(node := SandboxTest), high)
  {
    ChargesFold(s);
    RecordAllTotals(s.budget, Unconsumed(s.deltas, s.consumed));
    hide Times, Waiting;
  }

  lemma WellDispatched(s: State, now1: real, now2: real, rank: seq<nat>, high: real)
    requires DistinctTasks(s.tasks) && Closed(s.tasks) && Acyclic(s.tasks, rank) && AllBright(s)
    requires Funds(s.(node := SandboxTest), high) && high >= 0.0 && now1 <= now2
    requires Waiting(s.tasks) > 0 ==> InTime(s.budget, now2)
    ensures var t := Dispatch(s, now1, now2, SandboxTest);
      (t.node == SandboxTest && AllDone(t.tasks)) || (t.node.Editors? && t.node.since == now2 && Waiting(t.tasks) > 0)
  {
    if Ready(s.tasks) == [] {
      NothingReadyAllDone(s.tasks, rank);
    } else {
      ReadyWaits(s.tasks);
      NeverShort(s.(node := SandboxTest), high, now1);
      NeverShort(s.(node := SandboxTest), high, now2);
      AffordableIsLargest(s.budget, |Ready(s.tasks)|, now2);
    }
    hide Ready, Exhausted, AffordableCalls, Funds, AllBright, AllDone, Acyclic, Closed, DistinctTasks;
  }

  lemma FundsDispatched(s: State, now1: real, now2: real, high: real)
    requires Funds(s.(node := SandboxTest), high) && (Waiting(s.tasks) > 0 ==> InTime(s.budget, now2))
    requires var t := Dispatch(s, now1, now2, SandboxTest); t.node.Editors? ==> t.node.since == now2 && Waiting(t.tasks) > 0
    ensures Funds(Dispatch(s, now1, now2, SandboxTest), high)
  {
    hide RouteToEditors, Times, Waiting;
  }

  lemma BrightDispatched(s: State, now1: real, now2: real)
    requires AllBright(s)
    ensures AllBright(Dispatch(s, now1, now2, SandboxTest))
  {
    hide RouteToEditors;
  }

  /** The editors get every task that is ready; when none is, all are done. */
  lemma TrackDispatch(s: State, now1: real, now2: real, rank: seq<nat>, high: real)
    requires DistinctTasks(s.tasks) && Closed(s.tasks) && Acyclic(s.tasks, rank) && AllBright(s)
    requires Funds(s.(node := SandboxTest), high) && high >= 0.0 && now1 <= now2
    requires Waiting(s.tasks) > 0 ==> InTime(s.budget, now2)
    ensures Lit(Dispatch(s, now1, now2, SandboxTest), rank, high)
  {
    WellDispatched(s, now1, now2, rank, high);
    FundsDispatched(s, now1, now2, high);
    BrightDispatched(s, now1, now2);
    hide RouteToEditors, Funds, AllBright, Acyclic;
  }

  lemma TrackFold(s: State, a: Answer, rank: seq<nat>, high: real)
    requires WellFormed(s) && Lit(s, rank, high) && high >= 0.0 && s.node == Reconcile && Legal(s, a) && Good(s, a, high)
    ensures Lit(Dispatch(Reconciled(s), a.now1, a.now2, SandboxTest), rank, high)
  {
    FundsFold(s, high);
    BrightFold(s);
    FoldedTime(s);
    TrackDispatch(Reconciled(s), a.now1, a.now2, rank, high);
  }

  lemma FoldedTime(s: State)
    ensures Reconciled(s).budget.startedAt == s.budget.startedAt && Reconciled(s).budget.maxSeconds == s.budget.maxSeconds
  {
    RecordAllTotals(s.budget, Unconsumed(s.deltas, s.consumed));
  }

  lemma BrightFold(s: State)
    requires AllBright(s)
    ensures AllBright(Reconciled(s)) && Reconciled(s).tasks == s.tasks
  {
  }

  // ---- the sandbox and after ----

  lemma StoredClean(s: State, r: EditorResult)
    requires AllBright(s) && r in EffectiveResults(s.results, s.tasks)
    ensures Clean(s.cfg, r.diffs)
  {
    EffectiveResultsExact(s.results, s.tasks, r);
    LastOfIn(ResultEntries(s.results), r.taskId);
    var k :| 0 <= k < |s.results| && s.results[k] == r;
  }

  lemma EffectiveClean(s: State)
    requires AllBright(s) && CodeStored(s) && AllDone(s.tasks)
    ensures Clean(s.cfg, Current(s))
  {
    var diffs := Current(s);
    assert HasLatestCode(s, s.tasks[0].id);
    var r := LatestOf(s.results, s.tasks[0].id).value;
    LastOfIn(ResultEntries(s.results), s.tasks[0].id);
    EffectiveResultsExact(s.results, s.tasks, r);
    StoredClean(s, r);
    assert Emits(r, r.diffs[0].path);
    EffectiveDiffsExact(s.results, s.tasks, r.diffs[0].path);
    forall i | 0 <= i < |diffs| ensures PublishableProblem(s.cfg.word, diffs[i].path).None? {
      var q :| q in EffectiveResults(s.results, s.tasks) && diffs[i] in q.diffs;
      StoredClean(s, q);
    }
  }

  lemma EverSafe(s: State, p: string)
    requires AllBright(s) && p in EverWritten(s.results)
    ensures Safe(s.cfg.root, p)
  {
    var i, k :| 0 <= i < |s.results| && 0 <= k < |s.results[i].diffs| && s.results[i].diffs[k].path == p;
    assert Clean(s.cfg, s.results[i].diffs);
    PublishableResolves(s.cfg.root, s.cfg.word, p);
  }

  lemma PreparesWell(s: State)
    requires AllBright(s)
    ensures Prepare(s.cfg.root, s.files, StalePaths(s.results, s.tasks), Current(s)).Prepared?
  {
    var diffs := Current(s);
    EffectiveWritten(s.results, s.tasks);
    forall p | p in StalePaths(s.results, s.tasks) ensures Safe(s.cfg.root, p) {
      EverSafe(s, p);
    }
    forall i | 0 <= i < |diffs| ensures Safe(s.cfg.root, diffs[i].path) {
      EverSafe(s, diffs[i].path);
    }
  }

  lemma FundsElsewhere(s: State, t: State, high: real)
    requires Funds(s, high) && !t.node.Editors? && t.clock == s.clock && t.tasks == s.tasks
    requires t.budget == s.budget && t.deltas == s.deltas && t.consumed == s.consumed
    ensures Funds(t, high)
  {
  }

  lemma TrackSandbox(s: State, after: Files, rank: seq<nat>, high: real)
    requires CodeStored(s) && Lit(s, rank, high) && s.node == SandboxTest
    ensures Lit(RunSandbox(s, Passed, after), rank, high)
  {
    EffectiveClean(s);
    PreparesWell(s);
    FundsElsewhere(s, RunSandbox(s, Passed, after), high);
    hide Funds, Prepare, EffectiveDiffs, StalePaths, Acyclic;
  }

  lemma TrackAggregate(s: State, rank: seq<nat>, high: real)
    requires CodeStored(s) && Ship(s) && Lit(s, rank, high) && s.node == Aggregate
    ensures Lit(RunAggregate(s), rank, high)
  {
    EffectiveClean(s);
    FundsElsewhere(s, RunAggregate(s), high);
    hide Funds, EffectiveDiffs, Acyclic;
  }

  lemma TrackPublish(s: State, rank: seq<nat>, high: real)
    requires Ship(s) && Lit(s, rank, high) && s.node == PrPublish
    ensures Lit(RunPublish(s, true), rank, high)
  {
    FundsElsewhere(s, RunPublish(s, true), high);
    hide Funds, EffectiveDiffs, Acyclic;
  }

  lemma TrackGate(s: State, value: Json, rank: seq<nat>, high: real)
    requires Lit(s, rank, high) && s.node == ApprovalGate && IsApproval(value)
    ensures Lit(RunGate(s, value), rank, high)
  {
    FundsElsewhere(s, RunGate(s, value), high);
    hide Funds, Acyclic;
  }

  lemma TrackRequest(s: State, rank: seq<nat>, high: real)
    requires Lit(s, rank, high) && s.node == RequestApproval
    ensures Lit(s.(phase := AwaitingApproval, node := ApprovalGate), rank, high)
  {
    FundsElsewhere(s, s.(phase := AwaitingApproval, node := ApprovalGate), high);
    hide Funds, Acyclic;
  }

  lemma TrackStep(s: State, a: Answer, rank: seq<nat>, high: real)
    requires Grounded(s) && Lit(s, rank, high) && high >= 0.0 && Legal(s, a) && Good(s, a, high)
    ensures Lit(Step(s, a), rank, high)
  {
    match s.node
    case Editors(_, _) => TrackWave(s, a, rank, high);
    case Reconcile => TrackFold(s, a, rank, high);
    case SandboxTest => TrackSandbox(s, a.after, rank, high);
    case Aggregate => TrackAggregate(s, rank, high);
    case RequestApproval => TrackRequest(s, rank, high);
    case ApprovalGate => TrackGate(s, a.value, rank, high);
    case PrPublish => TrackPublish(s, rank, high);
  }

  lemma GroundedStep(s: State, a: Answer)
    requires Grounded(s) && Legal(s, a)
    ensures Grounded(Step(s, a))
  {
    WellFormedStep(s, a);
    CodeStep(s, a);
    ShipStep(s, a);
    hide *;
    GroundedParts(Step(s, a));
  }

  lemma GroundedParts(s: State)
    requires WellFormed(s) && CodeStored(s) && Ship(s)
    ensures Grounded(s)
  {
  }

  lemma {:induction false} TrackRun(s: State, run: seq<Answer>, rank: seq<nat>, high: real)
    requires Grounded(s) && Lit(s, rank, high) && high >= 0.0 && LegalRun(s, run) && GoodRun(s, run, high)
    ensures Grounded(Exec(s, run)) && Lit(Exec(s, run), rank, high)
    decreases |run|
  {
    if run != [] {
      GroundedStep(s, run[0]);
      TrackStep(s, run[0], rank, high);
      TrackRun(Step(s, run[0]), run[1..], rank, high);
    }
  }

  // ---- from the start ----

  function ComprehensionOf(cfg: Config, sources: seq<SourceFile>): Comprehending.Comprehension {
    Comprehending.Comprehend(sources, Remaining(cfg.budget))
  }

  function PlanOf(cfg: Config, sources: seq<SourceFile>): seq<Task> {
    Synthesising.Synthesize(Synthesising.FastApi(), ComprehensionOf(cfg, sources).units)
  }

  /** Something to migrate without a dependency cycle, a call for the extraction and one for each task, and
      money for all of it but the last call when a call costs at most `high`. */
  ghost predicate Endowed(cfg: Config, sources: seq<SourceFile>, rank: seq<nat>, high: real) {
    && Untouched(cfg.budget) && high >= 0.0
    && (forall i :: 0 <= i < |sources| && sources[i].answer.Extraction? ==> sources[i].answer.cost >= 0.0)
    && PlanOf(cfg, sources) != [] && Acyclic(PlanOf(cfg, sources), rank)
    && ComprehensionOf(cfg, sources).cost + Times(|PlanOf(cfg, sources)| - 1, high) < cfg.budget.maxUsd
    && 1 + |PlanOf(cfg, sources)| <= cfg.budget.maxCalls
  }

  lemma {:induction false} AllWaiting(tasks: seq<Task>)
    requires forall i :: 0 <= i < |tasks| ==> tasks[i].status == Pending
    ensures Waiting(tasks) == |tasks|
  {
    if tasks != [] {
      AllWaiting(tasks[..|tasks| - 1]);
    }
  }

  lemma FoundCost(cfg: Config, sources: seq<SourceFile>)
    requires forall i :: 0 <= i < |sources| && sources[i].answer.Extraction? ==> sources[i].answer.cost >= 0.0
    ensures ComprehensionOf(cfg, sources).cost >= 0.0
  {
    Comprehending.UnitsAreExtracted(sources, Remaining(cfg.budget));
    CostAtLeastZero(sources[..Comprehending.FilesRead(sources, Remaining(cfg.budget), 0.0)]);
    hide *;
  }

  lemma {:induction false} CostAtLeastZero(files: seq<SourceFile>)
    requires forall i :: 0 <= i < |files| && files[i].answer.Extraction? ==> files[i].answer.cost >= 0.0
    ensures Comprehending.CostOf(files) >= 0.0
  {
    if files != [] {
      CostAtLeastZero(files[1..]);
    }
  }

  /** The state after the extraction. */
  function Extracting(cfg: Config, files: Files, now: real, sources: seq<SourceFile>): State {
    Comprehended(Init(cfg, files), now, sources)
  }

  lemma ExtractsWell(cfg: Config, files: Files, now: real, sources: seq<SourceFile>, rank: seq<nat>, high: real)
    requires Endowed(cfg, sources, rank, high) && InTime(cfg.budget, now)
    ensures var s := Extracting(cfg, files, now, sources);
      && s.node == Synthesis && s.units == ComprehensionOf(cfg, sources).units && s.cfg == cfg && s.clock == now
      && s.tasks == [] && s.results == [] && s.deltas == [] && s.consumed == 0
      && s.budget == Recorded(cfg.budget, ComprehensionOf(cfg, sources).cost, 1, false)
  {
    FoundCost(cfg, sources);
    TimesAtLeastZero(|PlanOf(cfg, sources)| - 1, high);
    hide Times, Comprehending.Comprehend, PlanOf;
  }

  lemma PlannedState(s: State)
    requires s.tasks == [] && s.units != []
    ensures Planned(s).tasks == Synthesising.Synthesize(Synthesising.FastApi(), s.units)
    ensures Planned(s) == s.(tasks := Planned(s).tasks, phase := Editing) && Planned(s).tasks != []
    ensures forall i :: 0 <= i < |Planned(s).tasks| ==> Planned(s).tasks[i].status == Pending
  {
    Synthesising.FastApiInjective();
    Synthesising.PlanIsFresh(Synthesising.FastApi(), s.units);
    MergeFresh(Synthesising.Synthesize(Synthesising.FastApi(), s.units));
  }

  lemma PlansWell(s: State, now: real, rank: seq<nat>, high: real)
    requires s.node == Synthesis && s.tasks == [] && s.results == [] && s.deltas == [] && s.consumed == 0
    requires s.units != [] && InTime(s.budget, s.clock)
    requires var n := |Planned(s).tasks|;
      n > 0 && s.budget.spent + Times(n - 1, high) < s.budget.maxUsd && s.budget.calls + n <= s.budget.maxCalls
    ensures var t := Planned(s); AllBright(t) && Funds(t.(node := SandboxTest), high)
  {
    PlannedState(s);
    AllWaiting(Planned(s).tasks);
    assert Unconsumed(s.deltas, 0) == [];
    hide Planned, Times, Waiting;
  }

  lemma UnitsBehindPlan(cfg: Config, sources: seq<SourceFile>)
    requires PlanOf(cfg, sources) != []
    ensures ComprehensionOf(cfg, sources).units != []
  {
  }

  lemma StartsWell(cfg: Config, files: Files, a: Answer, b: Answer, rank: seq<nat>, high: real)
    requires a.Extracted? && Endowed(cfg, a.sources, rank, high) && InTime(cfg.budget, a.now)
    requires b.Routed? && b.now1 <= b.now2 && InTime(cfg.budget, b.now2)
    ensures var s := Extracting(cfg, files, a.now, a.sources);
      s.node == Synthesis && Lit(Dispatch(Planned(s), b.now1, b.now2, SandboxTest), rank, high)
  {
    ExtractsWell(cfg, files, a.now, a.sources, rank, high);
    UnitsBehindPlan(cfg, a.sources);
    var s := Extracting(cfg, files, a.now, a.sources);
    PlannedState(s);
    PlansWell(s, b.now2, rank, high);
    PlanWellFormed(s);
    TrackDispatch(Planned(s), b.now1, b.now2, rank, high);
  }

  /** How such a run ends. */
  predicate EndsWell(s: State) {
    && s.phase == Done && s.tasks != [] && AllDone(s.tasks)
    && |s.h.publishCalls| == if s.cfg.hasRepo then 1 else 0
  }

  lemma GroundedStart(cfg: Config, files: Files)
    ensures Grounded(Init(cfg, files))
  {
  }

  /** Progress: with an acyclic plan the budget can pay for, and an outside that always succeeds in time,
      every run that is over ended DONE, every task SUCCEEDED, and published once (or not at all without a
      repository). */
  lemma GoodRunsSucceed(cfg: Config, files: Files, run: seq<Answer>, rank: seq<nat>, high: real)
    requires LegalRun(Init(cfg, files), run) && GoodRun(Init(cfg, files), run, high)
    requires Exec(Init(cfg, files), run).node == End
    requires run != [] && run[0].Extracted? && Endowed(cfg, run[0].sources, rank, high)
    ensures EndsWell(Exec(Init(cfg, files), run)) && Exec(Init(cfg, files), run).cfg == cfg
  {
    var s0 := Init(cfg, files);
    var s1 := Step(s0, run[0]);
    ExtractsWell(cfg, files, run[0].now, run[0].sources, rank, high);
    GroundedStart(cfg, files);
    GroundedStep(s0, run[0]);
    FromPlanning(cfg, files, s1, run[0], run[1..], rank, high);
  }

  lemma FromPlanning(cfg: Config, files: Files, s: State, a: Answer, run: seq<Answer>, rank: seq<nat>, high: real)
    requires a.Extracted? && Endowed(cfg, a.sources, rank, high) && InTime(cfg.budget, a.now)
    requires s == Extracting(cfg, files, a.now, a.sources) && Grounded(s)
    requires LegalRun(s, run) && GoodRun(s, run, high) && Exec(s, run).node == End
    ensures EndsWell(Exec(s, run)) && Exec(s, run).cfg == cfg
  {
    ExtractsWell(cfg, files, a.now, a.sources, rank, high);
    assert run != [];
    StartsWell(cfg, files, a, run[0], rank, high);
    GroundedStep(s, run[0]);
    TrackRun(Step(s, run[0]), run[1..], rank, high);
    ConfigRun(s, run);
  }

  // ---- such runs exist ----

  const A_FILE: seq<FileDiff> := [FileDiff("-", "")]

  lemma AFileIsClean(cfg: Config)
    ensures Clean(cfg, A_FILE)
  {
    SplitNoSlash("-");
    assert "-"[0] == '-' && Lower("-")[0] == '-';
  }

  function GoodAnswer(s: State): Answer {
    match s.node
    case Editors(pending, since) => Branch(if pending == [] then "" else pending[0].id, since, Some(Generation(A_FILE, 0.0)))
    case SandboxTest => Tested(Passed, map[])
    case ApprovalGate => Decided(JObject(map["approved" := JBool(true)]))
    case PrPublish => Published(true)
    case Aggregate => Tick
    case RequestApproval => Tick
    case _ => Routed(s.clock, s.clock)
  }

  lemma GoodAnswerIsGood(s: State, rank: seq<nat>, high: real)
    requires WellFormed(s) && Lit(s, rank, high) && high >= 0.0 && s.node != End
    ensures Legal(s, GoodAnswer(s)) && Good(s, GoodAnswer(s), high)
  {
    AFileIsClean(s.cfg);
    if s.node.Editors? {
      assert HasTask(s.node.pending, s.node.pending[0].id);
    }
    hide Clean;
  }

  lemma GoodFront(s: State, a: Answer, rest: seq<Answer>, high: real)
    requires Legal(s, a) && Good(s, a, high) && LegalRun(Step(s, a), rest) && GoodRun(Step(s, a), rest, high)
    ensures LegalRun(s, [a] + rest) && GoodRun(s, [a] + rest, high) && Exec(s, [a] + rest) == Exec(Step(s, a), rest)
  {
    assert ([a] + rest)[1..] == rest;
  }

  lemma EmptyRun(s: State, high: real)
    ensures LegalRun(s, []) && GoodRun(s, [], high) && Exec(s, []) == s
  {
  }

  /** A run on track can be finished. */
  lemma {:induction false} Complete(s: State, rank: seq<nat>, high: real) returns (run: seq<Answer>)
    requires Grounded(s) && Lit(s, rank, high) && high >= 0.0
    ensures LegalRun(s, run) && GoodRun(s, run, high) && Exec(s, run).node == End
    decreases Fuel(s), 1
  {
    if s.node == End {
      run := [];
      EmptyRun(s, high);
    } else {
      run := CompleteMore(s, rank, high);
    }
  }

  lemma {:induction false} CompleteMore(s: State, rank: seq<nat>, high: real) returns (run: seq<Answer>)
    requires Grounded(s) && Lit(s, rank, high) && high >= 0.0 && s.node != End
    ensures LegalRun(s, run) && GoodRun(s, run, high) && Exec(s, run).node == End
    decreases Fuel(s), 0
  {
    var a := GoodAnswer(s);
    assert WellFormed(s) && !Unplanned(s.node);
    hide *;
    GoodAnswerIsGood(s, rank, high);
    StepBurnsFuel(s, a);
    GroundedStep(s, a);
    TrackStep(s, a, rank, high);
    var rest := Complete(Step(s, a), rank, high);
    run := [a] + rest;
    GoodFront(s, a, rest, high);
  }

  /** And there is such a run: for every endowed configuration with any time at all, and every set of
      source files, some outside brings the run to that end. */
  lemma GoodRunsExist(cfg: Config, files: Files, sources: seq<SourceFile>, rank: seq<nat>, high: real) returns (run: seq<Answer>)
    requires Endowed(cfg, sources, rank, high) && cfg.budget.maxSeconds > 0.0
    ensures LegalRun(Init(cfg, files), run) && GoodRun(Init(cfg, files), run, high)
    ensures EndsWell(Exec(Init(cfg, files), run))
  {
    var now := cfg.budget.startedAt;
    var a, b := Extracted(now, sources), Routed(now, now);
    var s1 := Extracting(cfg, files, now, sources);
    ExtractsWell(cfg, files, now, sources, rank, high);
    GroundedStart(cfg, files);
    assert Legal(Init(cfg, files), a) && Step(Init(cfg, files), a) == s1;
    StartsWell(cfg, files, a, b, rank, high);
    GroundedStep(Init(cfg, files), a);
    assert Legal(s1, b) && Good(s1, b, high);
    GroundedStep(s1, b);
    assert Good(Init(cfg, files), a, high);
    run := CompletePlanned(cfg, files, a, b, rank, high);
    GoodRunsSucceed(cfg, files, run, rank, high);
  }

  lemma CompletePlanned(cfg: Config, files: Files, a: Answer, b: Answer, rank: seq<nat>, high: real) returns (run: seq<Answer>)
    requires high >= 0.0 && Legal(Init(cfg, files), a) && Good(Init(cfg, files), a, high)
    requires Legal(Step(Init(cfg, files), a), b) && Good(Step(Init(cfg, files), a), b, high)
    requires var t := Step(Step(Init(cfg, files), a), b); Grounded(t) && Lit(t, rank, high)
    ensures LegalRun(Init(cfg, files), run) && GoodRun(Init(cfg, files), run, high)
    ensures Exec(Init(cfg, files), run).node == End && run != [] && run[0] == a
  {
    hide *;
    var rest := Complete(Step(Step(Init(cfg, files), a), b), rank, high);
    GoodFront(Step(Init(cfg, files), a), b, rest, high);
    GoodFront(Init(cfg, files), a, [b] + rest, high);
    run := [a] + ([b] + rest);
  }
}
