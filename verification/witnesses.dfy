/** Runs from the start in which the program does what its comments exclude. */
module Witnesses {
  import opened OrderedDict
  import opened PlanTypes
  import opened Budgeting
  import opened Paths
  import opened Diffs
  import opened Workspaces
  import opened Scheduling
  import opened RunTypes
  import opened Machine
  import opened Shape
  import opened Attempts
  import opened Books
  import opened Retries
  import opened SmallPlans
  import Progress
  import EA = ErrorAnalysing
  import Synthesising
  import Comprehending

  /** Plenty of money and time, and a cap on calls. */
  function Purse(maxCalls: int): Ledger {
    Ledger(10.0, 0.0, maxCalls, 0, 1000.0, 0.0, 0.0, 0.25)
  }

  function Settings(maxCalls: int): Config {
    Config(["w"], true, true, None, {}, Purse(maxCalls))
  }

  /** Where a run stands, as far as its next steps depend on it: every reading of the clock is zero and
      every call is free. `due` costs are not folded yet. */
  datatype Spot = Spot(maxCalls: int, node: Node, tasks: seq<Task>, results: seq<EditorResult>, suite: Option<Outcome>,
                       calls: int, due: nat, round: nat)

  predicate Sits(s: State, p: Spot) {
    && WellFormed(s) && CodeStored(s) && s.cfg == Settings(p.maxCalls) && s.node == p.node && s.clock == 0.0
    && s.tasks == p.tasks && s.results == p.results && s.suite == p.suite && s.retryRound == p.round
    && s.budget == Purse(p.maxCalls).(calls := p.calls)
    && |s.deltas| == s.consumed + p.due && forall k :: s.consumed <= k < |s.deltas| ==> s.deltas[k] == 0.0
  }

  lemma Affords(maxCalls: int, calls: int, n: int)
    requires calls < maxCalls && 1 <= n <= 2
    ensures !Exhausted(Purse(maxCalls).(calls := calls), 0.0)
    ensures AffordableCalls(Purse(maxCalls).(calls := calls), n, 0.0) == n
  {
    var b := Purse(maxCalls).(calls := calls);
    AffordableIsLargest(b, n, 0.0);
    assert Fits(b, n);
  }

  lemma SendsAll(s: State, maxCalls: int, calls: int, idle: Node)
    requires s.budget == Purse(maxCalls).(calls := calls) && calls < maxCalls && 1 <= |Ready(s.tasks)| <= 2
    ensures Dispatch(s, 0.0, 0.0, idle) == s.(clock := 0.0, node := Editors(Ready(s.tasks), 0.0))
  {
    Affords(maxCalls, calls, |Ready(s.tasks)|);
    assert Ready(s.tasks)[..|Ready(s.tasks)|] == Ready(s.tasks);
    hide Ready, Exhausted, AffordableCalls;
  }

  lemma StaysLegal(s: State, a: Answer)
    requires WellFormed(s) && CodeStored(s) && Legal(s, a)
    ensures WellFormed(Step(s, a)) && CodeStored(Step(s, a))
  {
    WellFormedStep(s, a);
    CodeStep(s, a);
  }

  lemma {:induction false} FoldZeros(b: Ledger, costs: seq<real>)
    requires forall k :: 0 <= k < |costs| ==> costs[k] == 0.0
    ensures RecordAll(b, costs) == b.(calls := b.calls + |costs|)
  {
    if costs != [] {
      FoldZeros(b, costs[..|costs| - 1]);
    }
  }

  // ---- planning ----

  /** The first two answers: the files are read for free and the plan goes out. */
  function Begin(shape: PlanShape): seq<Answer> {
    [Extracted(0.0, SourcesOf(shape)), Routed(0.0, 0.0)]
  }

  lemma Comprehends(shape: PlanShape, maxCalls: int)
    requires maxCalls > 1
    ensures var s := Init(Settings(maxCalls), map[]);
      Comprehended(s, 0.0, SourcesOf(shape)) == s.(clock := 0.0, units := UnitsFor(shape), phase := SynthesisPlanning,
        node := Synthesis, budget := Purse(maxCalls).(calls := 1), h := s.h.(comprehension := Some(0.0)))
  {
    UnitsAreSmall(shape);
    assert Remaining(Purse(maxCalls)) == 10.0;
    hide Comprehending.Comprehend;
  }

  lemma ReadsFiles(shape: PlanShape, maxCalls: int)
    requires maxCalls > 1
    ensures var s, a := Init(Settings(maxCalls), map[]), Extracted(0.0, SourcesOf(shape));
      && Legal(s, a) && Step(s, a).node == Synthesis && Step(s, a).units == UnitsFor(shape)
      && Sits(Step(s, a), Spot(maxCalls, Synthesis, [], [], None, 1, 0, 0))
  {
    hide Step, Comprehended, WellFormed, CodeStored, UnitsFor, Legal;
    var s, a := Init(Settings(maxCalls), map[]), Extracted(0.0, SourcesOf(shape));
    ReadLegally(shape, maxCalls);
    StaysLegal(s, a);
    Comprehends(shape, maxCalls);
  }

  lemma ReadLegally(shape: PlanShape, maxCalls: int)
    ensures var s, a := Init(Settings(maxCalls), map[]), Extracted(0.0, SourcesOf(shape));
      && Legal(s, a) && Step(s, a) == Comprehended(s, 0.0, SourcesOf(shape)) && WellFormed(s) && CodeStored(s)
  {
    hide Comprehended;
  }

  lemma Plans(s: State, shape: PlanShape, maxCalls: int)
    requires Sits(s, Spot(maxCalls, Synthesis, [], [], None, 1, 0, 0)) && s.units == UnitsFor(shape) && maxCalls > 1
    requires 1 <= |Ready(PlanFor(shape))| <= 2
    ensures Legal(s, Routed(0.0, 0.0))
    ensures Sits(Step(s, Routed(0.0, 0.0)), Spot(maxCalls, Editors(Ready(PlanFor(shape)), 0.0), PlanFor(shape), [], None, 1, 0, 0))
  {
    PlanIsSmall(shape);
    UnitsAreSmall(shape);
    StaysLegal(s, Routed(0.0, 0.0));
    Synthesising.FastApiInjective();
    Synthesising.PlanIsFresh(Synthesising.FastApi(), s.units);
    MergeFresh(PlanFor(shape));
    SendsAll(Planned(s), maxCalls, 1, SandboxTest);
    hide Ready, Dispatch, WellFormed, CodeStored, PlanFor;
  }

  // ---- waves ----

  function Writes(p: Spot, diffs: seq<FileDiff>): Answer
    requires p.node.Editors? && p.node.pending != []
  {
    Branch(p.node.pending[0].id, 0.0, Some(Generation(diffs, 0.0)))
  }

  function Written(p: Spot, i: nat, diffs: seq<FileDiff>): Spot
    requires p.node.Editors? && p.node.pending != [] && i < |p.tasks|
  {
    p.(tasks := p.tasks[i := p.tasks[i].(status := Succeeded)], due := p.due + 1,
       results := p.results + [EditorResult(p.node.pending[0].id, diffs)],
       node := if |p.node.pending| == 1 then Reconcile else Editors(p.node.pending[1..], 0.0))
  }

  /** The first branch in flight succeeds. */
  lemma WritesWell(s: State, p: Spot, i: nat, diffs: seq<FileDiff>)
    requires Sits(s, p) && p.node.Editors? && p.node.since == 0.0 && p.calls < p.maxCalls
    requires p.node.pending != [] && i < |p.tasks| && p.node.pending[0] == p.tasks[i]
    ensures Legal(s, Writes(p, diffs)) && Sits(Step(s, Writes(p, diffs)), Written(p, i, diffs))
  {
    var a := Writes(p, diffs);
    assert HasTask(s.node.pending, a.id) && Legal(s, a);
    StaysLegal(s, a);
    Affords(p.maxCalls, p.calls, 1);
    var j := BranchEffect(s, a);
    assert j == i;
    hide WellFormed, CodeStored, Exhausted, AffordableCalls;
  }

  const FOLD: Answer := Routed(0.0, 0.0)

  function Folded(p: Spot): Spot {
    p.(calls := p.calls + p.due, due := 0)
  }

  lemma FoldsBudget(s: State, p: Spot)
    requires Sits(s, p) && p.node == Reconcile
    ensures Reconciled(s) == s.(budget := Purse(p.maxCalls).(calls := p.calls + p.due), consumed := |s.deltas|)
  {
    FoldZeros(s.budget, Unconsumed(s.deltas, s.consumed));
  }

  /** With nothing ready the wave is followed by the sandbox. */
  lemma FoldsIdle(s: State, p: Spot)
    requires Sits(s, p) && p.node == Reconcile && Ready(p.tasks) == []
    ensures Legal(s, FOLD) && Sits(Step(s, FOLD), Folded(p).(node := SandboxTest))
  {
    FoldsBudget(s, p);
    StaysLegal(s, FOLD);
    hide WellFormed, CodeStored, Ready, Reconciled;
  }

  /** Otherwise by the next wave. */
  lemma FoldsOn(s: State, p: Spot)
    requires Sits(s, p) && p.node == Reconcile && 1 <= |Ready(p.tasks)| <= 2 && p.calls + p.due < p.maxCalls
    ensures Legal(s, FOLD) && Sits(Step(s, FOLD), Folded(p).(node := Editors(Ready(p.tasks), 0.0)))
  {
    FoldsBudget(s, p);
    StaysLegal(s, FOLD);
    SendsAll(Reconciled(s), p.maxCalls, p.calls + p.due, SandboxTest);
    hide WellFormed, CodeStored, Ready, Reconciled, Dispatch;
  }

  // ---- the sandbox ----

  const FAILS: Answer := Tested(SuiteFailed, map[])

  const ONE_FILE: seq<FileDiff> := [FileDiff("a.py", "1")]

  lemma AFileIsSafe()
    ensures Safe(["w"], "a.py")
  {
    assert '/' !in "a.py";
    SplitNoSlash("a.py");
    WalkPlain(["w"], ["a.py"]);
  }

  predicate AllOneFile(results: seq<EditorResult>) {
    forall i :: 0 <= i < |results| ==> results[i].diffs == ONE_FILE
  }

  lemma SomethingEffective(results: seq<EditorResult>, tasks: seq<Task>, i: nat)
    requires i < |tasks| && tasks[i].status == Succeeded
    requires LatestOf(results, tasks[i].id).Some? && LatestOf(results, tasks[i].id).value.diffs != []
    ensures EffectiveDiffs(results, tasks) != []
  {
    var r := LatestOf(results, tasks[i].id).value;
    LastOfIn(ResultEntries(results), tasks[i].id);
    assert HasSucceeded(tasks, r.taskId);
    EffectiveResultsExact(results, tasks, r);
    assert Emits(r, r.diffs[0].path);
    EffectiveDiffsExact(results, tasks, r.diffs[0].path);
  }

  lemma PreparesOneFile(files: Files, results: seq<EditorResult>, tasks: seq<Task>)
    requires AllOneFile(results)
    ensures Prepare(["w"], files, StalePaths(results, tasks), EffectiveDiffs(results, tasks)).Prepared?
  {
    AFileIsSafe();
    EffectiveWritten(results, tasks);
    assert forall p :: p in EverWritten(results) ==> p == "a.py";
    var diffs := EffectiveDiffs(results, tasks);
    forall i | 0 <= i < |diffs| ensures diffs[i].path == "a.py" {
      assert diffs[i].path in PathsOf(diffs);
    }
  }

  /** A visit with the one file runs the suite, which fails. */
  lemma FailsSuite(s: State, p: Spot, i: nat)
    requires Sits(s, p) && p.node == SandboxTest && AllOneFile(p.results)
    requires i < |p.tasks| && p.tasks[i].status == Succeeded
    ensures Legal(s, FAILS) && Sits(Step(s, FAILS), p.(node := ErrorAnalysis, suite := Some(SuiteFailed)))
  {
    assert HasLatestCode(s, p.tasks[i].id);
    var es: seq<Entry<EditorResult>> := ResultEntries(p.results);
    LastOfIn(es, p.tasks[i].id);
    SomethingEffective(p.results, p.tasks, i);
    PreparesOneFile(s.files, p.results, p.tasks);
    assert Legal(s, FAILS);
    StaysLegal(s, FAILS);
    hide WellFormed, CodeStored, EffectiveDiffs, StalePaths;
  }

  // ---- putting runs together ----

  function Opening(maxCalls: int): State {
    Init(Settings(maxCalls), map[])
  }

  /** A run from the start, and where it has got to. */
  ghost predicate Leads(maxCalls: int, run: seq<Answer>, p: Spot) {
    p.maxCalls == maxCalls && LegalRun(Opening(maxCalls), run) && Sits(Exec(Opening(maxCalls), run), p)
  }

  lemma LeadsOn(maxCalls: int, run: seq<Answer>, p: Spot, a: Answer, q: Spot)
    requires Leads(maxCalls, run, p) && q.maxCalls == maxCalls
    requires Legal(Exec(Opening(maxCalls), run), a) && Sits(Step(Exec(Opening(maxCalls), run), a), q)
    ensures Leads(maxCalls, run + [a], q)
  {
    OneMore(Opening(maxCalls), run, a);
    hide Sits, Legal, Step;
  }

  lemma Begins(shape: PlanShape, maxCalls: int)
    requires maxCalls > 1 && 1 <= |Ready(PlanFor(shape))| <= 2
    ensures Leads(maxCalls, Begin(shape), Spot(maxCalls, Editors(Ready(PlanFor(shape)), 0.0), PlanFor(shape), [], None, 1, 0, 0))
  {
    var s := Opening(maxCalls);
    var a := Extracted(0.0, SourcesOf(shape));
    ReadsFiles(shape, maxCalls);
    Plans(Step(s, a), shape, maxCalls);
    OneStep(s, a);
    OneMore(s, [a], FOLD);
    assert Begin(shape) == [a] + [FOLD];
    hide *;
    LeadsBy(maxCalls, Begin(shape), Spot(maxCalls, Editors(Ready(PlanFor(shape)), 0.0), PlanFor(shape), [], None, 1, 0, 0));
  }

  lemma LeadsBy(maxCalls: int, run: seq<Answer>, p: Spot)
    requires p.maxCalls == maxCalls && LegalRun(Opening(maxCalls), run) && Sits(Exec(Opening(maxCalls), run), p)
    ensures Leads(maxCalls, run, p)
  {
  }

  lemma LeadsTo(maxCalls: int, run: seq<Answer>, p: Spot) returns (s: State)
    requires Leads(maxCalls, run, p)
    ensures s == Exec(Opening(maxCalls), run) && Sits(s, p) && LegalRun(Opening(maxCalls), run)
  {
    s := Exec(Opening(maxCalls), run);
  }

  lemma LeadsWriting(maxCalls: int, run: seq<Answer>, p: Spot, i: nat, diffs: seq<FileDiff>)
    requires Leads(maxCalls, run, p) && p.node.Editors? && p.node.since == 0.0 && p.calls < maxCalls
    requires p.node.pending != [] && i < |p.tasks| && p.node.pending[0] == p.tasks[i]
    ensures Leads(maxCalls, run + [Writes(p, diffs)], Written(p, i, diffs))
  {
    WritesWell(Exec(Opening(maxCalls), run), p, i, diffs);
    hide Sits, LegalRun, Exec, Legal, Step;
    LeadsOn(maxCalls, run, p, Writes(p, diffs), Written(p, i, diffs));
  }

  lemma LeadsIdle(maxCalls: int, run: seq<Answer>, p: Spot)
    requires Leads(maxCalls, run, p) && p.node == Reconcile && Ready(p.tasks) == []
    ensures Leads(maxCalls, run + [FOLD], Folded(p).(node := SandboxTest))
  {
    FoldsIdle(Exec(Opening(maxCalls), run), p);
    hide Sits, LegalRun, Exec, Legal, Step, Ready;
    LeadsOn(maxCalls, run, p, FOLD, Folded(p).(node := SandboxTest));
  }

  lemma LeadsNext(maxCalls: int, run: seq<Answer>, p: Spot)
    requires Leads(maxCalls, run, p) && p.node == Reconcile && 1 <= |Ready(p.tasks)| <= 2 && p.calls + p.due < maxCalls
    ensures Leads(maxCalls, run + [FOLD], Folded(p).(node := Editors(Ready(p.tasks), 0.0)))
  {
    FoldsOn(Exec(Opening(maxCalls), run), p);
    hide Sits, LegalRun, Exec, Legal, Step, Ready;
    LeadsOn(maxCalls, run, p, FOLD, Folded(p).(node := Editors(Ready(p.tasks), 0.0)));
  }

  lemma LeadsFailing(maxCalls: int, run: seq<Answer>, p: Spot, i: nat)
    requires Leads(maxCalls, run, p) && p.node == SandboxTest && AllOneFile(p.results)
    requires i < |p.tasks| && p.tasks[i].status == Succeeded
    ensures Leads(maxCalls, run + [FAILS], p.(node := ErrorAnalysis, suite := Some(SuiteFailed)))
  {
    FailsSuite(Exec(Opening(maxCalls), run), p, i);
    hide Sits, LegalRun, Exec, Legal, Step, AllOneFile;
    LeadsOn(maxCalls, run, p, FAILS, p.(node := ErrorAnalysis, suite := Some(SuiteFailed)));
  }

  // ---- which tasks are ready ----

  lemma ReadyTwo(t: Task, u: Task)
    requires IsWaiting(t) && IsWaiting(u) && t.deps == {} && u.deps == {}
    ensures Ready([t, u]) == [t, u]
  {
    assert ReadyUpTo([t, u], 0) == [] && ReadyUpTo([t, u], 1) == [t];
  }

  lemma ReadyNone(tasks: seq<Task>)
    requires DistinctTasks(tasks) && forall i :: 0 <= i < |tasks| ==> !IsWaiting(tasks[i]) || !DepsMet(tasks, tasks[i])
    ensures Ready(tasks) == []
  {
    ReadyUpToExact(tasks, |tasks|);
  }

  // ---- more calls than the cap ----

  function Finished(t: Task): Task {
    t.(status := Succeeded)
  }

  lemma TwoTasks(chained: bool) returns (b: Task, a: Task)
    ensures PlanFor(SmallPlans.Pair(chained)) == [b, a] && a.id != b.id && DistinctTasks([b, a])
    ensures FreshTask(b, {}) && FreshTask(a, if chained then {b.id} else {})
  {
    hide PlanFor;
    var plan := PlanFor(SmallPlans.Pair(chained));
    PlanIsSmall(SmallPlans.Pair(chained));
    b, a := plan[0], plan[1];
  }

  /** With a cap of two calls and two independent tasks: the extraction is one call, and both branches of
      the only wave are calls too. The budget has then recorded one call less than cap and plan together. */
  lemma CallCapReached() returns (run: seq<Answer>)
    ensures LegalRun(Opening(2), run)
    ensures var s := Exec(Opening(2), run);
      && s.node == SandboxTest && |s.tasks| == 2 && s.budget.maxCalls == 2
      && s.budget.calls == s.budget.maxCalls + |s.tasks| - 1
  {
    var b, a := TwoTasks(false);
    ReadyTwo(b, a);
    hide *;
    Begins(SmallPlans.Pair(false), 2);
    run := WritesBoth(Begin(SmallPlans.Pair(false)), b, a);
  }

  lemma WritesBoth(run: seq<Answer>, b: Task, a: Task) returns (longer: seq<Answer>)
    requires Leads(2, run, Spot(2, Editors([b, a], 0.0), [b, a], [], None, 1, 0, 0)) && a.id != b.id
    ensures LegalRun(Opening(2), longer)
    ensures var s := Exec(Opening(2), longer);
      && s.node == SandboxTest && |s.tasks| == 2 && s.budget.maxCalls == 2
      && s.budget.calls == s.budget.maxCalls + |s.tasks| - 1
  {
    hide Leads;
    var p := Spot(2, Editors([b, a], 0.0), [b, a], [], None, 1, 0, 0);
    LeadsWriting(2, run, p, 0, ONE_FILE);
    var p1 := Written(p, 0, ONE_FILE);
    assert p1.node == Editors([a], 0.0) && p1.tasks == [Finished(b), a];
    LeadsWriting(2, run + [Writes(p, ONE_FILE)], p1, 1, ONE_FILE);
    var p2 := Written(p1, 1, ONE_FILE);
    assert p2.tasks == [Finished(b), Finished(a)];
    ReadyNone(p2.tasks);
    var run2 := run + [Writes(p, ONE_FILE)] + [Writes(p1, ONE_FILE)];
    LeadsIdle(2, run2, p2);
    longer := run2 + [FOLD];
    var s := LeadsTo(2, longer, Folded(p2).(node := SandboxTest));
  }

  // ---- the end while editing ----

  /** The dependency is hopeless, its dependent worth a retry. */
  function SplitVerdict(b: Task, a: Task): Answer {
    Analysed(0.0, Some(EA.Response([EA.Analysis(b.id, false), EA.Analysis(a.id, true)], 0.0)), 0.0, 0.0)
  }

  lemma SplitSentence(s: State, b: Task, a: Task, i: nat)
    requires WellFormed(s) && CodeStored(s) && s.tasks == [Finished(b), Finished(a)] && a.id != b.id && i < 2
    requires s.suite.Some? && !Exhausted(s.budget, 0.0) && !EA.CapHit(s.retryRound, s.cfg.maxRounds)
    requires b.retries == 0 && a.retries == 0 && a.maxRetries == Synthesising.DEFAULT_MAX_RETRIES
    ensures var after := Judged(s, SplitVerdict(b, a)).tasks;
      |after| == 2 && after[i] ==
        if i == 0 then b.(status := NeedsHuman, retries := 1) else a.(status := Retrying, retries := 1)
  {
    var x := SplitVerdict(b, a);
    JudgedAt(s, x, i);
    HasCodeStored(s, i);
    TwoNamed(b.id, a.id);
    hide Judged, WellFormed, CodeStored, EA.HasCode;
  }

  lemma TwoNamed(b: string, a: string)
    requires a != b
    ensures var named := EA.AnalysisEntries([EA.Analysis(b, false), EA.Analysis(a, true)]);
      LastOf(named, b) == Some(EA.Analysis(b, false)) && LastOf(named, a) == Some(EA.Analysis(a, true))
  {
    var named: seq<Entry<EA.Analysis>> := EA.AnalysisEntries([EA.Analysis(b, false), EA.Analysis(a, true)]);
    assert named[..1][0] == named[0];
  }

  lemma SplitStrands(s: State, b: Task, a: Task)
    requires WellFormed(s) && CodeStored(s) && s.tasks == [Finished(b), Finished(a)] && a.id != b.id && a.deps == {b.id}
    requires s.suite.Some? && !Exhausted(s.budget, 0.0) && !EA.CapHit(s.retryRound, s.cfg.maxRounds)
    requires b.retries == 0 && a.retries == 0 && a.maxRetries == Synthesising.DEFAULT_MAX_RETRIES
    ensures Ready(Judged(s, SplitVerdict(b, a)).tasks) == []
  {
    var after := Judged(s, SplitVerdict(b, a)).tasks;
    SplitSentence(s, b, a, 0);
    SplitSentence(s, b, a, 1);
    assert after == [b.(status := NeedsHuman, retries := 1), a.(status := Retrying, retries := 1)];
    hide Judged, WellFormed, CodeStored, Exhausted;
    StatusAt(after, 0);
    assert b.id in after[1].deps;
    ReadyNone(after);
  }

  lemma EndsSplit(s: State, p: Spot, b: Task, a: Task)
    requires Sits(s, p) && p.node == ErrorAnalysis && p.tasks == [Finished(b), Finished(a)] && a.id != b.id && a.deps == {b.id}
    requires p.suite.Some? && p.round == 0 && p.calls < p.maxCalls
    requires b.retries == 0 && a.retries == 0 && a.maxRetries == Synthesising.DEFAULT_MAX_RETRIES
    ensures Legal(s, SplitVerdict(b, a)) && Step(s, SplitVerdict(b, a)).node == End && Step(s, SplitVerdict(b, a)).phase == Editing
  {
    Affords(p.maxCalls, p.calls, 1);
    SplitStrands(s, b, a);
    HasCodeStored(s, 1);
    assert AsksFor(s.tasks, s.results, SplitVerdict(b, a).response.value.analyses[1], 1);
    assert AskedBy(s.tasks, s.results, SplitVerdict(b, a).response.value.analyses[1]);
    AnalysisPhase(s, SplitVerdict(b, a));
    hide WellFormed, CodeStored, Judged, Ready, Exhausted, AskedBy;
  }

  /** A chain of two tasks: both succeed, the suite fails, and analysis escalates the first and retries the
      second, which can then never start. The run is over while its phase says EDITING. */
  lemma EndsWhileEditing() returns (run: seq<Answer>)
    ensures LegalRun(Opening(100), run)
    ensures Exec(Opening(100), run).node == End && Exec(Opening(100), run).phase == Editing
  {
    var b, a := TwoTasks(true);
    ReadyChained(b, a);
    hide *;
    Begins(SmallPlans.Pair(true), 100);
    run := ChainedWaves(Begin(SmallPlans.Pair(true)), b, a);
  }

  lemma ReadyChained(b: Task, a: Task)
    requires FreshTask(b, {}) && FreshTask(a, {b.id}) && a.id != b.id
    ensures Ready([b, a]) == [b] && Ready([Finished(b), a]) == [a] && Ready([Finished(b), Finished(a)]) == []
  {
    StatusAt([b, a], 0);
    StatusAt([Finished(b), a], 0);
    assert b.id in a.deps;
    assert ReadyUpTo([b, a], 0) == [] && ReadyUpTo([b, a], 1) == [b];
    assert ReadyUpTo([Finished(b), a], 0) == [] && ReadyUpTo([Finished(b), a], 1) == [];
    ReadyNone([Finished(b), Finished(a)]);
  }

  lemma ChainedWaves(run: seq<Answer>, b: Task, a: Task) returns (longer: seq<Answer>)
    requires Leads(100, run, Spot(100, Editors([b], 0.0), [b, a], [], None, 1, 0, 0))
    requires FreshTask(b, {}) && FreshTask(a, {b.id}) && a.id != b.id
    ensures LegalRun(Opening(100), longer)
    ensures Exec(Opening(100), longer).node == End && Exec(Opening(100), longer).phase == Editing
  {
    hide Leads, Ready;
    ReadyChained(b, a);
    var p := Spot(100, Editors([b], 0.0), [b, a], [], None, 1, 0, 0);
    LeadsWriting(100, run, p, 0, ONE_FILE);
    var p1 := Written(p, 0, ONE_FILE);
    assert p1.tasks == [Finished(b), a];
    var run1 := run + [Writes(p, ONE_FILE)];
    LeadsNext(100, run1, p1);
    var p2 := Folded(p1).(node := Editors([a], 0.0));
    LeadsWriting(100, run1 + [FOLD], p2, 1, ONE_FILE);
    var p3 := Written(p2, 1, ONE_FILE);
    assert p3.tasks == [Finished(b), Finished(a)];
    var run3 := run1 + [FOLD] + [Writes(p2, ONE_FILE)];
    LeadsIdle(100, run3, p3);
    longer := ChainedEnd(run3 + [FOLD], Folded(p3).(node := SandboxTest), b, a);
  }

  lemma ChainedEnd(run: seq<Answer>, p: Spot, b: Task, a: Task) returns (longer: seq<Answer>)
    requires Leads(100, run, p) && p.node == SandboxTest && p.tasks == [Finished(b), Finished(a)] && AllOneFile(p.results)
    requires FreshTask(b, {}) && FreshTask(a, {b.id}) && a.id != b.id && p.maxCalls == 100 && p.calls < 100 && p.round == 0
    ensures LegalRun(Opening(100), longer)
    ensures Exec(Opening(100), longer).node == End && Exec(Opening(100), longer).phase == Editing
  {
    hide Leads;
    LeadsFailing(100, run, p, 0);
    var q := p.(node := ErrorAnalysis, suite := Some(SuiteFailed));
    var s := LeadsTo(100, run + [FAILS], q);
    EndsSplit(s, q, b, a);
    longer := run + [FAILS] + [SplitVerdict(b, a)];
    OneMore(Opening(100), run + [FAILS], SplitVerdict(b, a));
    hide Sits, LegalRun, Exec, Legal, Step;
  }

  // ---- a refused path is retried ----

  function Again(t: Task): Task {
    t.(status := Retrying, retries := t.retries + 1)
  }

  predicate Blamable(p: Spot, t: Task) {
    && p.node == ErrorAnalysis && p.tasks == [t] && t.status == Succeeded && t.deps == {} && t.retries < t.maxRetries
    && p.suite.Some? && p.round < 4 && p.calls + 1 < p.maxCalls
  }

  lemma CanBlame(s: State, p: Spot, t: Task)
    requires Sits(s, p) && Blamable(p, t)
    ensures CanRetry(s) && Retriable(s.tasks, 0) && NoSelfDeps(s.tasks) && Ready([Again(t)]) == [Again(t)]
  {
    assert Retriable(s.tasks, 0);
    assert ReadyUpTo([Again(t)], 0) == [];
  }

  lemma BlameCharged(s: State, p: Spot, t: Task)
    requires Sits(s, p) && Blamable(p, t)
    ensures Legal(s, Blame(s, t.id)) && Judged(s, Blame(s, t.id)).tasks == [Again(t)]
    ensures Judged(s, Blame(s, t.id)).budget == Purse(p.maxCalls).(calls := p.calls + 1)
    ensures Judged(s, Blame(s, t.id)).retryRound == p.round + 1
  {
    CanBlame(s, p, t);
    BlameSentence(s, 0, 0);
    BlameAffordable(s, t.id);
    BlameBudget(s, p, t);
    var after := Judged(s, Blame(s, t.id)).tasks;
    assert |after| == 1 && after[0] == Again(t);
    hide WellFormed, CodeStored, Merge, EA.Analyse, CanRetry, Retriable, NoSelfDeps;
  }

  lemma BlameBudget(s: State, p: Spot, t: Task)
    requires Sits(s, p) && Blamable(p, t)
    ensures AnalysisOf(s, Blame(s, t.id)).budget == Purse(p.maxCalls).(calls := p.calls + 1)
  {
    HasCodeStored(s, 0);
    EA.CandidatesHas(s.tasks, s.results, t);
    assert 0.0 / 1 as real == 0.0;
    hide WellFormed, CodeStored, EA.Verdicts, EA.HasCode, EA.Candidates;
  }

  function Blamed(p: Spot, t: Task): Spot {
    p.(node := Editors([Again(t)], 0.0), tasks := [Again(t)], calls := p.calls + 1, round := p.round + 1)
  }

  lemma SendsOne(u: State, maxCalls: int, calls: int, t: Task)
    requires u.tasks == [t] && Ready([t]) == [t] && u.budget == Purse(maxCalls).(calls := calls) && calls < maxCalls
    ensures Dispatch(u, 0.0, 0.0, End) == u.(clock := 0.0, node := Editors([t], 0.0))
  {
    SendsAll(u, maxCalls, calls, End);
  }

  lemma BlameSends(s: State, p: Spot, t: Task)
    requires Sits(s, p) && Blamable(p, t)
    ensures Legal(s, Blame(s, t.id))
    ensures Step(s, Blame(s, t.id)) == Judged(s, Blame(s, t.id)).(clock := 0.0, node := Editors([Again(t)], 0.0))
  {
    CanBlame(s, p, t);
    BlameCharged(s, p, t);
    SendsOne(Judged(s, Blame(s, t.id)), p.maxCalls, p.calls + 1, Again(t));
    BlameSteps(s, p, t);
    hide *;
  }

  lemma BlameSteps(s: State, p: Spot, t: Task)
    requires Sits(s, p) && Blamable(p, t) && Legal(s, Blame(s, t.id))
    ensures Step(s, Blame(s, t.id)) == Dispatch(Judged(s, Blame(s, t.id)), 0.0, 0.0, End)
  {
    hide Judged, Dispatch, WellFormed, CodeStored;
  }

  /** Blaming the only task sends it back to the editors. */
  lemma BlamesWell(s: State, p: Spot, t: Task)
    requires Sits(s, p) && Blamable(p, t)
    ensures Legal(s, Blame(s, t.id)) && Sits(Step(s, Blame(s, t.id)), Blamed(p, t))
  {
    BlameSends(s, p, t);
    BlameCharged(s, p, t);
    StaysLegal(s, Blame(s, t.id));
    JudgedKeeps(s, Blame(s, t.id));
    hide Judged, WellFormed, CodeStored, Step, Legal;
  }

  lemma JudgedKeeps(s: State, a: Answer)
    requires a.Analysed?
    ensures var t := Judged(s, a);
      t.cfg == s.cfg && t.results == s.results && t.suite == s.suite && t.deltas == s.deltas && t.consumed == s.consumed
  {
  }

  const ESCAPES: seq<FileDiff> := [FileDiff("/x", "")]

  /** After the failed suite and a retry that emitted an absolute path, the sandbox refuses. */
  lemma Refuses(s: State, p: Spot, t: Task)
    requires Sits(s, p) && p.node == SandboxTest && p.tasks == [t] && t.status == Succeeded
    requires p.results == [EditorResult(t.id, ONE_FILE), EditorResult(t.id, ESCAPES)]
    ensures IsRefused(s)
  {
    var r := p.results[1];
    var es: seq<Entry<EditorResult>> := ResultEntries(p.results);
    assert es[1].key == t.id && LatestOf(p.results, t.id) == Some(r);
    SomethingEffective(p.results, p.tasks, 0);
    assert p.results[1].diffs[0].path == "/x";
    assert "/x" in EverWritten(p.results);
    assert "/x"[0] == '/';
    PoisonRefuses(s.cfg.root, s.files, p.results, p.tasks, "/x");
    hide WellFormed, CodeStored;
  }

  /** The run up to the refusal: the first attempt fails the suite, the retry emits an absolute path. */
  lemma RefusedRun() returns (run: seq<Answer>, p: Spot, t: Task)
    ensures Leads(100, run, p) && p.node == SandboxTest && p.tasks == [t] && p.suite == Some(SuiteFailed)
    ensures p.results == [EditorResult(t.id, ONE_FILE), EditorResult(t.id, ESCAPES)]
    ensures t.status == Succeeded && t.deps == {} && t.retries == 1 && t.maxRetries == Synthesising.DEFAULT_MAX_RETRIES
    ensures p.maxCalls == 100 && p.calls == 4 && p.round == 1
  {
    var b := OneTask();
    hide *;
    Begins(SmallPlans.Alone, 100);
    run, p, t := RefusedWaves(Begin(SmallPlans.Alone), b);
  }

  lemma OneTask() returns (b: Task)
    ensures PlanFor(SmallPlans.Alone) == [b] && FreshTask(b, {}) && Ready([b]) == [b]
  {
    hide PlanFor;
    var plan := PlanFor(SmallPlans.Alone);
    PlanIsSmall(SmallPlans.Alone);
    b := plan[0];
    assert ReadyUpTo([b], 0) == [];
  }

  lemma RefusedWaves(run: seq<Answer>, b: Task) returns (longer: seq<Answer>, p: Spot, t: Task)
    requires Leads(100, run, Spot(100, Editors([b], 0.0), [b], [], None, 1, 0, 0)) && FreshTask(b, {})
    ensures Leads(100, longer, p) && p.node == SandboxTest && p.tasks == [t] && p.suite == Some(SuiteFailed)
    ensures p.results == [EditorResult(t.id, ONE_FILE), EditorResult(t.id, ESCAPES)]
    ensures t.status == Succeeded && t.deps == {} && t.retries == 1 && t.maxRetries == Synthesising.DEFAULT_MAX_RETRIES
    ensures p.maxCalls == 100 && p.calls == 4 && p.round == 1
  {
    hide Leads, Ready;
    ReadyNone([Finished(b)]);
    ReadyNone([Finished(Again(Finished(b)))]);
    var q := Spot(100, Editors([b], 0.0), [b], [], None, 1, 0, 0);
    LeadsWriting(100, run, q, 0, ONE_FILE);
    var q1 := Written(q, 0, ONE_FILE);
    assert q1.tasks == [Finished(b)];
    longer := run + [Writes(q, ONE_FILE)];
    LeadsIdle(100, longer, q1);
    longer := longer + [FOLD];
    var q2 := Folded(q1).(node := SandboxTest);
    LeadsFailing(100, longer, q2, 0);
    longer := longer + [FAILS];
    var q3 := q2.(node := ErrorAnalysis, suite := Some(SuiteFailed));
    var s := LeadsTo(100, longer, q3);
    longer := LeadsBlaming(longer, q3, Finished(b));
    var q4 := Blamed(q3, Finished(b));
    LeadsWriting(100, longer, q4, 0, ESCAPES);
    var q5 := Written(q4, 0, ESCAPES);
    t := Finished(Again(Finished(b)));
    assert q5.tasks == [t];
    longer := longer + [Writes(q4, ESCAPES)];
    LeadsIdle(100, longer, q5);
    longer := longer + [FOLD];
    p := Folded(q5).(node := SandboxTest);
  }

  lemma LeadsBlaming(run: seq<Answer>, p: Spot, t: Task) returns (longer: seq<Answer>)
    requires Leads(100, run, p) && Blamable(p, t)
    ensures Leads(100, longer, Blamed(p, t))
  {
    var s := LeadsTo(100, run, p);
    BlamesWell(s, p, t);
    longer := run + [Blame(s, t.id)];
    hide Sits, LegalRun, Exec, Legal, Step, Blamable;
    LeadsOn(100, run, p, Blame(s, t.id), Blamed(p, t));
  }

  lemma StillRetriable(s: State, p: Spot, t: Task)
    requires Sits(s, p) && p.node == SandboxTest && p.tasks == [t] && p.suite == Some(SuiteFailed)
    requires t.status == Succeeded && t.deps == {} && t.retries == 1 && t.maxRetries == Synthesising.DEFAULT_MAX_RETRIES
    requires p.maxCalls == 100 && p.calls == 4 && p.round == 1
    ensures CanRetry(s)
  {
    assert Retriable(s.tasks, 0);
  }

  /** The hard stop that is not one: a run reaches a refused sandbox visit, and two answers later the
      task that emitted the refused path is back with the editors. */
  lemma RefusalIsRetried() returns (run: seq<Answer>, outcome: Answer, blame: Answer)
    ensures LegalRun(Opening(100), run + [outcome] + [blame]) && LegalRun(Opening(100), run)
    ensures IsRefused(Exec(Opening(100), run))
    ensures Exec(Opening(100), run + [outcome] + [blame]).node.Editors?
  {
    var p, t;
    run, p, t := RefusedRun();
    var s := LeadsTo(100, run, p);
    Refuses(s, p, t);
    StillRetriable(s, p, t);
    RefusalRetriedExactly(Settings(100), map[], run, NotRun, map[]);
    outcome := Tested(NotRun, map[]);
    blame := WentBack(s);
    OneMore(Opening(100), run, outcome);
    OneMore(Opening(100), run + [outcome], blame);
    hide *;
  }

  lemma WentBack(s: State) returns (blame: Answer)
    requires s.node == SandboxTest && RetriedAfter(s, NotRun, map[])
    ensures var a := Tested(NotRun, map[]);
      Legal(s, a) && Legal(Step(s, a), blame) && Step(Step(s, a), blame).node.Editors?
  {
    blame :| Legal(RunSandbox(s, NotRun, map[]), blame) && Step(RunSandbox(s, NotRun, map[]), blame).node.Editors?;
  }

  // ---- a dispatch that comes out empty ----

  const LATE: Answer := Routed(999.0, 1000.0)

  lemma LateDispatch(s: State, maxCalls: int)
    requires s.budget == Purse(maxCalls).(calls := 1) && maxCalls > 1 && Ready(s.tasks) != [] && DistinctTasks(s.tasks)
    ensures Dispatch(s, 999.0, 1000.0, SandboxTest).node == End
  {
    RouteExact(s.tasks, s.budget, 999.0, 1000.0);
    hide Ready, RouteToEditors;
  }

  lemma EndsEmpty(s: State)
    requires Sits(s, Spot(100, Synthesis, [], [], None, 1, 0, 0)) && s.units == UnitsFor(SmallPlans.Alone)
    ensures Legal(s, LATE) && Step(s, LATE).node == End && Step(s, LATE).phase == Editing
  {
    hide Ready, WellFormed, CodeStored, UnitsFor, PlanFor, Planned, RouteToEditors;
    var b := OneTask();
    PlansOne(s, b);
    LateDispatch(Planned(s), 100);
  }

  /** The wall clock passes its limit between the router's two readings: a run ends right after planning,
      while its phase says EDITING and its task waits. */
  lemma DispatchCanBeEmpty()
    ensures var run := [Extracted(0.0, SourcesOf(SmallPlans.Alone))] + [LATE];
      && LegalRun(Opening(100), run) && Exec(Opening(100), run).node == End && Exec(Opening(100), run).phase == Editing
  {
    var s, a := Opening(100), Extracted(0.0, SourcesOf(SmallPlans.Alone));
    ReadsFiles(SmallPlans.Alone, 100);
    EndsEmpty(Step(s, a));
    hide Step, Legal, LegalRun, Exec, Sits, UnitsFor;
    OneStep(s, a);
    OneMore(s, [a], LATE);
  }

  lemma PlansOne(s: State, b: Task)
    requires s.tasks == [] && s.units == UnitsFor(SmallPlans.Alone)
    requires PlanFor(SmallPlans.Alone) == [b] && FreshTask(b, {})
    ensures Planned(s) == s.(tasks := [b], phase := Editing) && Ready([b]) == [b]
  {
    UnitsAreSmall(SmallPlans.Alone);
    MergeFresh([b]);
    assert ReadyUpTo([b], 0) == [];
    hide UnitsFor;
  }

  // ---- more than one call over the cost ceiling ----

  const DEAR: real := 100.0

  function Dearly(id: string): Answer {
    Branch(id, 0.0, Some(Generation(ONE_FILE, DEAR)))
  }

  /** The first branch in flight succeeds, at ten times the ceiling. */
  lemma CostsDearly(s: State, i: nat)
    requires WellFormed(s) && s.node.Editors? && s.node.since == 0.0 && s.clock == 0.0 && s.budget == Purse(100).(calls := 1)
    requires s.node.pending != [] && i < |s.tasks| && s.node.pending[0] == s.tasks[i]
    ensures Legal(s, Dearly(s.tasks[i].id))
    ensures var t := Step(s, Dearly(s.tasks[i].id));
      && WellFormed(t) && t.clock == 0.0 && t.budget == s.budget && t.consumed == s.consumed
      && t.deltas == s.deltas + [DEAR] && t.tasks == s.tasks[i := Finished(s.tasks[i])]
      && t.node == if |s.node.pending| == 1 then Reconcile else Editors(s.node.pending[1..], 0.0)
  {
    var a := Dearly(s.tasks[i].id);
    assert HasTask(s.node.pending, a.id) && Legal(s, a);
    WellFormedStep(s, a);
    Affords(100, 1, 1);
    var j := BranchEffect(s, a);
    assert j == i;
    hide WellFormed, Exhausted, AffordableCalls;
  }

  lemma FoldsDearly(s: State, deltas: seq<real>)
    requires s.node == Reconcile && s.clock == 0.0 && s.budget == Purse(100).(calls := 1)
    requires s.deltas == deltas + [DEAR] + [DEAR] && s.consumed == |deltas| && DistinctTasks(s.tasks)
    requires forall i :: 0 <= i < |s.tasks| ==> s.tasks[i].status == Succeeded
    ensures Legal(s, FOLD)
    ensures var t := Step(s, FOLD);
      t.node == SandboxTest && t.budget.spent == DEAR + DEAR && t.budget.maxUsd == s.budget.maxUsd
  {
    ReadyNone(s.tasks);
    assert Unconsumed(s.deltas, s.consumed) == [DEAR] + [DEAR];
    RecordAllTotals(s.budget, [DEAR] + [DEAR]);
    SumAppend([DEAR], [DEAR]);
    SumOne(DEAR);
    hide Ready, RecordAll, Sum, DistinctTasks;
  }

  lemma DearWave(s: State, p: Spot, b: Task, a: Task)
    requires Sits(s, p) && p == Spot(100, Editors([b, a], 0.0), [b, a], [], None, 1, 0, 0) && a.id != b.id
    ensures Legal(s, Dearly(b.id)) && Legal(Step(s, Dearly(b.id)), Dearly(a.id))
    ensures var t := Step(Step(s, Dearly(b.id)), Dearly(a.id));
      && Legal(t, FOLD) && Step(t, FOLD).node == SandboxTest
      && Step(t, FOLD).budget.spent == DEAR + DEAR && Step(t, FOLD).budget.maxUsd == 10.0
  {
    CostsDearly(s, 0);
    var s1 := Step(s, Dearly(b.id));
    assert s1.tasks == [Finished(b), a];
    hide Step, CodeStored, Legal, WellFormed;
    CostsDearly(s1, 1);
    var s2 := Step(s1, Dearly(a.id));
    assert s2.tasks == [Finished(b), Finished(a)];
    FoldsDearly(s2, s.deltas);
  }

  /** Two branches go out on a guessed reserve, the extraction having been free, and each costs ten times the
      ceiling of 10: the books are folded with more than one such call over it. */
  lemma OvershootCanExceedOneCall() returns (run: seq<Answer>, b: string, a: string)
    ensures run == Begin(SmallPlans.Pair(false)) + [Dearly(b)] + [Dearly(a)] + [FOLD] && LegalRun(Opening(100), run)
    ensures var s := Exec(Opening(100), run);
      s.node == SandboxTest && s.budget.spent > s.budget.maxUsd + DEAR
  {
    var t, u := TwoTasks(false);
    ReadyTwo(t, u);
    b, a := t.id, u.id;
    var start, begun := Opening(100), Begin(SmallPlans.Pair(false));
    var p := Spot(100, Editors([t, u], 0.0), [t, u], [], None, 1, 0, 0);
    hide Ready, PlanFor, Begin, Sits, Legal, Step, LegalRun, Exec, Leads;
    Begins(SmallPlans.Pair(false), 100);
    var s := LeadsTo(100, begun, p);
    DearWave(s, p, t, u);
    OneMore(start, begun, Dearly(b));
    OneMore(start, begun + [Dearly(b)], Dearly(a));
    run := begun + [Dearly(b)] + [Dearly(a)] + [FOLD];
    OneMore(start, begun + [Dearly(b)] + [Dearly(a)], FOLD);
  }

  // ---- and a run that ends well ----

  lemma AloneEndowed()
    ensures Progress.Endowed(Settings(100), SourcesOf(SmallPlans.Alone), [0], 0.0)
  {
    UnitsAreSmall(SmallPlans.Alone);
    AlonePlanned();
    hide Synthesising.Synthesize, Comprehending.Comprehend, Progress.PlanOf;
    assert Times(1, 0.0) == 0.0;
  }

  lemma AlonePlanned()
    ensures var plan := Progress.PlanOf(Settings(100), SourcesOf(SmallPlans.Alone)); |plan| == 1 && Acyclic(plan, [0])
    ensures Progress.ComprehensionOf(Settings(100), SourcesOf(SmallPlans.Alone))
      == Comprehending.Comprehend(SourcesOf(SmallPlans.Alone), 10.0)
  {
    var b := OneTask();
    assert Remaining(Purse(100)) == 10.0;
    hide Synthesising.Synthesize, Comprehending.Comprehend, SourcesOf;
    assert Progress.PlanOf(Settings(100), SourcesOf(SmallPlans.Alone)) == [b];
  }

  lemma SomeRunPublishes() returns (run: seq<Answer>)
    ensures LegalRun(Opening(100), run)
    ensures Exec(Opening(100), run).phase == Phase.Done && |Exec(Opening(100), run).h.publishCalls| == 1
  {
    AloneEndowed();
    run := Progress.GoodRunsExist(Settings(100), map[], SourcesOf(SmallPlans.Alone), [0], 0.0);
    ConfigRun(Opening(100), run);
  }
}
