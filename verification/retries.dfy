/** Exactly when an analysis can send the run back to the editors, and exactly when a run ends while its
    phase says EDITING. */
module Retries {
  import opened OrderedDict
  import opened PlanTypes
  import opened Budgeting
  import opened Diffs
  import opened Workspaces
  import opened Scheduling
  import opened RunTypes
  import opened Machine
  import opened Shape
  import opened Attempts
  import opened Publication
  import opened Rounds
  import opened FrontEnd
  import EA = ErrorAnalysing
  import Synthesising

  predicate NoSelfDeps(tasks: seq<Task>) {
    forall i :: 0 <= i < |tasks| ==> tasks[i].id !in tasks[i].deps
  }

  /** A task that could be generated again at once. */
  predicate Retriable(tasks: seq<Task>, i: nat) {
    i < |tasks| && tasks[i].status == Succeeded && tasks[i].retries + 1 <= tasks[i].maxRetries && DepsMet(tasks, tasks[i])
  }

  /** What the run can check before it asks the analyzer. */
  predicate CanRetry(s: State) {
    && s.suite.Some? && s.retryRound + 1 < MaxTrials(s.cfg)
    && s.budget.spent < s.budget.maxUsd && s.budget.calls + 1 < s.budget.maxCalls
    && s.clock - s.budget.startedAt < s.budget.maxSeconds
    && exists i :: 0 <= i < |s.tasks| && Retriable(s.tasks, i)
  }

  lemma ReadyAt(tasks: seq<Task>, i: nat)
    requires DistinctTasks(tasks) && i < |tasks| && IsWaiting(tasks[i]) && DepsMet(tasks, tasks[i])
    ensures Ready(tasks) != []
  {
    ReadyUpToExact(tasks, |tasks|);
  }

  /** Dependencies stay met when no task they name stops being SUCCEEDED. */
  lemma DepsCarry(from: seq<Task>, to: seq<Task>, t: Task)
    requires DistinctTasks(from) && DistinctTasks(to) && |from| == |to| && DepsMet(from, t)
    requires forall j :: 0 <= j < |from| ==> from[j].id == to[j].id
    requires forall j :: 0 <= j < |from| && from[j].id in t.deps && from[j].status == Succeeded ==> to[j].status == Succeeded
    ensures DepsMet(to, t)
  {
    forall d | d in t.deps ensures StatusOf(to, d) == Some(Succeeded) {
      assert StatusOf(from, d) == Some(Succeeded);
      LastOfIn(TaskEntries(from), d);
      var j :| 0 <= j < |from| && from[j].id == d && from[j].status == Succeeded;
      StatusAt(to, j);
    }
  }

  lemma SomeReady(tasks: seq<Task>) returns (i: nat)
    requires DistinctTasks(tasks) && Ready(tasks) != []
    ensures i < |tasks| && IsWaiting(tasks[i]) && DepsMet(tasks, tasks[i])
  {
    ReadyUpToExact(tasks, |tasks|);
    i :| 0 <= i < |tasks| && IsWaiting(tasks[i]) && DepsMet(tasks, tasks[i]);
  }

  lemma WaitsAfter(s: State, a: Answer, i: nat)
    requires WellFormed(s) && s.node == ErrorAnalysis && Legal(s, a) && i < |s.tasks|
    ensures var after := Judged(s, a).tasks;
      i < |after| && after[i].deps == s.tasks[i].deps
      && (IsWaiting(after[i]) && !IsWaiting(s.tasks[i]) ==>
            s.tasks[i].status == Succeeded && s.tasks[i].retries + 1 <= s.tasks[i].maxRetries)
  {
    MoveAnalysis(s, a);
    assert Moves(s, a, s.tasks[i], Judged(s, a).tasks[i]);
  }

  /** What an analysis sends back was retriable before it. */
  lemma SentBackWasRetriable(s: State, a: Answer) returns (i: nat)
    requires WellFormed(s) && s.node == ErrorAnalysis && Legal(s, a) && Ready(s.tasks) == []
    requires Ready(Judged(s, a).tasks) != []
    ensures Retriable(s.tasks, i)
  {
    var after := Judged(s, a).tasks;
    MoveAnalysis(s, a);
    ClosedCarries(s.tasks, after);
    NoNewSuccess(s, a);
    hide Judged, Legal, Moves;
    i := SomeReady(after);
    WaitsAfter(s, a, i);
    DepsCarry(after, s.tasks, after[i]);
    if IsWaiting(s.tasks[i]) {
      ReadyAt(s.tasks, i);
    }
  }

  lemma NoNewSuccess(s: State, a: Answer)
    requires WellFormed(s) && s.node == ErrorAnalysis && Legal(s, a)
    ensures var after := Judged(s, a).tasks;
      |after| == |s.tasks| && forall j :: 0 <= j < |after| && after[j].status == Succeeded ==> s.tasks[j].status == Succeeded
  {
    var after := Judged(s, a).tasks;
    MoveAnalysis(s, a);
    forall j | 0 <= j < |after| && after[j].status == Succeeded ensures s.tasks[j].status == Succeeded {
      assert Moves(s, a, s.tasks[j], after[j]);
    }
  }

  /** Going back to the editors takes everything `CanRetry` asks for. */
  lemma RetryNeeds(s: State, a: Answer)
    requires WellFormed(s) && s.node == ErrorAnalysis && Legal(s, a) && Ready(s.tasks) == []
    requires Dispatch(Judged(s, a), a.now1, a.now2, End).node.Editors?
    ensures CanRetry(s)
  {
    if s.retryRound + 1 >= MaxTrials(s.cfg) {
      CapLeavesNothing(s, a);
    }
    var i := SentBackWasRetriable(s, a);
    ReadyNeedsRetry(s, a);
    RetryIsCharged(s, a);
  }

  lemma RetryIsCharged(s: State, a: Answer)
    requires s.node == ErrorAnalysis && Legal(s, a) && EA.AnyRetrying(AnalysisOf(s, a).tasks)
    requires !Exhausted(Judged(s, a).budget, a.now1)
    ensures s.suite.Some? && s.budget.spent < s.budget.maxUsd && s.budget.calls + 1 < s.budget.maxCalls
    ensures s.clock - s.budget.startedAt < s.budget.maxSeconds
  {
    assert AnalysisOf(s, a).called;
  }

  /** The answer that blames one task and costs nothing. */
  function Blame(s: State, id: string): Answer {
    Analysed(s.clock, Some(EA.Response([EA.Analysis(id, true)], 0.0)), s.clock, s.clock)
  }

  function SentenceOf(s: State, a: Answer, i: nat): Task
    requires a.Analysed? && i < |s.tasks|
  {
    EA.Sentence(s.tasks[i], s.results, s.suite, !Exhausted(s.budget, a.now),
                EA.CapHit(s.retryRound, s.cfg.maxRounds), a.response)
  }

  /** Each task becomes its sentence. */
  lemma JudgedAt(s: State, a: Answer, i: nat)
    requires WellFormed(s) && a.Analysed? && i < |s.tasks|
    ensures |Judged(s, a).tasks| == |s.tasks| && Judged(s, a).tasks[i] == SentenceOf(s, a, i)
  {
    EA.AnalysisExact(s.tasks, s.results, s.suite, s.budget, s.retryRound, s.cfg.maxRounds, a.now, a.response, i);
  }

  lemma BlameSentence(s: State, i: nat, j: nat)
    requires WellFormed(s) && CodeStored(s) && CanRetry(s) && Retriable(s.tasks, i) && j < |s.tasks|
    ensures var after := Judged(s, Blame(s, s.tasks[i].id)).tasks;
      |after| == |s.tasks| && after[j] ==
        if j == i then s.tasks[i].(status := Retrying, retries := s.tasks[i].retries + 1) else s.tasks[j]
  {
    hide Judged, CodeStored, EA.HasCode, DepsMet, Closed, EA.Sentence;
    JudgedAt(s, Blame(s, s.tasks[i].id), j);
    if j == i {
      HasCodeStored(s, i);
    }
    SentenceBlamed(s.tasks[j], s.results, s.suite, s.tasks[i].id);
  }

  lemma SentenceBlamed(t: Task, results: seq<EditorResult>, suite: Option<Outcome>, id: string)
    requires suite.Some? && (t.id == id ==> EA.IsCandidate(t, results) && t.retries + 1 <= t.maxRetries)
    ensures EA.Sentence(t, results, suite, true, false, Some(EA.Response([EA.Analysis(id, true)], 0.0)))
      == if t.id == id then t.(status := Retrying, retries := t.retries + 1) else t
  {
    OneNamed(id, t.id);
  }

  lemma OneNamed(id: string, other: string)
    ensures LastOf(EA.AnalysisEntries([EA.Analysis(id, true)]), other) == if id == other then Some(EA.Analysis(id, true)) else None
  {
    var named: seq<Entry<EA.Analysis>> := EA.AnalysisEntries([EA.Analysis(id, true)]);
    assert named[..0] == [];
  }

  lemma HasCodeStored(s: State, i: nat)
    requires CodeStored(s) && i < |s.tasks| && s.tasks[i].status == Succeeded
    ensures EA.HasCode(s.results, s.tasks[i].id)
  {
    assert HasLatestCode(s, s.tasks[i].id);
    var es: seq<Entry<EditorResult>> := ResultEntries(s.results);
    LastOfIn(es, s.tasks[i].id);
    var k :| 0 <= k < |es| && es[k].key == s.tasks[i].id;
    assert s.results[k].taskId == s.tasks[i].id;
  }

  lemma BlameReady(s: State, i: nat)
    requires WellFormed(s) && CodeStored(s) && NoSelfDeps(s.tasks) && CanRetry(s) && Retriable(s.tasks, i)
    ensures var after := Judged(s, Blame(s, s.tasks[i].id)).tasks; DistinctTasks(after) && Ready(after) != []
  {
    var after := Judged(s, Blame(s, s.tasks[i].id)).tasks;
    forall j | 0 <= j < |s.tasks|
      ensures |after| == |s.tasks|
      ensures after[j] == if j == i then s.tasks[i].(status := Retrying, retries := s.tasks[i].retries + 1) else s.tasks[j]
    {
      BlameSentence(s, i, j);
    }
    BlameSentence(s, i, i);
    DepsCarry(s.tasks, after, after[i]);
    ReadyAt(after, i);
  }

  lemma BlameAffordable(s: State, id: string)
    requires CanRetry(s) && s.node == ErrorAnalysis
    ensures Legal(s, Blame(s, id)) && !Exhausted(Judged(s, Blame(s, id)).budget, s.clock)
  {
  }

  lemma RetryHappens(s: State, i: nat)
    requires WellFormed(s) && CodeStored(s) && NoSelfDeps(s.tasks) && s.node == ErrorAnalysis
    requires CanRetry(s) && Retriable(s.tasks, i)
    ensures var a := Blame(s, s.tasks[i].id);
      Legal(s, a) && Dispatch(Judged(s, a), a.now1, a.now2, End).node.Editors?
  {
    var a := Blame(s, s.tasks[i].id);
    BlameReady(s, i);
    BlameAffordable(s, s.tasks[i].id);
    var j := Judged(s, a);
    AffordableIsLargest(j.budget, |Ready(j.tasks)|, s.clock);
    hide Judged, Ready, CanRetry, WellFormed, CodeStored, NoSelfDeps, Retriable, Exhausted, AffordableCalls;
  }

  ghost predicate CanGoBack(s: State) {
    exists a :: Legal(s, a) && Step(s, a).node.Editors?
  }

  lemma GoBackExactly(s: State)
    requires WellFormed(s) && CodeStored(s) && NoSelfDeps(s.tasks) && s.node == ErrorAnalysis && Ready(s.tasks) == []
    ensures CanGoBack(s) <==> CanRetry(s)
  {
    if a :| Legal(s, a) && Step(s, a).node.Editors? {
      RetryNeeds(s, a);
    }
    if CanRetry(s) {
      var i :| 0 <= i < |s.tasks| && Retriable(s.tasks, i);
      RetryHappens(s, i);
      assert Step(s, Blame(s, s.tasks[i].id)).node.Editors?;
    }
  }

  lemma PlannedApart(s: State)
    requires PlanKept(s) && (Unplanned(s.node) ==> s.tasks == [])
    ensures NoSelfDeps(s.tasks)
  {
    if !Unplanned(s.node) {
      Synthesising.FastApiInjective();
      Synthesising.PlanIsFresh(Synthesising.FastApi(), s.units);
    }
  }

  /** What every reachable state keeps. */
  ghost predicate Reachable(s: State) {
    WellFormed(s) && CodeStored(s) && Ship(s) && RoundsHold(s) && EndingsHold(s) && NoSelfDeps(s.tasks)
  }

  lemma RunsReach(cfg: Config, files: Files, run: seq<Answer>)
    requires LegalRun(Init(cfg, files), run)
    ensures Reachable(Exec(Init(cfg, files), run)) && Exec(Init(cfg, files), run).cfg == cfg
  {
    var s0 := Init(cfg, files);
    WellFormedRun(s0, run);
    CodeRun(s0, run);
    ShipRun(s0, run);
    RoundsRun(s0, run);
    EndingsRun(s0, run);
    PlanRun(s0, run);
    PlannedApart(Exec(s0, run));
    hide PlanKept, CodeStored, Ship, RoundsHold, EndingsHold, NoSelfDeps;
  }

  /** In every run, some answers of the outside make an analysis send work back to the editors if and only
      if: a suite result is stored, the round cap is not hit, the budget can pay for the analyzer and one
      call more, time is left, and some SUCCEEDED task below its retry cap has all its dependencies
      SUCCEEDED. */
  lemma RetryExactly(cfg: Config, files: Files, run: seq<Answer>)
    requires LegalRun(Init(cfg, files), run) && Exec(Init(cfg, files), run).node == ErrorAnalysis
    ensures CanGoBack(Exec(Init(cfg, files), run)) <==> CanRetry(Exec(Init(cfg, files), run))
  {
    RunsReach(cfg, files, run);
    GoBackExactly(Exec(Init(cfg, files), run));
  }

  ghost predicate RetriedAfter(s: State, outcome: Outcome, after: Files) {
    CanGoBack(RunSandbox(s, outcome, after))
  }

  predicate IsRefused(s: State) {
    && s.node == SandboxTest && Current(s) != []
    && Prepare(s.cfg.root, s.files, StalePaths(s.results, s.tasks), Current(s)).Refused?
  }

  lemma RefusedKeeps(s: State, outcome: Outcome, after: Files)
    requires IsRefused(s) && Ship(s)
    ensures var t := RunSandbox(s, outcome, after);
      t == s.(node := ErrorAnalysis, phase := RunFailed, files := t.files) && CanRetry(t) == CanRetry(s)
  {
  }

  /** A refused workspace is a hard stop exactly when, already at the visit, no suite result of an earlier
      visit is stored, or the round cap is hit, or the budget cannot pay two more calls, or no time is
      left, or no SUCCEEDED task below its cap has all its dependencies SUCCEEDED. Otherwise some answers
      make the run go back to the editors. */
  lemma RefusalRetriedExactly(cfg: Config, files: Files, run: seq<Answer>, outcome: Outcome, after: Files)
    requires LegalRun(Init(cfg, files), run) && IsRefused(Exec(Init(cfg, files), run))
    ensures var s := Exec(Init(cfg, files), run);
      RetriedAfter(s, outcome, after) <==> CanRetry(s)
  {
    RunsReach(cfg, files, run);
    RefusedRetry(Exec(Init(cfg, files), run), outcome, after);
  }

  lemma RefusedRetry(s: State, outcome: Outcome, after: Files)
    requires Reachable(s) && IsRefused(s)
    ensures RetriedAfter(s, outcome, after) <==> CanRetry(s)
  {
    var t := RunSandbox(s, outcome, after);
    RefusedKeeps(s, outcome, after);
    CodeCarries(s, t);
    GoBackExactly(t);
  }

  lemma CodeCarries(s: State, t: State)
    requires WellFormed(s) && CodeStored(s) && !t.node.Editors? && !Unplanned(t.node)
    requires t.tasks == s.tasks && t.results == s.results && t.h.answers == s.h.answers
    ensures WellFormed(t) && CodeStored(t)
  {
    forall i | 0 <= i < |t.tasks| && t.tasks[i].status == Succeeded ensures HasLatestCode(t, t.tasks[i].id) {
      assert HasLatestCode(s, s.tasks[i].id);
    }
  }

  // ---- the phase at the end ----

  /** An analysis asks for a retry of task `i` the code grants: of a candidate below its cap. */
  predicate AsksFor(tasks: seq<Task>, results: seq<EditorResult>, x: EA.Analysis, i: nat) {
    && i < |tasks| && x.taskId == tasks[i].id && x.retryable
    && EA.IsCandidate(tasks[i], results) && tasks[i].retries + 1 <= tasks[i].maxRetries
  }

  predicate AskedBy(tasks: seq<Task>, results: seq<EditorResult>, x: EA.Analysis) {
    exists i :: 0 <= i < |tasks| && AsksFor(tasks, results, x, i)
  }

  predicate AskedByAny(tasks: seq<Task>, results: seq<EditorResult>, analyses: seq<EA.Analysis>) {
    exists k :: 0 <= k < |analyses| && AskedBy(tasks, results, analyses[k])
  }

  predicate Asked(s: State, a: Answer)
    requires a.Analysed?
  {
    && s.suite.Some? && !Exhausted(s.budget, a.now) && a.response.Some? && s.retryRound + 1 < MaxTrials(s.cfg)
    && AskedByAny(s.tasks, s.results, a.response.value.analyses)
  }

  lemma FoundExactly(tasks: seq<Task>, results: seq<EditorResult>, x: EA.Analysis)
    requires DistinctTasks(tasks)
    ensures var found := LastOf(TaskEntries(EA.Candidates(tasks, results)), x.taskId);
      AskedBy(tasks, results, x) <==> found.Some? && EA.Judge(found.value, x.retryable, false).status == Retrying
  {
    var c := EA.Candidates(tasks, results);
    var es: seq<Entry<Task>> := TaskEntries(c);
    LastOfIn(es, x.taskId);
    if LastOf(es, x.taskId).Some? {
      var t := LastOf(es, x.taskId).value;
      var k :| 0 <= k < |es| && es[k] == Entry(x.taskId, t);
      assert c[k] == t && t in c;
      EA.CandidatesHas(tasks, results, t);
      var i :| 0 <= i < |tasks| && tasks[i] == t;
      assert AsksFor(tasks, results, x, i) <==> x.retryable && t.retries + 1 <= t.maxRetries;
      if j :| 0 <= j < |tasks| && AsksFor(tasks, results, x, j) {
        assert j == i;
      }
    } else if i :| 0 <= i < |tasks| && AsksFor(tasks, results, x, i) {
      EA.CandidateAt(tasks, results, i);
    }
  }

  lemma AnyRetryingAppend(rest: seq<Task>, t: Task)
    ensures EA.AnyRetrying(rest + [t]) <==> EA.AnyRetrying(rest) || t.status == Retrying
  {
    assert (rest + [t])[|rest|] == t;
    if EA.AnyRetrying(rest) {
      var i :| 0 <= i < |rest| && rest[i].status == Retrying;
      assert (rest + [t])[i] == rest[i];
    }
  }

  lemma AskedAppend(tasks: seq<Task>, results: seq<EditorResult>, analyses: seq<EA.Analysis>)
    requires analyses != []
    ensures var n := |analyses| - 1;
      AskedByAny(tasks, results, analyses) <==>
        AskedByAny(tasks, results, analyses[..n]) || AskedBy(tasks, results, analyses[n])
  {
    var n := |analyses| - 1;
    if AskedByAny(tasks, results, analyses[..n]) {
      var k :| 0 <= k < n && AskedBy(tasks, results, analyses[..n][k]);
      assert AskedBy(tasks, results, analyses[k]);
    }
    if k :| 0 <= k < n && AskedBy(tasks, results, analyses[k]) {
      assert AskedBy(tasks, results, analyses[..n][k]);
    }
  }

  /** A RETRYING verdict is emitted exactly when some analysis asks for one the code grants, even if a
      later analysis of the same answer overrules it. */
  lemma {:induction false} VerdictsAsked(tasks: seq<Task>, results: seq<EditorResult>, analyses: seq<EA.Analysis>)
    requires DistinctTasks(tasks)
    ensures EA.AnyRetrying(EA.Verdicts(EA.Candidates(tasks, results), analyses, false))
      <==> AskedByAny(tasks, results, analyses)
  {
    if analyses != [] {
      var n, c := |analyses| - 1, EA.Candidates(tasks, results);
      VerdictsAsked(tasks, results, analyses[..n]);
      AskedAppend(tasks, results, analyses);
      FoundExactly(tasks, results, analyses[n]);
      var found := LastOf(TaskEntries(c), analyses[n].taskId);
      if found.Some? {
        AnyRetryingAppend(EA.Verdicts(c, analyses[..n], false), EA.Judge(found.value, analyses[n].retryable, false));
      }
    }
  }

  lemma {:induction false} NoneRetryingAtCap(c: seq<Task>, analyses: seq<EA.Analysis>)
    ensures !EA.AnyRetrying(EA.Verdicts(c, analyses, true))
  {
    if analyses != [] {
      NoneRetryingAtCap(c, analyses[..|analyses| - 1]);
    }
  }

  lemma EmittedExactly(s: State, a: Answer)
    requires WellFormed(s) && a.Analysed?
    ensures EA.AnyRetrying(AnalysisOf(s, a).tasks) <==> Asked(s, a)
  {
    var c := EA.Candidates(s.tasks, s.results);
    if a.response.Some? {
      VerdictsAsked(s.tasks, s.results, a.response.value.analyses);
      NoneRetryingAtCap(c, a.response.value.analyses);
      if c == [] {
        NoCandidateAsks(s, a);
      }
    }
  }

  lemma NoCandidateAsks(s: State, a: Answer)
    requires WellFormed(s) && a.Analysed? && a.response.Some? && EA.Candidates(s.tasks, s.results) == []
    ensures !AskedByAny(s.tasks, s.results, a.response.value.analyses)
  {
    EA.CandidatesExact(s.tasks, s.results);
  }

  // ---- the last step of a run ----

  /** Which last steps leave the phase EDITING. From planning and reconciliation a run can only end by a
      dispatch that came out empty; from analysis it depends on what the analyzer asked for. */
  predicate LeavesEditing(s: State, a: Answer)
    requires Legal(s, a)
  {
    s.node == Synthesis || s.node == Reconcile || (s.node == ErrorAnalysis && Asked(s, a))
  }

  lemma AnalysisPhase(s: State, a: Answer)
    requires WellFormed(s) && s.node == ErrorAnalysis && Legal(s, a)
    ensures Dispatch(Judged(s, a), a.now1, a.now2, End).phase == if Asked(s, a) then Editing else AwaitingHuman
  {
    EmittedExactly(s, a);
    var c := EA.Candidates(s.tasks, s.results);
  }

  lemma EndedEmpty(s: State, now1: real, now2: real)
    requires DistinctTasks(s.tasks) && Dispatch(s, now1, now2, SandboxTest).node == End
    ensures Ready(s.tasks) != []
  {
    RouteExact(s.tasks, s.budget, now1, now2);
  }

  lemma RoutedPhase(s: State, a: Answer)
    requires WellFormed(s) && EndingsHold(s) && Legal(s, a) && Routes(s.node) && Step(s, a).node == End
    ensures Step(s, a).phase == Editing <==> LeavesEditing(s, a)
  {
    match s.node
    case Synthesis =>
      PlannedPhase(s);
      EndedEmpty(Planned(s), a.now1, a.now2);
    case Reconcile => EndedEmpty(Reconciled(s), a.now1, a.now2);
    case ErrorAnalysis => AnalysisPhase(s, a);
  }

  lemma OtherPhase(s: State, a: Answer)
    requires Reachable(s) && Legal(s, a) && !Routes(s.node) && Step(s, a).node == End
    ensures Step(s, a).phase != Editing
  {
    if Late(s.node) {
      EndingsStep(s, a);
      ShipStep(s, a);
      var e :| EndsAs(Step(s, a), e);
      QuietStep(s, a);
      SuiteStays(s, a);
    } else {
      OnlyAbort(s, a);
    }
  }

  lemma SuiteStays(s: State, a: Answer)
    requires Late(s.node) && Legal(s, a)
    ensures Step(s, a).suite == s.suite
  {
  }

  lemma OnlyAbort(s: State, a: Answer)
    requires Legal(s, a) && !Routes(s.node) && !Late(s.node) && Step(s, a).node == End
    ensures Step(s, a).phase == AbortedBudget
  {
    match s.node
    case Comprehension =>
    case Editors(_, _) =>
    case SandboxTest =>
    case BudgetAbort =>
  }

  /** The phase at the end. A run ends while its phase says EDITING if and only if its last step is an empty
      dispatch after planning or reconciliation, or an analysis whose answer asks for some retry the code
      grants: of a SUCCEEDED task with code, below its cap, with the round cap not hit and the budget not
      exhausted. */
  lemma EditingAtEnd(cfg: Config, files: Files, run: seq<Answer>, a: Answer)
    requires LegalRun(Init(cfg, files), run) && Legal(Exec(Init(cfg, files), run), a)
    requires Step(Exec(Init(cfg, files), run), a).node == End
    ensures var s := Exec(Init(cfg, files), run);
      Step(s, a).phase == Editing <==> LeavesEditing(s, a)
  {
    RunsReach(cfg, files, run);
    PhaseAtEnd(Exec(Init(cfg, files), run), a);
  }

  lemma PhaseAtEnd(s: State, a: Answer)
    requires Reachable(s) && Legal(s, a) && Step(s, a).node == End
    ensures Step(s, a).phase == Editing <==> LeavesEditing(s, a)
  {
    if Routes(s.node) {
      RoutedPhase(s, a);
    } else {
      OtherPhase(s, a);
    }
  }

  // ---- when an analysis can end a run while editing ----

  /** What the run can check before it asks the analyzer. */
  predicate CanAskInVain(s: State) {
    && s.suite.Some? && s.retryRound + 1 < MaxTrials(s.cfg) && !Exhausted(s.budget, s.clock)
    && exists i :: 0 <= i < |s.tasks| && BelowCap(s, i)
  }

  predicate BelowCap(s: State, i: nat) {
    i < |s.tasks| && EA.IsCandidate(s.tasks[i], s.results) && s.tasks[i].retries + 1 <= s.tasks[i].maxRetries
  }

  /** Two analyses of one task that contradict each other, for free. */
  function Contradict(s: State, id: string): Answer {
    Analysed(s.clock, Some(EA.Response([EA.Analysis(id, true), EA.Analysis(id, false)], 0.0)), s.clock, s.clock)
  }

  lemma BothNamed(id: string, other: string)
    ensures LastOf(EA.AnalysisEntries([EA.Analysis(id, true), EA.Analysis(id, false)]), other)
      == if id == other then Some(EA.Analysis(id, false)) else None
  {
    var named: seq<Entry<EA.Analysis>> := EA.AnalysisEntries([EA.Analysis(id, true), EA.Analysis(id, false)]);
    assert named[..1] == EA.AnalysisEntries([EA.Analysis(id, true)]);
    OneNamed(id, other);
  }

  /** The later analysis decides: the task goes to a human, the others stay. */
  lemma Contradicted(s: State, i: nat, j: nat)
    requires WellFormed(s) && CanAskInVain(s) && BelowCap(s, i) && j < |s.tasks|
    ensures var after := Judged(s, Contradict(s, s.tasks[i].id)).tasks;
      |after| == |s.tasks| && after[j] ==
        if j == i then s.tasks[i].(status := NeedsHuman, retries := s.tasks[i].retries + 1) else s.tasks[j]
  {
    hide Judged, Closed, Exhausted;
    JudgedAt(s, Contradict(s, s.tasks[i].id), j);
    BothNamed(s.tasks[i].id, s.tasks[j].id);
  }

  lemma ContradictionStrands(s: State, i: nat)
    requires WellFormed(s) && CanAskInVain(s) && BelowCap(s, i) && s.node == ErrorAnalysis && Ready(s.tasks) == []
    ensures Ready(Judged(s, Contradict(s, s.tasks[i].id)).tasks) == []
  {
    var after := Judged(s, Contradict(s, s.tasks[i].id)).tasks;
    forall j | 0 <= j < |s.tasks|
      ensures |after| == |s.tasks|
      ensures after[j] == if j == i then s.tasks[i].(status := NeedsHuman, retries := s.tasks[i].retries + 1) else s.tasks[j]
    {
      Contradicted(s, i, j);
    }
    Contradicted(s, i, i);
    hide Judged, Exhausted, CanAskInVain, BelowCap;
    if Ready(after) != [] {
      var k := SomeReady(after);
      DepsCarry(after, s.tasks, after[k]);
      ReadyAt(s.tasks, k);
    }
  }

  ghost predicate CanEndEditing(s: State) {
    exists a :: Legal(s, a) && Step(s, a).node == End && Step(s, a).phase == Editing
  }

  lemma ContradictionEnds(s: State, i: nat)
    requires WellFormed(s) && CanAskInVain(s) && BelowCap(s, i) && s.node == ErrorAnalysis && Ready(s.tasks) == []
    ensures var a := Contradict(s, s.tasks[i].id);
      Legal(s, a) && Step(s, a).node == End && Step(s, a).phase == Editing
  {
    var a := Contradict(s, s.tasks[i].id);
    ContradictionStrands(s, i);
    AnalysisPhase(s, a);
    assert AsksFor(s.tasks, s.results, a.response.value.analyses[0], i);
    assert AskedBy(s.tasks, s.results, a.response.value.analyses[0]);
    hide Judged, Ready, WellFormed, Exhausted, AskedBy;
  }

  lemma EndingNeeds(s: State, a: Answer)
    requires WellFormed(s) && s.node == ErrorAnalysis && Legal(s, a) && Step(s, a).phase == Editing
    ensures CanAskInVain(s)
  {
    AnalysisPhase(s, a);
    hide Judged, Dispatch, WellFormed;
    var analyses := a.response.value.analyses;
    var k :| 0 <= k < |analyses| && AskedBy(s.tasks, s.results, analyses[k]);
    var i :| 0 <= i < |s.tasks| && AsksFor(s.tasks, s.results, analyses[k], i);
    assert BelowCap(s, i);
  }

  /** The same from what is known at the visit. In every run, some answer of the analyzer ends the run at this
      visit while its phase says EDITING if and only if a suite result is stored, the round cap is not hit,
      the budget is not exhausted, and some SUCCEEDED task with code is below its cap. */
  lemma EditingEndExactly(cfg: Config, files: Files, run: seq<Answer>)
    requires LegalRun(Init(cfg, files), run) && Exec(Init(cfg, files), run).node == ErrorAnalysis
    ensures CanEndEditing(Exec(Init(cfg, files), run)) <==> CanAskInVain(Exec(Init(cfg, files), run))
  {
    RunsReach(cfg, files, run);
    StrandsExactly(Exec(Init(cfg, files), run));
  }

  lemma StrandsExactly(s: State)
    requires WellFormed(s) && s.node == ErrorAnalysis && Ready(s.tasks) == []
    ensures CanEndEditing(s) <==> CanAskInVain(s)
  {
    if a :| Legal(s, a) && Step(s, a).node == End && Step(s, a).phase == Editing {
      EndingNeeds(s, a);
    }
    if CanAskInVain(s) {
      var i :| 0 <= i < |s.tasks| && BelowCap(s, i);
      ContradictionEnds(s, i);
    }
  }

  /** And what the analysis asked for was in vain: when an analysis ends the run otherwise than by an empty
      dispatch, each task sentenced to RETRYING has a dependency that the same answer (or an earlier
      failure) left other than SUCCEEDED. */
  lemma AskedInVain(s: State, a: Answer, i: nat)
    requires WellFormed(s) && s.node == ErrorAnalysis && Legal(s, a) && i < |s.tasks|
    requires var t := Dispatch(Judged(s, a), a.now1, a.now2, End); t.node == End && t.h.emptied == s.h.emptied && !s.h.emptied
    requires SentenceOf(s, a, i).status == Retrying
    ensures exists d :: d in s.tasks[i].deps && StatusOf(Judged(s, a).tasks, d) != Some(Succeeded)
  {
    var after := Judged(s, a).tasks;
    MoveAnalysis(s, a);
    ClosedCarries(s.tasks, after);
    JudgedAt(s, a, i);
    RouteExact(after, Judged(s, a).budget, a.now1, a.now2);
    if DepsMet(after, after[i]) {
      ReadyAt(after, i);
    }
  }
}
