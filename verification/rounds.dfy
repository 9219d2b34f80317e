/** The global round cap, and how runs end. */
module Rounds {
  import opened OrderedDict
  import opened PlanTypes
  import opened Budgeting
  import opened Diffs
  import opened Workspaces
  import opened Scheduling
  import opened RunTypes
  import opened Machine
  import opened Shape
  import opened Publication
  import EA = ErrorAnalysing
  import Comprehending

  /** The configured number of rounds, or five when none is configured (zero counts as none); one at least. */
  function MaxTrials(cfg: Config): int {
    match cfg.maxRounds
    case None => 5
    case Some(n) => if n == 0 then 5 else if n > 1 then n else 1
  }

  /** There is a round left for another sandbox visit. */
  predicate RoundLeft(s: State) {
    s.retryRound == 0 || s.retryRound < EffectiveRounds(s.cfg.maxRounds)
  }

  /** Sandbox and analysis start only when nothing is ready; the rounds used bound the runner calls. */
  predicate RoundsHold(s: State) {
    && ((s.node == SandboxTest || s.node == ErrorAnalysis) ==> Ready(s.tasks) == [])
    && |s.h.trials| <= MaxTrials(s.cfg)
    && (!Late(s.node) && s.node != End ==> RoundLeft(s))
    && (!Late(s.node) && s.node != End && s.node != ErrorAnalysis ==> |s.h.trials| <= s.retryRound)
    && (s.node == ErrorAnalysis ==> |s.h.trials| <= s.retryRound + 1)
  }

  /** At or past the cap analysis only takes tasks away, so nothing becomes ready. */
  lemma CapLeavesNothing(s: State, a: Answer)
    requires WellFormed(s) && s.node == ErrorAnalysis && Legal(s, a) && Ready(s.tasks) == []
    requires EA.CapHit(s.retryRound, s.cfg.maxRounds)
    ensures Ready(Judged(s, a).tasks) == []
  {
    var after := Judged(s, a).tasks;
    MoveAnalysis(s, a);
    ClosedCarries(s.tasks, after);
    forall i | 0 <= i < |s.tasks|
      ensures IsWaiting(after[i]) ==> IsWaiting(s.tasks[i])
      ensures after[i].status == Succeeded ==> s.tasks[i].status == Succeeded
    {
      assert Moves(s, a, s.tasks[i], after[i]);
    }
    StaysIdle(s.tasks, after);
  }

  lemma RoundsDispatch(s: State, now1: real, now2: real)
    requires RoundLeft(s) && |s.h.trials| <= s.retryRound && |s.h.trials| <= MaxTrials(s.cfg)
    ensures RoundsHold(Dispatch(s, now1, now2, SandboxTest))
  {
  }

  lemma RoundsAnalysis(s: State, a: Answer)
    requires WellFormed(s) && s.node == ErrorAnalysis && Legal(s, a) && RoundsHold(s)
    ensures RoundsHold(Dispatch(Judged(s, a), a.now1, a.now2, End))
  {
    if EA.CapHit(s.retryRound, s.cfg.maxRounds) {
      CapLeavesNothing(s, a);
      RoundsCapped(Judged(s, a), a.now1, a.now2);
    } else {
      RoundsGoOn(Judged(s, a), a.now1, a.now2);
    }
  }

  lemma RoundsCapped(s: State, now1: real, now2: real)
    requires Ready(s.tasks) == [] && |s.h.trials| <= MaxTrials(s.cfg)
    ensures RoundsHold(Dispatch(s, now1, now2, End))
  {
  }

  lemma RoundsGoOn(s: State, now1: real, now2: real)
    requires RoundLeft(s) && |s.h.trials| <= s.retryRound && |s.h.trials| <= MaxTrials(s.cfg)
    ensures RoundsHold(Dispatch(s, now1, now2, End))
  {
  }

  lemma RoundsQuiet(s: State, a: Answer)
    requires Quiet(s.node) && Legal(s, a) && RoundsHold(s)
    ensures RoundsHold(Step(s, a))
  {
    QuietStep(s, a);
    if s.node == SandboxTest {
      assert |Step(s, a).h.trials| <= |s.h.trials| + 1;
    }
  }

  lemma RoundsStep(s: State, a: Answer)
    requires WellFormed(s) && Legal(s, a) && RoundsHold(s)
    ensures RoundsHold(Step(s, a))
  {
    if Quiet(s.node) {
      RoundsQuiet(s, a);
    } else {
      match s.node
      case Synthesis => RoundsDispatch(Planned(s), a.now1, a.now2);
      case Reconcile => RoundsDispatch(Reconciled(s), a.now1, a.now2);
      case ErrorAnalysis => RoundsAnalysis(s, a);
      case _ =>
    }
  }

  lemma {:induction false} RoundsRun(s: State, run: seq<Answer>)
    requires WellFormed(s) && RoundsHold(s) && LegalRun(s, run)
    ensures WellFormed(Exec(s, run)) && RoundsHold(Exec(s, run)) && Exec(s, run).cfg == s.cfg
    decreases |run|
  {
    if run != [] {
      WellFormedStep(s, run[0]);
      RoundsStep(s, run[0]);
      ConfigStays(s, run[0]);
      RoundsRun(Step(s, run[0]), run[1..]);
    }
  }

  /** The runner is called at most as often as configured in any run: five times by default, at least once. */
  lemma RoundCap(cfg: Config, files: Files, run: seq<Answer>)
    requires LegalRun(Init(cfg, files), run)
    ensures |Exec(Init(cfg, files), run).h.trials| <= MaxTrials(cfg)
  {
    RoundsRun(Init(cfg, files), run);
  }

  /** An analysis at or past the configured round always ends the run, in every run. */
  lemma CapEndsRun(cfg: Config, files: Files, run: seq<Answer>, a: Answer)
    requires LegalRun(Init(cfg, files), run)
    requires var s := Exec(Init(cfg, files), run);
      s.node == ErrorAnalysis && Legal(s, a) && s.retryRound + 1 >= MaxTrials(cfg)
    ensures Step(Exec(Init(cfg, files), run), a).node == End
  {
    RoundsRun(Init(cfg, files), run);
    CapLeavesNothing(Exec(Init(cfg, files), run), a);
  }

  // ---- a refused workspace ----

  lemma CodeBehindDiffs(tasks: seq<Task>, results: seq<EditorResult>)
    requires DistinctTasks(tasks) && EffectiveDiffs(results, tasks) != []
    ensures EA.Candidates(tasks, results) != []
  {
    var diffs := EffectiveDiffs(results, tasks);
    EffectiveDiffsExact(results, tasks, diffs[0].path);
    var r :| r in EffectiveResults(results, tasks) && diffs[0] in r.diffs;
    EffectiveResultsExact(results, tasks, r);
    LastOfIn(ResultEntries(results), r.taskId);
    EA.CandidatesExact(tasks, results);
    var i :| 0 <= i < |tasks| && tasks[i].id == r.taskId && tasks[i].status == Succeeded;
    var k :| 0 <= k < |results| && ResultEntries(results)[k].key == r.taskId;
    assert EA.HasCode(results, tasks[i].id);
  }

  /** A refused workspace is not the hard stop the sandbox's comments announce: analysis follows, and
      it calls the analyzer on the stored result exactly when some earlier visit stored one and the budget
      is not exhausted, and charges the call when it is answered. */
  lemma RefusalIsAnalysed(s: State, outcome: Outcome, after: Files, b: Answer)
    requires WellFormed(s) && Ship(s) && s.node == SandboxTest && b.Analysed?
    requires Current(s) != [] && Prepare(s.cfg.root, s.files, StalePaths(s.results, s.tasks), Current(s)).Refused?
    ensures var t := RunSandbox(s, outcome, after);
      && t.node == ErrorAnalysis && t.phase == RunFailed && t.h.trials == s.h.trials
      && Judged(t, b).phase != RunFailed
      && (Judged(t, b).h.analyzerCalls == s.h.analyzerCalls + 1 <==> s.suite.Some? && !Exhausted(s.budget, b.now))
      && Judged(t, b).budget == if s.suite.Some? && !Exhausted(s.budget, b.now) && b.response.Some?
                                then Recorded(s.budget, b.response.value.cost, 1, true) else s.budget
  {
    CodeBehindDiffs(s.tasks, s.results);
  }

  // ---- endings ----

  /** After a pass: DONE means published (or a dry run without a repository), REJECTED means the one
      decision did not approve, FAILED means the publisher was called and failed, or some file may not be published. */
  predicate SettledPhase(s: State) {
    match s.phase
    case Done => if s.cfg.hasRepo then |s.h.publishCalls| == 1 else s.h.publishCalls == []
    case Rejected => s.h.publishCalls == [] && |s.h.decisions| == 1 && !IsApproval(s.h.decisions[0])
    case RunFailed => s.h.publishCalls != [] || !AllPublishable(s.cfg, Current(s))
    case _ => false
  }

  /** The four ways a run can be over. */
  datatype Ending =
    | AfterPass      // the suite passed: published, dry run, rejected, or refused at aggregation or publishing
    | OutOfBudget    // aborted: no unfinished task is left
    | LostDispatch   // the wall clock ran out between the router's two readings: an empty wave
    | NothingReady   // analysis left nothing ready

  predicate EndsAs(s: State, e: Ending) {
    match e
    case AfterPass => s.suite == Some(Passed) && SettledPhase(s)
    case OutOfBudget =>
      s.suite != Some(Passed) && s.phase == AbortedBudget && forall i :: 0 <= i < |s.tasks| ==> !IsWaiting(s.tasks[i])
    case LostDispatch =>
      s.suite != Some(Passed) && s.h.emptied && s.phase == Editing && Ready(s.tasks) != [] && Exhausted(s.budget, s.clock)
    case NothingReady =>
      && s.suite != Some(Passed) && !s.h.emptied && Ready(s.tasks) == []
      && s.phase == if s.h.emitted then Editing else AwaitingHuman
  }

  ghost predicate EndingsHold(s: State) {
    && (s.node == End ==> exists e :: EndsAs(s, e))
    && (s.node != End ==> !s.h.emptied)
    && (s.node == Reconcile || s.node.Editors? ==> s.phase == Editing)
    && (s.node == Synthesis ==> s.tasks == [])
  }

  lemma EndDispatch(s: State, now1: real, now2: real)
    requires DistinctTasks(s.tasks) && s.suite != Some(Passed) && !s.h.emptied
    requires Ready(s.tasks) != [] ==> s.phase == Editing
    ensures EndingsHold(Dispatch(s, now1, now2, SandboxTest))
  {
    var t := Dispatch(s, now1, now2, SandboxTest);
    RouteExact(s.tasks, s.budget, now1, now2);
    if t.node == End {
      assert EndsAs(t, LostDispatch);
    }
  }

  lemma EndAnalysis(s: State, a: Answer)
    requires WellFormed(s) && s.node == ErrorAnalysis && Legal(s, a) && EndingsHold(s)
    requires s.suite != Some(Passed) && Ready(s.tasks) == []
    ensures EndingsHold(Dispatch(Judged(s, a), a.now1, a.now2, End))
  {
    var j := Judged(s, a);
    var t := Dispatch(j, a.now1, a.now2, End);
    MoveAnalysis(s, a);
    ClosedCarries(s.tasks, j.tasks);
    RouteExact(j.tasks, s.budget, a.now1, a.now2);
    RouteExact(j.tasks, j.budget, a.now1, a.now2);
    ReadyNeedsRetry(s, a);
    if t.node == End {
      assert EndsAs(t, if t.h.emptied then LostDispatch else NothingReady);
    }
  }

  /** A task can only become ready again through a RETRYING verdict. */
  lemma ReadyNeedsRetry(s: State, a: Answer)
    requires WellFormed(s) && s.node == ErrorAnalysis && Legal(s, a) && Ready(s.tasks) == []
    ensures Ready(Judged(s, a).tasks) != [] ==> EA.AnyRetrying(AnalysisOf(s, a).tasks)
    ensures AnalysisOf(s, a).phase == if EA.AnyRetrying(AnalysisOf(s, a).tasks) then Editing else AwaitingHuman
  {
    if !EA.AnyRetrying(AnalysisOf(s, a).tasks) {
      var after := Judged(s, a).tasks;
      MoveAnalysis(s, a);
      ClosedCarries(s.tasks, after);
      forall i | 0 <= i < |s.tasks|
        ensures IsWaiting(after[i]) ==> IsWaiting(s.tasks[i])
        ensures after[i].status == Succeeded ==> s.tasks[i].status == Succeeded
      {
        assert Moves(s, a, s.tasks[i], after[i]);
        WaitingNeedsVerdict(s, a, i);
      }
      StaysIdle(s.tasks, after);
    }
  }

  /** Without a RETRYING verdict, merging the update makes no task wait. */
  lemma WaitingNeedsVerdict(s: State, a: Answer, i: nat)
    requires WellFormed(s) && s.node == ErrorAnalysis && Legal(s, a) && i < |s.tasks|
    requires !EA.AnyRetrying(AnalysisOf(s, a).tasks)
    ensures var after := Judged(s, a).tasks;
      i < |after| && (after[i].status == Retrying ==> s.tasks[i].status == Retrying)
  {
    var ups := AnalysisOf(s, a).tasks;
    forall k | 0 <= k < |ups| ensures HasTask(s.tasks, ups[k].id) {
      EA.UpdatesKnown(s.tasks, s.results, s.suite, s.budget, s.retryRound, s.cfg.maxRounds, a.now, a.response, k);
    }
    MergeInPlace(s.tasks, ups);
    LastOfIn(TaskEntries(ups), s.tasks[i].id);
  }

  lemma EndAbort(s: State)
    requires WellFormed(s) && s.suite != Some(Passed) && !s.h.emptied
    ensures EndingsHold(RunAbort(s))
  {
    NoneWaiting(s);
    assert EndsAs(RunAbort(s), OutOfBudget);
  }

  lemma NoneWaiting(s: State)
    requires DistinctTasks(s.tasks)
    ensures forall i :: 0 <= i < |RunAbort(s).tasks| ==> !IsWaiting(RunAbort(s).tasks[i])
  {
    AbortEffect(s.tasks);
  }

  lemma EndLate(s: State, a: Answer)
    requires Late(s.node) && Legal(s, a) && Ship(s) && !s.h.emptied
    ensures EndingsHold(Step(s, a))
  {
    var t := Step(s, a);
    if t.node == End {
      match s.node {
        case Aggregate => assert t == RunAggregate(s);
        case ApprovalGate => assert t == RunGate(s, a.value);
        case PrPublish => assert t == RunPublish(s, a.ok);
      }
      assert EndsAs(t, AfterPass);
    }
  }

  lemma PlannedPhase(s: State)
    requires s.tasks == []
    ensures DistinctTasks(Planned(s).tasks) && (Ready(Planned(s).tasks) != [] ==> Planned(s).phase == Editing)
  {
    PlanWellFormed(s);
  }

  lemma EndingsStep(s: State, a: Answer)
    requires WellFormed(s) && Ship(s) && RoundsHold(s) && EndingsHold(s) && Legal(s, a)
    ensures EndingsHold(Step(s, a))
  {
    if Late(s.node) {
      EndLate(s, a);
    } else {
      match s.node
      case Synthesis =>
        PlannedPhase(s);
        EndDispatch(Planned(s), a.now1, a.now2);
      case Reconcile => EndDispatch(Reconciled(s), a.now1, a.now2);
      case ErrorAnalysis => EndAnalysis(s, a);
      case BudgetAbort => EndAbort(s);
      case _ =>
    }
  }

  lemma {:induction false} EndingsRun(s: State, run: seq<Answer>)
    requires WellFormed(s) && Ship(s) && RoundsHold(s) && EndingsHold(s) && LegalRun(s, run)
    ensures EndingsHold(Exec(s, run))
    decreases |run|
  {
    if run != [] {
      WellFormedStep(s, run[0]);
      ShipStep(s, run[0]);
      RoundsStep(s, run[0]);
      EndingsStep(s, run[0]);
      EndingsRun(Step(s, run[0]), run[1..]);
    }
  }

  /** Every finished run ended in one of the four ways. */
  lemma RunsEnd(cfg: Config, files: Files, run: seq<Answer>)
    requires LegalRun(Init(cfg, files), run) && Exec(Init(cfg, files), run).node == End
    ensures exists e :: EndsAs(Exec(Init(cfg, files), run), e)
  {
    EndingsRun(Init(cfg, files), run);
  }

  /** NEEDS_HUMAN and SKIPPED are final for a task, whatever happens next. */
  lemma {:induction false} BlockedIsFinal(s: State, run: seq<Answer>, i: nat)
    requires WellFormed(s) && LegalRun(s, run) && i < |s.tasks| && IsBlocked(s.tasks[i])
    ensures i < |Exec(s, run).tasks| && Exec(s, run).tasks[i] == s.tasks[i]
    decreases |run|
  {
    if run != [] {
      WellFormedStep(s, run[0]);
      BlockedMoves(s, run[0], i);
      BlockedIsFinal(Step(s, run[0]), run[1..], i);
    }
  }

  lemma BlockedMoves(s: State, a: Answer, i: nat)
    requires WellFormed(s) && Legal(s, a) && i < |s.tasks| && IsBlocked(s.tasks[i])
    ensures i < |Step(s, a).tasks| && Step(s, a).tasks[i] == s.tasks[i]
  {
    TasksMove(s, a);
    if s.node.Editors? {
      BranchStaysOff(s, a, i);
    }
    assert Moves(s, a, s.tasks[i], Step(s, a).tasks[i]);
  }

  lemma BranchStaysOff(s: State, a: Answer, i: nat)
    requires WellFormed(s) && Legal(s, a) && s.node.Editors? && i < |s.tasks| && IsBlocked(s.tasks[i])
    ensures s.tasks[i].id != a.id
  {
    var j := BranchEffect(s, a);
  }

  // ---- nothing to plan ----

  predicate Barren(s: State) {
    s.units == [] && s.tasks == [] && s.results == [] && s.suite.None? && s.h.trials == [] && s.h.publishCalls == []
  }

  lemma NothingDispatched(s: State, now1: real, now2: real, idle: Node)
    requires Barren(s)
    ensures var t := Dispatch(s, now1, now2, idle); Barren(t) && t.node == idle && t.phase == s.phase
  {
    assert Ready([]) == [];
  }

  lemma NothingAnalysed(s: State, a: Answer)
    requires Barren(s) && a.Analysed?
    ensures Barren(Judged(s, a)) && Judged(s, a).phase == AwaitingHuman
  {
    MergeFresh([]);
  }

  /** With nothing planned the run goes on to the sandbox, to analysis and to the end. */
  lemma NothingStep(s: State, a: Answer)
    requires Barren(s) && Legal(s, a) && (Routes(s.node) || s.node == SandboxTest) && s.node != Reconcile
    ensures Barren(Step(s, a))
    ensures s.node == Synthesis ==> Step(s, a).node == SandboxTest
    ensures s.node == SandboxTest ==> Step(s, a).node == ErrorAnalysis
    ensures s.node == ErrorAnalysis ==> Step(s, a).node == End && Step(s, a).phase == AwaitingHuman
  {
    match s.node
    case Synthesis => NothingDispatched(Planned(s), a.now1, a.now2, SandboxTest);
    case SandboxTest => NothingTested(s, a.outcome, a.after);
    case ErrorAnalysis =>
      NothingAnalysed(s, a);
      NothingDispatched(Judged(s, a), a.now1, a.now2, End);
  }

  lemma NothingTested(s: State, outcome: Outcome, after: Files)
    requires Barren(s)
    ensures Barren(RunSandbox(s, outcome, after)) && RunSandbox(s, outcome, after).node == ErrorAnalysis
  {
    assert EffectiveDiffs([], []) == [];
  }

  lemma {:induction false} NothingRun(s: State, run: seq<Answer>)
    requires Barren(s) && LegalRun(s, run) && (s.node == Synthesis || s.node == SandboxTest || s.node == ErrorAnalysis)
    requires Exec(s, run).node == End
    ensures Barren(Exec(s, run)) && Exec(s, run).phase == AwaitingHuman
    ensures |run| == if s.node == Synthesis then 3 else if s.node == SandboxTest then 2 else 1
    decreases |run|
  {
    NothingStep(s, run[0]);
    if s.node == ErrorAnalysis {
      Over(Step(s, run[0]), run[1..]);
    } else {
      NothingRun(Step(s, run[0]), run[1..]);
    }
  }

  lemma Over(s: State, run: seq<Answer>)
    requires s.node == End && LegalRun(s, run)
    ensures run == []
  {
  }

  /** A comprehension that is not skipped and finds no units sets FAILED, but every run then ends, three
      steps later, as NEEDS_HUMAN. */
  lemma NoUnitsNeedHuman(cfg: Config, files: Files, run: seq<Answer>)
    requires LegalRun(Init(cfg, files), run) && Exec(Init(cfg, files), run).node == End
    requires run != [] && !Exhausted(cfg.budget, run[0].now)
    requires Comprehending.Comprehend(run[0].sources, Remaining(cfg.budget)).units == []
    ensures Step(Init(cfg, files), run[0]).phase == RunFailed
    ensures var s := Exec(Init(cfg, files), run);
      |run| == 4 && s.phase == AwaitingHuman && s.h.trials == [] && s.h.publishCalls == []
  {
    NothingRun(Step(Init(cfg, files), run[0]), run[1..]);
  }

  // ---- nothing to spend ----

  /** A run whose budget is used up before it starts is over after two steps, aborted, without a call to any
      model, runner or publisher. */
  lemma SpentAtStart(cfg: Config, files: Files, run: seq<Answer>)
    requires LegalRun(Init(cfg, files), run) && Exec(Init(cfg, files), run).node == End && run != []
    requires cfg.budget.spent >= cfg.budget.maxUsd || cfg.budget.calls >= cfg.budget.maxCalls
             || run[0].now - cfg.budget.startedAt >= cfg.budget.maxSeconds
    ensures var s := Exec(Init(cfg, files), run);
      && |run| == 2 && s.phase == AbortedBudget && s.tasks == [] && s.budget == cfg.budget
      && s.h.comprehension.None? && s.h.generated == multiset{} && s.h.analyzerCalls == 0
      && s.h.trials == [] && s.h.publishCalls == []
  {
    var s0 := Init(cfg, files);
    var s := Step(s0, run[0]);
    AbortsAtOnce(s0, run[0]);
    assert run[1..] != [] && Exec(s, run[1..]) == Exec(Step(s, run[1]), run[1..][1..]);
    Over(Step(s, run[1]), run[1..][1..]);
  }

  lemma AbortsAtOnce(s: State, a: Answer)
    requires s.node == Comprehension && s.tasks == [] && Legal(s, a) && Exhausted(s.budget, a.now)
    ensures Step(s, a) == s.(clock := a.now, phase := AbortedBudget, node := BudgetAbort)
    ensures Legal(Step(s, a), Tick) && forall b :: Legal(Step(s, a), b) ==>
      Step(Step(s, a), b) == s.(clock := a.now, phase := AbortedBudget, node := End)
  {
    MergeFresh([]);
    hide Exhausted;
  }
}
