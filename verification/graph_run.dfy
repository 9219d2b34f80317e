/** The run as the program holds it: one mutable state with a budget object and a workspace on disk,
    updated by the nodes one after another. Every method is proved against the state machine. */
module GraphRun {
  import opened OrderedDict
  import opened PlanTypes
  import opened Budgeting
  import opened Diffs
  import opened Workspaces
  import opened Scheduling
  import opened RunTypes
  import opened Machine
  import opened Shape
  import opened Termination
  import opened Decisions
  import opened Publication
  import EA = ErrorAnalysing
  import Synthesising
  import Comprehending

  /** The stale paths as a list; the order does not matter to the workspace. */
  method ListPaths(paths: set<string>) returns (listed: seq<string>)
    ensures Names(listed) == paths && |listed| == |paths|
  {
    listed := [];
    var left := paths;
    while left != {}
      invariant Names(listed) !! left && Names(listed) + left == paths && |listed| + |left| == |paths|
      decreases |left|
    {
      var p :| p in left;
      NamesAppend(listed, p);
      listed := listed + [p];
      left := left - {p};
    }
  }

  lemma {:induction false} FirstTaken(pending: seq<Task>, i: nat, id: string)
    requires i < |pending| && pending[i].id == id && forall k :: 0 <= k < i ==> pending[k].id != id
    ensures HasTask(pending, id) && Pick(pending, id) == pending[i]
    ensures Without(pending, id) == pending[..i] + pending[i + 1..]
  {
    if i > 0 {
      assert pending[1..][i - 1] == pending[i];
      FirstTaken(pending[1..], i - 1, id);
      assert pending[..i] == [pending[0]] + pending[1..][..i - 1];
      assert pending[i + 1..] == pending[1..][i..];
    }
  }

  /** Finds a branch in flight and takes it out of the wave. */
  method TakeBranch(pending: seq<Task>, id: string) returns (task: Task, rest: seq<Task>)
    requires HasTask(pending, id)
    ensures task == Pick(pending, id) && rest == Without(pending, id)
  {
    var i := 0;
    while pending[i].id != id
      invariant 0 <= i < |pending| && forall k :: 0 <= k < i ==> pending[k].id != id
      decreases |pending| - i
    {
      i := i + 1;
    }
    FirstTaken(pending, i, id);
    task, rest := pending[i], pending[..i] + pending[i + 1..];
  }

  /** No state but the end is stuck: the outside can always answer. */
  lemma AlwaysAnswerable(s: State)
    requires WellFormed(s) && s.node != End
    ensures exists a :: Legal(s, a)
  {
    var a := match s.node
      case Comprehension => Extracted(s.clock, [])
      case Synthesis => Routed(s.clock, s.clock)
      case Editors(pending, since) => Branch(pending[0].id, since, None)
      case Reconcile => Routed(s.clock, s.clock)
      case SandboxTest => Tested(NotRun, map[])
      case ErrorAnalysis => Analysed(s.clock, None, s.clock, s.clock)
      case ApprovalGate => Decided(JNull)
      case PrPublish => Published(false)
      case _ => Tick;
    assert Legal(s, a);
  }

  /** The outside answers legally whenever the run has not paused or ended. */
  ghost predicate Obliging(s: State, outside: seq<Answer> -> Answer) {
    forall run :: LegalRun(s, run) && !Paused(Exec(s, run)) ==> Legal(Exec(s, run), outside(run))
  }

  function PlanningLeft(n: Node): nat {
    if n == Comprehension then 2 else if n == Synthesis then 1 else 0
  }

  lemma StageFalls(s: State, a: Answer)
    requires Legal(s, a) && Unplanned(s.node)
    ensures PlanningLeft(Step(s, a).node) < PlanningLeft(s.node)
  {
    if s.node == Synthesis {
      DispatchRank(Planned(s), a.now1, a.now2, SandboxTest);
    }
  }

  /** Each step goes on to a later stage or burns fuel. */
  lemma Descends(s: State, a: Answer)
    requires WellFormed(s) && Legal(s, a)
    ensures var t := Step(s, a);
      || PlanningLeft(t.node) < PlanningLeft(s.node)
      || (PlanningLeft(t.node) == PlanningLeft(s.node) && Fuel(t) < Fuel(s))
  {
    if Unplanned(s.node) {
      StageFalls(s, a);
    } else {
      StepBurnsFuel(s, a);
    }
  }

  /** What a decision does to a run paused at the gate. */
  lemma GateOutcome(s: State, decision: Json, ok: bool)
    requires Ship(s) && Settled(s) && AtGate(s)
    ensures var t := RunGate(s, decision);
      && t.h.decisions == [decision] && t.results == s.results && t.tasks == s.tasks
      && (!IsApproval(decision) ==> t.node == End && t.h.publishCalls == [] && t.phase == Rejected)
      && (IsApproval(decision) ==> RunPublish(t, ok).h.publishCalls == [EffectiveDiffs(s.results, s.tasks)])
  {
  }

  lemma NoSteps(s: State)
    ensures LegalRun(s, []) && Exec(s, []) == s
  {
  }

  class Run {
    const cfg: Config
    const budget: Budget
    const workspace: Workspace
    var node: Node
    var phase: Phase
    var clock: real
    var units: seq<Unit>
    var tasks: seq<Task>
    var results: seq<EditorResult>
    var deltas: seq<real>
    var consumed: nat
    var suite: Option<Outcome>
    var draft: Option<seq<string>>
    var approval: Option<bool>
    var retryRound: nat
    ghost var h: History

    constructor (cfg: Config, files: Files)
      ensures View() == Init(cfg, files) && workspace.root == cfg.root
      ensures fresh(budget) && fresh(workspace)
    {
      this.cfg := cfg;
      budget := new Budget(cfg.budget);
      workspace := new Workspace(cfg.root, files);
      node, phase, clock := Comprehension, Unset, cfg.budget.startedAt;
      units, tasks, results, deltas, consumed, suite, draft, approval, retryRound := [], [], [], [], 0, None, None, None, 0;
      h := History(None, [], multiset{}, map[], [], [], [], 0, false, false);
    }

    /** The whole state: the fields, the budget object and the files on disk. */
    ghost function View(): State
      reads this, budget, workspace
    {
      State(cfg, node, phase, clock, units, tasks, results, deltas, consumed, suite, draft, approval,
            budget.View(), retryRound, workspace.files, h)
    }

    method ComprehensionNode(now: real, sources: seq<SourceFile>)
      modifies this, budget
      ensures View() == Comprehended(old(View()), now, sources)
    {
      hide Exhausted, Recorded, Comprehending.Comprehend;
      if Exhausted(budget.View(), now) {
        clock, phase, node := now, AbortedBudget, BudgetAbort;
      } else {
        var c := Comprehending.RunComprehension(sources, Remaining(budget.View()));
        budget.RecordCall(c.cost, 1, false);
        clock, units, node, phase := now, c.units, Synthesis, if c.units != [] then SynthesisPlanning else RunFailed;
        h := h.(comprehension := Some(c.cost));
      }
    }

    method SynthesisNode()
      modifies this
      ensures View() == Planned(old(View()))
    {
      if units == [] {
        phase := RunFailed;
      } else {
        var plan := Synthesising.RunSynthesis(Synthesising.FastApi(), units);
        tasks := MergeTaskLists(tasks, plan);
        phase := Editing;
      }
    }

    /** The conditional edge to the editors. */
    method Route(now1: real, now2: real, idle: Node)
      modifies this
      ensures View() == Dispatch(old(View()), now1, now2, idle)
    {
      hide RouteToEditors;
      var route := FindRoute(tasks, budget.View(), now1, now2);
      clock := now2;
      match route
      case NoReadyTasks => node := idle;
      case BudgetExhausted => node := BudgetAbort;
      case Send(wave) =>
        node := if wave == [] then End else Editors(wave, now2);
        if wave == [] {
          h := h.(emptied := true);
        }
    }

    /** One editor branch finishes and the reducers merge what it returns: a skipped task without a call,
        a failed attempt without code or cost, or a succeeded task with both. */
    method EditorBranch(a: Answer)
      requires node.Editors? && Legal(View(), a)
      modifies this
      ensures View() == RunBranch(old(View()), a)
    {
      var task, rest := TakeBranch(node.pending, a.id);
      if Exhausted(budget.View(), a.now) {
        FinishBranch(rest, a.now, task.(status := Skipped), [], []);
      } else if a.gen.None? {
        var retries := task.retries + 1;
        var status := if retries > task.maxRetries then NeedsHuman else Retrying;
        FinishBranch(rest, a.now, task.(status := status, retries := retries), [], []);
        h := h.(generated := h.generated + multiset{task.id}, answers := h.answers[task.id := None]);
      } else {
        var result := EditorResult(task.id, a.gen.value.diffs);
        FinishBranch(rest, a.now, task.(status := Succeeded), [result], [a.gen.value.cost]);
        h := h.(generated := h.generated + multiset{task.id}, answers := h.answers[task.id := Some(a.gen.value.diffs)]);
      }
    }

    /** The reducers: the task merged by id, results and costs appended; the last branch joins the wave. */
    method FinishBranch(rest: seq<Task>, now: real, updated: Task, more: seq<EditorResult>, costs: seq<real>)
      requires node.Editors?
      modifies this
      ensures View() == old(View()).(tasks := Merge(old(tasks), [updated]), results := old(results) + more,
                                     deltas := old(deltas) + costs, clock := Larger(old(clock), now),
                                     node := if rest == [] then Reconcile else Editors(rest, old(node.since)))
    {
      hide Merge;
      var merged := MergeTaskLists(tasks, [updated]);
      var later, next := if now > clock then now else clock, if rest == [] then Reconcile else Editors(rest, node.since);
      assert later == Larger(clock, now);
      hide Larger;
      tasks, clock, node := merged, later, next;
      results, deltas := results + more, deltas + costs;
    }

    method ReconcileNode()
      modifies this, budget
      ensures View() == Reconciled(old(View()))
    {
      consumed := BudgetReconcile(budget, deltas, consumed);
    }

    /** Deletes what earlier attempts left behind, then writes the effective files; refused when any
        path of either kind leaves the workspace. */
    method PrepareSuite(diffs: seq<FileDiff>) returns (ready: bool)
      requires workspace.root == cfg.root && diffs == EffectiveDiffs(results, tasks)
      modifies workspace
      ensures ready <==> Prepare(cfg.root, old(workspace.files), StalePaths(results, tasks), diffs).Prepared?
      ensures workspace.files == Prepare(cfg.root, old(workspace.files), StalePaths(results, tasks), diffs).files
    {
      var stale := ListPaths(StalePaths(results, tasks));
      ready := PrepareWorkspace(workspace, stale, diffs);
    }

    /** Prepares the workspace and runs the suite, which may leave anything behind. */
    method SandboxNode(outcome: Outcome, after: Files)
      requires workspace.root == cfg.root
      modifies this, workspace
      ensures View() == RunSandbox(old(View()), outcome, after)
    {
      hide EffectiveDiffs, StalePaths, Prepare, AfterSandbox;
      var diffs := ComputeEffectiveDiffs(results, tasks);
      if diffs == [] {
        phase, node := Analysing, AfterSandbox(suite);
      } else {
        var ready := PrepareSuite(diffs);
        if ready {
          RunSuite(diffs, outcome, after);
        } else {
          phase, node := RunFailed, AfterSandbox(suite);
        }
      }
    }

    /** The runner's verdict decides where the run goes; whatever it left on disk stays there. */
    method RunSuite(diffs: seq<FileDiff>, outcome: Outcome, after: Files)
      modifies this, workspace
      ensures View() == old(View()).(files := after, suite := Some(outcome),
                                     phase := if outcome == Passed then Aggregating else Analysing,
                                     node := AfterSandbox(Some(outcome)),
                                     h := old(h).(trials := old(h).trials + [Trial(old(workspace.files), diffs, outcome)]))
    {
      h := h.(trials := h.trials + [Trial(workspace.files, diffs, outcome)]);
      workspace.files := after;
      suite, phase, node :=
        Some(outcome), if outcome == Passed then Aggregating else Analysing, AfterSandbox(Some(outcome));
    }

    method AnalysisNode(a: Answer)
      requires a.Analysed?
      modifies this, budget
      ensures View() == Judged(old(View()), a)
    {
      hide EA.Analyse, Merge;
      ghost var u := AnalysisOf(View(), a);
      var updated, next, round :=
        EA.ErrorAnalysisNode(tasks, results, suite, budget, retryRound, cfg.maxRounds, a.now, a.response);
      var merged := MergeTaskLists(tasks, updated);
      tasks, phase, retryRound := merged, next, round;
      h := h.(analyses := if u.called && a.response.Some? then h.analyses + [a.response.value.cost] else h.analyses,
              analyzerCalls := h.analyzerCalls + if u.called then 1 else 0, emitted := EA.AnyRetrying(u.tasks));
    }

    method AggregateNode()
      modifies this
      ensures View() == RunAggregate(old(View()))
    {
      var diffs := ComputeEffectiveDiffs(results, tasks);
      if diffs == [] || !AllPublishable(cfg, diffs) {
        phase, node := RunFailed, End;
      } else {
        draft := Some(seq(|diffs|, i requires 0 <= i < |diffs| => diffs[i].path));
        phase := Aggregating;
        node := if NeedsApproval(cfg) then RequestApproval else PrPublish;
      }
    }

    method ApprovalGateNode(value: Json)
      modifies this
      ensures View() == RunGate(old(View()), value)
    {
      var approved := IsApproval(value);
      approval := Some(approved);
      phase := if approved then PrGeneration else Rejected;
      node := if approved then PrPublish else End;
      h := h.(decisions := h.decisions + [value]);
    }

    method PublishNode(ok: bool)
      modifies this
      ensures View() == RunPublish(old(View()), ok)
    {
      node := End;
      if draft.Some? {
        if !cfg.hasRepo {
          phase := Done;
        } else if NeedsApproval(cfg) && approval != Some(true) {
          phase := RunFailed;
        } else {
          var diffs := ComputeEffectiveDiffs(results, tasks);
          h := h.(publishCalls := h.publishCalls + [diffs]);
          phase := if ok then Done else RunFailed;
        }
      }
    }

    method BudgetAbortNode()
      modifies this
      ensures View() == RunAbort(old(View()))
    {
      tasks := MergeTaskLists(tasks, Unfinished(tasks));
      phase, node := AbortedBudget, End;
    }

    /** One node with its outgoing edge. */
    method Advance(a: Answer)
      requires Legal(View(), a) && workspace.root == cfg.root
      modifies this, budget, workspace
      ensures View() == Step(old(View()), a)
    {
      match node
      case Comprehension => ComprehensionNode(a.now, a.sources);
      case Synthesis => SynthesisNode(); Route(a.now1, a.now2, SandboxTest);
      case Editors(_, _) => EditorBranch(a);
      case Reconcile => ReconcileNode(); Route(a.now1, a.now2, SandboxTest);
      case SandboxTest => SandboxNode(a.outcome, a.after);
      case ErrorAnalysis => AnalysisNode(a); Route(a.now1, a.now2, End);
      case Aggregate => AggregateNode();
      case RequestApproval => phase, node := AwaitingApproval, ApprovalGate;
      case ApprovalGate => ApprovalGateNode(a.value);
      case PrPublish => PublishNode(a.ok);
      case BudgetAbort => BudgetAbortNode();
    }

    /** One invocation of the graph: steps until the run pauses at the approval gate or ends. It always
        does, whatever the outside answers. */
    method Invoke(outside: seq<Answer> -> Answer) returns (answers: seq<Answer>)
      requires WellFormed(View()) && workspace.root == cfg.root && Obliging(View(), outside)
      modifies this, budget, workspace
      ensures LegalRun(old(View()), answers) && View() == Exec(old(View()), answers)
      ensures WellFormed(View()) && Paused(View())
    {
      hide Step, Legal, LegalRun, Exec, WellFormed, Fuel, PlanningLeft;
      answers := [];
      ghost var start := View();
      NoSteps(start);
      while node != ApprovalGate && node != End
        invariant LegalRun(start, answers) && View() == Exec(start, answers) && WellFormed(View())
        decreases PlanningLeft(node), Fuel(View())
      {
        ghost var s := View();
        var a := outside(answers);
        Descends(s, a);
        WellFormedStep(s, a);
        OneMore(start, answers, a);
        Advance(a);
        answers := answers + [a];
      }
    }

    /** Resuming a paused run: the gate reads the decision, and an approved run goes to the publisher. */
    method Resume(decision: Json, ok: bool)
      requires node == ApprovalGate && workspace.root == cfg.root
      modifies this, budget, workspace
      ensures View() == (if IsApproval(decision) then RunPublish(RunGate(old(View()), decision), ok)
                         else RunGate(old(View()), decision))
      ensures node == End
    {
      ApprovalGateNode(decision);
      if node == PrPublish {
        PublishNode(ok);
      }
    }

    /** An approve or reject request holding the run's lock: 409 and no effect unless the run is paused at
        the gate; otherwise the decision is recorded, the run ends, and it was published exactly when the
        request approved. */
    method Decide(request: Request, ok: bool) returns (code: int)
      requires Ship(View()) && Settled(View()) && workspace.root == cfg.root
      modifies this, budget, workspace
      ensures code == if AtGate(old(View())) then 200 else 409
      ensures code == 409 ==> View() == old(View())
      ensures code == 200 ==>
        && View().node == End && View().h.decisions == [DecisionOf(request)]
        && (request.approved ==> View().h.publishCalls == [EffectiveDiffs(results, tasks)])
        && (!request.approved ==> View().h.publishCalls == [] && View().phase == Rejected)
    {
      if node != ApprovalGate {
        return 409;
      }
      ghost var s := View();
      GateOutcome(s, DecisionOf(request), ok);
      Resume(DecisionOf(request), ok);
      code := 200;
    }
  }
}
