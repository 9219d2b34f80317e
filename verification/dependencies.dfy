/** Dependency order over the waves of a run, and why a run stops dispatching. */
module Dependencies {
  import opened OrderedDict
  import opened PlanTypes
  import opened Budgeting
  import opened Workspaces
  import opened Scheduling
  import opened RunTypes
  import opened Machine
  import opened Shape
  import opened Attempts
  import opened Rounds

  /** Every branch in flight has all its dependencies SUCCEEDED. */
  ghost predicate DepsInWave(s: State) {
    s.node.Editors? ==> forall k :: 0 <= k < |s.node.pending| ==> DepsMet(s.tasks, s.node.pending[k])
  }

  lemma DispatchMeetsDeps(s: State, now1: real, now2: real, idle: Node)
    requires DistinctTasks(s.tasks) && !idle.Editors?
    ensures DepsInWave(Dispatch(s, now1, now2, idle))
  {
    ReadyUpToExact(s.tasks, |s.tasks|);
  }

  /** A branch changes only a waiting task, so no dependency that was met is lost. */
  lemma {:induction false} MetStaysMet(tasks: seq<Task>, i: nat, u: Task, t: Task)
    requires DistinctTasks(tasks) && i < |tasks| && IsWaiting(tasks[i]) && u.id == tasks[i].id && DepsMet(tasks, t)
    ensures DepsMet(tasks[i := u], t)
  {
    forall d | d in t.deps ensures StatusOf(tasks[i := u], d) == Some(Succeeded) {
      assert StatusOf(tasks, d) == Some(Succeeded);
      LastOfIn(TaskEntries(tasks), d);
      var j :| 0 <= j < |tasks| && tasks[j].id == d && tasks[j].status == Succeeded;
      StatusAt(tasks[i := u], j);
    }
  }

  lemma WaveMeetsDeps(s: State, a: Answer)
    requires WellFormed(s) && DepsInWave(s) && s.node.Editors? && Legal(s, a)
    ensures DepsInWave(RunBranch(s, a))
  {
    var i := BranchEffect(s, a);
    PickExact(s.node.pending, a.id);
    var rest := Without(s.node.pending, a.id);
    forall k | 0 <= k < |rest| ensures DepsMet(RunBranch(s, a).tasks, rest[k]) {
      var m :| 0 <= m < |s.node.pending| && s.node.pending[m] == rest[k];
      MetStaysMet(s.tasks, i, BranchTask(s.tasks[i], Exhausted(s.budget, a.now), a.gen), rest[k]);
    }
  }

  lemma DepsStep(s: State, a: Answer)
    requires WellFormed(s) && DepsInWave(s) && Legal(s, a)
    ensures DepsInWave(Step(s, a))
  {
    if Quiet(s.node) {
      QuietStep(s, a);
    } else {
      match s.node
      case Synthesis =>
        PlanWellFormed(s);
        DispatchMeetsDeps(Planned(s), a.now1, a.now2, SandboxTest);
      case Editors(_, _) => WaveMeetsDeps(s, a);
      case Reconcile => DispatchMeetsDeps(Reconciled(s), a.now1, a.now2, SandboxTest);
      case ErrorAnalysis =>
        WellFormedMoves(s, a);
        DispatchMeetsDeps(Judged(s, a), a.now1, a.now2, End);
      case _ =>
    }
  }

  lemma {:induction false} DepsRun(s: State, run: seq<Answer>)
    requires WellFormed(s) && DepsInWave(s) && CodeStored(s) && LegalRun(s, run)
    ensures WellFormed(Exec(s, run)) && DepsInWave(Exec(s, run)) && CodeStored(Exec(s, run))
    decreases |run|
  {
    if run != [] {
      WellFormedStep(s, run[0]);
      DepsStep(s, run[0]);
      CodeStep(s, run[0]);
      DepsRun(Step(s, run[0]), run[1..]);
    }
  }

  /** Dependency order: in every run, whenever a branch of any wave generates code (first attempt or
      retry), every task it depends on has SUCCEEDED at that moment and its latest code is stored. */
  lemma DependenciesFirst(cfg: Config, files: Files, run: seq<Answer>, a: Answer, d: string)
    requires LegalRun(Init(cfg, files), run)
    requires Exec(Init(cfg, files), run).node.Editors? && Legal(Exec(Init(cfg, files), run), a)
    requires d in Pick(Exec(Init(cfg, files), run).node.pending, a.id).deps
    ensures var s := Exec(Init(cfg, files), run);
      StatusOf(s.tasks, d) == Some(Succeeded) && HasLatestCode(s, d)
  {
    DepsRun(Init(cfg, files), run);
    MetHasCode(Exec(Init(cfg, files), run), a, d);
  }

  lemma MetHasCode(s: State, a: Answer, d: string)
    requires WellFormed(s) && DepsInWave(s) && CodeStored(s) && s.node.Editors? && Legal(s, a)
    requires d in Pick(s.node.pending, a.id).deps
    ensures StatusOf(s.tasks, d) == Some(Succeeded) && HasLatestCode(s, d)
  {
    PickExact(s.node.pending, a.id);
    var t := Pick(s.node.pending, a.id);
    var k :| 0 <= k < |s.node.pending| && s.node.pending[k] == t;
    assert StatusOf(s.tasks, d) == Some(Succeeded);
    LastOfIn(TaskEntries(s.tasks), d);
    var j :| 0 <= j < |s.tasks| && s.tasks[j].id == d && s.tasks[j].status == Succeeded;
    assert HasLatestCode(s, s.tasks[j].id);
  }

  /** Why a run goes on to the sandbox with tasks still waiting: each has a dependency path through
      waiting tasks to one that needs a human or was skipped, or to a cycle of the plan. */
  lemma WaitingIsBlocked(cfg: Config, files: Files, run: seq<Answer>, i: nat)
    requires LegalRun(Init(cfg, files), run)
    requires var s := Exec(Init(cfg, files), run);
      (s.node == SandboxTest || s.node == ErrorAnalysis) && i < |s.tasks| && IsWaiting(s.tasks[i])
    ensures var tasks := Exec(Init(cfg, files), run).tasks;
      exists path, j: nat ::
        WaitingPath(tasks, i, path) && Edge(tasks, path[|path| - 1], j) && (IsBlocked(tasks[j]) || j in path)
  {
    RoundsRun(Init(cfg, files), run);
    hide LegalRun, Exec, Edge, WaitingPath, IsBlocked, Ready;
    StuckNow(Exec(Init(cfg, files), run), i);
  }

  lemma StuckNow(s: State, i: nat)
    requires WellFormed(s) && RoundsHold(s) && (s.node == SandboxTest || s.node == ErrorAnalysis)
    requires i < |s.tasks| && IsWaiting(s.tasks[i])
    ensures exists path, j: nat ::
      WaitingPath(s.tasks, i, path) && Edge(s.tasks, path[|path| - 1], j) && (IsBlocked(s.tasks[j]) || j in path)
  {
    IdleMeansStuck(s.tasks, i);
  }
}
