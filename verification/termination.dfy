/** Every run ends, whatever the outside answers, by the per-task retry cap alone. */
module Termination {
  import opened PlanTypes
  import opened Scheduling
  import opened RunTypes
  import opened Machine
  import opened Shape
  import Synthesising
  import Workspaces

  /** How many more times a task can matter: two steps for each attempt it has left. */
  function Weight(t: Task): nat {
    var slack := if t.retries <= t.maxRetries then t.maxRetries - t.retries else 0;
    if IsWaiting(t) then 2 * slack + 2 else if t.status == Succeeded then 2 * slack + 1 else 0
  }

  function Potential(tasks: seq<Task>): nat {
    if tasks == [] then 0 else Potential(tasks[..|tasks| - 1]) + Weight(tasks[|tasks| - 1])
  }

  lemma {:induction false} PotentialFalls(before: seq<Task>, after: seq<Task>)
    requires |before| == |after| && forall i :: 0 <= i < |before| ==> Weight(after[i]) <= Weight(before[i])
    ensures Potential(after) <= Potential(before)
    ensures (exists i :: 0 <= i < |before| && Weight(after[i]) < Weight(before[i])) ==> Potential(after) < Potential(before)
  {
    if before != [] {
      var n := |before| - 1;
      PotentialFalls(before[..n], after[..n]);
      if i :| 0 <= i < |before| && Weight(after[i]) < Weight(before[i]) {
        assert i == n || (before[..n][i] == before[i] && after[..n][i] == after[i]);
      }
    }
  }

  function Rank(n: Node): nat {
    match n
    case Comprehension => 7
    case Synthesis => 7
    case Reconcile => 7
    case SandboxTest => 6
    case ErrorAnalysis => 5
    case Aggregate => 5
    case Editors(_, _) => 4
    case RequestApproval => 4
    case ApprovalGate => 3
    case PrPublish => 2
    case BudgetAbort => 2
    case End => 0
  }

  /** Steps left once there is a plan. */
  function Fuel(s: State): nat {
    8 * Potential(s.tasks) + Rank(s.node)
  }

  lemma WeightMoves(s: State, a: Answer, t: Task, after: Task)
    requires Legal(s, a) && Moves(s, a, t, after)
    requires s.node.Editors? && t.id == a.id ==> IsWaiting(t)
    ensures Weight(after) <= Weight(t)
    ensures s.node.Editors? && t.id == a.id ==> Weight(after) < Weight(t)
  {
  }

  lemma PotentialMoves(s: State, a: Answer, after: seq<Task>)
    requires WellFormed(s) && Legal(s, a) && SameTasks(s.tasks, after)
    requires forall i :: 0 <= i < |s.tasks| ==> Moves(s, a, s.tasks[i], after[i])
    requires s.node.Editors? ==> exists i :: 0 <= i < |s.tasks| && s.tasks[i].id == a.id && IsWaiting(s.tasks[i])
    ensures Potential(after) <= Potential(s.tasks)
    ensures s.node.Editors? ==> Potential(after) < Potential(s.tasks)
  {
    forall i | 0 <= i < |s.tasks| ensures Weight(after[i]) <= Weight(s.tasks[i]) {
      WeightMoves(s, a, s.tasks[i], after[i]);
    }
    if s.node.Editors? {
      var i :| 0 <= i < |s.tasks| && s.tasks[i].id == a.id && IsWaiting(s.tasks[i]);
      WeightMoves(s, a, s.tasks[i], after[i]);
    }
    PotentialFalls(s.tasks, after);
  }

  /** Every branch of a wave, and every task an analysis touches, uses up potential. */
  lemma MovesDescend(s: State, a: Answer)
    requires WellFormed(s) && Legal(s, a) && !Unplanned(s.node)
    ensures Potential(Step(s, a).tasks) <= Potential(s.tasks)
    ensures s.node.Editors? ==> Potential(Step(s, a).tasks) < Potential(s.tasks)
  {
    if s.node.Editors? {
      var i := BranchEffect(s, a);
    }
    TasksMove(s, a);
    PotentialMoves(s, a, Step(s, a).tasks);
  }

  lemma DispatchRank(s: State, now1: real, now2: real, idle: Node)
    requires idle == SandboxTest || idle == End
    ensures var t := Dispatch(s, now1, now2, idle);
      !Unplanned(t.node) && (Rank(t.node) <= 4 || t.node == idle)
  {
  }

  lemma RankFallsQuietly(s: State, a: Answer)
    requires Legal(s, a) && Quiet(s.node)
    ensures !Unplanned(Step(s, a).node) && Rank(Step(s, a).node) < Rank(s.node)
  {
    match s.node
    case SandboxTest => SandboxRank(s, a.outcome, a.after);
    case _ =>
  }

  lemma SandboxRank(s: State, outcome: Outcome, after: Workspaces.Files)
    ensures !Unplanned(RunSandbox(s, outcome, after).node) && Rank(RunSandbox(s, outcome, after).node) == 5
  {
    assert RunSandbox(s, outcome, after).node == AfterSandbox(RunSandbox(s, outcome, after).suite);
  }

  lemma RankFalls(s: State, a: Answer)
    requires WellFormed(s) && Legal(s, a) && !Unplanned(s.node) && !s.node.Editors?
    ensures !Unplanned(Step(s, a).node) && Rank(Step(s, a).node) < Rank(s.node)
  {
    if Quiet(s.node) {
      RankFallsQuietly(s, a);
    } else if Routes(s.node) {
      RankFallsRouted(s, a);
    }
  }

  lemma RankFallsRouted(s: State, a: Answer)
    requires Legal(s, a) && Routes(s.node) && s.node != Synthesis
    ensures !Unplanned(Step(s, a).node) && Rank(Step(s, a).node) < Rank(s.node)
  {
    if s.node == Reconcile {
      DispatchRank(Reconciled(s), a.now1, a.now2, SandboxTest);
    } else {
      DispatchRank(Judged(s, a), a.now1, a.now2, End);
    }
  }

  /** Once planned, every step burns fuel. */
  lemma StepBurnsFuel(s: State, a: Answer)
    requires WellFormed(s) && Legal(s, a) && !Unplanned(s.node)
    ensures !Unplanned(Step(s, a).node) && Fuel(Step(s, a)) < Fuel(s)
  {
    MovesDescend(s, a);
    if !s.node.Editors? {
      RankFalls(s, a);
    }
  }

  lemma {:induction false} RunBurnsFuel(s: State, run: seq<Answer>)
    requires WellFormed(s) && !Unplanned(s.node) && LegalRun(s, run)
    ensures |run| + Fuel(Exec(s, run)) <= Fuel(s)
    ensures |Exec(s, run).tasks| == |s.tasks|
    decreases |run|
  {
    if run != [] {
      WellFormedStep(s, run[0]);
      StepBurnsFuel(s, run[0]);
      TasksMove(s, run[0]);
      RunBurnsFuel(Step(s, run[0]), run[1..]);
    }
  }

  lemma {:induction false} FreshPotential(tasks: seq<Task>)
    requires forall i :: 0 <= i < |tasks| ==>
      tasks[i].status == Pending && tasks[i].retries == 0 && tasks[i].maxRetries == Synthesising.DEFAULT_MAX_RETRIES
    ensures Potential(tasks) == 8 * |tasks|
  {
    if tasks != [] {
      FreshPotential(tasks[..|tasks| - 1]);
    }
  }

  lemma PlannedPotential(s: State)
    requires s.tasks == []
    ensures Potential(Planned(s).tasks) == 8 * |Planned(s).tasks|
  {
    PlanWellFormed(s);
    FreshPotential(Planned(s).tasks);
  }

  lemma PlanningStep(s: State, a: Answer)
    requires WellFormed(s) && s.node == Synthesis && Legal(s, a)
    ensures var t := Dispatch(Planned(s), a.now1, a.now2, SandboxTest);
      !Unplanned(t.node) && Fuel(t) <= 64 * |t.tasks| + 7
  {
    PlannedPotential(s);
    DispatchRank(Planned(s), a.now1, a.now2, SandboxTest);
    hide Planned, Potential, WellFormed;
  }

  lemma FromSynthesis(s: State, run: seq<Answer>)
    requires WellFormed(s) && LegalRun(s, run) && run != []
    requires s.node == Synthesis || (s.node == BudgetAbort && s.tasks == [])
    ensures |run| <= 8 + 64 * |Exec(s, run).tasks|
  {
    if s.node == Synthesis {
      WellFormedStep(s, run[0]);
      PlanningStep(s, run[0]);
      RunBurnsFuel(Step(s, run[0]), run[1..]);
    } else {
      RunBurnsFuel(s, run);
    }
  }

  /** Every legal run is finite, with an explicit bound: at most 64 steps a task and 9 more. The bound
      does not mention the global round limit. */
  lemma RunsAreShort(cfg: Config, files: Workspaces.Files, run: seq<Answer>)
    requires LegalRun(Init(cfg, files), run)
    ensures |run| <= 9 + 64 * |Exec(Init(cfg, files), run).tasks|
  {
    var s0 := Init(cfg, files);
    if |run| >= 2 {
      WellFormedStep(s0, run[0]);
      FromSynthesis(Step(s0, run[0]), run[1..]);
    }
  }
}
