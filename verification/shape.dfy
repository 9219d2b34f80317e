/** The shape every reachable state keeps, and the effect of each step on the task list. */
module Shape {
  import opened OrderedDict
  import opened PlanTypes
  import opened Budgeting
  import opened Scheduling
  import opened Machine
  import EA = ErrorAnalysing
  import Synthesising

  predicate Unplanned(n: Node) {
    n == Comprehension || n == Synthesis
  }

  predicate Knows(tasks: seq<Task>, t: Task) {
    exists i :: 0 <= i < |tasks| && tasks[i] == t
  }

  predicate WellFormed(s: State) {
    && DistinctTasks(s.tasks) && Closed(s.tasks)
    && (forall i :: 0 <= i < |s.tasks| ==> InUse(s.tasks[i].status))
    && (Unplanned(s.node) ==> s.tasks == [] && s.results == [] && s.deltas == [])
    && (s.node.Editors? ==>
          && s.node.pending != [] && DistinctTasks(s.node.pending)
          && forall k :: 0 <= k < |s.node.pending| ==> IsWaiting(s.node.pending[k]) && Knows(s.tasks, s.node.pending[k]))
  }

  lemma DispatchShape(s: State, now1: real, now2: real, idle: Node)
    requires DistinctTasks(s.tasks)
    ensures var t := Dispatch(s, now1, now2, idle);
      && (t.node == idle || t.node == BudgetAbort || t.node == End || t.node.Editors?)
      && (t.node.Editors? && !idle.Editors? ==>
            && t.node.pending != [] && DistinctTasks(t.node.pending) && |t.node.pending| <= |s.tasks|
            && forall k :: 0 <= k < |t.node.pending| ==> IsWaiting(t.node.pending[k]) && Knows(s.tasks, t.node.pending[k]))
  {
    ReadyUpToExact(s.tasks, |s.tasks|);
    var ready := Ready(s.tasks);
    forall k | 0 <= k < |ready| ensures IsWaiting(ready[k]) && Knows(s.tasks, ready[k]) {
    }
  }

  lemma {:induction false} PickExact(pending: seq<Task>, id: string)
    requires HasTask(pending, id) && DistinctTasks(pending)
    ensures Pick(pending, id) in pending && Pick(pending, id).id == id
    ensures var rest := Without(pending, id);
      && DistinctTasks(rest) && |rest| == |pending| - 1
      && forall k :: 0 <= k < |rest| ==> rest[k] in pending && rest[k].id != id
  {
    if pending[0].id != id {
      assert HasTask(pending[1..], id);
      PickExact(pending[1..], id);
    }
  }

  /** A branch rewrites exactly one waiting task of the list, in place. */
  lemma BranchEffect(s: State, a: Answer) returns (i: nat)
    requires WellFormed(s) && s.node.Editors? && Legal(s, a)
    ensures i < |s.tasks| && IsWaiting(s.tasks[i]) && s.tasks[i] == Pick(s.node.pending, a.id) && s.tasks[i].id == a.id
    ensures RunBranch(s, a).tasks == s.tasks[i := BranchTask(s.tasks[i], Exhausted(s.budget, a.now), a.gen)]
  {
    PickExact(s.node.pending, a.id);
    var t := Pick(s.node.pending, a.id);
    i :| 0 <= i < |s.tasks| && s.tasks[i] == t;
    MergeOne(s.tasks, i, BranchTask(t, Exhausted(s.budget, a.now), a.gen));
  }

  function Abandoned(t: Task): Task {
    if IsWaiting(t) || t.status == InProgress then t.(status := Skipped) else t
  }

  lemma {:induction false} UnfinishedKnown(tasks: seq<Task>)
    ensures forall k :: 0 <= k < |Unfinished(tasks)| ==> HasTask(tasks, Unfinished(tasks)[k].id)
  {
    if tasks != [] {
      var n := |tasks| - 1;
      UnfinishedKnown(tasks[..n]);
      var rest, all := Unfinished(tasks[..n]), Unfinished(tasks);
      forall k | 0 <= k < |all| ensures HasTask(tasks, all[k].id) {
        if k < |rest| {
          var i :| 0 <= i < n && tasks[..n][i].id == rest[k].id;
          assert tasks[i].id == all[k].id;
        } else {
          assert tasks[n].id == all[k].id;
        }
      }
    }
  }

  lemma UnfinishedAbsent(tasks: seq<Task>, id: string)
    requires !HasTask(tasks, id)
    ensures LastOf(TaskEntries(Unfinished(tasks)), id).None?
  {
    UnfinishedKnown(tasks);
    var es: seq<Entry<Task>> := TaskEntries(Unfinished(tasks));
    LastOfIn(es, id);
    assert forall k :: 0 <= k < |es| ==> HasTask(tasks, es[k].key);
  }

  lemma {:induction false} UnfinishedAt(tasks: seq<Task>, i: nat)
    requires DistinctTasks(tasks) && i < |tasks|
    ensures LastOf(TaskEntries(Unfinished(tasks)), tasks[i].id) ==
      if Abandoned(tasks[i]) != tasks[i] then Some(Abandoned(tasks[i])) else None
  {
    var n := |tasks| - 1;
    var rest, all := Unfinished(tasks[..n]), Unfinished(tasks);
    if all != rest {
      assert TaskEntries(all)[..|rest|] == TaskEntries(rest);
    }
    if i == n {
      UnfinishedAbsent(tasks[..n], tasks[n].id);
    } else {
      UnfinishedAt(tasks[..n], i);
    }
  }

  /** The abort turns exactly the unfinished tasks into skipped ones. */
  lemma AbortEffect(tasks: seq<Task>)
    requires DistinctTasks(tasks)
    ensures var after := Merge(tasks, Unfinished(tasks));
      |after| == |tasks| && forall i :: 0 <= i < |tasks| ==> after[i] == Abandoned(tasks[i])
  {
    UnfinishedKnown(tasks);
    MergeInPlace(tasks, Unfinished(tasks));
    forall i | 0 <= i < |tasks| ensures Updated(tasks[i], Unfinished(tasks)) == Abandoned(tasks[i]) {
      UnfinishedAt(tasks, i);
    }
  }

  /** Every step keeps the planned tasks; only statuses and retry counts change. */
  predicate SameTasks(before: seq<Task>, after: seq<Task>) {
    |before| == |after| && forall i :: 0 <= i < |before| ==>
      after[i] == before[i].(status := after[i].status, retries := after[i].retries)
  }

  lemma ClosedCarries(before: seq<Task>, after: seq<Task>)
    requires SameTasks(before, after) && DistinctTasks(before) && Closed(before)
    ensures DistinctTasks(after) && Closed(after)
  {
    forall i, d | 0 <= i < |after| && d in after[i].deps ensures HasTask(after, d) {
      assert HasTask(before, d);
      var j :| 0 <= j < |before| && before[j].id == d;
      assert after[j].id == d;
    }
  }

  /** How one task may change in one step. */
  predicate Moves(s: State, a: Answer, t: Task, after: Task)
    requires Legal(s, a)
  {
    match s.node
    case Editors(_, _) =>
      after == if t.id == a.id then BranchTask(t, Exhausted(s.budget, a.now), a.gen) else t
    case ErrorAnalysis => EA.JudgedFrom(t, after, EA.CapHit(s.retryRound, s.cfg.maxRounds))
    case BudgetAbort => after == Abandoned(t)
    case _ => after == t
  }

  lemma MoveBranch(s: State, a: Answer)
    requires WellFormed(s) && Legal(s, a) && s.node.Editors?
    ensures var after := RunBranch(s, a).tasks;
      SameTasks(s.tasks, after) && forall i :: 0 <= i < |s.tasks| ==> Moves(s, a, s.tasks[i], after[i])
  {
    var i := BranchEffect(s, a);
  }

  lemma MoveAnalysis(s: State, a: Answer)
    requires WellFormed(s) && Legal(s, a) && s.node == ErrorAnalysis
    ensures var after := Judged(s, a).tasks;
      SameTasks(s.tasks, after) && forall i :: 0 <= i < |s.tasks| ==> Moves(s, a, s.tasks[i], after[i])
  {
    EA.AnalysisEffect(s.tasks, s.results, s.suite, s.budget, s.retryRound, s.cfg.maxRounds, a.now, a.response);
  }

  lemma MoveAbort(s: State, a: Answer)
    requires WellFormed(s) && Legal(s, a) && s.node == BudgetAbort
    ensures var after := RunAbort(s).tasks;
      SameTasks(s.tasks, after) && forall i :: 0 <= i < |s.tasks| ==> Moves(s, a, s.tasks[i], after[i])
  {
    AbortEffect(s.tasks);
  }

  /** After planning, a step keeps the list and moves each task only as its node allows. */
  lemma TasksMove(s: State, a: Answer)
    requires WellFormed(s) && Legal(s, a) && s.node != Synthesis
    ensures var after := Step(s, a).tasks;
      SameTasks(s.tasks, after) && forall i :: 0 <= i < |s.tasks| ==> Moves(s, a, s.tasks[i], after[i])
  {
    match s.node
    case Editors(_, _) => MoveBranch(s, a);
    case ErrorAnalysis => MoveAnalysis(s, a);
    case BudgetAbort => MoveAbort(s, a);
    case _ =>
  }

  lemma PlanWellFormed(s: State)
    requires s.tasks == []
    ensures var plan := Merge(s.tasks, Synthesising.Synthesize(Synthesising.FastApi(), s.units));
      && DistinctTasks(plan) && Closed(plan)
      && forall i :: 0 <= i < |plan| ==>
           plan[i].status == Pending && plan[i].retries == 0 && plan[i].maxRetries == Synthesising.DEFAULT_MAX_RETRIES
  {
    Synthesising.FastApiInjective();
    Synthesising.PlanIsFresh(Synthesising.FastApi(), s.units);
    MergeFresh(Synthesising.Synthesize(Synthesising.FastApi(), s.units));
  }

  lemma WaveShape(s: State, a: Answer)
    requires WellFormed(s) && s.node.Editors? && Legal(s, a)
    ensures var t := Step(s, a);
      t.node.Editors? ==>
        && t.node.pending != [] && DistinctTasks(t.node.pending)
        && forall k :: 0 <= k < |t.node.pending| ==> IsWaiting(t.node.pending[k]) && Knows(t.tasks, t.node.pending[k])
  {
    var i := BranchEffect(s, a);
    PickExact(s.node.pending, a.id);
    var t := Step(s, a);
    if t.node.Editors? {
      forall k | 0 <= k < |t.node.pending| ensures IsWaiting(t.node.pending[k]) && Knows(t.tasks, t.node.pending[k]) {
        var p := t.node.pending[k];
        assert p in s.node.pending;
        var j :| 0 <= j < |s.tasks| && s.tasks[j] == p;
        assert t.tasks[j] == p;
      }
    }
  }

  lemma WellFormedDispatch(s: State, now1: real, now2: real, idle: Node)
    requires DistinctTasks(s.tasks) && Closed(s.tasks) && !idle.Editors? && !Unplanned(idle)
    requires forall i :: 0 <= i < |s.tasks| ==> InUse(s.tasks[i].status)
    ensures WellFormed(Dispatch(s, now1, now2, idle))
  {
    DispatchShape(s, now1, now2, idle);
  }

  lemma WellFormedMoves(s: State, a: Answer)
    requires WellFormed(s) && Legal(s, a) && s.node != Synthesis
    ensures var after := Step(s, a).tasks;
      DistinctTasks(after) && Closed(after) && forall i :: 0 <= i < |after| ==> InUse(after[i].status)
  {
    TasksMove(s, a);
    ClosedCarries(s.tasks, Step(s, a).tasks);
  }

  /** The nodes that leave the plan, the results and the books alone. */
  predicate Quiet(n: Node) {
    n == SandboxTest || n == Aggregate || n == RequestApproval || n == ApprovalGate || n == PrPublish
  }

  /** The nodes followed by the dispatching edge. */
  predicate Routes(n: Node) {
    n == Synthesis || n == Reconcile || n == ErrorAnalysis
  }

  lemma QuietStep(s: State, a: Answer)
    requires Quiet(s.node) && Legal(s, a)
    ensures var t := Step(s, a);
      && t.tasks == s.tasks && t.results == s.results && t.deltas == s.deltas && t.consumed == s.consumed
      && t.budget == s.budget && t.retryRound == s.retryRound && t.cfg == s.cfg
      && t.h.comprehension == s.h.comprehension && t.h.analyses == s.h.analyses && t.h.analyzerCalls == s.h.analyzerCalls
      && t.h.generated == s.h.generated && t.h.answers == s.h.answers
      && !t.node.Editors? && !Unplanned(t.node) && t.node != SandboxTest && t.node != Reconcile && t.node != BudgetAbort
  {
  }

  lemma WellFormedWave(s: State, a: Answer)
    requires WellFormed(s) && Legal(s, a) && s.node.Editors?
    ensures WellFormed(RunBranch(s, a))
  {
    WellFormedMoves(s, a);
    WaveShape(s, a);
  }

  lemma WellFormedAnalysis(s: State, a: Answer)
    requires WellFormed(s) && Legal(s, a) && s.node == ErrorAnalysis
    ensures WellFormed(Dispatch(Judged(s, a), a.now1, a.now2, End))
  {
    WellFormedMoves(s, a);
    WellFormedDispatch(Judged(s, a), a.now1, a.now2, End);
  }

  lemma WellFormedStep(s: State, a: Answer)
    requires WellFormed(s) && Legal(s, a)
    ensures WellFormed(Step(s, a))
  {
    if Quiet(s.node) {
      QuietStep(s, a);
    } else {
      match s.node
      case Synthesis =>
        PlanWellFormed(s);
        WellFormedDispatch(Planned(s), a.now1, a.now2, SandboxTest);
      case Editors(_, _) => WellFormedWave(s, a);
      case Reconcile => WellFormedDispatch(Reconciled(s), a.now1, a.now2, SandboxTest);
      case ErrorAnalysis => WellFormedAnalysis(s, a);
      case BudgetAbort => WellFormedMoves(s, a);
      case Comprehension =>
    }
  }

  lemma {:induction false} WellFormedRun(s: State, run: seq<Answer>)
    requires WellFormed(s) && LegalRun(s, run)
    ensures WellFormed(Exec(s, run))
    decreases |run|
  {
    if run != [] {
      WellFormedStep(s, run[0]);
      WellFormedRun(Step(s, run[0]), run[1..]);
    }
  }
}
