/** The attempt ledger: how a task's status, its retry count and the generator calls made for it
    agree in every reachable state, and that succeeded tasks always have their latest code. */
module Attempts {
  import opened OrderedDict
  import opened PlanTypes
  import opened Budgeting
  import opened Diffs
  import opened Workspaces
  import opened Scheduling
  import opened RunTypes
  import opened Machine
  import opened Shape
  import EA = ErrorAnalysing

  /** `calls` generator calls were made for this task. */
  predicate Entered(t: Task, calls: nat) {
    match t.status
    case Pending => calls == 0 && t.retries == 0
    case Retrying => calls == t.retries && 1 <= t.retries <= t.maxRetries
    case Succeeded => calls == t.retries + 1 && t.retries <= t.maxRetries
    case NeedsHuman => (calls == t.retries || calls == t.retries + 1) && calls <= t.maxRetries + 1
    case Skipped => calls == t.retries && calls <= t.maxRetries
    case _ => false
  }

  ghost predicate LedgerHolds(tasks: seq<Task>, generated: multiset<string>) {
    && (forall i :: 0 <= i < |tasks| ==> Entered(tasks[i], generated[tasks[i].id]))
    && (forall id :: id in generated ==> HasTask(tasks, id))
  }

  lemma MoveEntered(s: State, a: Answer, t: Task, after: Task, calls: nat)
    requires Legal(s, a) && Moves(s, a, t, after) && Entered(t, calls)
    requires s.node.Editors? && t.id == a.id ==> IsWaiting(t)
    ensures Entered(after, if s.node.Editors? && t.id == a.id && !Exhausted(s.budget, a.now) then calls + 1 else calls)
  {
  }

  lemma LedgerMoves(s: State, a: Answer, after: seq<Task>, generated: multiset<string>)
    requires WellFormed(s) && Legal(s, a) && LedgerHolds(s.tasks, s.h.generated) && SameTasks(s.tasks, after)
    requires forall i :: 0 <= i < |s.tasks| ==> Moves(s, a, s.tasks[i], after[i])
    requires s.node.Editors? ==> forall i :: 0 <= i < |s.tasks| && s.tasks[i].id == a.id ==> IsWaiting(s.tasks[i])
    requires s.node.Editors? ==> HasTask(s.tasks, a.id)
    requires generated ==
      if s.node.Editors? && !Exhausted(s.budget, a.now) then s.h.generated + multiset{a.id} else s.h.generated
    ensures LedgerHolds(after, generated)
  {
    forall i | 0 <= i < |after| ensures Entered(after[i], generated[after[i].id]) {
      MoveEntered(s, a, s.tasks[i], after[i], s.h.generated[s.tasks[i].id]);
    }
    forall id | id in generated ensures HasTask(after, id) {
      assert HasTask(s.tasks, id);
      var j :| 0 <= j < |s.tasks| && s.tasks[j].id == id;
      assert after[j].id == id;
    }
  }

  lemma BranchCalls(s: State, a: Answer)
    requires WellFormed(s) && s.node.Editors? && Legal(s, a)
    ensures HasTask(s.tasks, a.id) && forall i :: 0 <= i < |s.tasks| && s.tasks[i].id == a.id ==> IsWaiting(s.tasks[i])
    ensures RunBranch(s, a).h.generated ==
      if !Exhausted(s.budget, a.now) then s.h.generated + multiset{a.id} else s.h.generated
  {
    var i := BranchEffect(s, a);
  }

  lemma LedgerWave(s: State, a: Answer)
    requires WellFormed(s) && s.node.Editors? && Legal(s, a) && LedgerHolds(s.tasks, s.h.generated)
    ensures LedgerHolds(RunBranch(s, a).tasks, RunBranch(s, a).h.generated)
  {
    MoveBranch(s, a);
    BranchCalls(s, a);
    LedgerMoves(s, a, RunBranch(s, a).tasks, RunBranch(s, a).h.generated);
  }

  lemma LedgerElsewhere(s: State, a: Answer)
    requires WellFormed(s) && !s.node.Editors? && s.node != Synthesis && Legal(s, a) && LedgerHolds(s.tasks, s.h.generated)
    ensures LedgerHolds(Step(s, a).tasks, Step(s, a).h.generated)
  {
    TasksMove(s, a);
    CallsOnlyInWaves(s, a);
    LedgerMoves(s, a, Step(s, a).tasks, s.h.generated);
  }

  lemma LedgerPlan(s: State, a: Answer)
    requires s.node == Synthesis && Legal(s, a) && s.tasks == [] && s.h.generated == multiset{}
    ensures LedgerHolds(Step(s, a).tasks, Step(s, a).h.generated)
  {
    PlanWellFormed(s);
    CallsOnlyInWaves(s, a);
    assert Step(s, a).tasks == Planned(s).tasks;
  }

  ghost predicate Accounted(s: State) {
    LedgerHolds(s.tasks, s.h.generated) && (Unplanned(s.node) ==> s.h.generated == multiset{})
  }

  lemma LedgerStep(s: State, a: Answer)
    requires WellFormed(s) && Legal(s, a) && Accounted(s)
    ensures Accounted(Step(s, a))
  {
    if s.node == Synthesis {
      LedgerPlan(s, a);
      CallsOnlyInWaves(s, a);
    } else if s.node.Editors? {
      LedgerWave(s, a);
    } else {
      LedgerElsewhere(s, a);
      CallsOnlyInWaves(s, a);
    }
  }

  lemma CallsOnlyInWaves(s: State, a: Answer)
    requires Legal(s, a) && !s.node.Editors?
    ensures Step(s, a).h.generated == s.h.generated && Step(s, a).h.answers == s.h.answers
    ensures Step(s, a).results == s.results && Step(s, a).deltas == s.deltas
    ensures Unplanned(Step(s, a).node) ==> Unplanned(s.node)
  {
    if Quiet(s.node) {
      QuietStep(s, a);
    }
  }

  lemma {:induction false} LedgerRun(s: State, run: seq<Answer>)
    requires WellFormed(s) && LegalRun(s, run) && Accounted(s)
    ensures Accounted(Exec(s, run))
    decreases |run|
  {
    if run != [] {
      WellFormedStep(s, run[0]);
      LedgerStep(s, run[0]);
      LedgerRun(Step(s, run[0]), run[1..]);
    }
  }

  /** In every run, at every moment: the status and retry count of each task determine how many
      generator calls were made for it, never more than one above its retry cap; no call is made for
      anything that is not a planned task. */
  lemma AttemptLedger(cfg: Config, files: Files, run: seq<Answer>)
    requires LegalRun(Init(cfg, files), run)
    ensures var s := Exec(Init(cfg, files), run);
      && LedgerHolds(s.tasks, s.h.generated)
      && forall i :: 0 <= i < |s.tasks| ==> s.h.generated[s.tasks[i].id] <= s.tasks[i].maxRetries + 1
  {
    LedgerRun(Init(cfg, files), run);
  }

  // ---- nobody gives up early ----

  /** Before any analysis, a task that needs a human has failed one more time than its retry cap. */
  predicate Patient(s: State) {
    s.retryRound == 0 ==>
      forall i :: 0 <= i < |s.tasks| && s.tasks[i].status == NeedsHuman ==> s.tasks[i].retries == s.tasks[i].maxRetries + 1
  }

  lemma PatientMove(s: State, a: Answer, t: Task, after: Task, calls: nat)
    requires Legal(s, a) && Moves(s, a, t, after) && Entered(t, calls) && s.node != ErrorAnalysis
    requires s.node.Editors? && t.id == a.id ==> IsWaiting(t)
    requires t.status == NeedsHuman ==> t.retries == t.maxRetries + 1
    ensures after.status == NeedsHuman ==> after.retries == after.maxRetries + 1
  {
  }

  lemma RoundsCount(s: State, a: Answer)
    requires Legal(s, a)
    ensures Step(s, a).retryRound == if s.node == ErrorAnalysis then s.retryRound + 1 else s.retryRound
  {
    if Quiet(s.node) {
      QuietStep(s, a);
    } else if s.node == ErrorAnalysis {
      assert Step(s, a).retryRound == Judged(s, a).retryRound;
    }
  }

  lemma PatientStep(s: State, a: Answer)
    requires WellFormed(s) && Accounted(s) && Patient(s) && Legal(s, a)
    ensures Patient(Step(s, a))
  {
    RoundsCount(s, a);
    if s.node == Synthesis {
      PlanWellFormed(s);
    } else if s.node != ErrorAnalysis && s.retryRound == 0 {
      TasksMove(s, a);
      if s.node.Editors? {
        BranchCalls(s, a);
      }
      var after := Step(s, a).tasks;
      forall i | 0 <= i < |after| && after[i].status == NeedsHuman ensures after[i].retries == after[i].maxRetries + 1 {
        PatientMove(s, a, s.tasks[i], after[i], s.h.generated[s.tasks[i].id]);
      }
    }
  }

  lemma {:induction false} PatientRun(s: State, run: seq<Answer>)
    requires WellFormed(s) && Accounted(s) && Patient(s) && LegalRun(s, run)
    ensures Accounted(Exec(s, run)) && Patient(Exec(s, run))
    decreases |run|
  {
    if run != [] {
      WellFormedStep(s, run[0]);
      LedgerStep(s, run[0]);
      PatientStep(s, run[0]);
      PatientRun(Step(s, run[0]), run[1..]);
    }
  }

  /** Before the first analysis visit a task needs a human only when all its attempts, exactly one more
      than its retry cap, were made and failed. */
  lemma NobodyGivesUpEarly(cfg: Config, files: Files, run: seq<Answer>, i: nat)
    requires LegalRun(Init(cfg, files), run) && Exec(Init(cfg, files), run).retryRound == 0
    requires i < |Exec(Init(cfg, files), run).tasks| && Exec(Init(cfg, files), run).tasks[i].status == NeedsHuman
    ensures var s := Exec(Init(cfg, files), run);
      s.h.generated[s.tasks[i].id] == s.tasks[i].maxRetries + 1 && s.tasks[i].retries == s.tasks[i].maxRetries + 1
  {
    PatientRun(Init(cfg, files), run);
    var s := Exec(Init(cfg, files), run);
    assert Entered(s.tasks[i], s.h.generated[s.tasks[i].id]);
  }

  // ---- succeeded tasks have their latest code ----

  /** The latest stored result of this task is what the generator answered last. */
  predicate HasLatestCode(s: State, id: string) {
    var r := LatestOf(s.results, id);
    r.Some? && id in s.h.answers && s.h.answers[id] == Some(r.value.diffs)
  }

  predicate CodeStored(s: State) {
    forall i :: 0 <= i < |s.tasks| && s.tasks[i].status == Succeeded ==> HasLatestCode(s, s.tasks[i].id)
  }

  lemma LatestAppend(results: seq<EditorResult>, r: EditorResult, id: string)
    ensures LatestOf(results + [r], id) == if r.taskId == id then Some(r) else LatestOf(results, id)
  {
    var es: seq<Entry<EditorResult>> := ResultEntries(results + [r]);
    assert es[..|es| - 1] == ResultEntries(results);
  }

  lemma CodeAfterBranch(s: State, a: Answer)
    requires WellFormed(s) && s.node.Editors? && Legal(s, a) && CodeStored(s)
    ensures CodeStored(RunBranch(s, a))
  {
    var t := RunBranch(s, a);
    MoveBranch(s, a);
    BranchCalls(s, a);
    forall i | 0 <= i < |t.tasks| && t.tasks[i].status == Succeeded ensures HasLatestCode(t, t.tasks[i].id) {
      var id := s.tasks[i].id;
      if t.results != s.results {
        LatestAppend(s.results, EditorResult(a.id, a.gen.value.diffs), id);
      }
      PickExact(s.node.pending, a.id);
      assert id != a.id ==> HasLatestCode(s, id);
    }
  }

  lemma MoveKeepsSuccess(s: State, a: Answer, t: Task, after: Task)
    requires Legal(s, a) && Moves(s, a, t, after) && !s.node.Editors? && after.status == Succeeded
    ensures t.status == Succeeded
  {
  }

  lemma CodeStep(s: State, a: Answer)
    requires WellFormed(s) && Legal(s, a) && CodeStored(s)
    ensures CodeStored(Step(s, a))
  {
    if s.node == Synthesis {
      PlanWellFormed(s);
    } else if s.node.Editors? {
      CodeAfterBranch(s, a);
    } else {
      TasksMove(s, a);
      CallsOnlyInWaves(s, a);
      var t := Step(s, a);
      forall i | 0 <= i < |t.tasks| && t.tasks[i].status == Succeeded ensures HasLatestCode(t, t.tasks[i].id) {
        MoveKeepsSuccess(s, a, s.tasks[i], t.tasks[i]);
        assert HasLatestCode(s, s.tasks[i].id);
      }
    }
  }

  lemma {:induction false} CodeRun(s: State, run: seq<Answer>)
    requires WellFormed(s) && LegalRun(s, run) && CodeStored(s)
    ensures CodeStored(Exec(s, run))
    decreases |run|
  {
    if run != [] {
      WellFormedStep(s, run[0]);
      CodeStep(s, run[0]);
      CodeRun(Step(s, run[0]), run[1..]);
    }
  }

  /** In every run every SUCCEEDED task has a stored result, and it is the generator's last answer for
      that task. So the "has code" filter of error analysis never drops a succeeded task. */
  lemma SucceededHasCode(cfg: Config, files: Files, run: seq<Answer>, i: nat)
    requires LegalRun(Init(cfg, files), run) && i < |Exec(Init(cfg, files), run).tasks|
    requires Exec(Init(cfg, files), run).tasks[i].status == Succeeded
    ensures var s := Exec(Init(cfg, files), run);
      HasLatestCode(s, s.tasks[i].id) && EA.HasCode(s.results, s.tasks[i].id)
  {
    CodeRun(Init(cfg, files), run);
    var s := Exec(Init(cfg, files), run);
    assert HasLatestCode(s, s.tasks[i].id);
    var es: seq<Entry<EditorResult>> := ResultEntries(s.results);
    LastOfIn(es, s.tasks[i].id);
    var k :| 0 <= k < |es| && es[k].key == s.tasks[i].id;
    assert s.results[k].taskId == s.tasks[i].id;
  }
}
