/** One migration run as a state machine: the nodes and conditional edges of the graph, stepping a
    shared state. Everything outside (extractor, generator, test runner, analyzer, approver,
    publisher, clock) answers through an unconstrained oracle. */
module Machine {
  import opened OrderedDict
  import opened PlanTypes
  import opened Budgeting
  import opened Paths
  import opened Diffs
  import opened Workspaces
  import opened Scheduling
  import opened RunTypes
  import Comprehending
  import Synthesising
  import EA = ErrorAnalysing

  /** The node about to run. A wave of editors holds the branches still in flight and the time it was
      dispatched. */
  datatype Node =
    | Comprehension | Synthesis | Editors(pending: seq<Task>, since: real) | Reconcile | SandboxTest
    | ErrorAnalysis | Aggregate | RequestApproval | ApprovalGate | PrPublish | BudgetAbort | End

  datatype Generation = Generation(diffs: seq<FileDiff>, cost: real)

  /** What the outside answers while one node runs, with the clock readings the node takes. */
  datatype Answer =
    | Extracted(now: real, sources: seq<SourceFile>)
    | Routed(now1: real, now2: real)
    | Branch(id: string, now: real, gen: Option<Generation>)
    | Tested(outcome: Outcome, after: Files)
    | Analysed(now: real, response: Option<EA.Response>, now1: real, now2: real)
    | Decided(value: Json)
    | Published(ok: bool)
    | Tick

  /** One invocation of the test runner: the workspace it started on, the effective files, its verdict. */
  datatype Trial = Trial(files: Files, diffs: seq<FileDiff>, outcome: Outcome)

  /** What the run has done to the outside world so far. `publishCalls` holds the files of every call of the
      publisher and `analyzerCalls` counts every call of the analyzer, whether they succeed or fail;
      `analyses` are the costs of the answered ones. */
  datatype History = History(
    comprehension: Option<real>, analyses: seq<real>, generated: multiset<string>,
    answers: map<string, Option<seq<FileDiff>>>, trials: seq<Trial>, publishCalls: seq<seq<FileDiff>>,
    decisions: seq<Json>, analyzerCalls: nat, emitted: bool, emptied: bool)

  datatype State = State(
    cfg: Config, node: Node, phase: Phase, clock: real,
    units: seq<Unit>, tasks: seq<Task>, results: seq<EditorResult>,
    deltas: seq<real>, consumed: nat, suite: Option<Outcome>,
    draft: Option<seq<string>>, approval: Option<bool>,
    budget: Ledger, retryRound: nat, files: Files, h: History)

  function Init(cfg: Config, files: Files): State {
    State(cfg, Comprehension, Unset, cfg.budget.startedAt, [], [], [], [], 0, None, None, None, cfg.budget, 0, files,
          History(None, [], multiset{}, map[], [], [], [], 0, false, false))
  }

  /** The answers the outside may give: costs are not negative and the clock does not run backwards.
      Branches of one wave run in parallel, so each reads a time after its dispatch. */
  predicate Legal(s: State, a: Answer) {
    match s.node
    case Comprehension =>
      a.Extracted? && a.now >= s.clock
      && forall i :: 0 <= i < |a.sources| && a.sources[i].answer.Extraction? ==> a.sources[i].answer.cost >= 0.0
    case Synthesis => a.Routed? && s.clock <= a.now1 <= a.now2
    case Editors(pending, since) =>
      a.Branch? && HasTask(pending, a.id) && a.now >= since && (a.gen.Some? ==> a.gen.value.cost >= 0.0)
    case Reconcile => a.Routed? && s.clock <= a.now1 <= a.now2
    case SandboxTest => a.Tested?
    case ErrorAnalysis =>
      a.Analysed? && s.clock <= a.now <= a.now1 <= a.now2 && (a.response.Some? ==> a.response.value.cost >= 0.0)
    case Aggregate => a.Tick?
    case RequestApproval => a.Tick?
    case ApprovalGate => a.Decided?
    case PrPublish => a.Published?
    case BudgetAbort => a.Tick?
    case End => false
  }

  /** The conditional edge shared by planning, reconciliation and analysis. An empty dispatch leaves
      the graph with nothing to run. */
  function Dispatch(s: State, now1: real, now2: real, idle: Node): (r: State)
    ensures r == s.(clock := now2, node := r.node, h := s.h.(emptied := r.h.emptied))
  {
    var t := s.(clock := now2);
    match RouteToEditors(s.tasks, s.budget, now1, now2)
    case NoReadyTasks => t.(node := idle)
    case BudgetExhausted => t.(node := BudgetAbort)
    case Send(wave) =>
      if wave == [] then t.(node := End, h := t.h.(emptied := true)) else t.(node := Editors(wave, now2))
  }

  function Comprehended(s: State, now: real, sources: seq<SourceFile>): State {
    if Exhausted(s.budget, now) then
      s.(clock := now, phase := AbortedBudget, node := BudgetAbort)
    else
      var c := Comprehending.Comprehend(sources, Remaining(s.budget));
      s.(clock := now, units := c.units, budget := Recorded(s.budget, c.cost, 1, false),
         phase := if c.units != [] then SynthesisPlanning else RunFailed, node := Synthesis,
         h := s.h.(comprehension := Some(c.cost)))
  }

  function Planned(s: State): State {
    if s.units == [] then s.(phase := RunFailed)
    else s.(tasks := Merge(s.tasks, Synthesising.Synthesize(Synthesising.FastApi(), s.units)), phase := Editing)
  }

  /** One editor branch's new task: skipped when the budget is gone, failed or succeeded otherwise. */
  function BranchTask(t: Task, exhausted: bool, gen: Option<Generation>): Task {
    if exhausted then t.(status := Skipped)
    else if gen.None? then
      t.(status := if t.retries + 1 > t.maxRetries then NeedsHuman else Retrying, retries := t.retries + 1)
    else t.(status := Succeeded)
  }

  /** What a branch returns for the reducers: its task, and with a successful call its code and cost. */
  datatype EditorUpdate = EditorUpdate(task: Task, results: seq<EditorResult>, deltas: seq<real>)

  function EditorNode(t: Task, exhausted: bool, gen: Option<Generation>): EditorUpdate {
    if exhausted || gen.None? then EditorUpdate(BranchTask(t, exhausted, gen), [], [])
    else EditorUpdate(BranchTask(t, exhausted, gen), [EditorResult(t.id, gen.value.diffs)], [gen.value.cost])
  }

  /** The generator calls and answers, as far as this branch adds to them. */
  function Called(h: History, id: string, exhausted: bool, gen: Option<Generation>): (r: History)
    ensures r == h.(generated := r.generated, answers := r.answers)
  {
    if exhausted then h
    else h.(generated := h.generated + multiset{id},
            answers := h.answers[id := if gen.None? then None else Some(gen.value.diffs)])
  }

  function Pick(pending: seq<Task>, id: string): Task
    requires HasTask(pending, id)
  {
    if pending[0].id == id then pending[0] else Pick(pending[1..], id)
  }

  function Without(pending: seq<Task>, id: string): seq<Task> {
    if pending == [] then [] else if pending[0].id == id then pending[1..] else [pending[0]] + Without(pending[1..], id)
  }

  /** The completion of one branch of a wave; branches complete in any order, and the reducers apply
      each branch's update as it completes. */
  function RunBranch(s: State, a: Answer): State
    requires s.node.Editors? && Legal(s, a)
  {
    var t, exhausted, pending := Pick(s.node.pending, a.id), Exhausted(s.budget, a.now), Without(s.node.pending, a.id);
    var u := EditorNode(t, exhausted, a.gen);
    s.(tasks := Merge(s.tasks, [u.task]), results := s.results + u.results, deltas := s.deltas + u.deltas,
       node := if pending == [] then Reconcile else Editors(pending, s.node.since),
       clock := Larger(s.clock, a.now), h := Called(s.h, t.id, exhausted, a.gen))
  }

  function Reconciled(s: State): State {
    s.(budget := RecordAll(s.budget, Unconsumed(s.deltas, s.consumed)), consumed := |s.deltas|)
  }

  /** The edge after the sandbox looks at the stored suite result, not at the phase. */
  function AfterSandbox(suite: Option<Outcome>): Node {
    if suite == Some(Passed) then Aggregate else ErrorAnalysis
  }

  function RunSandbox(s: State, outcome: Outcome, after: Files): (r: State)
    ensures r == s.(files := r.files, suite := r.suite, phase := r.phase, node := AfterSandbox(r.suite),
                    h := s.h.(trials := r.h.trials))
  {
    var diffs := EffectiveDiffs(s.results, s.tasks);
    if diffs == [] then s.(phase := Analysing, node := AfterSandbox(s.suite))
    else
      match Prepare(s.cfg.root, s.files, StalePaths(s.results, s.tasks), diffs)
      case Refused(files) => s.(files := files, phase := RunFailed, node := AfterSandbox(s.suite))
      case Prepared(files) =>
        s.(files := after, suite := Some(outcome),
           phase := if outcome == Passed then Aggregating else Analysing,
           node := AfterSandbox(Some(outcome)),
           h := s.h.(trials := s.h.trials + [Trial(files, diffs, outcome)]))
  }

  function AnalysisOf(s: State, a: Answer): EA.Update
    requires a.Analysed?
  {
    EA.Analyse(s.tasks, s.results, s.suite, s.budget, s.retryRound, s.cfg.maxRounds, a.now, a.response)
  }

  function Judged(s: State, a: Answer): State
    requires a.Analysed?
  {
    var u := AnalysisOf(s, a);
    s.(tasks := Merge(s.tasks, u.tasks), phase := u.phase, retryRound := u.retryRound, budget := u.budget,
       h := s.h.(analyses := if u.called && a.response.Some? then s.h.analyses + [a.response.value.cost] else s.h.analyses,
                 analyzerCalls := s.h.analyzerCalls + if u.called then 1 else 0, emitted := EA.AnyRetrying(u.tasks)))
  }

  predicate AllPublishable(cfg: Config, diffs: seq<FileDiff>) {
    forall i :: 0 <= i < |diffs| ==> PublishableProblem(cfg.word, diffs[i].path).None?
  }

  function NeedsApproval(cfg: Config): bool {
    cfg.hasRepo && cfg.requireApproval
  }

  function RunAggregate(s: State): (r: State)
    ensures r == s.(draft := r.draft, phase := r.phase, node := r.node)
    ensures r.node == End || r.node == RequestApproval || r.node == PrPublish
  {
    var diffs := EffectiveDiffs(s.results, s.tasks);
    if diffs == [] || !AllPublishable(s.cfg, diffs) then s.(phase := RunFailed, node := End)
    else
      s.(draft := Some(seq(|diffs|, i requires 0 <= i < |diffs| => diffs[i].path)), phase := Aggregating,
         node := if NeedsApproval(s.cfg) then RequestApproval else PrPublish)
  }

  /** Only an object whose "approved" is the boolean true approves. */
  predicate IsApproval(v: Json) {
    v.JObject? && "approved" in v.fields && v.fields["approved"] == JBool(true)
  }

  function RunGate(s: State, value: Json): State {
    s.(approval := Some(IsApproval(value)), phase := if IsApproval(value) then PrGeneration else Rejected,
       node := if IsApproval(value) then PrPublish else End,
       h := s.h.(decisions := s.h.decisions + [value]))
  }

  function RunPublish(s: State, ok: bool): (r: State)
    ensures r == s.(phase := r.phase, node := End, h := s.h.(publishCalls := r.h.publishCalls))
  {
    var t := s.(node := End);
    if s.draft.None? then t
    else if !s.cfg.hasRepo then t.(phase := Done)
    else if NeedsApproval(s.cfg) && s.approval != Some(true) then t.(phase := RunFailed)
    else
      t.(phase := if ok then Done else RunFailed,
         h := s.h.(publishCalls := s.h.publishCalls + [EffectiveDiffs(s.results, s.tasks)]))
  }

  function Unfinished(tasks: seq<Task>): seq<Task> {
    if tasks == [] then []
    else
      var rest := Unfinished(tasks[..|tasks| - 1]);
      var t := tasks[|tasks| - 1];
      if IsWaiting(t) || t.status == InProgress then rest + [t.(status := Skipped)] else rest
  }

  function RunAbort(s: State): State {
    s.(tasks := Merge(s.tasks, Unfinished(s.tasks)), phase := AbortedBudget, node := End)
  }

  function Step(s: State, a: Answer): State
    requires Legal(s, a)
  {
    match s.node
    case Comprehension => Comprehended(s, a.now, a.sources)
    case Synthesis => Dispatch(Planned(s), a.now1, a.now2, SandboxTest)
    case Editors(_, _) => RunBranch(s, a)
    case Reconcile => Dispatch(Reconciled(s), a.now1, a.now2, SandboxTest)
    case SandboxTest => RunSandbox(s, a.outcome, a.after)
    case ErrorAnalysis => Dispatch(Judged(s, a), a.now1, a.now2, End)
    case Aggregate => RunAggregate(s)
    case RequestApproval => s.(phase := AwaitingApproval, node := ApprovalGate)
    case ApprovalGate => RunGate(s, a.value)
    case PrPublish => RunPublish(s, a.ok)
    case BudgetAbort => RunAbort(s)
  }

  ghost predicate LegalRun(s: State, run: seq<Answer>)
    decreases |run|
  {
    run == [] || (Legal(s, run[0]) && LegalRun(Step(s, run[0]), run[1..]))
  }

  ghost function Exec(s: State, run: seq<Answer>): State
    requires LegalRun(s, run)
    decreases |run|
  {
    if run == [] then s else Exec(Step(s, run[0]), run[1..])
  }

  /** Running two parts one after the other is running their concatenation. */
  lemma {:induction false} ExecSplit(s: State, x: seq<Answer>, y: seq<Answer>)
    ensures LegalRun(s, x + y) <==> LegalRun(s, x) && LegalRun(Exec(s, x), y)
    ensures LegalRun(s, x + y) ==> Exec(s, x + y) == Exec(Exec(s, x), y)
    decreases |x|
  {
    if x == [] {
      assert x + y == y;
    } else {
      assert (x + y)[1..] == x[1..] + y;
      if Legal(s, x[0]) {
        ExecSplit(Step(s, x[0]), x[1..], y);
      }
    }
  }

  lemma Front(s: State, a: Answer, x: seq<Answer>)
    ensures LegalRun(s, [a] + x) <==> Legal(s, a) && LegalRun(Step(s, a), x)
    ensures LegalRun(s, [a] + x) ==> Exec(s, [a] + x) == Exec(Step(s, a), x)
  {
    assert ([a] + x)[1..] == x;
  }

  lemma OneStep(s: State, a: Answer)
    requires Legal(s, a)
    ensures LegalRun(s, [a]) && Exec(s, [a]) == Step(s, a)
  {
    assert [a][1..] == [];
  }

  lemma OneMore(s: State, run: seq<Answer>, a: Answer)
    requires LegalRun(s, run) && Legal(Exec(s, run), a)
    ensures LegalRun(s, run + [a]) && Exec(s, run + [a]) == Step(Exec(s, run), a)
  {
    ExecSplit(s, run, [a]);
    OneStep(Exec(s, run), a);
  }
}
