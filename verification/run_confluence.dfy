/** Whole runs: reordering the branch completions inside every wave leads to the same state, up to the
    order of the lists the branches append to. */
module RunConfluence {
  import opened OrderedDict
  import opened PlanTypes
  import opened Budgeting
  import opened Paths
  import opened Diffs
  import opened Workspaces
  import opened Scheduling
  import opened RunTypes
  import opened Machine
  import opened Shape
  import opened Confluence
  import Attempts
  import EA = ErrorAnalysing

  ghost predicate SameDeltas(s: State, t: State) {
    |s.deltas| == |t.deltas| && multiset(Unconsumed(s.deltas, s.consumed)) == multiset(Unconsumed(t.deltas, t.consumed))
  }

  /** The same files drafted, tested and given to the publisher. */
  ghost predicate SameDraft(x: Option<seq<string>>, y: Option<seq<string>>) {
    (x.Some? <==> y.Some?) && (x.Some? ==> forall p :: p in x.value <==> p in y.value)
  }

  /** The same verdict on the same paths at the same locations; strictly, also with the same contents. */
  ghost predicate SameTrial(strict: bool, root: Loc, x: Trial, y: Trial) {
    && x.outcome == y.outcome && PathsOf(x.diffs) == PathsOf(y.diffs)
    && SamePlaces(root, PathsOf(x.diffs), x.files, y.files)
    && (strict ==> x.files == y.files && SameFiles(x.diffs, y.diffs))
  }

  ghost predicate SameTrials(strict: bool, root: Loc, x: seq<Trial>, y: seq<Trial>) {
    |x| == |y| && forall i :: 0 <= i < |x| ==> SameTrial(strict, root, x[i], y[i])
  }

  ghost predicate SameShipment(strict: bool, x: seq<FileDiff>, y: seq<FileDiff>) {
    PathsOf(x) == PathsOf(y) && (strict ==> SameFiles(x, y))
  }

  ghost predicate SamePublished(strict: bool, x: seq<seq<FileDiff>>, y: seq<seq<FileDiff>>) {
    |x| == |y| && forall i :: 0 <= i < |x| ==> SameShipment(strict, x[i], y[i])
  }

  /** Equal in everything but the lists whose order depends on the branches: the same tasks, budget,
      phase, node, clock, workspace, calls made and decisions. */
  predicate SameOutside(s: State, t: State) {
    t == s.(results := t.results, deltas := t.deltas, draft := t.draft,
            h := s.h.(trials := t.h.trials, publishCalls := t.h.publishCalls))
  }

  ghost predicate SameLists(strict: bool, s: State, t: State) {
    && SameResults(s.results, t.results) && SameDeltas(s, t) && SameDraft(s.draft, t.draft)
    && SameTrials(strict, s.cfg.root, s.h.trials, t.h.trials) && SamePublished(strict, s.h.publishCalls, t.h.publishCalls)
  }

  /** The same state up to the order inside the lists of results, costs and files, and, unless strict, up
      to the contents of files two tasks both write. */
  ghost predicate Similar(strict: bool, s: State, t: State) {
    SameOutside(s, t) && SameLists(strict, s, t)
  }

  /** What strictness needs. */
  ghost predicate Contents(strict: bool, root: Loc, results: seq<EditorResult>) {
    strict ==> Separate(root, results)
  }

  lemma SimilarSelf(strict: bool, s: State)
    ensures Similar(strict, s, s)
  {
  }

  lemma SimilarTransitive(strict: bool, s: State, t: State, u: State)
    requires Similar(strict, s, t) && Similar(strict, t, u)
    ensures Similar(strict, s, u)
  {
    TrialsTransitive(strict, s.cfg.root, s.h.trials, t.h.trials, u.h.trials);
    assert forall i :: 0 <= i < |s.h.publishCalls| ==> SameShipment(strict, s.h.publishCalls[i], t.h.publishCalls[i]);
  }

  lemma TrialsTransitive(strict: bool, root: Loc, x: seq<Trial>, y: seq<Trial>, z: seq<Trial>)
    requires SameTrials(strict, root, x, y) && SameTrials(strict, root, y, z)
    ensures SameTrials(strict, root, x, z)
  {
    forall i | 0 <= i < |x| ensures SameTrial(strict, root, x[i], z[i]) {
      assert SameTrial(strict, root, x[i], y[i]) && SameTrial(strict, root, y[i], z[i]);
    }
  }

  // ---- similar states step alike ----

  lemma SimilarDispatch(strict: bool, s: State, t: State, now1: real, now2: real, idle: Node)
    requires Similar(strict, s, t)
    ensures Similar(strict, Dispatch(s, now1, now2, idle), Dispatch(t, now1, now2, idle))
  {
  }

  lemma SimilarReconciled(strict: bool, s: State, t: State)
    requires Similar(strict, s, t)
    ensures Similar(strict, Reconciled(s), Reconciled(t))
  {
    RecordAllPermuted(s.budget, Unconsumed(s.deltas, s.consumed), Unconsumed(t.deltas, t.consumed));
  }

  lemma HasCodeIsLatest(results: seq<EditorResult>, id: string)
    ensures EA.HasCode(results, id) <==> LatestOf(results, id).Some?
  {
    var es: seq<Entry<EditorResult>> := ResultEntries(results);
    LastOfIn(es, id);
    if EA.HasCode(results, id) {
      var i :| 0 <= i < |results| && results[i].taskId == id;
      assert es[i].key == id;
    }
    if Has(es, id) {
      var i :| 0 <= i < |es| && es[i].key == id;
      assert results[i].taskId == id;
    }
  }

  lemma {:induction false} CandidatesSame(tasks: seq<Task>, x: seq<EditorResult>, y: seq<EditorResult>)
    requires SameResults(x, y)
    ensures EA.Candidates(tasks, x) == EA.Candidates(tasks, y)
  {
    if tasks != [] {
      CandidatesSame(tasks[..|tasks| - 1], x, y);
      HasCodeIsLatest(x, tasks[|tasks| - 1].id);
      HasCodeIsLatest(y, tasks[|tasks| - 1].id);
    }
  }

  lemma SimilarJudged(strict: bool, s: State, t: State, a: Answer)
    requires Similar(strict, s, t) && a.Analysed?
    ensures Similar(strict, Judged(s, a), Judged(t, a))
  {
    CandidatesSame(s.tasks, s.results, t.results);
  }

  /** What one branch returns. */
  function UpdateOf(s: State, a: Answer): EditorUpdate
    requires s.node.Editors? && Legal(s, a)
  {
    EditorNode(Pick(s.node.pending, a.id), Exhausted(s.budget, a.now), a.gen)
  }

  lemma BranchOutside(s: State, t: State, a: Answer)
    requires SameOutside(s, t) && s.node.Editors? && Legal(s, a)
    ensures SameOutside(RunBranch(s, a), RunBranch(t, a))
  {
  }

  lemma SimilarBranch(strict: bool, s: State, t: State, a: Answer)
    requires Similar(strict, s, t) && s.node.Editors? && Legal(s, a)
    ensures Similar(strict, RunBranch(s, a), RunBranch(t, a))
  {
    BranchOutside(s, t, a);
    ResultsAppend(s.results, t.results, UpdateOf(s, a).results);
    DeltasAppend(s.deltas, t.deltas, s.consumed, UpdateOf(s, a).deltas);
  }

  lemma ResultsAppend(x: seq<EditorResult>, y: seq<EditorResult>, more: seq<EditorResult>)
    requires SameResults(x, y)
    ensures SameResults(x + more, y + more)
  {
    forall id ensures LatestOf(x + more, id) == LatestOf(y + more, id) {
      LatestSplit(x, more, id);
      LatestSplit(y, more, id);
    }
  }

  lemma LatestSplit(x: seq<EditorResult>, more: seq<EditorResult>, id: string)
    ensures LatestOf(x + more, id) == if LatestOf(more, id).Some? then LatestOf(more, id) else LatestOf(x, id)
  {
    assert ResultEntries(x + more) == ResultEntries(x) + ResultEntries(more);
    LastOfAppend(ResultEntries(x), ResultEntries(more), id);
  }

  lemma DeltasAppend(x: seq<real>, y: seq<real>, consumed: nat, costs: seq<real>)
    requires |x| == |y| && multiset(Unconsumed(x, consumed)) == multiset(Unconsumed(y, consumed))
    ensures multiset(Unconsumed(x + costs, consumed)) == multiset(Unconsumed(y + costs, consumed))
  {
    var more := if consumed <= |x| then costs else Unconsumed(costs, consumed - |x|);
    UnconsumedAppend(x, consumed, costs);
    UnconsumedAppend(y, consumed, costs);
    SameAppended(Unconsumed(x, consumed), Unconsumed(y, consumed), more);
  }

  lemma UnconsumedAppend(x: seq<real>, consumed: nat, costs: seq<real>)
    ensures Unconsumed(x + costs, consumed) ==
      Unconsumed(x, consumed) + if consumed <= |x| then costs else Unconsumed(costs, consumed - |x|)
  {
  }

  lemma SameAppended(x: seq<real>, y: seq<real>, more: seq<real>)
    requires multiset(x) == multiset(y)
    ensures multiset(x + more) == multiset(y + more)
  {
  }

  lemma TrialsAppend(strict: bool, root: Loc, x: seq<Trial>, y: seq<Trial>, a: Trial, b: Trial)
    requires SameTrials(strict, root, x, y) && SameTrial(strict, root, a, b)
    ensures SameTrials(strict, root, x + [a], y + [b])
  {
    assert forall i :: 0 <= i < |x| ==> SameTrial(strict, root, x[i], y[i]);
  }

  lemma SameContents(strict: bool, s: State, t: State)
    requires SameResults(s.results, t.results) && s.tasks == t.tasks && Contents(strict, s.cfg.root, s.results)
    ensures SameShipment(strict, EffectiveDiffs(s.results, s.tasks), EffectiveDiffs(t.results, s.tasks))
    ensures StalePaths(s.results, s.tasks) == StalePaths(t.results, s.tasks)
  {
    EffectivePathsSame(s.results, t.results, s.tasks);
    if strict {
      EffectiveSame(s.cfg.root, s.results, t.results, s.tasks);
    }
  }

  ghost predicate SamePreparation(strict: bool, root: Loc, paths: set<string>, p: Preparation, q: Preparation) {
    && (p.Prepared? <==> q.Prepared?) && (p.Refused? ==> p == q)
    && (p.Prepared? ==> SamePlaces(root, paths, p.files, q.files) && (strict ==> p.files == q.files))
  }

  lemma SamePrepared(strict: bool, s: State, t: State)
    requires SameResults(s.results, t.results) && s.tasks == t.tasks && Contents(strict, s.cfg.root, s.results)
    ensures SamePreparation(strict, s.cfg.root, PathsOf(EffectiveDiffs(s.results, s.tasks)),
      Prepare(s.cfg.root, s.files, StalePaths(s.results, s.tasks), EffectiveDiffs(s.results, s.tasks)),
      Prepare(s.cfg.root, s.files, StalePaths(t.results, s.tasks), EffectiveDiffs(t.results, s.tasks)))
  {
    PreparePlaces(s.cfg.root, s.files, s.results, t.results, s.tasks);
    if strict {
      PrepareSame(s.cfg.root, s.files, s.results, t.results, s.tasks);
    }
  }

  lemma SimilarSandbox(strict: bool, s: State, t: State, outcome: Outcome, after: Files)
    requires Similar(strict, s, t) && Contents(strict, s.cfg.root, s.results)
    ensures Similar(strict, RunSandbox(s, outcome, after), RunSandbox(t, outcome, after))
  {
    var x, y := EffectiveDiffs(s.results, s.tasks), EffectiveDiffs(t.results, s.tasks);
    SameContents(strict, s, t);
    SamePrepared(strict, s, t);
    SameEmpty(x, y);
    var p := Prepare(s.cfg.root, s.files, StalePaths(s.results, s.tasks), x);
    var q := Prepare(s.cfg.root, s.files, StalePaths(t.results, s.tasks), y);
    if p.Prepared? {
      TrialsAppend(strict, s.cfg.root, s.h.trials, t.h.trials, Trial(p.files, x, outcome), Trial(q.files, y, outcome));
    }
  }

  lemma SameEmpty(x: seq<FileDiff>, y: seq<FileDiff>)
    requires PathsOf(x) == PathsOf(y)
    ensures x == [] <==> y == []
  {
    if x != [] { assert x[0].path in PathsOf(y); }
    if y != [] { assert y[0].path in PathsOf(x); }
  }

  lemma SamePublishable(cfg: Config, x: seq<FileDiff>, y: seq<FileDiff>)
    requires PathsOf(x) == PathsOf(y)
    ensures AllPublishable(cfg, x) <==> AllPublishable(cfg, y)
  {
    PublishablePaths(cfg, x);
    PublishablePaths(cfg, y);
  }

  lemma PublishablePaths(cfg: Config, x: seq<FileDiff>)
    ensures AllPublishable(cfg, x) <==> forall p :: p in PathsOf(x) ==> PublishableProblem(cfg.word, p).None?
  {
    forall i | 0 <= i < |x| ensures x[i].path in PathsOf(x) {
    }
  }

  lemma SimilarAggregate(strict: bool, s: State, t: State)
    requires Similar(strict, s, t) && Contents(strict, s.cfg.root, s.results)
    ensures Similar(strict, RunAggregate(s), RunAggregate(t))
  {
    var x, y := EffectiveDiffs(s.results, s.tasks), EffectiveDiffs(t.results, s.tasks);
    SameContents(strict, s, t);
    SameEmpty(x, y);
    SamePublishable(s.cfg, x, y);
    AggregateDrafts(s);
    AggregateDrafts(t);
  }

  /** What aggregation decides, by the effective files alone. */
  lemma AggregateDrafts(s: State)
    ensures var x := EffectiveDiffs(s.results, s.tasks);
      var t, ok := RunAggregate(s), x != [] && AllPublishable(s.cfg, x);
      && t.phase == (if ok then Aggregating else RunFailed)
      && t.node == (if !ok then End else if NeedsApproval(s.cfg) then RequestApproval else PrPublish)
      && if ok then t.draft.Some? && (forall p :: p in t.draft.value <==> p in PathsOf(x)) else t.draft == s.draft
  {
    DraftPaths(EffectiveDiffs(s.results, s.tasks));
  }

  lemma DraftPaths(x: seq<FileDiff>)
    ensures forall p :: p in seq(|x|, i requires 0 <= i < |x| => x[i].path) <==> p in PathsOf(x)
  {
    var ps := seq(|x|, i requires 0 <= i < |x| => x[i].path);
    forall p | p in PathsOf(x) ensures p in ps {
      var i :| 0 <= i < |x| && x[i].path == p;
      assert ps[i] == p;
    }
  }

  lemma SimilarPublish(strict: bool, s: State, t: State, ok: bool)
    requires Similar(strict, s, t) && Contents(strict, s.cfg.root, s.results)
    ensures Similar(strict, RunPublish(s, ok), RunPublish(t, ok))
  {
    SameContents(strict, s, t);
    assert forall i :: 0 <= i < |s.h.publishCalls| ==> SameShipment(strict, s.h.publishCalls[i], t.h.publishCalls[i]);
  }

  lemma SimilarLate(strict: bool, s: State, t: State, a: Answer)
    requires Similar(strict, s, t) && Contents(strict, s.cfg.root, s.results) && Legal(s, a) && Quiet(s.node)
    ensures Legal(t, a) && Similar(strict, Step(s, a), Step(t, a))
  {
    match s.node
    case SandboxTest => SimilarSandbox(strict, s, t, a.outcome, a.after);
    case Aggregate => SimilarAggregate(strict, s, t);
    case PrPublish => SimilarPublish(strict, s, t, a.ok);
    case _ =>
  }

  lemma SimilarRouted(strict: bool, s: State, t: State, a: Answer)
    requires Similar(strict, s, t) && Legal(s, a) && Routes(s.node)
    ensures Legal(t, a) && Similar(strict, Step(s, a), Step(t, a))
  {
    match s.node
    case Synthesis => SimilarDispatch(strict, Planned(s), Planned(t), a.now1, a.now2, SandboxTest);
    case Reconcile =>
      SimilarReconciled(strict, s, t);
      SimilarDispatch(strict, Reconciled(s), Reconciled(t), a.now1, a.now2, SandboxTest);
    case ErrorAnalysis =>
      SimilarJudged(strict, s, t, a);
      SimilarDispatch(strict, Judged(s, a), Judged(t, a), a.now1, a.now2, End);
  }

  /** Similar states answer every legal answer alike. */
  lemma SimilarStep(strict: bool, s: State, t: State, a: Answer)
    requires Similar(strict, s, t) && Contents(strict, s.cfg.root, s.results) && Legal(s, a)
    ensures Legal(t, a) && Similar(strict, Step(s, a), Step(t, a))
  {
    hide *;
    if Quiet(s.node) {
      SimilarLate(strict, s, t, a);
    } else if Routes(s.node) {
      SimilarRouted(strict, s, t, a);
    } else if s.node.Editors? {
      SimilarWave(strict, s, t, a);
    } else {
      SimilarOther(strict, s, t, a);
    }
  }

  lemma SimilarWave(strict: bool, s: State, t: State, a: Answer)
    requires Similar(strict, s, t) && Legal(s, a) && s.node.Editors?
    ensures Legal(t, a) && Similar(strict, Step(s, a), Step(t, a))
  {
    SimilarBranch(strict, s, t, a);
    hide RunBranch, Similar;
  }

  lemma SimilarOther(strict: bool, s: State, t: State, a: Answer)
    requires Similar(strict, s, t) && Legal(s, a) && !Quiet(s.node) && !Routes(s.node) && !s.node.Editors?
    ensures Legal(t, a) && Similar(strict, Step(s, a), Step(t, a))
  {
  }

  // ---- two branches of one wave commute ----

  lemma {:induction false} PickSkips(pending: seq<Task>, a: string, b: string)
    requires HasTask(pending, a) && a != b
    ensures HasTask(Without(pending, a), b) <==> HasTask(pending, b)
    ensures HasTask(pending, b) ==> Pick(Without(pending, a), b) == Pick(pending, b)
  {
    var rest := Without(pending, a);
    if pending[0].id == a {
      assert forall k :: 0 <= k < |rest| ==> rest[k] == pending[k + 1];
      if HasTask(pending, b) {
        var k :| 0 <= k < |pending| && pending[k].id == b;
        assert rest[k - 1].id == b;
      }
    } else {
      assert HasTask(pending[1..], a);
      PickSkips(pending[1..], a, b);
      assert rest[1..] == Without(pending[1..], a);
      HasTaskSplit(pending, b);
      HasTaskSplit(rest, b);
    }
  }

  lemma HasTaskSplit(tasks: seq<Task>, id: string)
    requires tasks != []
    ensures HasTask(tasks, id) <==> tasks[0].id == id || HasTask(tasks[1..], id)
  {
    if k :| 0 <= k < |tasks| && tasks[k].id == id {
      assert k > 0 ==> tasks[1..][k - 1].id == id;
    }
    if k :| 0 <= k < |tasks[1..]| && tasks[1..][k].id == id {
      assert tasks[k + 1].id == id;
    }
  }

  lemma {:induction false} WithoutCommutes(pending: seq<Task>, a: string, b: string)
    requires a != b
    ensures Without(Without(pending, a), b) == Without(Without(pending, b), a)
  {
    if pending != [] {
      WithoutCommutes(pending[1..], a, b);
      var x, y := Without(pending, a), Without(pending, b);
      if pending[0].id == a {
        assert y[1..] == Without(pending[1..], b);
      } else if pending[0].id == b {
        assert x[1..] == Without(pending[1..], a);
      } else {
        assert x[1..] == Without(pending[1..], a) && y[1..] == Without(pending[1..], b);
      }
    }
  }

  function AfterBranch(pending: seq<Task>, since: real, id: string): Node {
    if Without(pending, id) == [] then Reconcile else Editors(Without(pending, id), since)
  }

  /** One completion, as what it adds to each part of the state. */
  predicate BranchFrom(s: State, a: Answer, t: State)
    requires s.node.Editors? && Legal(s, a)
  {
    var u := UpdateOf(s, a);
    t == s.(tasks := Merge(s.tasks, [u.task]), results := s.results + u.results, deltas := s.deltas + u.deltas,
            node := AfterBranch(s.node.pending, s.node.since, a.id), clock := Larger(s.clock, a.now),
            h := Called(s.h, Pick(s.node.pending, a.id).id, Exhausted(s.budget, a.now), a.gen))
  }

  lemma BranchIs(s: State, a: Answer)
    requires s.node.Editors? && Legal(s, a)
    ensures BranchFrom(s, a, RunBranch(s, a))
  {
  }

  lemma MergesCommute(tasks: seq<Task>, x: Task, y: Task)
    requires DistinctTasks(tasks) && HasTask(tasks, x.id) && HasTask(tasks, y.id) && x.id != y.id
    ensures Merge(Merge(tasks, [x]), [y]) == Merge(Merge(tasks, [y]), [x])
  {
    var i :| 0 <= i < |tasks| && tasks[i].id == x.id;
    var j :| 0 <= j < |tasks| && tasks[j].id == y.id;
    MergeTwo(tasks, i, x, j, y);
    MergeTwo(tasks, j, y, i, x);
    UpdatesCommute(tasks, i, x, j, y);
  }

  lemma UpdatesCommute<T>(s: seq<T>, i: nat, x: T, j: nat, y: T)
    requires i < |s| && j < |s| && i != j
    ensures s[i := x][j := y] == s[j := y][i := x]
  {
  }

  lemma MergeTwo(tasks: seq<Task>, i: nat, x: Task, j: nat, y: Task)
    requires DistinctTasks(tasks) && i < |tasks| && j < |tasks| && i != j && tasks[i].id == x.id && tasks[j].id == y.id
    ensures Merge(Merge(tasks, [x]), [y]) == tasks[i := x][j := y]
  {
    MergeOne(tasks, i, x);
    MergeOne(tasks[i := x], j, y);
  }

  /** The second of two branches, seen from before the first. */
  lemma OtherBranch(s: State, a: Answer, b: Answer, sa: State)
    requires WellFormed(s) && s.node.Editors? && Legal(s, a) && BranchFrom(s, a, sa) && sa.node.Editors? && Legal(sa, b)
    ensures a.id != b.id && Legal(s, b)
    ensures Pick(s.node.pending, a.id).id == a.id && Pick(s.node.pending, b.id).id == b.id
    ensures HasTask(s.tasks, a.id) && HasTask(s.tasks, b.id)
    ensures Pick(sa.node.pending, b.id) == Pick(s.node.pending, b.id)
  {
    PickExact(s.node.pending, a.id);
    PickSkips(s.node.pending, a.id, b.id);
    PickExact(s.node.pending, b.id);
  }

  /** What a branch returns does not depend on the branches before it. */
  lemma SameUpdate(s: State, a: Answer, b: Answer, sa: State)
    requires WellFormed(s) && s.node.Editors? && Legal(s, a) && BranchFrom(s, a, sa) && sa.node.Editors? && Legal(sa, b)
    ensures Legal(s, b) && UpdateOf(sa, b) == UpdateOf(s, b)
  {
    OtherBranch(s, a, b, sa);
  }

  lemma PutsCommute<V>(m: map<string, V>, a: string, v: V, b: string, w: V)
    requires a != b
    ensures m[a := v][b := w] == m[b := w][a := v]
  {
  }

  lemma AddsCommute(m: multiset<string>, a: string, b: string)
    ensures m + multiset{a} + multiset{b} == m + multiset{b} + multiset{a}
  {
  }

  function Given(gen: Option<Generation>): Option<seq<FileDiff>> {
    if gen.None? then None else Some(gen.value.diffs)
  }

  lemma CallsCommute(h: History, a: string, x: bool, p: Option<Generation>, b: string, y: bool, q: Option<Generation>)
    requires a != b
    ensures Called(Called(h, a, x, p), b, y, q) == Called(Called(h, b, y, q), a, x, p)
  {
    PutsCommute(h.answers, a, Given(p), b, Given(q));
    AddsCommute(h.generated, a, b);
  }

  lemma CommuteOutside(s: State, a: Answer, b: Answer, sa: State, sab: State, sb: State, sba: State)
    requires WellFormed(s) && s.node.Editors? && Legal(s, a) && BranchFrom(s, a, sa)
    requires sa.node.Editors? && Legal(sa, b) && BranchFrom(sa, b, sab)
    requires Legal(s, b) && BranchFrom(s, b, sb)
    requires sb.node.Editors? && Legal(sb, a) && BranchFrom(sb, a, sba)
    ensures SameOutside(sab, sba)
  {
    OtherBranch(s, a, b, sa);
    SameUpdate(s, a, b, sa);
    SameUpdate(s, b, a, sb);
    WithoutCommutes(s.node.pending, a.id, b.id);
    MergesCommute(s.tasks, UpdateOf(s, a).task, UpdateOf(s, b).task);
    CallsCommute(s.h, a.id, Exhausted(s.budget, a.now), a.gen, b.id, Exhausted(s.budget, b.now), b.gen);
  }

  /** The lists after two completions. */
  lemma TwoBranches(s: State, a: Answer, b: Answer, sa: State, sab: State)
    requires WellFormed(s) && s.node.Editors? && Legal(s, a) && BranchFrom(s, a, sa)
    requires sa.node.Editors? && Legal(sa, b) && BranchFrom(sa, b, sab) && Legal(s, b)
    ensures a.id != b.id && AllFor(UpdateOf(s, a).results, a.id) && AllFor(UpdateOf(s, b).results, b.id)
    ensures sab.results == s.results + UpdateOf(s, a).results + UpdateOf(s, b).results
    ensures sab.deltas == s.deltas + UpdateOf(s, a).deltas + UpdateOf(s, b).deltas && sab.consumed == s.consumed
    ensures sab.draft == s.draft && sab.h.trials == s.h.trials && sab.h.publishCalls == s.h.publishCalls
  {
    OtherBranch(s, a, b, sa);
    SameUpdate(s, a, b, sa);
  }

  lemma SameRest(strict: bool, s: State, t: State)
    requires SameResults(s.results, t.results) && SameDeltas(s, t)
    requires s.draft == t.draft && s.h.trials == t.h.trials && s.h.publishCalls == t.h.publishCalls
    ensures SameLists(strict, s, t)
  {
  }

  lemma CommuteLists(strict: bool, s: State, a: Answer, b: Answer, sa: State, sab: State, sb: State, sba: State)
    requires WellFormed(s) && s.node.Editors? && Legal(s, a) && BranchFrom(s, a, sa) && s.consumed <= |s.deltas|
    requires sa.node.Editors? && Legal(sa, b) && BranchFrom(sa, b, sab)
    requires Legal(s, b) && BranchFrom(s, b, sb)
    requires sb.node.Editors? && Legal(sb, a) && BranchFrom(sb, a, sba)
    ensures SameLists(strict, sab, sba)
  {
    TwoBranches(s, a, b, sa, sab);
    TwoBranches(s, b, a, sb, sba);
    hide Legal, BranchFrom, WellFormed, SameLists, SameResults, UpdateOf, AllFor;
    ResultsCommute(s.results, UpdateOf(s, a).results, UpdateOf(s, b).results, a.id, b.id);
    DeltasCommute(s.deltas, s.consumed, UpdateOf(s, a).deltas, UpdateOf(s, b).deltas);
    SameRest(strict, sab, sba);
  }

  /** Two completions of one wave, in either order, lead to similar states. */
  lemma Diamond(strict: bool, s: State, a: Answer, b: Answer)
    requires WellFormed(s) && s.consumed <= |s.deltas| && s.node.Editors? && Legal(s, a)
    requires RunBranch(s, a).node.Editors? && Legal(RunBranch(s, a), b)
    ensures Legal(s, b) && RunBranch(s, b).node.Editors? && Legal(RunBranch(s, b), a)
    ensures Similar(strict, RunBranch(RunBranch(s, a), b), RunBranch(RunBranch(s, b), a))
  {
    var sa := RunBranch(s, a);
    BranchIs(s, a);
    OtherBranch(s, a, b, sa);
    var sb := RunBranch(s, b);
    BranchIs(s, b);
    SwapIsLegal(s, a, b, sa, sb);
    BranchIs(sa, b);
    BranchIs(sb, a);
    CommuteOutside(s, a, b, sa, RunBranch(sa, b), sb, RunBranch(sb, a));
    CommuteLists(strict, s, a, b, sa, RunBranch(sa, b), sb, RunBranch(sb, a));
  }

  lemma SwapIsLegal(s: State, a: Answer, b: Answer, sa: State, sb: State)
    requires WellFormed(s) && s.node.Editors? && Legal(s, a) && BranchFrom(s, a, sa)
    requires sa.node.Editors? && Legal(sa, b) && Legal(s, b) && BranchFrom(s, b, sb)
    ensures sb.node.Editors? && Legal(sb, a)
  {
    OtherBranch(s, a, b, sa);
    PickSkips(s.node.pending, b.id, a.id);
  }

  predicate AllFor(rs: seq<EditorResult>, id: string) {
    forall i :: 0 <= i < |rs| ==> rs[i].taskId == id
  }

  lemma ResultsCommute(x: seq<EditorResult>, p: seq<EditorResult>, q: seq<EditorResult>, a: string, b: string)
    requires AllFor(p, a) && AllFor(q, b) && a != b
    ensures SameResults(x + p + q, x + q + p)
  {
    forall id ensures LatestOf(x + p + q, id) == LatestOf(x + q + p, id) {
      LatestSplit(x + p, q, id);
      LatestSplit(x, p, id);
      LatestSplit(x + q, p, id);
      LatestSplit(x, q, id);
      LastOfIn(ResultEntries(p), id);
      LastOfIn(ResultEntries(q), id);
    }
  }

  lemma DeltasCommute(x: seq<real>, consumed: nat, p: seq<real>, q: seq<real>)
    requires consumed <= |x|
    ensures |x + p + q| == |x + q + p|
    ensures multiset(Unconsumed(x + p + q, consumed)) == multiset(Unconsumed(x + q + p, consumed))
  {
    assert Unconsumed(x + p + q, consumed) == x[consumed..] + p + q;
    assert Unconsumed(x + q + p, consumed) == x[consumed..] + q + p;
  }

  // ---- whole runs ----

  predicate Steady(s: State) {
    WellFormed(s) && s.consumed <= |s.deltas|
  }

  lemma SteadyStep(s: State, a: Answer)
    requires Steady(s) && Legal(s, a)
    ensures Steady(Step(s, a)) && Step(s, a).cfg == s.cfg
  {
    WellFormedStep(s, a);
    if Quiet(s.node) {
      QuietStep(s, a);
    }
  }

  lemma ContentsCarry(strict: bool, root: Loc, x: seq<EditorResult>, y: seq<EditorResult>)
    requires SameResults(x, y) && Contents(strict, root, x)
    ensures Contents(strict, root, y)
  {
    if strict {
      SeparateCarries(root, x, y);
    }
  }

  lemma ContentsPrefix(strict: bool, root: Loc, x: seq<EditorResult>, y: seq<EditorResult>)
    requires x <= y && Contents(strict, root, y)
    ensures Contents(strict, root, x)
  {
    forall r | r in x ensures r in y {
    }
  }

  lemma ResultsGrow(s: State, a: Answer)
    requires Legal(s, a)
    ensures s.results <= Step(s, a).results
  {
    if !s.node.Editors? {
      Attempts.CallsOnlyInWaves(s, a);
    }
  }

  lemma {:induction false} ResultsOnlyGrow(s: State, run: seq<Answer>)
    requires LegalRun(s, run)
    ensures s.results <= Exec(s, run).results
    decreases |run|
  {
    if run != [] {
      ResultsGrow(s, run[0]);
      ResultsOnlyGrow(Step(s, run[0]), run[1..]);
    }
  }

  /** Similar states run alike on the same answers. */
  lemma {:induction false} SimilarRun(strict: bool, s: State, t: State, run: seq<Answer>)
    requires Steady(s) && Similar(strict, s, t) && LegalRun(s, run) && Contents(strict, s.cfg.root, Exec(s, run).results)
    ensures LegalRun(t, run) && Similar(strict, Exec(s, run), Exec(t, run))
    decreases |run|
  {
    if run != [] {
      ResultsOnlyGrow(s, run);
      ContentsPrefix(strict, s.cfg.root, s.results, Exec(s, run).results);
      SimilarStep(strict, s, t, run[0]);
      SteadyStep(s, run[0]);
      SimilarRun(strict, Step(s, run[0]), Step(t, run[0]), run[1..]);
    }
  }

  predicate AllBranches(x: seq<Answer>) {
    forall i :: 0 <= i < |x| ==> x[i].Branch?
  }

  /** Swapping the first two completions. */
  lemma Swap(strict: bool, s: State, a: Answer, b: Answer, x: seq<Answer>)
    requires Steady(s) && AllBranches([a]) && AllBranches([b]) && LegalRun(s, [a] + ([b] + x))
    requires Contents(strict, s.cfg.root, Exec(s, [a] + ([b] + x)).results)
    ensures LegalRun(s, [b] + ([a] + x)) && Similar(strict, Exec(s, [a] + ([b] + x)), Exec(s, [b] + ([a] + x)))
  {
    Front(s, a, [b] + x);
    Front(Step(s, a), b, x);
    assert s.node.Editors? && Step(s, a).node.Editors?;
    Diamond(strict, s, a, b);
    SteadyStep(s, a);
    SteadyStep(Step(s, a), b);
    SimilarRun(strict, Step(Step(s, a), b), Step(Step(s, b), a), x);
    Front(s, b, [a] + x);
    Front(Step(s, b), a, x);
  }

  lemma BranchesSplit(x: seq<Answer>, y: seq<Answer>)
    ensures AllBranches(x + y) <==> AllBranches(x) && AllBranches(y)
  {
    if AllBranches(x + y) {
      assert forall i :: 0 <= i < |x| ==> x[i] == (x + y)[i];
      assert forall i :: 0 <= i < |y| ==> y[i] == (x + y)[|x| + i];
    }
  }

  lemma SimilarSeparate(strict: bool, root: Loc, s: State, t: State)
    requires Similar(strict, s, t) && Contents(strict, root, s.results)
    ensures Contents(strict, root, t.results)
  {
    ContentsCarry(strict, root, s.results, t.results);
  }

  lemma DelayParts(a: Answer, b: Answer, w: seq<Answer>, v: seq<Answer>)
    ensures ([b] + w) + v == [b] + (w + v) && ([b] + w) + ([a] + v) == [b] + (w + ([a] + v))
  {
  }

  /** A completion may be delayed past any number of others. */
  lemma {:induction false} Delay(strict: bool, s: State, a: Answer, u: seq<Answer>, v: seq<Answer>)
    requires Steady(s) && AllBranches([a]) && AllBranches(u) && LegalRun(s, [a] + (u + v))
    requires Contents(strict, s.cfg.root, Exec(s, [a] + (u + v)).results)
    ensures LegalRun(s, u + ([a] + v)) && Similar(strict, Exec(s, [a] + (u + v)), Exec(s, u + ([a] + v)))
    decreases |u|
  {
    hide *;
    if u == [] {
      assert u + v == v && u + ([a] + v) == [a] + v;
      SimilarSelf(strict, Exec(s, [a] + v));
    } else {
      var b, w := u[0], u[1..];
      assert u == [b] + w;
      BranchesSplit([b], w);
      DelayParts(a, b, w, v);
      Swap(strict, s, a, b, w + v);
      Front(s, b, [a] + (w + v));
      SteadyStep(s, b);
      SimilarSeparate(strict, s.cfg.root, Exec(s, [a] + (u + v)), Exec(s, [b] + ([a] + (w + v))));
      Delay(strict, Step(s, b), a, w, v);
      Front(s, b, w + ([a] + v));
      SimilarTransitive(strict, Exec(s, [a] + (u + v)), Exec(s, [b] + ([a] + (w + v))), Exec(s, u + ([a] + v)));
    }
  }

  /** Any permutation of consecutive completions. */
  lemma {:induction false} Permute(strict: bool, s: State, p: seq<Answer>, q: seq<Answer>, v: seq<Answer>)
    requires Steady(s) && AllBranches(p) && multiset(p) == multiset(q) && LegalRun(s, p + v)
    requires Contents(strict, s.cfg.root, Exec(s, p + v).results)
    ensures LegalRun(s, q + v) && Similar(strict, Exec(s, p + v), Exec(s, q + v))
    decreases |p|
  {
    hide *;
    if p == [] {
      assert |multiset(q)| == 0;
      SimilarSelf(strict, Exec(s, p + v));
    } else {
      var a, w := p[0], p[1..];
      var l, r := TakeOut(p, q);
      assert p + v == [a] + (w + v) && (l + r) + v == l + (r + v) && q + v == l + ([a] + (r + v));
      Front(s, a, w + v);
      SteadyStep(s, a);
      Permute(strict, Step(s, a), w, l + r, v);
      Front(s, a, l + (r + v));
      SimilarSeparate(strict, s.cfg.root, Exec(s, p + v), Exec(s, [a] + (l + (r + v))));
      Delay(strict, s, a, l, r + v);
      SimilarTransitive(strict, Exec(s, p + v), Exec(s, [a] + (l + (r + v))), Exec(s, q + v));
    }
  }

  /** The first completion of `p`, found in its permutation `q`. */
  lemma TakeOut(p: seq<Answer>, q: seq<Answer>) returns (l: seq<Answer>, r: seq<Answer>)
    requires p != [] && AllBranches(p) && multiset(p) == multiset(q)
    ensures p == [p[0]] + p[1..] && q == l + ([p[0]] + r) && multiset(p[1..]) == multiset(l + r)
    ensures AllBranches([p[0]]) && AllBranches(p[1..]) && AllBranches(l)
  {
    assert p[0] in multiset(q);
    var i :| 0 <= i < |q| && q[i] == p[0];
    l, r := q[..i], q[i + 1..];
    Removed(p, q, l, r);
    BranchesSplit([p[0]], p[1..]);
    forall k | 0 <= k < |l| ensures l[k].Branch? {
      assert l[k] in multiset(q);
      assert l[k] in p;
    }
  }

  lemma Removed<T>(p: seq<T>, q: seq<T>, l: seq<T>, r: seq<T>)
    requires p != [] && multiset(p) == multiset(q) && q == l + ([p[0]] + r)
    ensures p == [p[0]] + p[1..] && multiset(p[1..]) == multiset(l + r)
  {
    assert p == [p[0]] + p[1..];
    assert multiset(p[1..]) == multiset(p) - multiset{p[0]};
    assert multiset(l + r) == multiset(q) - multiset{p[0]};
  }

  /** The same answers, except that consecutive branch completions may come in another order. */
  ghost predicate Shuffled(x: seq<Answer>, y: seq<Answer>)
    decreases |x|
  {
    |x| == |y| && (x == [] || exists n :: 1 <= n <= |x| && Block(x[..n], y[..n]) && Shuffled(x[n..], y[n..]))
  }

  predicate Block(p: seq<Answer>, q: seq<Answer>) {
    p == q || (AllBranches(p) && multiset(p) == multiset(q))
  }

  lemma ShuffledParts(x: seq<Answer>, y: seq<Answer>) returns (n: nat)
    requires Shuffled(x, y) && x != []
    ensures 1 <= n <= |x| && |x| == |y| && Block(x[..n], y[..n]) && Shuffled(x[n..], y[n..])
    ensures x == x[..n] + x[n..] && y == y[..n] + y[n..]
  {
    n :| 1 <= n <= |x| && Block(x[..n], y[..n]) && Shuffled(x[n..], y[n..]);
  }

  lemma {:induction false} Reorder(strict: bool, s: State, t: State, x: seq<Answer>, y: seq<Answer>)
    requires Steady(s) && Similar(strict, s, t) && |x| == |y| && LegalRun(s, x) && Shuffled(x, y)
    requires Contents(strict, s.cfg.root, Exec(s, x).results)
    ensures LegalRun(t, y) && Similar(strict, Exec(s, x), Exec(t, y))
    decreases |x|, 1
  {
    if x != [] {
      ReorderMore(strict, s, t, x, y);
    }
  }

  lemma {:induction false} ReorderMore(strict: bool, s: State, t: State, x: seq<Answer>, y: seq<Answer>)
    requires Steady(s) && Similar(strict, s, t) && x != [] && LegalRun(s, x) && Shuffled(x, y)
    requires Contents(strict, s.cfg.root, Exec(s, x).results)
    ensures LegalRun(t, y) && Similar(strict, Exec(s, x), Exec(t, y))
    decreases |x|, 0
  {
    hide *;
    var n := ShuffledParts(x, y);
    ReorderBlock(strict, s, t, x[..n], y[..n], x[n..]);
    var s1, t1 := Exec(s, y[..n]), Exec(t, y[..n]);
    SimilarSeparate(strict, s.cfg.root, Exec(s, x), Exec(s1, x[n..]));
    Reorder(strict, s1, t1, x[n..], y[n..]);
    ExecSplit(t, y[..n], y[n..]);
    SimilarTransitive(strict, Exec(s, x), Exec(s1, x[n..]), Exec(t, y));
  }

  lemma ReorderBlock(strict: bool, s: State, t: State, p: seq<Answer>, q: seq<Answer>, v: seq<Answer>)
    requires Steady(s) && Similar(strict, s, t) && LegalRun(s, p + v) && Block(p, q)
    requires Contents(strict, s.cfg.root, Exec(s, p + v).results)
    ensures LegalRun(s, q) && LegalRun(t, q) && LegalRun(Exec(s, q), v)
    ensures Steady(Exec(s, q)) && Exec(s, q).cfg == s.cfg
    ensures Similar(strict, Exec(s, q), Exec(t, q)) && Similar(strict, Exec(s, p + v), Exec(Exec(s, q), v))
  {
    if p == q {
      SimilarSelf(strict, Exec(s, p + v));
    } else {
      Permute(strict, s, p, q, v);
    }
    ExecSplit(s, q, v);
    SteadyRun(s, q);
    ContentsCarry(strict, s.cfg.root, Exec(s, p + v).results, Exec(s, q + v).results);
    ResultsOnlyGrow(Exec(s, q), v);
    ContentsPrefix(strict, s.cfg.root, Exec(s, q).results, Exec(s, q + v).results);
    SimilarRun(strict, s, t, q);
  }

  lemma {:induction false} SteadyRun(s: State, run: seq<Answer>)
    requires Steady(s) && LegalRun(s, run)
    ensures Steady(Exec(s, run)) && Exec(s, run).cfg == s.cfg
    decreases |run|
  {
    if run != [] {
      SteadyStep(s, run[0]);
      SteadyRun(Step(s, run[0]), run[1..]);
    }
  }

  /** Confluence of whole runs, whoever writes what: reordering the completions inside any number of waves
      gives a legal run that ends with the same tasks, budget, calls, phase, node, workspace, decisions and
      latest results, and with the same paths drafted, tested and published. When different tasks write
      different files the contents are the same too. */
  lemma OrderDoesNotMatter(cfg: Config, files: Files, x: seq<Answer>, y: seq<Answer>)
    requires LegalRun(Init(cfg, files), x) && Shuffled(x, y)
    ensures LegalRun(Init(cfg, files), y)
    ensures Similar(false, Exec(Init(cfg, files), x), Exec(Init(cfg, files), y))
    ensures Separate(cfg.root, Exec(Init(cfg, files), x).results) ==>
      Similar(true, Exec(Init(cfg, files), x), Exec(Init(cfg, files), y))
  {
    SimilarSelf(false, Init(cfg, files));
    Reorder(false, Init(cfg, files), Init(cfg, files), x, y);
    if Separate(cfg.root, Exec(Init(cfg, files), x).results) {
      SimilarSelf(true, Init(cfg, files));
      Reorder(true, Init(cfg, files), Init(cfg, files), x, y);
    }
  }
}
