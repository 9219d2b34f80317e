/** What reaches the publisher: exactly what the last sandbox visit tested and passed, at most once,
    with a recorded approval where one is required, and never from a poisoned run. */
module Publication {
  import opened OrderedDict
  import opened PlanTypes
  import opened Paths
  import opened Diffs
  import opened Workspaces
  import opened RunTypes
  import opened Machine
  import opened Attempts

  /** The nodes behind a passed suite. */
  predicate Late(n: Node) {
    n == Aggregate || n == RequestApproval || n == ApprovalGate || n == PrPublish
  }

  predicate Drafted(n: Node) {
    n == RequestApproval || n == ApprovalGate || n == PrPublish
  }

  function Current(s: State): seq<FileDiff> {
    EffectiveDiffs(s.results, s.tasks)
  }

  ghost predicate PreparedFrom(s: State, f: Files, after: Files) {
    Prepare(s.cfg.root, f, StalePaths(s.results, s.tasks), Current(s)) == Prepared(after)
  }

  /** The last runner call passed, on a workspace prepared with what is effective now. */
  ghost predicate TestedNow(s: State) {
    && s.h.trials != [] && Current(s) != []
    && var last := s.h.trials[|s.h.trials| - 1];
       last.outcome == Passed && last.diffs == Current(s) && exists f :: PreparedFrom(s, f, last.files)
  }

  predicate Approved(s: State) {
    s.approval == Some(true) && |s.h.decisions| == 1 && IsApproval(s.h.decisions[0])
  }

  ghost predicate Ship(s: State) {
    && (Late(s.node) || s.h.publishCalls != [] ==> TestedNow(s) && s.suite == Some(Passed))
    && (Drafted(s.node) || s.h.publishCalls != [] ==> s.draft.Some? && AllPublishable(s.cfg, Current(s)))
    && ((s.node == PrPublish || s.h.publishCalls != []) && NeedsApproval(s.cfg) ==> Approved(s))
    && (s.h.publishCalls != [] ==> s.node == End && s.h.publishCalls == [Current(s)])
    && (s.node == RequestApproval || s.node == ApprovalGate || s.h.decisions != [] ==> NeedsApproval(s.cfg))
    && (s.h.publishCalls != [] ==> s.cfg.hasRepo)
    && (!Late(s.node) && s.node != End ==> s.suite != Some(Passed))
    && (s.node != PrPublish && s.node != End ==> s.h.decisions == [])
    && |s.h.decisions| <= 1
  }

  lemma ShipSandbox(s: State, outcome: Outcome, after: Files)
    requires Ship(s) && s.node == SandboxTest
    ensures Ship(RunSandbox(s, outcome, after))
  {
    var t := RunSandbox(s, outcome, after);
    if t.node == Aggregate {
      assert PreparedFrom(t, s.files, t.h.trials[|t.h.trials| - 1].files);
    }
  }

  lemma TestedCarries(s: State, t: State)
    requires TestedNow(s) && t.cfg == s.cfg && t.results == s.results && t.tasks == s.tasks && t.h.trials == s.h.trials
    ensures TestedNow(t) && Current(t) == Current(s)
  {
    var last := s.h.trials[|s.h.trials| - 1];
    var f :| PreparedFrom(s, f, last.files);
    assert PreparedFrom(t, f, last.files);
  }

  lemma ShipAggregate(s: State)
    requires Ship(s) && s.node == Aggregate
    ensures Ship(RunAggregate(s))
  {
    TestedCarries(s, RunAggregate(s));
  }

  lemma ShipGate(s: State, value: Json)
    requires Ship(s) && s.node == ApprovalGate
    ensures Ship(RunGate(s, value))
  {
    TestedCarries(s, RunGate(s, value));
  }

  lemma ShipPublish(s: State, ok: bool)
    requires Ship(s) && s.node == PrPublish
    ensures Ship(RunPublish(s, ok))
  {
    TestedCarries(s, RunPublish(s, ok));
  }

  lemma ShipRequest(s: State)
    requires Ship(s) && s.node == RequestApproval
    ensures Ship(s.(phase := AwaitingApproval, node := ApprovalGate))
  {
    TestedCarries(s, s.(phase := AwaitingApproval, node := ApprovalGate));
  }

  lemma ShipLate(s: State, a: Answer)
    requires Ship(s) && Late(s.node) && Legal(s, a)
    ensures Ship(Step(s, a))
  {
    match s.node
    case Aggregate => ShipAggregate(s);
    case RequestApproval => ShipRequest(s);
    case ApprovalGate => ShipGate(s, a.value);
    case PrPublish => ShipPublish(s, a.ok);
  }

  lemma ShipWave(s: State, a: Answer)
    requires Ship(s) && s.node.Editors? && Legal(s, a)
    ensures Ship(RunBranch(s, a))
  {
  }

  lemma ShipDispatch(s: State, now1: real, now2: real, idle: Node)
    requires s.suite != Some(Passed) && s.h.publishCalls == [] && s.h.decisions == []
    requires idle == SandboxTest || idle == End
    ensures Ship(Dispatch(s, now1, now2, idle))
  {
    var t := Dispatch(s, now1, now2, idle);
    assert !Late(t.node);
  }

  lemma ShipStep(s: State, a: Answer)
    requires Ship(s) && Legal(s, a)
    ensures Ship(Step(s, a))
  {
    if Late(s.node) {
      ShipLate(s, a);
    } else if s.node.Editors? {
      ShipWave(s, a);
    } else {
      match s.node
      case SandboxTest => ShipSandbox(s, a.outcome, a.after);
      case Synthesis => ShipDispatch(Planned(s), a.now1, a.now2, SandboxTest);
      case Reconcile => ShipDispatch(Reconciled(s), a.now1, a.now2, SandboxTest);
      case ErrorAnalysis => ShipDispatch(Judged(s, a), a.now1, a.now2, End);
      case _ =>
    }
  }

  lemma {:induction false} ShipRun(s: State, run: seq<Answer>)
    requires Ship(s) && LegalRun(s, run)
    ensures Ship(Exec(s, run)) && Exec(s, run).cfg == s.cfg
    decreases |run|
  {
    if run != [] {
      ShipStep(s, run[0]);
      ConfigStays(s, run[0]);
      ShipRun(Step(s, run[0]), run[1..]);
    }
  }

  lemma ConfigStays(s: State, a: Answer)
    requires Legal(s, a)
    ensures Step(s, a).cfg == s.cfg
  {
  }

  lemma PublishableDistinct(cfg: Config, results: seq<EditorResult>, tasks: seq<Task>)
    requires AllPublishable(cfg, EffectiveDiffs(results, tasks))
    ensures DistinctLocations(cfg.root, EffectiveDiffs(results, tasks))
    ensures AllSafe(cfg.root, EffectiveDiffs(results, tasks))
  {
    var diffs := EffectiveDiffs(results, tasks);
    EffectiveDiffsExact(results, tasks, "");
    forall i, j | 0 <= i < j < |diffs| ensures Resolve(cfg.root, diffs[i].path) != Resolve(cfg.root, diffs[j].path) {
      if Resolve(cfg.root, diffs[i].path) == Resolve(cfg.root, diffs[j].path) {
        PublishableInjective(cfg.root, cfg.word, diffs[i].path, diffs[j].path);
      }
    }
    forall i | 0 <= i < |diffs| ensures Safe(cfg.root, diffs[i].path) {
      PublishableResolves(cfg.root, cfg.word, diffs[i].path);
    }
  }

  /** Published: what the last runner call tested and passed, on a workspace that held exactly it. */
  ghost predicate ShippedAsTested(s: State) {
    && s.h.trials != [] && Current(s) != []
    && var last := s.h.trials[|s.h.trials| - 1];
      && s.h.publishCalls == [last.diffs] && last.diffs == Current(s) && last.outcome == Passed
      && AllPublishable(s.cfg, last.diffs) && AllSafe(s.cfg.root, last.diffs)
      && Mirrors(s.cfg.root, last.files, last.diffs, EverWritten(s.results))
  }

  lemma ShippedWasTested(s: State)
    requires Ship(s) && s.h.publishCalls != []
    ensures ShippedAsTested(s)
  {
    var last := s.h.trials[|s.h.trials| - 1];
    var f :| PreparedFrom(s, f, last.files);
    PublishableDistinct(s.cfg, s.results, s.tasks);
    DistinctAgree(s.cfg.root, Current(s));
    PreparedMirrors(s.cfg.root, f, s.results, s.tasks);
  }

  /** What was tested is what ships. In every run that calls the publisher, the files it is given are the
      effective files of the last runner call, that call passed, and when it started the workspace held exactly
      those files of all that any attempt ever wrote, whatever earlier runs had left there. */
  lemma TestedEqualsShipped(cfg: Config, files: Files, run: seq<Answer>)
    requires LegalRun(Init(cfg, files), run)
    requires Exec(Init(cfg, files), run).h.publishCalls != []
    ensures ShippedAsTested(Exec(Init(cfg, files), run)) && Exec(Init(cfg, files), run).cfg == cfg
  {
    ShipRun(Init(cfg, files), run);
    ShippedWasTested(Exec(Init(cfg, files), run));
  }

  /** The publisher is not called twice, nor without a repository, nor without the approval the run requires:
      with a repository and approval required, the run's only decision is an object whose "approved" is exactly
      true. A run that does not require approval is never at the gate and nobody decides. */
  lemma PublishedOnceAndApproved(cfg: Config, files: Files, run: seq<Answer>)
    requires LegalRun(Init(cfg, files), run)
    ensures var s := Exec(Init(cfg, files), run);
      && |s.h.publishCalls| <= 1 && |s.h.decisions| <= 1
      && (s.h.publishCalls != [] ==> s.node == End && s.suite == Some(Passed))
      && (s.h.publishCalls != [] && cfg.hasRepo && cfg.requireApproval ==>
            |s.h.decisions| == 1 && SaysYes(s.h.decisions[0]))
      && (!(cfg.hasRepo && cfg.requireApproval) ==> s.node != RequestApproval && s.node != ApprovalGate && s.h.decisions == [])
      && (!cfg.hasRepo ==> s.h.publishCalls == [])
  {
    ShipRun(Init(cfg, files), run);
    OnceAndApproved(Exec(Init(cfg, files), run));
    hide *;
  }

  lemma OnceAndApproved(s: State)
    requires Ship(s)
    ensures |s.h.publishCalls| <= 1 && |s.h.decisions| <= 1
    ensures s.h.publishCalls != [] ==> s.node == End && s.suite == Some(Passed)
    ensures s.h.publishCalls != [] && s.cfg.hasRepo && s.cfg.requireApproval ==>
              |s.h.decisions| == 1 && SaysYes(s.h.decisions[0])
    ensures !(s.cfg.hasRepo && s.cfg.requireApproval) ==>
              s.node != RequestApproval && s.node != ApprovalGate && s.h.decisions == []
    ensures !s.cfg.hasRepo ==> s.h.publishCalls == []
  {
    hide TestedNow, AllPublishable;
  }

  /** An object whose field "approved" is the boolean true. */
  predicate SaysYes(v: Json) {
    match v
    case JObject(fields) => "approved" in fields && fields["approved"] == JBool(true)
    case _ => false
  }

  /** No run ever hands the publisher a file that may not ship: none outside the workspace, none in .git or
      .github in any case. */
  lemma ShippedFilesMayShip(cfg: Config, files: Files, run: seq<Answer>, k: nat, d: FileDiff)
    requires LegalRun(Init(cfg, files), run) && k < |Exec(Init(cfg, files), run).h.publishCalls|
    requires d in Exec(Init(cfg, files), run).h.publishCalls[k]
    ensures MayShip(cfg.word, d.path) && Resolve(cfg.root, d.path) == Some(cfg.root + Split(d.path))
  {
    TestedEqualsShipped(cfg, files, run);
    PublishableExactly(cfg.word, d.path);
    PublishableResolves(cfg.root, cfg.word, d.path);
  }

  /** No stale pass, and no live defensive branch: a sandbox visit never starts with a passed suite in
      store, aggregation always has files, and publishing always has a draft and, where required, an
      approval. */
  lemma DefencesNeverFire(cfg: Config, files: Files, run: seq<Answer>)
    requires LegalRun(Init(cfg, files), run)
    ensures var s := Exec(Init(cfg, files), run);
      && (s.node == SandboxTest ==> s.suite != Some(Passed))
      && (s.node == Aggregate ==> Current(s) != [])
      && (s.node == ApprovalGate ==> s.draft.Some?)
      && (s.node == PrPublish ==> s.draft.Some? && (cfg.hasRepo && cfg.requireApproval ==> s.approval == Some(true)))
  {
    ShipRun(Init(cfg, files), run);
  }

  // ---- poisoned runs ----

  /** Some attempt has emitted a path the workspace guard refuses. */
  ghost predicate Poisoned(s: State) {
    exists p :: p in EverWritten(s.results) && !Safe(s.cfg.root, p)
  }

  lemma PoisonNotTested(s: State)
    requires Poisoned(s)
    ensures !TestedNow(s)
  {
    var p :| p in EverWritten(s.results) && !Safe(s.cfg.root, p);
    if TestedNow(s) {
      var f :| PreparedFrom(s, f, s.h.trials[|s.h.trials| - 1].files);
      PoisonRefuses(s.cfg.root, f, s.results, s.tasks, p);
    }
  }

  lemma PoisonSpreads(s: State, t: State, more: seq<EditorResult>)
    requires Poisoned(s) && t.cfg == s.cfg && t.results == s.results + more
    ensures Poisoned(t)
  {
    var p :| p in EverWritten(s.results) && !Safe(s.cfg.root, p);
    var i, k :| 0 <= i < |s.results| && 0 <= k < |s.results[i].diffs| && s.results[i].diffs[k].path == p;
    assert t.results[i].diffs[k].path == p;
  }

  lemma PoisonedSandbox(s: State, outcome: Outcome, after: Files)
    requires Poisoned(s)
    ensures RunSandbox(s, outcome, after).h.trials == s.h.trials
  {
    var p :| p in EverWritten(s.results) && !Safe(s.cfg.root, p);
    PoisonRefuses(s.cfg.root, s.files, s.results, s.tasks, p);
  }

  lemma PoisonStep(s: State, a: Answer)
    requires Poisoned(s) && Legal(s, a)
    ensures Poisoned(Step(s, a)) && Step(s, a).h.trials == s.h.trials
  {
    ConfigStays(s, a);
    if s.node.Editors? {
      var t := RunBranch(s, a);
      PoisonSpreads(s, t, if t.results == s.results then []
                          else [EditorResult(Pick(s.node.pending, a.id).id, a.gen.value.diffs)]);
    } else {
      CallsOnlyInWaves(s, a);
      PoisonSpreads(s, Step(s, a), []);
      if s.node == SandboxTest {
        PoisonedSandbox(s, a.outcome, a.after);
      }
    }
  }

  lemma {:induction false} PoisonStays(s: State, run: seq<Answer>)
    requires Ship(s) && Poisoned(s) && LegalRun(s, run)
    ensures var t := Exec(s, run);
      t.h.trials == s.h.trials && !Late(t.node) && t.h.publishCalls == []
    decreases |run|
  {
    PoisonNotTested(s);
    if run != [] {
      ShipStep(s, run[0]);
      PoisonStep(s, run[0]);
      PoisonStays(Step(s, run[0]), run[1..]);
    }
  }

  /** From the moment any attempt has emitted a refused path, whatever happens next: the runner is
      never called again, the run never gets past the sandbox, and the publisher is never called. */
  lemma PoisonedRunsNeverShip(cfg: Config, files: Files, before: seq<Answer>, after: seq<Answer>)
    requires LegalRun(Init(cfg, files), before) && LegalRun(Exec(Init(cfg, files), before), after)
    requires Poisoned(Exec(Init(cfg, files), before))
    ensures var s, t := Exec(Init(cfg, files), before), Exec(Exec(Init(cfg, files), before), after);
      t.h.trials == s.h.trials && !Late(t.node) && t.h.publishCalls == []
  {
    ShipRun(Init(cfg, files), before);
    PoisonStays(Exec(Init(cfg, files), before), after);
  }
}
