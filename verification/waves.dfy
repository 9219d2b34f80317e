/** Exactly when a dispatched wave is sure to respect the cap on LLM calls, and what money its branches
    are sized by. */
module Waves {
  import opened OrderedDict
  import opened PlanTypes
  import opened Budgeting
  import opened Workspaces
  import opened Scheduling
  import opened RunTypes
  import opened Machine
  import opened Shape
  import opened Books
  import EA = ErrorAnalysing

  /** A wave goes out only when the budget was not exhausted at its dispatch. */
  predicate Funded(s: State) {
    s.node.Editors? ==> !Exhausted(s.budget, s.node.since)
  }

  lemma FundedDispatch(s: State, now1: real, now2: real, idle: Node)
    requires !idle.Editors?
    ensures Funded(Dispatch(s, now1, now2, idle))
  {
    AffordableIsLargest(s.budget, |Ready(s.tasks)|, now2);
  }

  lemma FundedRouted(s: State, a: Answer)
    requires Legal(s, a) && Routes(s.node)
    ensures Funded(Step(s, a))
  {
    match s.node
    case Synthesis => FundedDispatch(Planned(s), a.now1, a.now2, SandboxTest);
    case Reconcile => FundedDispatch(Reconciled(s), a.now1, a.now2, SandboxTest);
    case ErrorAnalysis => FundedDispatch(Judged(s, a), a.now1, a.now2, End);
  }

  lemma FundedStep(s: State, a: Answer)
    requires Funded(s) && Legal(s, a)
    ensures Funded(Step(s, a))
  {
    if Quiet(s.node) {
      QuietStep(s, a);
    } else if Routes(s.node) {
      FundedRouted(s, a);
    }
  }

  lemma {:induction false} FundedRun(s: State, run: seq<Answer>)
    requires WellFormed(s) && BooksBalance(s) && Funded(s) && LegalRun(s, run)
    ensures WellFormed(Exec(s, run)) && BooksBalance(Exec(s, run)) && Funded(Exec(s, run))
    decreases |run|
  {
    if run != [] {
      WellFormedStep(s, run[0]);
      BooksStep(s, run[0]);
      FundedStep(s, run[0]);
      FundedRun(Step(s, run[0]), run[1..]);
    }
  }

  /** The answers of all branches in flight, in some order. */
  ghost predicate Completes(s: State, x: seq<Answer>) {
    s.node.Editors? && LegalRun(s, x) && |x| == |s.node.pending|
  }

  /** The calls the budget has recorded once the wave is reconciled. */
  ghost function CallsAfter(s: State, x: seq<Answer>): int
    requires LegalRun(s, x)
  {
    Reconciled(Exec(s, x)).budget.calls
  }

  ghost predicate CapKept(s: State) {
    forall x :: Completes(s, x) ==> CallsAfter(s, x) <= s.budget.maxCalls
  }

  lemma FoldedCalls(s: State)
    requires s.consumed <= |s.deltas|
    ensures Reconciled(s).budget.calls == s.budget.calls + |s.deltas| - s.consumed
  {
    RecordAllTotals(s.budget, Unconsumed(s.deltas, s.consumed));
  }

  lemma BranchCounts(s: State, a: Answer)
    requires WellFormed(s) && s.node.Editors? && Legal(s, a) && s.consumed <= |s.deltas|
    ensures var t := RunBranch(s, a);
      && t.budget == s.budget && t.consumed == s.consumed && t.consumed <= |t.deltas|
      && (t.node.Editors? || t.node == Reconcile) && (t.node.Editors? <==> |s.node.pending| > 1)
      && (t.node.Editors? ==> t.node.since == s.node.since && |t.node.pending| == |s.node.pending| - 1)
      && |t.deltas| == |s.deltas| + if a.gen.Some? && !Exhausted(s.budget, a.now) then 1 else 0
  {
    PickExact(s.node.pending, a.id);
  }

  /** A completion joins the wave and records at most one call a branch. */
  lemma {:induction false} AtMost(s: State, x: seq<Answer>)
    requires WellFormed(s) && Completes(s, x) && s.consumed <= |s.deltas|
    ensures Exec(s, x).node == Reconcile
    ensures CallsAfter(s, x) <= s.budget.calls + Outstanding(s)
    decreases |x|
  {
    BranchCounts(s, x[0]);
    WellFormedStep(s, x[0]);
    var t := Step(s, x[0]);
    if t.node == Reconcile {
      assert x[1..] == [];
      FoldedCalls(t);
    } else {
      AtMost(t, x[1..]);
    }
  }

  /** The generator answers at once, with no file and at no cost. */
  function Success(s: State): Answer
    requires WellFormed(s) && s.node.Editors?
  {
    Branch(s.node.pending[0].id, s.node.since, Some(Generation([], 0.0)))
  }

  /** When every branch succeeds, each records its call. */
  lemma {:induction false} AllSucceed(s: State) returns (x: seq<Answer>)
    requires WellFormed(s) && s.node.Editors? && Funded(s) && s.consumed <= |s.deltas|
    ensures Completes(s, x) && CallsAfter(s, x) == s.budget.calls + Outstanding(s)
    decreases |s.node.pending|
  {
    var a := Success(s);
    assert HasTask(s.node.pending, a.id) && Legal(s, a);
    BranchCounts(s, a);
    WellFormedStep(s, a);
    var t := Step(s, a);
    if t.node == Reconcile {
      x := [a];
      OneStep(s, a);
      FoldedCalls(t);
    } else {
      var rest := AllSucceed(t);
      x := [a] + rest;
      Front(s, a, rest);
    }
  }

  lemma CapKeptExactly(s: State)
    requires WellFormed(s) && s.node.Editors? && Funded(s) && s.consumed <= |s.deltas|
    ensures CapKept(s) <==> Outstanding(s) <= s.budget.maxCalls - s.budget.calls
  {
    if CapKept(s) {
      var x := AllSucceed(s);
    } else {
      var x :| Completes(s, x) && CallsAfter(s, x) > s.budget.maxCalls;
      AtMost(s, x);
    }
  }

  /** In every run, at a wave that has just gone out: the cap on LLM calls is kept however the branches come
      out if and only if the wave is no larger than the number of calls left, a test the router could
      make before it sends. */
  lemma CallCapExactly(cfg: Config, files: Files, run: seq<Answer>)
    requires LegalRun(Init(cfg, files), run)
    requires var s := Exec(Init(cfg, files), run); s.node.Editors? && s.consumed == |s.deltas|
    ensures var s := Exec(Init(cfg, files), run);
      CapKept(s) <==> |s.node.pending| <= s.budget.maxCalls - s.budget.calls
  {
    FundedRun(Init(cfg, files), run);
    CapKeptExactly(Exec(Init(cfg, files), run));
  }

  // ---- waves and observed costs ----

  /** The ledger knows the largest call charged one by one: a folded branch or an analysis. */
  predicate LargestKnown(s: State) {
    && s.consumed <= |s.deltas|
    && s.budget == s.cfg.budget.(spent := s.budget.spent, calls := s.budget.calls, maxCallCost := s.budget.maxCallCost)
    && (forall k :: 0 <= k < s.consumed ==> s.deltas[k] <= s.budget.maxCallCost)
    && (forall k :: 0 <= k < |s.h.analyses| ==> s.h.analyses[k] <= s.budget.maxCallCost)
    && (s.budget.maxCallCost == s.cfg.budget.maxCallCost
        || s.budget.maxCallCost in s.deltas[..s.consumed] || s.budget.maxCallCost in s.h.analyses)
  }

  lemma LargestFold(s: State)
    requires LargestKnown(s)
    ensures LargestKnown(Reconciled(s))
  {
    var todo, t := Unconsumed(s.deltas, s.consumed), Reconciled(s);
    RecordAllTotals(s.budget, todo);
    assert t.deltas[..t.consumed] == s.deltas[..s.consumed] + todo;
    forall k | 0 <= k < t.consumed ensures t.deltas[k] <= t.budget.maxCallCost {
      if k >= s.consumed {
        assert t.deltas[k] == todo[k - s.consumed];
      }
    }
    hide RecordAll;
  }

  lemma LargestJudged(s: State, a: Answer)
    requires LargestKnown(s) && s.node == ErrorAnalysis && Legal(s, a)
    ensures LargestKnown(Judged(s, a))
  {
    JudgedCharge(s, a);
    hide EA.Analyse, Merge, Legal;
    if AnalysisOf(s, a).called && a.response.Some? {
      assert a.response.value.cost / 1 as real == a.response.value.cost;
    }
  }

  lemma LargestDispatch(s: State, now1: real, now2: real, idle: Node)
    requires LargestKnown(s)
    ensures LargestKnown(Dispatch(s, now1, now2, idle))
  {
  }

  lemma LargestBranch(s: State, a: Answer)
    requires LargestKnown(s) && s.node.Editors? && Legal(s, a)
    ensures LargestKnown(RunBranch(s, a))
  {
    assert RunBranch(s, a).deltas[..s.consumed] == s.deltas[..s.consumed];
  }

  lemma LargestRouted(s: State, a: Answer)
    requires LargestKnown(s) && Legal(s, a) && Routes(s.node)
    ensures LargestKnown(Step(s, a))
  {
    match s.node
    case Synthesis => LargestDispatch(Planned(s), a.now1, a.now2, SandboxTest);
    case Reconcile =>
      LargestFold(s);
      LargestDispatch(Reconciled(s), a.now1, a.now2, SandboxTest);
    case ErrorAnalysis =>
      LargestJudged(s, a);
      LargestDispatch(Judged(s, a), a.now1, a.now2, End);
  }

  lemma LargestQuiet(s: State, a: Answer)
    requires LargestKnown(s) && Legal(s, a) && Quiet(s.node)
    ensures LargestKnown(Step(s, a))
  {
    QuietStep(s, a);
  }

  lemma LargestStep(s: State, a: Answer)
    requires LargestKnown(s) && Legal(s, a)
    ensures LargestKnown(Step(s, a))
  {
    if Quiet(s.node) {
      LargestQuiet(s, a);
    } else if Routes(s.node) {
      LargestRouted(s, a);
    } else if s.node.Editors? {
      LargestBranch(s, a);
    }
  }

  /** The branches in flight, at the largest observed cost or else at the default, are within the money. */
  predicate WavePaid(s: State) {
    s.node.Editors? && |s.node.pending| > 1 ==>
      && (s.budget.maxCallCost > 0.0 ==> WithinMoney(s.budget, |s.node.pending|, s.budget.maxCallCost))
      && (s.budget.maxCallCost == 0.0 ==> WithinMoney(s.budget, |s.node.pending|, s.budget.defaultReserve))
  }

  lemma PaidDispatch(s: State, now1: real, now2: real, idle: Node)
    requires !idle.Editors?
    ensures WavePaid(Dispatch(s, now1, now2, idle))
  {
    WaveInMoney(s.budget, |Ready(s.tasks)|, now2);
    AffordableIsLargest(s.budget, |Ready(s.tasks)|, now2);
    hide WithinMoney, Exhausted, Fits, Ready;
  }

  lemma PaidRouted(s: State, a: Answer)
    requires Legal(s, a) && Routes(s.node)
    ensures WavePaid(Step(s, a))
  {
    match s.node
    case Synthesis => PaidDispatch(Planned(s), a.now1, a.now2, SandboxTest);
    case Reconcile => PaidDispatch(Reconciled(s), a.now1, a.now2, SandboxTest);
    case ErrorAnalysis => PaidDispatch(Judged(s, a), a.now1, a.now2, End);
  }

  lemma FewerWithin(b: Ledger, n: int, m: int, cost: real)
    requires WithinMoney(b, n, cost) && m <= n && cost >= 0.0
    ensures WithinMoney(b, m, cost)
  {
    MulMonotone(m as real, n as real, cost);
  }

  lemma PaidBranch(s: State, a: Answer)
    requires WellFormed(s) && WavePaid(s) && s.node.Editors? && Legal(s, a) && s.consumed <= |s.deltas|
    ensures WavePaid(RunBranch(s, a))
  {
    BranchCounts(s, a);
    hide RunBranch, WithinMoney, WellFormed, Legal, Exhausted;
    var n := |s.node.pending|;
    if n > 1 {
      if s.budget.maxCallCost > 0.0 {
        FewerWithin(s.budget, n, n - 1, s.budget.maxCallCost);
      } else {
        FewerWithin(s.budget, n, n - 1, s.budget.defaultReserve);
      }
    }
  }

  lemma PaidStep(s: State, a: Answer)
    requires WellFormed(s) && WavePaid(s) && Legal(s, a) && s.consumed <= |s.deltas|
    ensures WavePaid(Step(s, a))
  {
    if Quiet(s.node) {
      QuietStep(s, a);
    } else if Routes(s.node) {
      PaidRouted(s, a);
    } else if s.node.Editors? {
      PaidBranch(s, a);
    }
  }

  lemma {:induction false} PaidRun(s: State, run: seq<Answer>)
    requires WellFormed(s) && LargestKnown(s) && WavePaid(s) && LegalRun(s, run)
    ensures LargestKnown(Exec(s, run)) && WavePaid(Exec(s, run))
    decreases |run|
  {
    if run != [] {
      WellFormedStep(s, run[0]);
      LargestStep(s, run[0]);
      PaidStep(s, run[0]);
      PaidRun(Step(s, run[0]), run[1..]);
    }
  }

  /** An observation beats the guess, in every run: several branches in flight, each at the cost of any call
      folded or charged to analysis so far, are within the money left; as long as no such call cost anything, each
      at the default cost. */
  lemma ObservationBeatsGuess(cfg: Config, files: Files, run: seq<Answer>, cost: real)
    requires Untouched(cfg.budget) && LegalRun(Init(cfg, files), run)
    requires var s := Exec(Init(cfg, files), run); s.node.Editors? && |s.node.pending| > 1
    ensures var s := Exec(Init(cfg, files), run);
      && s.budget.maxUsd == cfg.budget.maxUsd && s.consumed <= |s.deltas|
      && (cost in s.deltas[..s.consumed] || cost in s.h.analyses ==> WithinMoney(s.budget, |s.node.pending|, cost))
      && ((forall c :: c in s.deltas[..s.consumed] || c in s.h.analyses ==> c == 0.0) ==>
            WithinMoney(s.budget, |s.node.pending|, cfg.budget.defaultReserve))
  {
    PaidRun(Init(cfg, files), run);
    ConfigRun(Init(cfg, files), run);
    hide LegalRun, Exec;
    ObservedNow(Exec(Init(cfg, files), run), cost);
  }

  lemma ObservedNow(s: State, cost: real)
    requires LargestKnown(s) && WavePaid(s) && s.node.Editors? && |s.node.pending| > 1 && s.cfg.budget.maxCallCost == 0.0
    ensures cost in s.deltas[..s.consumed] || cost in s.h.analyses ==> WithinMoney(s.budget, |s.node.pending|, cost)
    ensures (forall c :: c in s.deltas[..s.consumed] || c in s.h.analyses ==> c == 0.0) ==>
              WithinMoney(s.budget, |s.node.pending|, s.cfg.budget.defaultReserve)
  {
    var n, largest := |s.node.pending| as real, s.budget.maxCallCost;
    if cost in s.deltas[..s.consumed] || cost in s.h.analyses {
      assert cost <= largest;
      MulMonotone(cost, if largest > 0.0 then largest else s.budget.defaultReserve, n);
    }
  }
}
