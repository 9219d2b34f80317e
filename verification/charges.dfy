/** What a run charges, read off its answers, is what its budget records. */
module Charges {
  import opened Budgeting
  import opened Workspaces
  import opened RunTypes
  import opened Machine
  import opened Shape
  import opened Books
  import EA = ErrorAnalysing
  import Comprehending

  /** The call an answer is charged for: an extraction pass that was not skipped, a branch that was not
      skipped and returned code, an analysis that had something to blame, money, and an answer. */
  function ChargeOf(s: State, a: Answer): seq<real>
    requires Legal(s, a)
  {
    match s.node
    case Comprehension =>
      if Exhausted(s.budget, a.now) then []
      else [Comprehending.CostOf(a.sources[..Comprehending.FilesRead(a.sources, Remaining(s.budget), 0.0)])]
    case Editors(_, _) => if Exhausted(s.budget, a.now) || a.gen.None? then [] else [a.gen.value.cost]
    case ErrorAnalysis =>
      if s.suite.None? || (forall i :: 0 <= i < |s.tasks| ==> !EA.IsCandidate(s.tasks[i], s.results))
         || Exhausted(s.budget, a.now) || a.response.None? then []
      else [a.response.value.cost]
    case _ => []
  }

  ghost function Charged(s: State, run: seq<Answer>): seq<real>
    requires LegalRun(s, run)
    decreases |run|
  {
    if run == [] then [] else ChargeOf(s, run[0]) + Charged(Step(s, run[0]), run[1..])
  }

  /** Everything charged so far, folded into the budget or not. */
  function Owed(s: State): real {
    s.budget.spent + Due(s)
  }

  function CallsOwed(s: State): int
    requires s.consumed <= |s.deltas|
  {
    s.budget.calls + |s.deltas| - s.consumed
  }

  predicate OwesMore(s: State, t: State, more: seq<real>) {
    && s.consumed <= |s.deltas| && t.consumed <= |t.deltas|
    && Owed(t) == Owed(s) + Sum(more) && CallsOwed(t) == CallsOwed(s) + |more|
  }

  lemma OneCharge(c: real)
    ensures Sum([c]) == c && Sum([]) == 0.0
  {
    SumOne(c);
  }

  lemma ChargesDispatch(s: State, t: State, more: seq<real>, now1: real, now2: real, idle: Node)
    requires OwesMore(s, t, more)
    ensures OwesMore(s, Dispatch(t, now1, now2, idle), more)
  {
  }

  lemma ChargesFold(s: State)
    requires s.consumed <= |s.deltas|
    ensures OwesMore(s, Reconciled(s), [])
  {
    RecordAllTotals(s.budget, Unconsumed(s.deltas, s.consumed));
  }

  lemma ChargesAnalysis(s: State, a: Answer)
    requires WellFormed(s) && s.node == ErrorAnalysis && Legal(s, a) && s.consumed <= |s.deltas|
    ensures OwesMore(s, Judged(s, a), ChargeOf(s, a))
  {
    EA.CandidatesExact(s.tasks, s.results);
    if ChargeOf(s, a) != [] {
      OneCharge(a.response.value.cost);
    }
  }

  lemma ChargesBranch(s: State, a: Answer)
    requires s.node.Editors? && Legal(s, a) && s.consumed <= |s.deltas|
    ensures OwesMore(s, RunBranch(s, a), ChargeOf(s, a))
  {
    var more := ChargeOf(s, a);
    assert RunBranch(s, a).deltas == s.deltas + more;
    assert (s.deltas + more)[s.consumed..] == s.deltas[s.consumed..] + more;
    SumAppend(s.deltas[s.consumed..], more);
  }

  lemma ChargesComprehension(s: State, a: Answer)
    requires s.node == Comprehension && Legal(s, a) && s.consumed <= |s.deltas|
    ensures OwesMore(s, Comprehended(s, a.now, a.sources), ChargeOf(s, a))
  {
    if !Exhausted(s.budget, a.now) {
      Comprehending.UnitsAreExtracted(a.sources, Remaining(s.budget));
      OneCharge(ChargeOf(s, a)[0]);
    }
  }

  lemma ChargesRouted(s: State, a: Answer)
    requires WellFormed(s) && Legal(s, a) && Routes(s.node) && s.consumed <= |s.deltas|
    ensures OwesMore(s, Step(s, a), ChargeOf(s, a))
  {
    match s.node
    case Synthesis => ChargesDispatch(s, Planned(s), [], a.now1, a.now2, SandboxTest);
    case Reconcile =>
      ChargesFold(s);
      ChargesDispatch(s, Reconciled(s), [], a.now1, a.now2, SandboxTest);
    case ErrorAnalysis =>
      ChargesAnalysis(s, a);
      ChargesDispatch(s, Judged(s, a), ChargeOf(s, a), a.now1, a.now2, End);
  }

  lemma ChargesQuiet(s: State, a: Answer)
    requires Legal(s, a) && (Quiet(s.node) || s.node == BudgetAbort) && s.consumed <= |s.deltas|
    ensures OwesMore(s, Step(s, a), [])
  {
    if Quiet(s.node) {
      QuietStep(s, a);
    }
  }

  lemma ChargesStep(s: State, a: Answer)
    requires WellFormed(s) && Legal(s, a) && s.consumed <= |s.deltas|
    ensures OwesMore(s, Step(s, a), ChargeOf(s, a))
  {
    if Routes(s.node) {
      ChargesRouted(s, a);
    } else if s.node.Editors? {
      ChargesBranch(s, a);
    } else if s.node == Comprehension {
      ChargesComprehension(s, a);
    } else {
      ChargesQuiet(s, a);
    }
  }

  lemma {:induction false} ChargesRun(s: State, run: seq<Answer>)
    requires WellFormed(s) && LegalRun(s, run) && s.consumed <= |s.deltas|
    ensures OwesMore(s, Exec(s, run), Charged(s, run))
    decreases |run|
  {
    if run != [] {
      var t := Step(s, run[0]);
      WellFormedStep(s, run[0]);
      ChargesStep(s, run[0]);
      ChargesRun(t, run[1..]);
      SumAppend(ChargeOf(s, run[0]), Charged(t, run[1..]));
    }
  }

  /** Outside a wave the budget's spend and call count are exactly the sum and the number of the calls
      charged in the answers of the run: nothing a branch, an analysis or the extraction pass was charged
      is dropped or counted twice. */
  lemma SpentIsCharged(cfg: Config, files: Files, run: seq<Answer>)
    requires Untouched(cfg.budget) && LegalRun(Init(cfg, files), run)
    requires !InWave(Exec(Init(cfg, files), run).node)
    ensures var s := Exec(Init(cfg, files), run);
      s.budget.spent == Sum(Charged(Init(cfg, files), run)) && s.budget.calls == |Charged(Init(cfg, files), run)|
  {
    ChargesRun(Init(cfg, files), run);
    BooksRun(Init(cfg, files), run);
  }
}
