/** Values shared by the nodes of a run. */
module RunTypes {
  import opened OrderedDict
  import opened Paths
  import opened Budgeting

  datatype Outcome = Passed | SuiteFailed | RunnerError | TimedOut | NotRun

  /** `Unset` is the state before any node has recorded a phase. */
  datatype Phase =
    | Unset | SynthesisPlanning | Editing | Analysing | Aggregating | AwaitingApproval | PrGeneration
    | Done | Rejected | RunFailed | AbortedBudget | AwaitingHuman

  datatype Json =
    | JNull | JBool(b: bool) | JNumber(n: real) | JString(s: string)
    | JArray(items: seq<Json>) | JObject(fields: map<string, Json>)

  datatype Config = Config(root: Loc, hasRepo: bool, requireApproval: bool, maxRounds: Option<int>,
                           word: set<char>, budget: Ledger)

  /** The budget the worker passes in has recorded nothing yet. */
  predicate Untouched(b: Ledger) {
    b.spent == 0.0 && b.calls == 0 && b.maxCallCost == 0.0
  }

  const DEFAULT_MAX_RETRY_ROUNDS: int := 5

  function EffectiveRounds(m: Option<int>): int {
    match m
    case Some(n) => if n == 0 then DEFAULT_MAX_RETRY_ROUNDS else n
    case None => DEFAULT_MAX_RETRY_ROUNDS
  }
}

/** The node that blames tasks for a failed suite and retries or escalates them. */
module ErrorAnalysing {
  import opened OrderedDict
  import opened PlanTypes
  import opened Diffs
  import opened Budgeting
  import opened Scheduling
  import opened RunTypes

  datatype Analysis = Analysis(taskId: string, retryable: bool)

  datatype Response = Response(analyses: seq<Analysis>, cost: real)

  predicate HasCode(results: seq<EditorResult>, id: string) {
    exists i :: 0 <= i < |results| && results[i].taskId == id
  }

  function Candidates(tasks: seq<Task>, results: seq<EditorResult>): seq<Task> {
    if tasks == [] then []
    else
      var rest := Candidates(tasks[..|tasks| - 1], results);
      var t := tasks[|tasks| - 1];
      if t.status == Succeeded && HasCode(results, t.id) then rest + [t] else rest
  }

  function Judge(t: Task, retryable: bool, capHit: bool): Task {
    t.(retries := t.retries + 1,
       status := if capHit || !retryable || t.retries + 1 > t.maxRetries then NeedsHuman else Retrying)
  }

  function Verdicts(candidates: seq<Task>, analyses: seq<Analysis>, capHit: bool): seq<Task> {
    if analyses == [] then []
    else
      var n := |analyses| - 1;
      var rest := Verdicts(candidates, analyses[..n], capHit);
      match LastOf(TaskEntries(candidates), analyses[n].taskId)
      case None => rest
      case Some(t) => rest + [Judge(t, analyses[n].retryable, capHit)]
  }

  function Escalated(candidates: seq<Task>): (r: seq<Task>)
    ensures |r| == |candidates|
    ensures forall i :: 0 <= i < |r| ==> r[i] == candidates[i].(status := NeedsHuman)
  {
    seq(|candidates|, i requires 0 <= i < |candidates| => candidates[i].(status := NeedsHuman))
  }

  predicate AnyRetrying(tasks: seq<Task>) {
    exists i :: 0 <= i < |tasks| && tasks[i].status == Retrying
  }

  /** The node's state update; `called` says whether the analyzer was called, answering or not. */
  datatype Update = Update(tasks: seq<Task>, phase: Phase, retryRound: nat, budget: Ledger, called: bool)

  predicate CapHit(retryRound: nat, maxRounds: Option<int>) {
    retryRound + 1 >= EffectiveRounds(maxRounds)
  }

  function Analyse(tasks: seq<Task>, results: seq<EditorResult>, suite: Option<Outcome>, b: Ledger,
                   retryRound: nat, maxRounds: Option<int>, now: real, response: Option<Response>): Update
  {
    var candidates := Candidates(tasks, results);
    if suite.None? || candidates == [] then
      Update([], AwaitingHuman, retryRound + 1, b, false)
    else if Exhausted(b, now) || response.None? then
      Update(Escalated(candidates), AwaitingHuman, retryRound + 1, b, !Exhausted(b, now))
    else
      var verdicts := Verdicts(candidates, response.value.analyses, CapHit(retryRound, maxRounds));
      Update(verdicts, if AnyRetrying(verdicts) then Editing else AwaitingHuman, retryRound + 1,
             Recorded(b, response.value.cost, 1, true), true)
  }

  method CollectVerdicts(candidates: seq<Task>, analyses: seq<Analysis>, capHit: bool) returns (updated: seq<Task>)
    ensures updated == Verdicts(candidates, analyses, capHit)
  {
    var byId := TaskEntries(candidates);
    updated := [];
    for i := 0 to |analyses|
      invariant updated == Verdicts(candidates, analyses[..i], capHit)
    {
      assert analyses[..i + 1][..i] == analyses[..i];
      var found := LastOf(byId, analyses[i].taskId);
      if found.Some? {
        var t := found.value;
        var retries := t.retries + 1;
        var status := if capHit || !analyses[i].retryable || retries > t.maxRetries then NeedsHuman else Retrying;
        updated := updated + [t.(status := status, retries := retries)];
      }
    }
    assert analyses[..|analyses|] == analyses;
  }

  /** The node itself: it charges its call directly to the budget object. */
  method ErrorAnalysisNode(tasks: seq<Task>, results: seq<EditorResult>, suite: Option<Outcome>, budget: Budget,
                           retryRound: nat, maxRounds: Option<int>, now: real, response: Option<Response>)
    returns (updated: seq<Task>, phase: Phase, round: nat)
    modifies budget
    ensures var u := Analyse(tasks, results, suite, old(budget.View()), retryRound, maxRounds, now, response);
      updated == u.tasks && phase == u.phase && round == u.retryRound && budget.View() == u.budget
  {
    round := retryRound + 1;
    phase := AwaitingHuman;
    var candidates := Candidates(tasks, results);
    if suite.None? || candidates == [] {
      updated := [];
    } else if Exhausted(budget.View(), now) || response.None? {
      updated := Escalated(candidates);
    } else {
      updated := CollectVerdicts(candidates, response.value.analyses, round >= EffectiveRounds(maxRounds));
      if AnyRetrying(updated) {
        phase := Editing;
      }
      budget.RecordCall(response.value.cost, 1, true);
    }
  }

  /** What analysis may do to one task. */
  predicate JudgedFrom(t: Task, after: Task, capHit: bool) {
    || after == t
    || (t.status == Succeeded
        && (|| after == t.(status := NeedsHuman)
            || after == t.(status := NeedsHuman, retries := t.retries + 1)
            || (!capHit && t.retries + 1 <= t.maxRetries && after == t.(status := Retrying, retries := t.retries + 1))))
  }

  lemma {:induction false} CandidatesExact(tasks: seq<Task>, results: seq<EditorResult>)
    requires DistinctTasks(tasks)
    ensures var c := Candidates(tasks, results);
      && (forall k :: 0 <= k < |c| ==>
            && c[k].status == Succeeded && HasCode(results, c[k].id)
            && exists i :: 0 <= i < |tasks| && tasks[i] == c[k])
      && (c == [] <==> forall i :: 0 <= i < |tasks| ==> !(tasks[i].status == Succeeded && HasCode(results, tasks[i].id)))
  {
    if tasks != [] {
      var n := |tasks| - 1;
      CandidatesExact(tasks[..n], results);
      assert tasks == tasks[..n] + [tasks[n]];
    }
  }

  predicate IsJudged(t: Task, u: Task, capHit: bool) {
    u == Judge(t, true, capHit) || u == Judge(t, false, capHit)
  }

  predicate IsVerdict(candidates: seq<Task>, u: Task, capHit: bool) {
    exists i :: 0 <= i < |candidates| && IsJudged(candidates[i], u, capHit)
  }

  ghost predicate AllVerdicts(candidates: seq<Task>, ups: seq<Task>, capHit: bool) {
    forall k :: 0 <= k < |ups| ==> IsVerdict(candidates, ups[k], capHit)
  }

  /** Every verdict is about an offered candidate, judged from its state when offered: duplicated
      ids are judged from the same state, invented ids are ignored. */
  lemma {:induction false} VerdictsFromCandidates(candidates: seq<Task>, analyses: seq<Analysis>, capHit: bool)
    ensures AllVerdicts(candidates, Verdicts(candidates, analyses, capHit), capHit)
  {
    if analyses != [] {
      var n := |analyses| - 1;
      VerdictsFromCandidates(candidates, analyses[..n], capHit);
      var es: seq<Entry<Task>> := TaskEntries(candidates);
      LastOfIn(es, analyses[n].taskId);
      if LastOf(es, analyses[n].taskId).Some? {
        var i :| 0 <= i < |es| && es[i].value == LastOf(es, analyses[n].taskId).value;
        var u := Judge(candidates[i], analyses[n].retryable, capHit);
        assert IsJudged(candidates[i], u, capHit);
        assert IsVerdict(candidates, u, capHit);
      }
    }
  }

  lemma UpdatesKnown(tasks: seq<Task>, results: seq<EditorResult>, suite: Option<Outcome>, b: Ledger,
                     retryRound: nat, maxRounds: Option<int>, now: real, response: Option<Response>, k: nat)
    requires DistinctTasks(tasks)
    requires k < |Analyse(tasks, results, suite, b, retryRound, maxRounds, now, response).tasks|
    ensures var u := Analyse(tasks, results, suite, b, retryRound, maxRounds, now, response).tasks[k];
      exists i :: 0 <= i < |tasks| && tasks[i].id == u.id && JudgedFrom(tasks[i], u, CapHit(retryRound, maxRounds))
  {
    var c, capHit := Candidates(tasks, results), CapHit(retryRound, maxRounds);
    CandidatesExact(tasks, results);
    if Exhausted(b, now) || response.None? {
      var i :| 0 <= i < |tasks| && tasks[i] == c[k];
      assert JudgedFrom(tasks[i], Escalated(c)[k], capHit);
    } else {
      VerdictsFromCandidates(c, response.value.analyses, capHit);
      var v := Verdicts(c, response.value.analyses, capHit);
      var u := v[k];
      assert IsVerdict(c, u, capHit);
      var j :| 0 <= j < |c| && IsJudged(c[j], u, capHit);
      var i :| 0 <= i < |tasks| && tasks[i] == c[j];
      assert JudgedFrom(tasks[i], u, capHit);
    }
  }

  function AnalysisEntries(analyses: seq<Analysis>): (r: seq<Entry<Analysis>>)
    ensures |r| == |analyses|
    ensures forall i :: 0 <= i < |r| ==> r[i] == Entry(analyses[i].taskId, analyses[i])
  {
    EntriesBy(analyses, (a: Analysis) => a.taskId)
  }

  /** The last analysis naming a candidate decides about it; one naming anything else decides nothing. */
  lemma {:induction false} LastVerdict(candidates: seq<Task>, analyses: seq<Analysis>, capHit: bool, id: string)
    ensures LastOf(TaskEntries(Verdicts(candidates, analyses, capHit)), id) ==
      match (LastOf(TaskEntries(candidates), id), LastOf(AnalysisEntries(analyses), id))
      case (Some(t), Some(a)) => Some(Judge(t, a.retryable, capHit))
      case _ => None
  {
    if analyses != [] {
      var n := |analyses| - 1;
      LastVerdict(candidates, analyses[..n], capHit, id);
      var named: seq<Entry<Analysis>> := AnalysisEntries(analyses);
      assert named[..n] == AnalysisEntries(analyses[..n]);
      var found := LastOf(TaskEntries(candidates), analyses[n].taskId);
      if found.Some? {
        var rest := Verdicts(candidates, analyses[..n], capHit);
        FoundById(candidates, analyses[n].taskId);
        LastAppended(rest, Judge(found.value, analyses[n].retryable, capHit), id);
      }
    }
  }

  lemma LastAppended(rest: seq<Task>, t: Task, id: string)
    ensures LastOf(TaskEntries(rest + [t]), id) == if t.id == id then Some(t) else LastOf(TaskEntries(rest), id)
  {
    assert TaskEntries(rest + [t])[..|rest|] == TaskEntries(rest);
  }

  lemma FoundById(tasks: seq<Task>, id: string)
    ensures LastOf(TaskEntries(tasks), id).Some? ==> LastOf(TaskEntries(tasks), id).value.id == id
  {
    LastOfIn(TaskEntries(tasks), id);
  }

  /** Merging the node's update touches only SUCCEEDED tasks: each is left alone, sent to a human, or
      (below both caps) retried with its retry count raised by exactly one. */
  lemma AnalysisEffect(tasks: seq<Task>, results: seq<EditorResult>, suite: Option<Outcome>, b: Ledger,
                       retryRound: nat, maxRounds: Option<int>, now: real, response: Option<Response>)
    requires DistinctTasks(tasks)
    ensures var u := Analyse(tasks, results, suite, b, retryRound, maxRounds, now, response);
      var after := Merge(tasks, u.tasks);
      |after| == |tasks| && forall i :: 0 <= i < |tasks| ==>
        after[i].id == tasks[i].id && JudgedFrom(tasks[i], after[i], CapHit(retryRound, maxRounds))
  {
    var ups := Analyse(tasks, results, suite, b, retryRound, maxRounds, now, response).tasks;
    forall k | 0 <= k < |ups| ensures HasTask(tasks, ups[k].id) {
      UpdatesKnown(tasks, results, suite, b, retryRound, maxRounds, now, response, k);
    }
    MergeInPlace(tasks, ups);
    forall i | 0 <= i < |tasks| ensures JudgedFrom(tasks[i], Updated(tasks[i], ups), CapHit(retryRound, maxRounds)) {
      LastOfIn(TaskEntries(ups), tasks[i].id);
      if LastOf(TaskEntries(ups), tasks[i].id).Some? {
        var k :| 0 <= k < |ups| && TaskEntries(ups)[k] == Entry(tasks[i].id, LastOf(TaskEntries(ups), tasks[i].id).value);
        UpdatesKnown(tasks, results, suite, b, retryRound, maxRounds, now, response, k);
      }
    }
  }

  predicate IsCandidate(t: Task, results: seq<EditorResult>) {
    t.status == Succeeded && HasCode(results, t.id)
  }

  lemma {:induction false} CandidatesHas(tasks: seq<Task>, results: seq<EditorResult>, t: Task)
    ensures t in Candidates(tasks, results) <==> t in tasks && IsCandidate(t, results)
  {
    if tasks != [] {
      CandidatesHas(tasks[..|tasks| - 1], results, t);
      assert tasks == tasks[..|tasks| - 1] + [tasks[|tasks| - 1]];
    }
  }

  lemma SameTask(tasks: seq<Task>, i: nat, t: Task)
    requires DistinctTasks(tasks) && i < |tasks| && t in tasks && t.id == tasks[i].id
    ensures t == tasks[i]
  {
  }

  lemma CandidateAt(tasks: seq<Task>, results: seq<EditorResult>, i: nat)
    requires DistinctTasks(tasks) && i < |tasks|
    ensures LastOf(TaskEntries(Candidates(tasks, results)), tasks[i].id) ==
      if IsCandidate(tasks[i], results) then Some(tasks[i]) else None
  {
    var c := Candidates(tasks, results);
    var es: seq<Entry<Task>> := TaskEntries(c);
    LastOfIn(es, tasks[i].id);
    CandidatesHas(tasks, results, tasks[i]);
    if IsCandidate(tasks[i], results) {
      var k :| 0 <= k < |c| && c[k] == tasks[i];
      assert es[k].key == tasks[i].id;
    }
    if LastOf(es, tasks[i].id).Some? {
      var t := LastOf(es, tasks[i].id).value;
      var k :| 0 <= k < |es| && es[k] == Entry(tasks[i].id, t);
      assert c[k] == t && t in c;
      CandidatesHas(tasks, results, t);
      SameTask(tasks, i, t);
    }
  }

  lemma {:induction false} EscalatedLast(c: seq<Task>, id: string)
    ensures LastOf(TaskEntries(Escalated(c)), id) ==
      match LastOf(TaskEntries(c), id) case Some(t) => Some(t.(status := NeedsHuman)) case None => None
  {
    if c != [] {
      var n := |c| - 1;
      EscalatedLast(c[..n], id);
      assert TaskEntries(Escalated(c))[..n] == TaskEntries(Escalated(c[..n]));
      assert TaskEntries(c)[..n] == TaskEntries(c[..n]);
    }
  }

  /** What an analysis visit means for one task, without lists: only a SUCCEEDED task with code is
      touched; with no budget or no answer it goes to a human; otherwise the last analysis naming it
      decides, and one that is not named keeps its state. */
  function Sentence(t: Task, results: seq<EditorResult>, suite: Option<Outcome>, afford: bool, capHit: bool,
                    response: Option<Response>): Task
  {
    if suite.None? || !IsCandidate(t, results) then t
    else if !afford || response.None? then t.(status := NeedsHuman)
    else
      match LastOf(AnalysisEntries(response.value.analyses), t.id)
      case None => t
      case Some(a) => Judge(t, a.retryable, capHit)
  }

  /** The node's list of updates, once merged, gives every task its sentence. */
  lemma AnalysisExact(tasks: seq<Task>, results: seq<EditorResult>, suite: Option<Outcome>, b: Ledger,
                      retryRound: nat, maxRounds: Option<int>, now: real, response: Option<Response>, i: nat)
    requires DistinctTasks(tasks) && i < |tasks|
    ensures var after := Merge(tasks, Analyse(tasks, results, suite, b, retryRound, maxRounds, now, response).tasks);
      |after| == |tasks|
      && after[i] == Sentence(tasks[i], results, suite, !Exhausted(b, now), CapHit(retryRound, maxRounds), response)
  {
    var ups := Analyse(tasks, results, suite, b, retryRound, maxRounds, now, response).tasks;
    forall k | 0 <= k < |ups| ensures HasTask(tasks, ups[k].id) {
      UpdatesKnown(tasks, results, suite, b, retryRound, maxRounds, now, response, k);
    }
    MergeInPlace(tasks, ups);
    UpdateFor(tasks, results, suite, b, retryRound, maxRounds, now, response, i);
  }

  lemma UpdateFor(tasks: seq<Task>, results: seq<EditorResult>, suite: Option<Outcome>, b: Ledger,
                  retryRound: nat, maxRounds: Option<int>, now: real, response: Option<Response>, i: nat)
    requires DistinctTasks(tasks) && i < |tasks|
    ensures Updated(tasks[i], Analyse(tasks, results, suite, b, retryRound, maxRounds, now, response).tasks)
      == Sentence(tasks[i], results, suite, !Exhausted(b, now), CapHit(retryRound, maxRounds), response)
  {
    var c := Candidates(tasks, results);
    CandidateAt(tasks, results, i);
    if suite.Some? && c != [] {
      if Exhausted(b, now) || response.None? {
        EscalatedLast(c, tasks[i].id);
      } else {
        LastVerdict(c, response.value.analyses, CapHit(retryRound, maxRounds), tasks[i].id);
      }
    } else {
      assert TaskEntries([]) == [];
    }
  }

  /** Nobody is blamed without code in the run: analysis changes only SUCCEEDED tasks some stored result is for,
      and none without a suite result. */
  lemma SuspectsOnly(tasks: seq<Task>, results: seq<EditorResult>, suite: Option<Outcome>, b: Ledger,
                     retryRound: nat, maxRounds: Option<int>, now: real, response: Option<Response>, i: nat)
    requires DistinctTasks(tasks) && i < |tasks|
    ensures var after := Merge(tasks, Analyse(tasks, results, suite, b, retryRound, maxRounds, now, response).tasks);
      |after| == |tasks| && (after[i] != tasks[i] ==>
        suite.Some? && tasks[i].status == Succeeded && exists k :: 0 <= k < |results| && results[k].taskId == tasks[i].id)
  {
    AnalysisExact(tasks, results, suite, b, retryRound, maxRounds, now, response, i);
  }
}
