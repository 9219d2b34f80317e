/** Which generated files are the effective output of a run: the latest attempt of every task that
    has currently succeeded. The sandbox and the publisher both derive their files from here. */
module Diffs {
  import opened OrderedDict
  import opened PlanTypes

  datatype FileDiff = FileDiff(path: string, content: string)

  datatype EditorResult = EditorResult(taskId: string, diffs: seq<FileDiff>)

  function ResultEntries(results: seq<EditorResult>): (r: seq<Entry<EditorResult>>)
    ensures |r| == |results|
    ensures forall i :: 0 <= i < |r| ==> r[i] == Entry(results[i].taskId, results[i])
  {
    EntriesBy(results, (r: EditorResult) => r.taskId)
  }

  function Latest(results: seq<EditorResult>): seq<Entry<EditorResult>> {
    PutAll([], ResultEntries(results))
  }

  function LatestOf(results: seq<EditorResult>, id: string): Option<EditorResult> {
    LastOf(ResultEntries(results), id)
  }

  predicate HasSucceeded(tasks: seq<Task>, id: string) {
    exists i :: 0 <= i < |tasks| && tasks[i].id == id && tasks[i].status == Succeeded
  }

  function Keep(latest: seq<Entry<EditorResult>>, tasks: seq<Task>): seq<EditorResult> {
    if latest == [] then []
    else
      var rest := Keep(latest[..|latest| - 1], tasks);
      var e := latest[|latest| - 1];
      if HasSucceeded(tasks, e.key) then rest + [e.value] else rest
  }

  function EffectiveResults(results: seq<EditorResult>, tasks: seq<Task>): seq<EditorResult> {
    Keep(Latest(results), tasks)
  }

  function DiffEntries(diffs: seq<FileDiff>): (r: seq<Entry<FileDiff>>)
    ensures |r| == |diffs|
    ensures forall i :: 0 <= i < |r| ==> r[i] == Entry(diffs[i].path, diffs[i])
  {
    EntriesBy(diffs, (d: FileDiff) => d.path)
  }

  function Flatten(results: seq<EditorResult>): seq<Entry<FileDiff>> {
    if results == [] then []
    else Flatten(results[..|results| - 1]) + DiffEntries(results[|results| - 1].diffs)
  }

  function EffectiveDiffs(results: seq<EditorResult>, tasks: seq<Task>): seq<FileDiff> {
    Values(PutAll([], Flatten(EffectiveResults(results, tasks))))
  }

  predicate Emits(r: EditorResult, path: string) {
    exists k :: 0 <= k < |r.diffs| && r.diffs[k].path == path
  }

  function PathsOf(diffs: seq<FileDiff>): set<string> {
    set i | 0 <= i < |diffs| :: diffs[i].path
  }

  function EverWritten(results: seq<EditorResult>): set<string> {
    set i, k | 0 <= i < |results| && 0 <= k < |results[i].diffs| :: results[i].diffs[k].path
  }

  function StalePaths(results: seq<EditorResult>, tasks: seq<Task>): set<string> {
    EverWritten(results) - PathsOf(EffectiveDiffs(results, tasks))
  }

  method LatestResultsByTask(results: seq<EditorResult>) returns (latest: seq<Entry<EditorResult>>)
    ensures latest == Latest(results)
  {
    latest := [];
    ghost var es := ResultEntries(results);
    for i := 0 to |results|
      invariant latest == PutAll([], es[..i])
    {
      assert es[..i + 1][..i] == es[..i];
      latest := Put(latest, results[i].taskId, results[i]);
    }
    assert es[..|results|] == es;
  }

  method MergeDiffs(byPath: seq<Entry<FileDiff>>, diffs: seq<FileDiff>) returns (r: seq<Entry<FileDiff>>)
    ensures r == PutAll(byPath, DiffEntries(diffs))
  {
    r := byPath;
    ghost var es := DiffEntries(diffs);
    for k := 0 to |diffs|
      invariant r == PutAll(byPath, es[..k])
    {
      assert es[..k + 1][..k] == es[..k];
      r := Put(r, diffs[k].path, diffs[k]);
    }
    assert es[..|diffs|] == es;
  }

  /** The flattening loop: results in order, files in order, the last write to a path wins. */
  method ComputeEffectiveDiffs(results: seq<EditorResult>, tasks: seq<Task>) returns (diffs: seq<FileDiff>)
    ensures diffs == EffectiveDiffs(results, tasks)
  {
    var latest := LatestResultsByTask(results);
    var byPath: seq<Entry<FileDiff>> := [];
    for i := 0 to |latest|
      invariant byPath == PutAll([], Flatten(Keep(latest[..i], tasks)))
    {
      assert latest[..i + 1][..i] == latest[..i];
      if HasSucceeded(tasks, latest[i].key) {
        var kept := Keep(latest[..i], tasks);
        assert (kept + [latest[i].value])[..|kept|] == kept;
        PutAllAppend([], Flatten(kept), DiffEntries(latest[i].value.diffs));
        byPath := MergeDiffs(byPath, latest[i].value.diffs);
      }
    }
    assert latest[..|latest|] == latest;
    diffs := Values(byPath);
  }

  lemma {:induction false} FlattenHas(results: seq<EditorResult>, path: string)
    ensures Has(Flatten(results), path) <==> exists i :: 0 <= i < |results| && Emits(results[i], path)
  {
    if results != [] {
      var n := |results| - 1;
      FlattenHas(results[..n], path);
      HasAppend(Flatten(results[..n]), DiffEntries(results[n].diffs), path);
      if Emits(results[n], path) {
        var k :| 0 <= k < |results[n].diffs| && results[n].diffs[k].path == path;
        assert DiffEntries(results[n].diffs)[k].key == path;
      }
      if exists i :: 0 <= i < n && Emits(results[i], path) {
        var i :| 0 <= i < n && Emits(results[i], path);
        assert Emits(results[..n][i], path);
      }
    }
  }

  lemma HasAppend<V>(a: seq<Entry<V>>, b: seq<Entry<V>>, k: string)
    ensures Has(a + b, k) <==> Has(a, k) || Has(b, k)
  {
    if Has(a, k) {
      var i :| 0 <= i < |a| && a[i].key == k;
      assert (a + b)[i].key == k;
    }
    if Has(b, k) {
      var i :| 0 <= i < |b| && b[i].key == k;
      assert (a + b)[|a| + i].key == k;
    }
  }

  lemma {:induction false} KeepExact(latest: seq<Entry<EditorResult>>, tasks: seq<Task>, r: EditorResult)
    ensures r in Keep(latest, tasks) <==>
      exists i :: 0 <= i < |latest| && latest[i].value == r && HasSucceeded(tasks, latest[i].key)
  {
    if latest != [] {
      var n := |latest| - 1;
      KeepExact(latest[..n], tasks, r);
      if exists i :: 0 <= i < n && latest[i].value == r && HasSucceeded(tasks, latest[i].key) {
        var i :| 0 <= i < n && latest[i].value == r && HasSucceeded(tasks, latest[i].key);
        assert latest[..n][i] == latest[i];
      }
    }
  }

  lemma {:induction false} LatestKeyed(results: seq<EditorResult>)
    ensures var d := Latest(results);
      && Distinct(d)
      && forall i :: 0 <= i < |d| ==> d[i].value.taskId == d[i].key && LatestOf(results, d[i].key) == Some(d[i].value)
  {
    var d, es := Latest(results), ResultEntries(results);
    PutAllGet([], es, "");
    forall i | 0 <= i < |d| ensures d[i].value.taskId == d[i].key && LatestOf(results, d[i].key) == Some(d[i].value) {
      GetAt(d, i);
      PutAllGet([], es, d[i].key);
      LastOfIn(es, d[i].key);
    }
  }

  /** A result is effective exactly when it is the latest of its task and that task has succeeded. */
  lemma EffectiveResultsExact(results: seq<EditorResult>, tasks: seq<Task>, r: EditorResult)
    ensures r in EffectiveResults(results, tasks) <==>
      HasSucceeded(tasks, r.taskId) && LatestOf(results, r.taskId) == Some(r)
  {
    var d := Latest(results);
    LatestKeyed(results);
    KeepExact(d, tasks, r);
    if LatestOf(results, r.taskId) == Some(r) {
      PutAllGet([], ResultEntries(results), r.taskId);
      assert d[IndexOf(d, r.taskId)].value == r;
    }
  }

  /** The effective files have distinct paths; a path is effective exactly when the latest result of
      some succeeded task emits it, and its content comes from such a result. */
  lemma EffectiveDiffsExact(results: seq<EditorResult>, tasks: seq<Task>, path: string)
    ensures var diffs := EffectiveDiffs(results, tasks);
      && (forall i, j :: 0 <= i < j < |diffs| ==> diffs[i].path != diffs[j].path)
      && (path in PathsOf(diffs) <==>
            exists r :: r in EffectiveResults(results, tasks) && Emits(r, path))
      && (forall i :: 0 <= i < |diffs| ==> exists r :: r in EffectiveResults(results, tasks) && diffs[i] in r.diffs)
  {
    var rs := EffectiveResults(results, tasks);
    var es := Flatten(rs);
    var d := PutAll([], es);
    FlattenHas(rs, path);
    LastOfIn(es, path);
    EntriesKeyed(es, rs);
    PutAllGet([], es, path);
    if Has(es, path) {
      var i := IndexOf(d, path);
      EffectiveEntry(es, rs, i);
      assert Values(d)[i].path == path;
    }
    forall i | 0 <= i < |d| ensures d[i].value.path == d[i].key && exists r :: r in rs && d[i].value in r.diffs {
      EffectiveEntry(es, rs, i);
    }
    if path in PathsOf(Values(d)) {
      var i :| 0 <= i < |d| && Values(d)[i].path == path;
      GetAt(d, i);
      assert Has(es, path);
    }
  }

  ghost predicate Keyed(es: seq<Entry<FileDiff>>, rs: seq<EditorResult>) {
    forall i :: 0 <= i < |es| ==> es[i].value.path == es[i].key && exists r :: r in rs && es[i].value in r.diffs
  }

  lemma {:induction false} EntriesKeyed(es: seq<Entry<FileDiff>>, rs: seq<EditorResult>)
    requires es == Flatten(rs)
    ensures Keyed(es, rs)
    decreases |rs|
  {
    if rs != [] {
      var n := |rs| - 1;
      var a, b := Flatten(rs[..n]), DiffEntries(rs[n].diffs);
      EntriesKeyed(a, rs[..n]);
      forall i | 0 <= i < |es| ensures es[i].value.path == es[i].key && exists r :: r in rs && es[i].value in r.diffs {
        if i < |a| {
          assert es[i] == a[i];
          var r :| r in rs[..n] && a[i].value in r.diffs;
          assert r in rs;
        } else {
          assert es[i] == b[i - |a|];
          assert rs[n] in rs && es[i].value in rs[n].diffs;
        }
      }
    }
  }

  lemma EffectiveEntry(es: seq<Entry<FileDiff>>, rs: seq<EditorResult>, i: nat)
    requires Keyed(es, rs) && i < |PutAll([], es)|
    ensures var e := PutAll([], es)[i];
      e.value.path == e.key && exists r :: r in rs && e.value in r.diffs
  {
    var d := PutAll([], es);
    PutAllGet([], es, d[i].key);
    GetAt(d, i);
    LastOfIn(es, d[i].key);
  }
}
