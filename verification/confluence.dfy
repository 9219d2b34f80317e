/** The order in which the parallel branches of a wave finish does not matter: not within a wave, and
    not over a whole run. */
module Confluence {
  import opened OrderedDict
  import opened PlanTypes
  import opened Paths
  import opened Diffs
  import opened Workspaces

  // ---- which files are effective, without reference to order ----

  ghost predicate SameFiles(x: seq<FileDiff>, y: seq<FileDiff>) {
    forall d :: d in x <==> d in y
  }

  /** The same results in another order that keeps every task's latest result. */
  ghost predicate SameResults(x: seq<EditorResult>, y: seq<EditorResult>) {
    multiset(x) == multiset(y) && forall id :: LatestOf(x, id) == LatestOf(y, id)
  }

  /** Two results never write the same path or the same location. */
  ghost predicate Apart(root: Loc, q: EditorResult, r: EditorResult) {
    forall p, o :: Emits(q, p) && Emits(r, o) ==> p != o && (Safe(root, p) && Safe(root, o) ==> Resolve(root, p) != Resolve(root, o))
  }

  /** Different tasks write different files. What one task writes twice, in one result or several, does not
      matter. */
  ghost predicate Separate(root: Loc, results: seq<EditorResult>) {
    forall q, r :: q in results && r in results && q.taskId != r.taskId ==> Apart(root, q, r)
  }

  lemma {:induction false} LastOfAppend<V>(a: seq<Entry<V>>, b: seq<Entry<V>>, k: string)
    ensures LastOf(a + b, k) == if LastOf(b, k).Some? then LastOf(b, k) else LastOf(a, k)
  {
    if b == [] {
      assert a + b == a;
    } else {
      assert (a + b)[..|a + b| - 1] == a + b[..|b| - 1];
      LastOfAppend(a, b[..|b| - 1], k);
    }
  }

  lemma EmitsExactly(r: EditorResult, path: string)
    ensures Emits(r, path) <==> LastOf(DiffEntries(r.diffs), path).Some?
  {
    var es: seq<Entry<FileDiff>> := DiffEntries(r.diffs);
    LastOfIn(es, path);
    if Emits(r, path) {
      var k :| 0 <= k < |r.diffs| && r.diffs[k].path == path;
      assert es[k].key == path;
    }
  }

  /** When only one result emits a path, flattening keeps that result's last file for it. */
  lemma {:induction false} FlattenLast(rs: seq<EditorResult>, r: EditorResult, path: string)
    requires r in rs && Emits(r, path) && forall q :: q in rs && Emits(q, path) ==> q == r
    ensures LastOf(Flatten(rs), path) == LastOf(DiffEntries(r.diffs), path)
  {
    var n := |rs| - 1;
    LastOfAppend(Flatten(rs[..n]), DiffEntries(rs[n].diffs), path);
    EmitsExactly(rs[n], path);
    assert rs == rs[..n] + [rs[n]];
    if !Emits(rs[n], path) {
      FlattenLast(rs[..n], r, path);
    }
  }

  lemma EffectiveIsStored(results: seq<EditorResult>, tasks: seq<Task>, r: EditorResult)
    requires r in EffectiveResults(results, tasks)
    ensures r in results && LatestOf(results, r.taskId) == Some(r)
  {
    EffectiveResultsExact(results, tasks, r);
    LastOfIn(ResultEntries(results), r.taskId);
  }

  lemma ValueIn<V>(d: seq<Entry<V>>, i: nat)
    requires i < |d|
    ensures d[i].value in Values(d)
  {
    assert Values(d)[i] == d[i].value;
  }

  /** A file is effective exactly when flattening the effective results ends with it at its path. */
  lemma EffectiveIsLast(results: seq<EditorResult>, tasks: seq<Task>, d: FileDiff)
    ensures d in EffectiveDiffs(results, tasks) <==>
      LastOf(Flatten(EffectiveResults(results, tasks)), d.path) == Some(d)
  {
    var es := Flatten(EffectiveResults(results, tasks));
    var dict := PutAll([], es);
    PutAllGet([], es, d.path);
    EntriesKeyed(es, EffectiveResults(results, tasks));
    if d in EffectiveDiffs(results, tasks) {
      var i :| 0 <= i < |dict| && Values(dict)[i] == d;
      EffectiveEntry(es, EffectiveResults(results, tasks), i);
      GetAt(dict, i);
    }
    if LastOf(es, d.path) == Some(d) {
      ValueIn(dict, IndexOf(dict, d.path));
    }
  }

  /** With separate writers, a file is effective exactly when it is the last one for its path in the
      latest result of a succeeded task: the order of the results plays no part. */
  lemma EffectiveByTask(root: Loc, results: seq<EditorResult>, tasks: seq<Task>, d: FileDiff)
    requires Separate(root, results)
    ensures d in EffectiveDiffs(results, tasks) <==> Contributed(results, tasks, d)
  {
    var rs := EffectiveResults(results, tasks);
    EffectiveIsLast(results, tasks, d);
    if d in EffectiveDiffs(results, tasks) {
      FlattenHas(rs, d.path);
      LastOfIn(Flatten(rs), d.path);
      var i :| 0 <= i < |rs| && Emits(rs[i], d.path);
      OnlyWriter(root, results, tasks, rs[i], d.path);
      FlattenLast(rs, rs[i], d.path);
      EffectiveResultsExact(results, tasks, rs[i]);
      assert Contributes(results, tasks, rs[i], d);
    }
    if r :| Contributes(results, tasks, r, d) {
      EffectiveResultsExact(results, tasks, r);
      EmitsExactly(r, d.path);
      OnlyWriter(root, results, tasks, r, d.path);
      FlattenLast(rs, r, d.path);
    }
  }

  predicate Contributes(results: seq<EditorResult>, tasks: seq<Task>, r: EditorResult, d: FileDiff) {
    && HasSucceeded(tasks, r.taskId) && LatestOf(results, r.taskId) == Some(r)
    && LastOf(DiffEntries(r.diffs), d.path) == Some(d)
  }

  ghost predicate Contributed(results: seq<EditorResult>, tasks: seq<Task>, d: FileDiff) {
    exists r :: Contributes(results, tasks, r, d)
  }

  lemma OnlyWriter(root: Loc, results: seq<EditorResult>, tasks: seq<Task>, r: EditorResult, path: string)
    requires Separate(root, results) && r in EffectiveResults(results, tasks) && Emits(r, path)
    ensures forall q :: q in EffectiveResults(results, tasks) && Emits(q, path) ==> q == r
  {
    EffectiveIsStored(results, tasks, r);
    forall q | q in EffectiveResults(results, tasks) && Emits(q, path) ensures q == r {
      EffectiveIsStored(results, tasks, q);
      assert q.taskId != r.taskId ==> Apart(root, q, r);
    }
  }

  lemma ContributedSame(x: seq<EditorResult>, y: seq<EditorResult>, tasks: seq<Task>, d: FileDiff)
    requires SameResults(x, y)
    ensures Contributed(x, tasks, d) <==> Contributed(y, tasks, d)
  {
    if r :| Contributes(x, tasks, r, d) {
      assert Contributes(y, tasks, r, d);
    }
    if r :| Contributes(y, tasks, r, d) {
      assert Contributes(x, tasks, r, d);
    }
  }

  lemma EverWrittenBy(results: seq<EditorResult>, p: string)
    ensures p in EverWritten(results) <==> exists r :: r in results && Emits(r, p)
  {
    if r :| r in results && Emits(r, p) {
      var i :| 0 <= i < |results| && results[i] == r;
      var k :| 0 <= k < |r.diffs| && r.diffs[k].path == p;
      assert results[i].diffs[k].path == p;
    }
    if p in EverWritten(results) {
      var i, k :| 0 <= i < |results| && 0 <= k < |results[i].diffs| && results[i].diffs[k].path == p;
      assert results[i] in results && Emits(results[i], p);
    }
  }

  lemma SameMembers(x: seq<EditorResult>, y: seq<EditorResult>)
    requires multiset(x) == multiset(y)
    ensures forall r :: r in x <==> r in y
    ensures EverWritten(x) == EverWritten(y)
  {
    forall r ensures r in x <==> r in y {
      assert r in x <==> r in multiset(x);
      assert r in y <==> r in multiset(y);
    }
    forall p ensures p in EverWritten(x) <==> p in EverWritten(y) {
      EverWrittenBy(x, p);
      EverWrittenBy(y, p);
    }
  }

  lemma EffectiveMembersSame(x: seq<EditorResult>, y: seq<EditorResult>, tasks: seq<Task>)
    requires SameResults(x, y)
    ensures forall r :: r in EffectiveResults(x, tasks) <==> r in EffectiveResults(y, tasks)
  {
    forall r ensures r in EffectiveResults(x, tasks) <==> r in EffectiveResults(y, tasks) {
      EffectiveResultsExact(x, tasks, r);
      EffectiveResultsExact(y, tasks, r);
    }
  }

  /** Whoever writes what, the effective paths and the stale ones do not depend on the order of the
      results. */
  lemma EffectivePathsSame(x: seq<EditorResult>, y: seq<EditorResult>, tasks: seq<Task>)
    requires SameResults(x, y)
    ensures PathsOf(EffectiveDiffs(x, tasks)) == PathsOf(EffectiveDiffs(y, tasks))
    ensures StalePaths(x, tasks) == StalePaths(y, tasks)
  {
    SameMembers(x, y);
    EffectiveMembersSame(x, y, tasks);
    forall p ensures p in PathsOf(EffectiveDiffs(x, tasks)) <==> p in PathsOf(EffectiveDiffs(y, tasks)) {
      EffectiveDiffsExact(x, tasks, p);
      EffectiveDiffsExact(y, tasks, p);
    }
  }

  /** With separate writers neither do their contents. */
  lemma EffectiveSame(root: Loc, x: seq<EditorResult>, y: seq<EditorResult>, tasks: seq<Task>)
    requires SameResults(x, y) && Separate(root, x)
    ensures SameFiles(EffectiveDiffs(x, tasks), EffectiveDiffs(y, tasks))
  {
    SeparateCarries(root, x, y);
    forall d ensures d in EffectiveDiffs(x, tasks) <==> d in EffectiveDiffs(y, tasks) {
      EffectiveByTask(root, x, tasks, d);
      EffectiveByTask(root, y, tasks, d);
      ContributedSame(x, y, tasks, d);
    }
  }

  lemma SeparateCarries(root: Loc, x: seq<EditorResult>, y: seq<EditorResult>)
    requires SameResults(x, y) && Separate(root, x)
    ensures Separate(root, y)
  {
    SameMembers(x, y);
  }

  lemma SafePaths(root: Loc, diffs: seq<FileDiff>)
    ensures AllSafe(root, diffs) <==> forall p :: p in PathsOf(diffs) ==> Safe(root, p)
  {
    forall i | 0 <= i < |diffs| ensures diffs[i].path in PathsOf(diffs) {
    }
  }

  /** The same locations are filled, and elsewhere the files are the same. */
  ghost predicate SamePlaces(root: Loc, paths: set<string>, x: Files, y: Files) {
    x.Keys == y.Keys && forall loc :: loc in x && loc in y && loc !in Locations(root, paths) ==> x[loc] == y[loc]
  }

  lemma AppliedPlaces(root: Loc, files: Files, x: seq<FileDiff>, y: seq<FileDiff>)
    requires AllSafe(root, x) && AllSafe(root, y) && PathsOf(x) == PathsOf(y)
    ensures SamePlaces(root, PathsOf(x), Applied(root, files, x), Applied(root, files, y))
  {
    var a, b := Applied(root, files, x), Applied(root, files, y);
    forall loc ensures loc in a <==> loc in b {
      AppliedOutside(root, files, x, loc);
      AppliedOutside(root, files, y, loc);
    }
    forall loc | loc in a && loc in b && loc !in Locations(root, PathsOf(x)) ensures a[loc] == b[loc] {
      AppliedOutside(root, files, x, loc);
      AppliedOutside(root, files, y, loc);
    }
  }

  /** Whoever writes what, preparing the workspace is refused alike, and then leaves the same files; and
      when it is not, it fills the same locations and spares the same files. */
  lemma PreparePlaces(root: Loc, files: Files, x: seq<EditorResult>, y: seq<EditorResult>, tasks: seq<Task>)
    requires SameResults(x, y)
    ensures var p, q := Prepare(root, files, StalePaths(x, tasks), EffectiveDiffs(x, tasks)),
                        Prepare(root, files, StalePaths(y, tasks), EffectiveDiffs(y, tasks));
      && (p.Prepared? <==> q.Prepared?)
      && (p.Refused? ==> p == q)
      && (p.Prepared? ==> SamePlaces(root, PathsOf(EffectiveDiffs(x, tasks)), p.files, q.files))
  {
    EffectivePathsSame(x, y, tasks);
    var dx, dy := EffectiveDiffs(x, tasks), EffectiveDiffs(y, tasks);
    SafePaths(root, dx);
    SafePaths(root, dy);
    if AllSafe(root, dx) {
      AppliedPlaces(root, files - Locations(root, StalePaths(x, tasks)), dx, dy);
    }
  }

  // ---- contents, location by location ----

  /** What a list of files leaves at one location: the last of them that names it. */
  function LastAt(root: Loc, diffs: seq<FileDiff>, loc: Loc): Option<string> {
    if diffs == [] then None
    else if Resolve(root, diffs[|diffs| - 1].path) == Some(loc) then Some(diffs[|diffs| - 1].content)
    else LastAt(root, diffs[..|diffs| - 1], loc)
  }

  lemma {:induction false} AppliedIsLast(root: Loc, files: Files, diffs: seq<FileDiff>, loc: Loc)
    requires AllSafe(root, diffs)
    ensures var a, last := Applied(root, files, diffs), LastAt(root, diffs, loc);
      && (loc in a <==> last.Some? || loc in files)
      && (last.Some? ==> a[loc] == last.value)
      && (last.None? && loc in files ==> a[loc] == files[loc])
  {
    if diffs != [] {
      AppliedIsLast(root, files, diffs[..|diffs| - 1], loc);
    }
  }

  lemma {:induction false} LastAtAppend(root: Loc, x: seq<FileDiff>, y: seq<FileDiff>, loc: Loc)
    ensures LastAt(root, x + y, loc) == if LastAt(root, y, loc).Some? then LastAt(root, y, loc) else LastAt(root, x, loc)
  {
    if y == [] {
      assert x + y == x;
    } else {
      assert (x + y)[..|x + y| - 1] == x + y[..|y| - 1];
      LastAtAppend(root, x, y[..|y| - 1], loc);
    }
  }

  lemma {:induction false} LastAtNames(root: Loc, diffs: seq<FileDiff>, loc: Loc)
    ensures LastAt(root, diffs, loc).Some? ==> exists k :: 0 <= k < |diffs| && Resolve(root, diffs[k].path) == Some(loc)
  {
    if diffs != [] && Resolve(root, diffs[|diffs| - 1].path) != Some(loc) {
      LastAtNames(root, diffs[..|diffs| - 1], loc);
    }
  }

  /** Entries under new keys extend a dictionary by the dictionary they make on their own. */
  lemma {:induction false} PutAllApart<V>(d: seq<Entry<V>>, es: seq<Entry<V>>)
    requires forall k :: !(Has(d, k) && Has(es, k))
    ensures PutAll(d, es) == d + PutAll([], es)
    ensures forall k :: Has(PutAll([], es), k) ==> Has(es, k)
  {
    if es != [] {
      var n := |es| - 1;
      assert forall k :: Has(es[..n], k) ==> Has(es, k);
      PutAllApart(d, es[..n]);
      var own := PutAll([], es[..n]);
      assert Has(es, es[n].key);
      PutApart(d, own, es[n].key, es[n].value);
      forall k | Has(PutAll([], es), k) ensures Has(es, k) {
        PutHas(own, es[n].key, es[n].value, k);
      }
    }
  }

  lemma PutHas<V>(d: seq<Entry<V>>, k: string, v: V, q: string)
    ensures Has(Put(d, k, v), q) <==> Has(d, q) || q == k
  {
    var e, i := Put(d, k, v), IndexOf(d, k);
    if j :| 0 <= j < |d| && d[j].key == q {
      assert e[j].key == q;
    }
    assert e[if i < |d| then i else |d|].key == k;
  }

  lemma {:induction false} PutApart<V>(d: seq<Entry<V>>, own: seq<Entry<V>>, k: string, v: V)
    requires !Has(d, k)
    ensures Put(d + own, k, v) == d + Put(own, k, v)
  {
    var i := IndexOf(own, k);
    IndexBehind(d, own, k);
  }

  lemma {:induction false} IndexBehind<V>(d: seq<Entry<V>>, own: seq<Entry<V>>, k: string)
    requires !Has(d, k)
    ensures IndexOf(d + own, k) == |d| + IndexOf(own, k)
  {
    if d == [] {
      assert d + own == own;
    } else {
      assert d[0].key != k && (d + own)[1..] == d[1..] + own;
      assert forall j :: 0 <= j < |d[1..]| ==> d[1..][j] == d[j + 1];
      IndexBehind(d[1..], own, k);
    }
  }

  /** The files of some results, in the order and with the contents the flattening gives them. */
  function FilesOf(results: seq<EditorResult>): seq<FileDiff> {
    Values(PutAll([], Flatten(results)))
  }

  function OwnFiles(r: EditorResult): seq<FileDiff> {
    Values(PutAll([], DiffEntries(r.diffs)))
  }

  ghost predicate AllApart(root: Loc, results: seq<EditorResult>) {
    forall i, j :: 0 <= i < j < |results| ==> Apart(root, results[i], results[j])
  }

  lemma FilesSplit(root: Loc, results: seq<EditorResult>)
    requires results != [] && AllApart(root, results)
    ensures FilesOf(results) == FilesOf(results[..|results| - 1]) + OwnFiles(results[|results| - 1])
  {
    var n := |results| - 1;
    var before, own := Flatten(results[..n]), DiffEntries(results[n].diffs);
    var d := PutAll([], before);
    forall k | Has(d, k) ensures !Has(own, k) {
      NewKeys(root, results, k);
    }
    hide Has, PutAll, AllApart, Emits;
    PutAllAppend([], before, own);
    PutAllApart(d, own);
    assert Values(d + PutAll([], own)) == Values(d) + Values(PutAll([], own));
  }

  lemma NewKeys(root: Loc, results: seq<EditorResult>, k: string)
    requires results != [] && AllApart(root, results)
    requires Has(PutAll([], Flatten(results[..|results| - 1])), k)
    ensures !Has(DiffEntries(results[|results| - 1].diffs), k)
  {
    var n := |results| - 1;
    var own: seq<Entry<FileDiff>> := DiffEntries(results[n].diffs);
    FlattenedKey(results[..n], k);
    var i :| 0 <= i < n && Emits(results[..n][i], k);
    assert Apart(root, results[i], results[n]);
    forall e | 0 <= e < |own| ensures own[e].key != k {
      assert Emits(results[n], results[n].diffs[e].path);
    }
  }

  lemma {:induction false} FlattenedKey(results: seq<EditorResult>, k: string)
    requires Has(PutAll([], Flatten(results)), k)
    ensures exists i :: 0 <= i < |results| && Emits(results[i], k)
  {
    var es := Flatten(results);
    var d := PutAll([], es);
    var i :| 0 <= i < |d| && d[i].key == k;
    PutAllGet([], es, k);
    GetAt(d, i);
    LastOfIn(es, k);
    FlattenHas(results, k);
  }

  lemma OwnEmits(r: EditorResult, k: nat)
    requires k < |OwnFiles(r)|
    ensures Emits(r, OwnFiles(r)[k].path)
  {
    var es := DiffEntries(r.diffs);
    var d := PutAll([], es);
    PutAllGet([], es, d[k].key);
    GetAt(d, k);
    LastOfIn(es, d[k].key);
    var i :| 0 <= i < |es| && es[i] == Entry(d[k].key, d[k].value);
    assert r.diffs[i].path == d[k].value.path;
  }

  ghost predicate Leaves(root: Loc, results: seq<EditorResult>, loc: Loc, content: string) {
    exists r :: r in results && LastAt(root, OwnFiles(r), loc) == Some(content)
  }

  /** At each location the files of results that are apart leave what the one result that names it leaves. */
  lemma {:induction false} LastAtFiles(root: Loc, results: seq<EditorResult>, loc: Loc, content: string)
    requires AllApart(root, results)
    ensures LastAt(root, FilesOf(results), loc) == Some(content) <==> Leaves(root, results, loc, content)
  {
    if results != [] {
      var n := |results| - 1;
      FilesSplit(root, results);
      LastAtAppend(root, FilesOf(results[..n]), OwnFiles(results[n]), loc);
      LastAtFiles(root, results[..n], loc, content);
      LeavesSplit(root, results, loc, content);
      if LastAt(root, OwnFiles(results[n]), loc).Some? {
        OnlyLast(root, results, loc, content);
      }
      hide AllApart, FilesOf, OwnFiles, LastAt, Leaves;
    }
  }

  lemma LeavesSplit(root: Loc, results: seq<EditorResult>, loc: Loc, content: string)
    requires results != []
    ensures var n := |results| - 1;
      Leaves(root, results, loc, content) <==>
        Leaves(root, results[..n], loc, content) || LastAt(root, OwnFiles(results[n]), loc) == Some(content)
  {
    var n := |results| - 1;
    assert results == results[..n] + [results[n]];
    hide OwnFiles, LastAt;
  }

  lemma OnlyLast(root: Loc, results: seq<EditorResult>, loc: Loc, content: string)
    requires results != [] && AllApart(root, results)
    requires LastAt(root, OwnFiles(results[|results| - 1]), loc).Some?
    ensures !Leaves(root, results[..|results| - 1], loc, content)
  {
    var n := |results| - 1;
    forall r | r in results[..n] ensures LastAt(root, OwnFiles(r), loc).None? {
      var i :| 0 <= i < n && results[..n][i] == r;
      assert Apart(root, results[i], results[n]);
      if LastAt(root, OwnFiles(r), loc).Some? {
        OneWriter(root, r, results[n], loc);
      }
    }
  }

  lemma OneWriter(root: Loc, q: EditorResult, r: EditorResult, loc: Loc)
    requires Apart(root, q, r) && LastAt(root, OwnFiles(q), loc).Some?
    ensures LastAt(root, OwnFiles(r), loc).None?
  {
    LastAtNames(root, OwnFiles(q), loc);
    LastAtNames(root, OwnFiles(r), loc);
    if LastAt(root, OwnFiles(r), loc).Some? {
      var i :| 0 <= i < |OwnFiles(q)| && Resolve(root, OwnFiles(q)[i].path) == Some(loc);
      var j :| 0 <= j < |OwnFiles(r)| && Resolve(root, OwnFiles(r)[j].path) == Some(loc);
      OwnEmits(q, i);
      OwnEmits(r, j);
    }
  }

  predicate OnePerTask(rs: seq<EditorResult>) {
    forall i, j :: 0 <= i < j < |rs| ==> rs[i].taskId != rs[j].taskId
  }

  lemma {:induction false} KeepOnce(latest: seq<Entry<EditorResult>>, tasks: seq<Task>)
    requires Distinct(latest) && forall i :: 0 <= i < |latest| ==> latest[i].value.taskId == latest[i].key
    ensures OnePerTask(Keep(latest, tasks))
  {
    if latest != [] {
      var n := |latest| - 1;
      var rest := Keep(latest[..n], tasks);
      KeepOnce(latest[..n], tasks);
      forall i | 0 <= i < |rest| ensures rest[i].taskId != latest[n].key {
        KeepExact(latest[..n], tasks, rest[i]);
        var k :| 0 <= k < n && latest[..n][k].value == rest[i];
        assert latest[k].key == rest[i].taskId;
      }
    }
  }

  lemma EffectiveApart(root: Loc, results: seq<EditorResult>, tasks: seq<Task>)
    requires Separate(root, results)
    ensures AllApart(root, EffectiveResults(results, tasks))
  {
    var rs := EffectiveResults(results, tasks);
    LatestKeyed(results);
    KeepOnce(Latest(results), tasks);
    forall i, j | 0 <= i < j < |rs| ensures Apart(root, rs[i], rs[j]) {
      assert rs[i] in rs && rs[j] in rs;
      EffectiveIsStored(results, tasks, rs[i]);
      EffectiveIsStored(results, tasks, rs[j]);
      hide Apart;
      assert rs[i].taskId != rs[j].taskId;
    }
  }

  /** With separate writers the prepared workspace does not depend on the order of the results. */
  lemma PrepareSame(root: Loc, files: Files, x: seq<EditorResult>, y: seq<EditorResult>, tasks: seq<Task>)
    requires SameResults(x, y) && Separate(root, x)
    ensures Prepare(root, files, StalePaths(x, tasks), EffectiveDiffs(x, tasks))
      == Prepare(root, files, StalePaths(y, tasks), EffectiveDiffs(y, tasks))
  {
    PreparePlaces(root, files, x, y, tasks);
    EffectivePathsSame(x, y, tasks);
    var dx, dy := EffectiveDiffs(x, tasks), EffectiveDiffs(y, tasks);
    SafePaths(root, dx);
    SafePaths(root, dy);
    if AllSafe(root, dx) {
      SeparateCarries(root, x, y);
      EffectiveApart(root, x, tasks);
      EffectiveApart(root, y, tasks);
      EffectiveMembersSame(x, y, tasks);
      AppliedSame(root, files - Locations(root, StalePaths(x, tasks)), EffectiveResults(x, tasks), EffectiveResults(y, tasks));
    }
  }

  lemma AppliedSame(root: Loc, files: Files, x: seq<EditorResult>, y: seq<EditorResult>)
    requires AllApart(root, x) && AllApart(root, y) && forall r :: r in x <==> r in y
    requires AllSafe(root, FilesOf(x)) && AllSafe(root, FilesOf(y))
    ensures Applied(root, files, FilesOf(x)) == Applied(root, files, FilesOf(y))
  {
    var a, b := Applied(root, files, FilesOf(x)), Applied(root, files, FilesOf(y));
    forall loc ensures (loc in a <==> loc in b) && (loc in a && loc in b ==> a[loc] == b[loc]) {
      AppliedIsLast(root, files, FilesOf(x), loc);
      AppliedIsLast(root, files, FilesOf(y), loc);
      SameLast(root, x, y, loc);
    }
  }

  lemma SameLast(root: Loc, x: seq<EditorResult>, y: seq<EditorResult>, loc: Loc)
    requires AllApart(root, x) && AllApart(root, y) && forall r :: r in x <==> r in y
    ensures LastAt(root, FilesOf(x), loc) == LastAt(root, FilesOf(y), loc)
  {
    var p, q := LastAt(root, FilesOf(x), loc), LastAt(root, FilesOf(y), loc);
    if p.Some? {
      LastAtFiles(root, x, loc, p.value);
      LastAtFiles(root, y, loc, p.value);
    }
    if q.Some? {
      LastAtFiles(root, x, loc, q.value);
      LastAtFiles(root, y, loc, q.value);
    }
  }
}
