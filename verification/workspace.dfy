/** The workspace on disk, as a flat map from locations to contents, and the sandbox's preparation
    of it: remove what earlier attempts left behind, then write the effective files. */
module Workspaces {
  import opened OrderedDict
  import opened Diffs
  import opened Paths
  import PlanTypes

  type Files = map<Loc, string>

  predicate Safe(root: Loc, path: string) {
    Resolve(root, path).Some?
  }

  predicate AllSafe(root: Loc, diffs: seq<FileDiff>) {
    forall i :: 0 <= i < |diffs| ==> Safe(root, diffs[i].path)
  }

  function Locations(root: Loc, paths: set<string>): set<Loc> {
    set p | p in paths && Safe(root, p) :: Resolve(root, p).value
  }

  function Applied(root: Loc, files: Files, diffs: seq<FileDiff>): Files
    requires AllSafe(root, diffs)
  {
    if diffs == [] then files
    else
      var d := diffs[|diffs| - 1];
      Applied(root, files, diffs[..|diffs| - 1])[Resolve(root, d.path).value := d.content]
  }

  datatype Preparation = Refused(files: Files) | Prepared(files: Files)

  function Prepare(root: Loc, files: Files, stale: set<string>, diffs: seq<FileDiff>): Preparation {
    if exists p :: p in stale && !Safe(root, p) then Refused(files)
    else
      var kept := files - Locations(root, stale);
      if AllSafe(root, diffs) then Prepared(Applied(root, kept, diffs)) else Refused(kept)
  }

  function Names(paths: seq<string>): set<string> {
    set i | 0 <= i < |paths| :: paths[i]
  }

  /** The paths whose file is there when its turn comes, in order. */
  function Found(root: Loc, files: Files, paths: seq<string>): seq<string> {
    if paths == [] then []
    else
      var n := |paths| - 1;
      var left := files - Locations(root, Names(paths[..n]));
      Found(root, files, paths[..n])
      + (if Safe(root, paths[n]) && Resolve(root, paths[n]).value in left then [paths[n]] else [])
  }

  class Workspace {
    const root: Loc
    var files: Files

    constructor (root: Loc, files: Files)
      ensures this.root == root && this.files == files
    {
      this.root, this.files := root, files;
    }

    /** Deletes the files at the given paths; one unsafe path refuses the batch before anything is
        deleted. Returns the paths actually deleted. */
    method RemovePaths(paths: seq<string>) returns (removed: Option<seq<string>>)
      modifies this`files
      ensures removed.None? <==> exists i :: 0 <= i < |paths| && !Safe(root, paths[i])
      ensures removed.None? ==> files == old(files)
      ensures removed.Some? ==>
        && files == old(files) - Locations(root, Names(paths))
        && removed.value == Found(root, old(files), paths)
    {
      for i := 0 to |paths|
        invariant forall j :: 0 <= j < i ==> Safe(root, paths[j])
      {
        if !Safe(root, paths[i]) {
          return None;
        }
      }
      var gone: seq<string> := [];
      for i := 0 to |paths|
        invariant files == old(files) - Locations(root, Names(paths[..i]))
        invariant gone == Found(root, old(files), paths[..i])
      {
        assert paths[..i + 1][..i] == paths[..i];
        LocationsGrow(root, paths, i);
        var loc := Resolve(root, paths[i]).value;
        if loc in files {
          files := files - {loc};
          gone := gone + [paths[i]];
        }
      }
      assert paths[..|paths|] == paths;
      removed := Some(gone);
    }

    /** Writes every file; one unsafe path refuses the batch before anything is written. */
    method ApplyDiffs(diffs: seq<FileDiff>) returns (written: Option<seq<string>>)
      modifies this`files
      ensures written.None? <==> !AllSafe(root, diffs)
      ensures written.None? ==> files == old(files)
      ensures written.Some? ==> files == Applied(root, old(files), diffs)
      ensures written.Some? ==>
        |written.value| == |diffs| && forall i :: 0 <= i < |diffs| ==> written.value[i] == diffs[i].path
    {
      for i := 0 to |diffs|
        invariant forall j :: 0 <= j < i ==> Safe(root, diffs[j].path)
      {
        if !Safe(root, diffs[i].path) {
          return None;
        }
      }
      var done: seq<string> := [];
      for i := 0 to |diffs|
        invariant AllSafe(root, diffs[..i]) && files == Applied(root, old(files), diffs[..i])
        invariant |done| == i && forall j :: 0 <= j < i ==> done[j] == diffs[j].path
      {
        assert diffs[..i + 1][..i] == diffs[..i];
        files := files[Resolve(root, diffs[i].path).value := diffs[i].content];
        done := done + [diffs[i].path];
      }
      assert diffs[..|diffs|] == diffs;
      written := Some(done);
    }
  }

  lemma LocationsGrow(root: Loc, paths: seq<string>, i: nat)
    requires i < |paths| && Safe(root, paths[i])
    ensures Locations(root, Names(paths[..i + 1])) == Locations(root, Names(paths[..i])) + {Resolve(root, paths[i]).value}
  {
    assert paths[..i + 1] == paths[..i] + [paths[i]];
    NamesAppend(paths[..i], paths[i]);
  }

  lemma NamesAppend(paths: seq<string>, p: string)
    ensures Names(paths + [p]) == Names(paths) + {p}
  {
    var all := paths + [p];
    assert all[|paths|] == p;
    forall q | q in Names(paths) ensures q in Names(all) {
      var i :| 0 <= i < |paths| && paths[i] == q;
      assert all[i] == q;
    }
  }

  /** Preparing the workspace with a list of the stale paths, whatever its order. */
  method PrepareWorkspace(ws: Workspace, stale: seq<string>, diffs: seq<FileDiff>) returns (ready: bool)
    modifies ws`files
    ensures ready <==> Prepare(ws.root, old(ws.files), Names(stale), diffs).Prepared?
    ensures ws.files == Prepare(ws.root, old(ws.files), Names(stale), diffs).files
  {
    var removed := ws.RemovePaths(stale);
    if removed.None? {
      assert exists p :: p in Names(stale) && !Safe(ws.root, p);
      return false;
    }
    var written := ws.ApplyDiffs(diffs);
    ready := written.Some?;
  }

  lemma {:induction false} AppliedOutside(root: Loc, files: Files, diffs: seq<FileDiff>, loc: Loc)
    requires AllSafe(root, diffs)
    ensures loc in Applied(root, files, diffs) <==> loc in files || loc in Locations(root, PathsOf(diffs))
    ensures loc !in Locations(root, PathsOf(diffs)) && loc in files ==> Applied(root, files, diffs)[loc] == files[loc]
  {
    if diffs != [] {
      var n := |diffs| - 1;
      AppliedOutside(root, files, diffs[..n], loc);
      assert PathsOf(diffs) == PathsOf(diffs[..n]) + {diffs[n].path} by {
        assert forall i :: 0 <= i < n ==> diffs[..n][i] == diffs[i];
      }
    }
  }

  predicate DistinctLocations(root: Loc, diffs: seq<FileDiff>) {
    forall i, j :: 0 <= i < j < |diffs| ==> Resolve(root, diffs[i].path) != Resolve(root, diffs[j].path)
  }

  /** Files for one location have one content. */
  predicate Agree(root: Loc, diffs: seq<FileDiff>) {
    forall i, j :: 0 <= i < |diffs| && 0 <= j < |diffs| && Resolve(root, diffs[i].path) == Resolve(root, diffs[j].path)
      ==> diffs[i].content == diffs[j].content
  }

  lemma DistinctAgree(root: Loc, diffs: seq<FileDiff>)
    requires DistinctLocations(root, diffs)
    ensures Agree(root, diffs)
  {
    forall i, j | 0 <= i < |diffs| && 0 <= j < |diffs| && Resolve(root, diffs[i].path) == Resolve(root, diffs[j].path)
      ensures diffs[i].content == diffs[j].content
    {
      assert i == j;
    }
  }

  lemma {:induction false} AppliedHolds(root: Loc, files: Files, diffs: seq<FileDiff>, i: nat)
    requires AllSafe(root, diffs) && Agree(root, diffs) && i < |diffs|
    ensures var loc := Resolve(root, diffs[i].path).value;
      loc in Applied(root, files, diffs) && Applied(root, files, diffs)[loc] == diffs[i].content
  {
    var n := |diffs| - 1;
    if Resolve(root, diffs[i].path) != Resolve(root, diffs[n].path) {
      AppliedHolds(root, files, diffs[..n], i);
    }
  }

  /** The workspace holds exactly these files of all that were ever written: each at its location
      with its content, and nothing at any other location some attempt wrote. */
  ghost predicate Mirrors(root: Loc, files: Files, diffs: seq<FileDiff>, ever: set<string>) {
    && (forall i :: 0 <= i < |diffs| && Safe(root, diffs[i].path) ==>
          var loc := Resolve(root, diffs[i].path).value; loc in files && files[loc] == diffs[i].content)
    && (forall p :: p in ever && Safe(root, p) && Resolve(root, p).value !in Locations(root, PathsOf(diffs))
          ==> Resolve(root, p).value !in files)
  }

  /** Whatever was in the workspace before, preparing it mirrors the effective files exactly when those
      that name one location agree on its content. */
  lemma PreparedMirrors(root: Loc, files: Files, results: seq<EditorResult>, tasks: seq<PlanTypes.Task>)
    requires Prepare(root, files, StalePaths(results, tasks), EffectiveDiffs(results, tasks)).Prepared?
    ensures Mirrors(root, Prepare(root, files, StalePaths(results, tasks), EffectiveDiffs(results, tasks)).files,
                    EffectiveDiffs(results, tasks), EverWritten(results))
      <==> Agree(root, EffectiveDiffs(results, tasks))
  {
    var stale, diffs := StalePaths(results, tasks), EffectiveDiffs(results, tasks);
    var kept := files - Locations(root, stale);
    var after := Applied(root, kept, diffs);
    forall p | p in EverWritten(results) && Safe(root, p) && Resolve(root, p).value !in Locations(root, PathsOf(diffs))
      ensures Resolve(root, p).value !in after
    {
      AppliedOutside(root, kept, diffs, Resolve(root, p).value);
      assert p !in PathsOf(diffs);
    }
    if Agree(root, diffs) {
      forall i | 0 <= i < |diffs|
        ensures var loc := Resolve(root, diffs[i].path).value; loc in after && after[loc] == diffs[i].content
      {
        AppliedHolds(root, kept, diffs, i);
      }
    }
    if Mirrors(root, after, diffs, EverWritten(results)) {
      assert forall i :: 0 <= i < |diffs| ==> Safe(root, diffs[i].path);
    }
  }

  lemma EffectiveWritten(results: seq<EditorResult>, tasks: seq<PlanTypes.Task>)
    ensures PathsOf(EffectiveDiffs(results, tasks)) <= EverWritten(results)
  {
    forall p | p in PathsOf(EffectiveDiffs(results, tasks)) ensures p in EverWritten(results) {
      EffectiveDiffsExact(results, tasks, p);
      var r :| r in EffectiveResults(results, tasks) && Emits(r, p);
      EffectiveResultsExact(results, tasks, r);
      LastOfIn(ResultEntries(results), r.taskId);
      var i :| 0 <= i < |results| && results[i] == r;
      var k :| 0 <= k < |r.diffs| && r.diffs[k].path == p;
      assert results[i].diffs[k].path == p;
    }
  }

  /** Preparing, refused or not, leaves every file no attempt ever wrote as it was. */
  lemma PrepareSparesTheRest(root: Loc, files: Files, results: seq<EditorResult>, tasks: seq<PlanTypes.Task>, loc: Loc)
    requires loc !in Locations(root, EverWritten(results))
    ensures var after := Prepare(root, files, StalePaths(results, tasks), EffectiveDiffs(results, tasks)).files;
      (loc in after <==> loc in files) && (loc in files ==> after[loc] == files[loc])
  {
    var diffs := EffectiveDiffs(results, tasks);
    EffectiveWritten(results, tasks);
    assert loc !in Locations(root, StalePaths(results, tasks)) && loc !in Locations(root, PathsOf(diffs));
    if AllSafe(root, diffs) {
      AppliedOutside(root, files - Locations(root, StalePaths(results, tasks)), diffs, loc);
    }
  }

  /** One path the guard refuses, ever emitted by any attempt, refuses every later preparation: each
      emitted path is either effective or stale. */
  lemma PoisonRefuses(root: Loc, files: Files, results: seq<EditorResult>, tasks: seq<PlanTypes.Task>, p: string)
    requires p in EverWritten(results) && !Safe(root, p)
    ensures Prepare(root, files, StalePaths(results, tasks), EffectiveDiffs(results, tasks)).Refused?
  {
    if p in PathsOf(EffectiveDiffs(results, tasks)) {
      assert !AllSafe(root, EffectiveDiffs(results, tasks));
    }
  }
}
