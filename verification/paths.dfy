/** Path algebra: splitting, lexical normalisation, containment in the workspace, and the stricter
    rules for paths that may be published. Paths have no symbolic links. */
module Paths {
  import opened OrderedDict
  import opened Text

  /** An absolute location, as its segments. */
  type Loc = seq<string>

  function Split(s: string): (r: seq<string>)
    ensures |r| >= 1
  {
    if s == "" then [""]
    else
      var rest := Split(s[1..]);
      if s[0] == '/' then [""] + rest else [[s[0]] + rest[0]] + rest[1..]
  }

  function Unsplit(segs: seq<string>): string
    requires |segs| >= 1
  {
    if |segs| == 1 then segs[0] else segs[0] + ("/" + Unsplit(segs[1..]))
  }

  function Push(at: Loc, seg: string): Loc {
    if seg == "" || seg == "." then at
    else if seg == ".." then (if at == [] then [] else at[..|at| - 1])
    else at + [seg]
  }

  function Walk(at: Loc, segs: seq<string>): Loc {
    if segs == [] then at else Push(Walk(at, segs[..|segs| - 1]), segs[|segs| - 1])
  }

  function Render(loc: Loc): string {
    if loc == [] then "" else "/" + (loc[0] + Render(loc[1..]))
  }

  function RealPath(s: string): string {
    var loc := Walk([], Split(s));
    if loc == [] then "/" else Render(loc)
  }

  predicate Plain(seg: string) {
    seg != "" && seg != "." && seg != ".." && '/' !in seg
  }

  predicate PlainLoc(loc: Loc) {
    forall i :: 0 <= i < |loc| ==> Plain(loc[i])
  }

  /** The guard as the code writes it, on strings. */
  function ResolveSafePath(root: string, relative: string): Option<string> {
    if "/" <= relative then None
    else
      var rootReal := RealPath(root);
      var candidate := RealPath(rootReal + ("/" + relative));
      if candidate != rootReal && !(rootReal + "/" <= candidate) then None else Some(candidate)
  }

  /** The same guard on segments: the walk from the root must end at or below the root. */
  function Resolve(root: Loc, relative: string): Option<Loc> {
    if "/" <= relative then None
    else
      var loc := Walk(root, Split(relative));
      if root <= loc then Some(loc) else None
  }

  lemma {:induction false} SplitJoin(a: string, b: string)
    ensures Split(a + ("/" + b)) == Split(a) + Split(b)
  {
    var s := a + ("/" + b);
    if a == "" {
      assert s[1..] == b;
    } else {
      assert s[1..] == a[1..] + ("/" + b);
      SplitJoin(a[1..], b);
    }
  }

  lemma {:induction false} SplitNoSlash(s: string)
    requires '/' !in s
    ensures Split(s) == [s]
  {
    if s != "" {
      SplitNoSlash(s[1..]);
      assert s == [s[0]] + s[1..];
    }
  }

  lemma {:induction false} SplitSegments(s: string)
    ensures forall i :: 0 <= i < |Split(s)| ==> '/' !in Split(s)[i]
  {
    if s != "" {
      SplitSegments(s[1..]);
    }
  }

  lemma {:induction false} UnsplitSplit(s: string)
    ensures Unsplit(Split(s)) == s
  {
    if s != "" {
      UnsplitSplit(s[1..]);
      assert s == [s[0]] + s[1..];
      var rest := Split(s[1..]);
      if s[0] == '/' {
        assert ([""] + rest)[1..] == rest;
      } else if |rest| > 1 {
        assert Split(s)[1..] == rest[1..];
      }
    }
  }

  lemma SplitInjective(a: string, b: string)
    requires Split(a) == Split(b)
    ensures a == b
  {
    UnsplitSplit(a);
    UnsplitSplit(b);
  }

  lemma {:induction false} SplitRender(w: string, loc: Loc)
    requires '/' !in w && PlainLoc(loc)
    ensures Split(w + Render(loc)) == [w] + loc
    decreases |loc|
  {
    if loc == [] {
      assert w + "" == w;
      SplitNoSlash(w);
    } else {
      SplitJoin(w, loc[0] + Render(loc[1..]));
      SplitNoSlash(w);
      SplitRender(loc[0], loc[1..]);
    }
  }

  lemma {:induction false} WalkAppend(at: Loc, a: seq<string>, b: seq<string>)
    ensures Walk(at, a + b) == Walk(Walk(at, a), b)
  {
    if b == [] {
      assert a + b == a;
    } else {
      assert (a + b)[..|a + b| - 1] == a + b[..|b| - 1];
      WalkAppend(at, a, b[..|b| - 1]);
    }
  }

  lemma {:induction false} WalkPlain(at: Loc, segs: seq<string>)
    requires PlainLoc(segs)
    ensures Walk(at, segs) == at + segs
  {
    if segs != [] {
      WalkPlain(at, segs[..|segs| - 1]);
      assert segs == segs[..|segs| - 1] + [segs[|segs| - 1]];
    }
  }

  lemma {:induction false} WalkStaysPlain(at: Loc, segs: seq<string>)
    requires PlainLoc(at) && forall i :: 0 <= i < |segs| ==> '/' !in segs[i]
    ensures PlainLoc(Walk(at, segs))
  {
    if segs != [] {
      WalkStaysPlain(at, segs[..|segs| - 1]);
    }
  }

  lemma {:induction false} RenderAppend(a: Loc, b: Loc)
    ensures Render(a + b) == Render(a) + Render(b)
  {
    if a == [] {
      assert a + b == b;
    } else {
      assert (a + b)[1..] == a[1..] + b;
      RenderAppend(a[1..], b);
    }
  }

  lemma SplitOfRender(loc: Loc)
    requires PlainLoc(loc)
    ensures Split(Render(loc)) == [""] + loc
  {
    SplitRender("", loc);
    assert "" + Render(loc) == Render(loc);
  }

  lemma WalkFromRendered(root: Loc, relative: string)
    requires PlainLoc(root) && root != []
    ensures RealPath(Render(root)) == Render(root)
    ensures Walk([], Split(Render(root) + ("/" + relative))) == Walk(root, Split(relative))
  {
    SplitOfRender(root);
    WalkAppend([], [""], root);
    assert [""][..0] == [];
    assert Walk([], [""]) == [];
    WalkPlain([], root);
    assert [] + root == root;
    SplitJoin(Render(root), relative);
    WalkAppend([], [""] + root, Split(relative));
  }

  lemma RenderInjective(a: Loc, b: Loc)
    requires PlainLoc(a) && PlainLoc(b) && Render(a) == Render(b)
    ensures a == b
  {
    SplitOfRender(a);
    SplitOfRender(b);
    assert a == ([""] + a)[1..] && b == ([""] + b)[1..];
  }

  lemma ProperPrefix(head: string, root: Loc, loc: Loc, rest: Loc)
    requires [head] + loc == ([head] + root) + rest && rest != []
    ensures root < loc
  {
    assert loc == ([head] + loc)[1..];
    assert (([head] + root) + rest)[1..] == root + rest;
  }

  lemma RenderBelow(root: Loc, loc: Loc, t: string)
    requires PlainLoc(root) && PlainLoc(loc) && Render(loc) == Render(root) + ("/" + t)
    ensures root < loc
  {
    SplitOfRender(root);
    SplitOfRender(loc);
    SplitJoin(Render(root), t);
    ProperPrefix("", root, loc, Split(t));
  }

  lemma RenderAbove(root: Loc, loc: Loc)
    requires root < loc
    ensures Render(root) + "/" <= Render(loc)
  {
    assert loc == root + loc[|root|..];
    RenderAppend(root, loc[|root|..]);
    assert Render(loc[|root|..])[0] == '/';
  }

  lemma RenderedPrefix(root: Loc, loc: Loc)
    requires PlainLoc(root) && PlainLoc(loc)
    ensures Render(root) + "/" <= Render(loc) <==> root < loc
    ensures Render(loc) == Render(root) <==> loc == root
  {
    if Render(loc) == Render(root) {
      RenderInjective(loc, root);
    }
    if Render(root) + "/" <= Render(loc) {
      RenderBelow(root, loc, Render(loc)[|Render(root)| + 1..]);
    }
    if root < loc {
      RenderAbove(root, loc);
    }
  }

  lemma GuardsAgreeRendered(root: Loc, relative: string)
    requires PlainLoc(root) && root != []
    ensures ResolveSafePath(Render(root), relative) ==
      match Resolve(root, relative) case Some(loc) => Some(Render(loc)) case None => None
  {
    WalkFromRendered(root, relative);
    var loc := Walk(root, Split(relative));
    SplitSegments(relative);
    WalkStaysPlain(root, Split(relative));
    RenderedPrefix(root, loc);
    if loc == [] {
      assert |Render(root)| >= 2;
    }
  }

  /** Where an absolute path string leads. */
  function LocOf(path: string): (loc: Loc)
    ensures PlainLoc(loc)
  {
    SplitSegments(path);
    WalkStaysPlain([], Split(path));
    Walk([], Split(path))
  }

  /** The string test of the guard is segment containment: for any workspace root but the top the two
      guards accept the same paths and name the same locations. */
  lemma GuardsAgree(root: string, relative: string)
    requires LocOf(root) != []
    ensures ResolveSafePath(root, relative) ==
      match Resolve(LocOf(root), relative) case Some(loc) => Some(Render(loc)) case None => None
  {
    GuardsAgreeRendered(LocOf(root), relative);
    WalkFromRendered(LocOf(root), "");
    assert RealPath(root) == Render(LocOf(root));
  }

  /** With the top itself as root the prefix test fails on everything, so only paths that lead back to the
      top pass. */
  lemma GuardAtTop(root: string, relative: string)
    requires LocOf(root) == []
    ensures ResolveSafePath(root, relative) == if !("/" <= relative) && LocOf(relative) == [] then Some("/") else None
  {
    var path := "/" + ("/" + relative);
    SplitJoin("/", relative);
    WalkAppend([], Split("/"), Split(relative));
    assert Split("/") == ["", ""] by { assert "/"[1..] == ""; }
    assert ["", ""][..1] == [""] && [""][..0] == [];
    assert Walk([], [""]) == [] && Walk([], ["", ""]) == [];
    var loc := LocOf(path);
    assert loc == LocOf(relative);
    if loc != [] {
      var top := loc[0] + Render(loc[1..]);
      assert top[0] == loc[0][0] && '/' !in loc[0];
      assert Render(loc)[1] == top[0];
      assert RealPath(path) == Render(loc);
    }
  }

  // ---- where a path leads, read from its end ----

  /** A path in normal form: so many steps up, then plain segments. */
  datatype Climb = Climb(ups: nat, rest: Loc)

  /** Reads the segments from the last to the first; `drop` plain segments are taken back by the steps up
      already read. */
  function Reduce(segs: seq<string>, drop: nat): Climb {
    if segs == [] then Climb(drop, [])
    else
      var before, seg := segs[..|segs| - 1], segs[|segs| - 1];
      if seg == "" || seg == "." then Reduce(before, drop)
      else if seg == ".." then Reduce(before, drop + 1)
      else if drop > 0 then Reduce(before, drop - 1)
      else
        var c := Reduce(before, 0);
        Climb(c.ups, c.rest + [seg])
  }

  /** `k` levels up; the top is its own parent. */
  function Above(at: Loc, k: nat): Loc {
    if k <= |at| then at[..|at| - k] else []
  }

  lemma {:induction false} WalkClimbs(at: Loc, segs: seq<string>, drop: nat)
    ensures var c := Reduce(segs, drop); Above(Walk(at, segs), drop) == Above(at, c.ups) + c.rest
    decreases |segs|
  {
    if segs != [] {
      var before, seg := segs[..|segs| - 1], segs[|segs| - 1];
      WalkClimbs(at, before, drop);
      if seg == ".." {
        WalkClimbs(at, before, drop + 1);
      } else if seg != "" && seg != "." && drop > 0 {
        WalkClimbs(at, before, drop - 1);
      }
    }
  }

  /** What the guard accepts and where it leads: a relative path whose plain segments walk back into the
      part of the root it climbed out of; everything else is refused. */
  lemma GuardExactly(root: Loc, path: string)
    ensures var c := Reduce(Split(path), 0);
      var stays := Above(root, c.ups);
      Resolve(root, path) ==
        if path != "" && path[0] == '/' then None
        else if root[|stays|..] <= c.rest then Some(stays + c.rest) else None
  {
    var c, loc := Reduce(Split(path), 0), Walk(root, Split(path));
    var stays := Above(root, c.ups);
    WalkClimbs(root, Split(path), 0);
    assert Above(loc, 0) == loc && loc == stays + c.rest;
    assert root == stays + root[|stays|..];
    assert loc[|stays|..] == c.rest;
    if root <= loc {
      assert loc[..|root|] == root && loc[|stays|..|root|] == root[|stays|..];
    }
    assert ("/" <= path) == (path != "" && path[0] == '/');
  }

  lemma {:induction false} ReducePlain(segs: seq<string>)
    requires PlainLoc(segs)
    ensures Reduce(segs, 0) == Climb(0, segs) && Reduce([".."] + segs, 0) == Climb(1, segs)
  {
    var up := [".."];
    if segs == [] {
      assert up + segs == up && up[..0] == [];
      assert Reduce([], 1) == Climb(1, []);
    } else {
      var n := |segs| - 1;
      ReducePlain(segs[..n]);
      assert (up + segs)[..|segs|] == up + segs[..n];
      assert segs == segs[..n] + [segs[n]];
    }
  }

  lemma SplitUp(path: string)
    ensures Split("../" + path) == [".."] + Split(path)
  {
    assert "../" + path == ".." + ("/" + path);
    SplitJoin("..", path);
    SplitNoSlash("..");
  }

  lemma LastSegment(root: Loc, segs: Loc)
    requires root != [] && segs != []
    ensures root[|root| - 1..] <= segs <==> segs[0] == root[|root| - 1]
  {
    assert root[|root| - 1..] == [root[|root| - 1]];
  }

  /** One step up is refused unless the path comes straight back. */
  lemma StepUpRefused(root: Loc, path: string)
    requires PlainLoc(Split(path))
    ensures Resolve(root, "../" + path).None? <==> root != [] && Split(path)[0] != root[|root| - 1]
  {
    SplitUp(path);
    ReducePlain(Split(path));
    GuardExactly(root, "../" + path);
    hide Resolve, Split, Reduce, PlainLoc;
    if root != [] {
      LastSegment(root, Split(path));
    }
  }

  lemma SplitDetour(segment: string, y: string)
    requires Plain(segment)
    ensures Split(segment + ("/" + (".." + ("/" + y)))) == [segment, ".."] + Split(y)
  {
    SplitJoin(segment, ".." + ("/" + y));
    SplitJoin("..", y);
    SplitNoSlash("..");
    SplitNoSlash(segment);
    hide *;
    assert [segment] + ([".."] + Split(y)) == [segment, ".."] + Split(y);
  }

  lemma WalkDetour(at: Loc, segment: string)
    requires Plain(segment)
    ensures Walk(at, [segment, ".."]) == at
  {
    var there := [segment, ".."];
    assert there[..1] == [segment] && [segment][..0] == [];
    assert Walk(at, [segment]) == at + [segment];
  }

  /** Going into a directory and back again changes nothing, wherever it is done. */
  lemma BackAndForth(root: Loc, x: string, segment: string, y: string)
    requires Plain(segment)
    ensures Resolve(root, x + ("/" + (segment + ("/" + (".." + ("/" + y)))))) == Resolve(root, x + ("/" + y))
  {
    var detour := segment + ("/" + (".." + ("/" + y)));
    SplitDetour(segment, y);
    SplitJoin(x, detour);
    SplitJoin(x, y);
    WalkAppend(root, Split(x), [segment, ".."] + Split(y));
    WalkAppend(Walk(root, Split(x)), [segment, ".."], Split(y));
    WalkAppend(root, Split(x), Split(y));
    WalkDetour(Walk(root, Split(x)), segment);
    SameStart(x, "/" + detour, "/" + y);
    hide Split, Walk;
  }

  lemma SameStart(x: string, s: string, t: string)
    requires "/" <= s && "/" <= t
    ensures "/" <= x + s <==> "/" <= x + t
  {
  }

  datatype PathProblem = EmptyOrAbsolute | OddCharacters | BadSegment | GitDirectory | ProtectedFile

  /** The character check: one or more word characters, dots, slashes or hyphens, with an optional
      newline at the very end. The word characters are a parameter. */
  predicate SafeCharacters(word: set<char>, path: string) {
    var body := if path != "" && path[|path| - 1] == '\n' then path[..|path| - 1] else path;
    body != "" && SafeText(word, body)
  }

  predicate SafeText(word: set<char>, body: string) {
    forall i :: 0 <= i < |body| ==> body[i] in word || body[i] in {'.', '/', '-'}
  }

  function PublishableProblem(word: set<char>, path: string): Option<PathProblem> {
    if path == "" || path[0] == '/' || '\\' in path then Some(EmptyOrAbsolute)
    else if !SafeCharacters(word, path) then Some(OddCharacters)
    else
      var segs := Split(path);
      if exists i :: 0 <= i < |segs| && (segs[i] == "" || segs[i] == "." || segs[i] == "..") then Some(BadSegment)
      else if exists i :: 0 <= i < |segs| && (Lower(segs[i]) == ".git" || Lower(segs[i]) == ".github") then Some(GitDirectory)
      else if Lower(segs[|segs| - 1]) == ".gitmodules" || Lower(segs[|segs| - 1]) == ".gitattributes" then Some(ProtectedFile)
      else None
  }

  /** A publishable path resolves, and to the root followed by exactly its own segments. */
  lemma PublishableResolves(root: Loc, word: set<char>, path: string)
    requires PublishableProblem(word, path).None?
    ensures Resolve(root, path) == Some(root + Split(path))
  {
    SplitSegments(path);
    WalkPlain(root, Split(path));
  }

  /** So two publishable paths never name the same location. */
  lemma PublishableInjective(root: Loc, word: set<char>, a: string, b: string)
    requires PublishableProblem(word, a).None? && PublishableProblem(word, b).None?
    requires Resolve(root, a) == Resolve(root, b)
    ensures a == b
  {
    PublishableResolves(root, word, a);
    PublishableResolves(root, word, b);
    assert Split(a) == (root + Split(a))[|root|..];
    assert Split(b) == (root + Split(b))[|root|..];
    SplitInjective(a, b);
  }

  /** The rule for paths that may go into a pull request, written out. A newline at the very end passes. */
  predicate MayShip(word: set<char>, path: string) {
    var segs := Split(path);
    && path != "" && path != "\n" && path[0] != '/'
    && (forall i :: 0 <= i < |path| ==>
          path[i] != '\\'
          && (path[i] in word || path[i] == '.' || path[i] == '/' || path[i] == '-' || (path[i] == '\n' && i == |path| - 1)))
    && (forall i :: 0 <= i < |segs| ==>
          && Plain(segs[i])
          && !SameButCapitals(segs[i], ".git") && !SameButCapitals(segs[i], ".github"))
    && !SameButCapitals(segs[|segs| - 1], ".gitmodules") && !SameButCapitals(segs[|segs| - 1], ".gitattributes")
  }

  lemma CharactersExactly(word: set<char>, path: string)
    requires path != ""
    ensures SafeCharacters(word, path) <==>
      path != "\n" && forall i :: 0 <= i < |path| ==>
        path[i] in word || path[i] == '.' || path[i] == '/' || path[i] == '-' || (path[i] == '\n' && i == |path| - 1)
  {
    var n := |path| - 1;
    assert path == path[..n] + [path[n]];
    if path[n] == '\n' {
      assert path == "\n" <==> n == 0;
      assert forall i :: 0 <= i < n ==> path[..n][i] == path[i];
    }
  }

  lemma GitExactly(seg: string)
    ensures Lower(seg) == ".git" || Lower(seg) == ".github" <==> SameButCapitals(seg, ".git") || SameButCapitals(seg, ".github")
    ensures Lower(seg) == ".gitmodules" || Lower(seg) == ".gitattributes"
      <==> SameButCapitals(seg, ".gitmodules") || SameButCapitals(seg, ".gitattributes")
  {
    LowerExactly(seg, ".git");
    LowerExactly(seg, ".github");
    LowerExactly(seg, ".gitmodules");
    LowerExactly(seg, ".gitattributes");
  }

  /** A path is publishable exactly when it may ship. */
  lemma PublishableExactly(word: set<char>, path: string)
    ensures PublishableProblem(word, path).None? <==> MayShip(word, path)
  {
    if path != "" {
      var segs := Split(path);
      CharactersExactly(word, path);
      SplitSegments(path);
      forall i | 0 <= i < |segs|
        ensures Lower(segs[i]) == ".git" || Lower(segs[i]) == ".github"
          <==> SameButCapitals(segs[i], ".git") || SameButCapitals(segs[i], ".github")
      {
        GitExactly(segs[i]);
      }
      GitExactly(segs[|segs| - 1]);
      hide SafeCharacters, SameButCapitals, Split, Lower;
    }
  }

  /** The reason a path is refused for is true of it. */
  predicate IsTrueOf(problem: PathProblem, word: set<char>, path: string) {
    var segs := Split(path);
    match problem
    case EmptyOrAbsolute => path == "" || path[0] == '/' || '\\' in path
    case OddCharacters =>
      path == "\n" || exists i :: 0 <= i < |path| && path[i] !in word && path[i] != '.' && path[i] != '/' && path[i] != '-'
    case BadSegment => exists i :: 0 <= i < |segs| && !Plain(segs[i])
    case GitDirectory =>
      exists i :: 0 <= i < |segs| && (SameButCapitals(segs[i], ".git") || SameButCapitals(segs[i], ".github"))
    case ProtectedFile =>
      SameButCapitals(segs[|segs| - 1], ".gitmodules") || SameButCapitals(segs[|segs| - 1], ".gitattributes")
  }

  lemma ReasonIsTrue(word: set<char>, path: string)
    ensures var problem := PublishableProblem(word, path); problem.Some? ==> IsTrueOf(problem.value, word, path)
  {
    var problem, segs := PublishableProblem(word, path), Split(path);
    if path != "" {
      CharactersExactly(word, path);
    }
    if problem == Some(GitDirectory) {
      var i :| 0 <= i < |segs| && (Lower(segs[i]) == ".git" || Lower(segs[i]) == ".github");
      GitExactly(segs[i]);
    } else if problem == Some(ProtectedFile) {
      GitExactly(segs[|segs| - 1]);
    }
    hide Split, Lower, SameButCapitals;
  }
}
