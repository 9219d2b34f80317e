/** Target paths and task ids of the FastAPI adapter. */
module FastApiLayout {
  import opened PlanTypes
  import opened Text

  function Directory(k: Kind): string {
    match k
    case Endpoint => "routers"
    case Service => "services"
    case Repository => "repositories"
    case DataModel => "schemas"
    case Middleware => "middleware"
    case ConfigUnit => "core"
    case Utility => "utils"
  }

  function AfterLast(s: string, c: char): string {
    if s == "" || s[|s| - 1] == c then "" else AfterLast(s[..|s| - 1], c) + [s[|s| - 1]]
  }

  /** What precedes the last `c`; the whole string when there is none. */
  function BeforeLast(s: string, c: char): string {
    if c !in s then s else if s[|s| - 1] == c then s[..|s| - 1] else BeforeLast(s[..|s| - 1], c)
  }

  function WithoutSuffix(s: string, suffix: string): string {
    if |s| >= |suffix| && s[|s| - |suffix|..] == suffix then s[..|s| - |suffix|] else s
  }

  function ModuleName(u: Unit): string {
    if u.kind.Endpoint? then
      var slug := Slugify(WithoutSuffix(BeforeLast(AfterLast(u.sourceFile, '/'), '.'), "Controller"));
      if slug == "" then "router" else slug
    else
      Slugify(if u.payload.name == "" then u.id else u.payload.name)
  }

  function JoinPath(directory: string, name: string): string {
    "app" + ("/" + (directory + ("/" + (name + ".py"))))
  }

  function TargetPath(u: Unit): string {
    JoinPath(Directory(u.kind), ModuleName(u))
  }

  function TaskId(path: string): string {
    "task::" + Slugify(path)
  }

  function PathTail(m: string): string {
    if m == "" then "_py" else "_" + (m + "_py")
  }

  lemma {:induction false} CollapseTail(m: string)
    requires IsSlug(m)
    ensures Collapse("/" + (m + ".py"), false) == PathTail(m)
  {
    CollapseWord("py", true);
    CollapseWord("py", false);
    assert (".py")[1..] == "py";
    var p := m + ".py";
    assert ("/" + p)[1..] == p;
    assert Collapse("/" + p, false) == "_" + Collapse(p, true);
    if m == "" {
      assert p == ".py";
      assert Collapse(p, true) == Collapse("py", true);
    } else {
      CollapsePrefix(m, ".py", true);
      assert Collapse(".py", false) == "_" + Collapse("py", true);
      assert "_" + "py" == "_py";
    }
  }

  lemma ModuleNameIsSlug(u: Unit)
    ensures IsSlug(ModuleName(u))
  {
    if u.kind.Endpoint? {
      SlugNormalForm(WithoutSuffix(BeforeLast(AfterLast(u.sourceFile, '/'), '.'), "Controller"));
      assert IsSlug("router");
    } else {
      SlugNormalForm(if u.payload.name == "" then u.id else u.payload.name);
    }
  }

  lemma DirectoryIsWord(k: Kind)
    ensures var d := Directory(k); d != "" && forall i :: 0 <= i < |d| ==> IsLowerOrDigit(d[i])
  {
  }

  lemma CollapsePath(d: string, m: string)
    requires IsSlug(m) && d != "" && forall i :: 0 <= i < |d| ==> IsLowerOrDigit(d[i])
    ensures Collapse(JoinPath(d, m), false) == "app" + ("_" + (d + PathTail(m)))
  {
    var t3 := "/" + (m + ".py");
    var t2 := d + t3;
    CollapsePrefix("app", "/" + t2, false);
    assert ("/" + t2)[1..] == t2;
    assert JoinPath(d, m) == "app" + ("/" + t2);
    CollapsePrefix(d, t3, true);
    CollapseTail(m);
  }

  lemma SlugOfCollapsed(p: string, s: string)
    requires NoCapitals(p) && NoCapitals(s)
    requires s == Collapse(p, false) && s != "" && s[0] != '_' && s[|s| - 1] != '_'
    ensures Slugify(p) == s
  {
    SplitCamelNoCapitals(p, true);
    StripPlain(s);
    LowerId(s);
  }

  lemma StripPlain(s: string)
    requires s != "" && s[0] != '_' && s[|s| - 1] != '_'
    ensures StripRight(StripLeft(s)) == s
  {
  }

  lemma LowerId(s: string)
    requires NoCapitals(s)
    ensures Lower(s) == s
  {
  }

  /** The slug of an adapter path, spelled out. */
  lemma SlugOfPath(d: string, m: string)
    requires IsSlug(m) && d != "" && forall i :: 0 <= i < |d| ==> IsLowerOrDigit(d[i])
    ensures Slugify(JoinPath(d, m)) == "app" + ("_" + (d + PathTail(m)))
  {
    CollapsePath(d, m);
    PathLetters(d, m);
    SlugOfCollapsed(JoinPath(d, m), "app" + ("_" + (d + PathTail(m))));
  }

  predicate NoCapitals(s: string) {
    forall i :: 0 <= i < |s| ==> !IsUpper(s[i])
  }

  lemma PathLetters(d: string, m: string)
    requires IsSlug(m) && d != "" && forall i :: 0 <= i < |d| ==> IsLowerOrDigit(d[i])
    ensures NoCapitals(JoinPath(d, m)) && NoCapitals("app" + ("_" + (d + PathTail(m))))
    ensures PathTail(m) != "" && PathTail(m)[|PathTail(m)| - 1] == 'y'
  {
    assert NoCapitals(m) && NoCapitals(d) && NoCapitals("app") && NoCapitals("/") && NoCapitals("_") && NoCapitals(".py");
    NoCapitalsAppend(m, ".py");
    NoCapitalsAppend("/", m + ".py");
    NoCapitalsAppend(d, "/" + (m + ".py"));
    NoCapitalsAppend("/", d + ("/" + (m + ".py")));
    NoCapitalsAppend("app", "/" + (d + ("/" + (m + ".py"))));
    assert NoCapitals("_py");
    NoCapitalsAppend(m, "_py");
    NoCapitalsAppend("_", m + "_py");
    NoCapitalsAppend(d, PathTail(m));
    NoCapitalsAppend("_", d + PathTail(m));
    NoCapitalsAppend("app", "_" + (d + PathTail(m)));
  }

  lemma NoCapitalsAppend(a: string, b: string)
    requires NoCapitals(a) && NoCapitals(b)
    ensures NoCapitals(a + b)
  {
  }

  lemma {:induction false} SameFirstWord(a: string, s: string, b: string, t: string)
    requires forall i :: 0 <= i < |a| ==> a[i] != '_'
    requires forall i :: 0 <= i < |b| ==> b[i] != '_'
    requires s != "" && s[0] == '_' && t != "" && t[0] == '_'
    requires a + s == b + t
    ensures a == b && s == t
  {
    assert (a + s)[|a|] == s[0] && (b + t)[|b|] == t[0];
    assert |a| == |b|;
    assert a == (a + s)[..|a|] && b == (b + t)[..|b|];
    assert s == (a + s)[|a|..] && t == (b + t)[|b|..];
  }

  lemma JoinPathInjective(d: string, m: string, e: string, n: string)
    requires IsSlug(m) && d != "" && forall i :: 0 <= i < |d| ==> IsLowerOrDigit(d[i])
    requires IsSlug(n) && e != "" && forall i :: 0 <= i < |e| ==> IsLowerOrDigit(e[i])
    requires Slugify(JoinPath(d, m)) == Slugify(JoinPath(e, n))
    ensures d == e && m == n
  {
    SlugOfPath(d, m);
    SlugOfPath(e, n);
    var s, t := "app" + ("_" + (d + PathTail(m))), "app" + ("_" + (e + PathTail(n)));
    assert d + PathTail(m) == s[4..] && e + PathTail(n) == t[4..];
    SameFirstWord(d, PathTail(m), e, PathTail(n));
    PathTailInjective(m, n);
  }

  /** Two adapter paths with the same task id are the same path, so merging by id never collapses
      two tasks. */
  lemma TaskIdInjective(u: Unit, v: Unit)
    requires TaskId(TargetPath(u)) == TaskId(TargetPath(v))
    ensures TargetPath(u) == TargetPath(v)
  {
    var p, q := Slugify(TargetPath(u)), Slugify(TargetPath(v));
    assert p == TaskId(TargetPath(u))[6..] && q == TaskId(TargetPath(v))[6..];
    ModuleNameIsSlug(u);
    ModuleNameIsSlug(v);
    DirectoryIsWord(u.kind);
    DirectoryIsWord(v.kind);
    JoinPathInjective(Directory(u.kind), ModuleName(u), Directory(v.kind), ModuleName(v));
  }

  // ---- the paths, spelled out ----

  lemma {:induction false} AfterLastSlash(dir: string, file: string)
    requires '/' !in file && (dir == "" || dir[|dir| - 1] == '/')
    ensures AfterLast(dir + file, '/') == file
    decreases |file|
  {
    if file == "" {
      assert dir + file == dir;
    } else {
      assert (dir + file)[..|dir + file| - 1] == dir + file[..|file| - 1];
      AfterLastSlash(dir, file[..|file| - 1]);
    }
  }

  lemma {:induction false} BeforeLastDot(stem: string, ext: string)
    requires '.' !in ext
    ensures BeforeLast(stem + ("." + ext), '.') == stem
    decreases |ext|
  {
    var s := stem + ("." + ext);
    assert s[|stem|] == '.';
    assert s[..|s| - 1] == if ext == "" then stem else stem + ("." + ext[..|ext| - 1]);
    if ext != "" {
      assert s[|s| - 1] == ext[|ext| - 1];
      BeforeLastDot(stem, ext[..|ext| - 1]);
    }
  }

  /** Endpoints are grouped by their controller: whatever the directory and the extension of its source file,
      `OrderController` gives the router file `order`. */
  lemma RouterOfController(u: Unit, dir: string, stem: string, suffix: string, ext: string)
    requires u.kind.Endpoint? && u.sourceFile == dir + ((stem + suffix) + ("." + ext))
    requires (dir == "" || dir[|dir| - 1] == '/') && '/' !in stem && '/' !in ext && '.' !in ext
    requires suffix == "Controller"
             || (suffix == "" && (|stem| < 10 || stem[|stem| - 10..] != "Controller"))
    ensures var name := Words(stem, false, false);
      TargetPath(u) == "app" + ("/" + ("routers" + ("/" + ((if name == "" then "router" else name) + ".py"))))
  {
    hide Slugify, Words, AfterLast, BeforeLast, WithoutSuffix;
    AfterLastSlash(dir, (stem + suffix) + ("." + ext));
    BeforeLastDot(stem + suffix, ext);
    ControllerDropped(stem, suffix);
    SlugExactly(stem);
  }

  lemma ControllerDropped(stem: string, suffix: string)
    requires suffix == "Controller" || (suffix == "" && (|stem| < 10 || stem[|stem| - 10..] != "Controller"))
    ensures WithoutSuffix(stem + suffix, "Controller") == stem
  {
    var s := stem + suffix;
    if suffix == "Controller" {
      assert s[|s| - 10..] == suffix && s[..|s| - 10] == stem;
    } else {
      assert s == stem;
    }
  }

  /** Every other unit gets a file of its own name in the directory of its kind. */
  lemma FileOfUnit(u: Unit)
    requires !u.kind.Endpoint?
    ensures var directory := match u.kind
                             case Service => "services"
                             case Repository => "repositories"
                             case DataModel => "schemas"
                             case Middleware => "middleware"
                             case ConfigUnit => "core"
                             case _ => "utils";
      var name := Words(if u.payload.name == "" then u.id else u.payload.name, false, false);
      TargetPath(u) == "app" + ("/" + (directory + ("/" + (name + ".py"))))
  {
    SlugExactly(if u.payload.name == "" then u.id else u.payload.name);
  }

  /** Units of different kinds never share a file. */
  lemma KindsApart(u: Unit, v: Unit)
    requires TargetPath(u) == TargetPath(v)
    ensures u.kind == v.kind
  {
    ModuleNameIsSlug(u);
    ModuleNameIsSlug(v);
    DirectoryIsWord(u.kind);
    DirectoryIsWord(v.kind);
    hide ModuleName, Slugify, IsSlug;
    JoinPathInjective(Directory(u.kind), ModuleName(u), Directory(v.kind), ModuleName(v));
    assert Directory(u.kind)[0] == Directory(v.kind)[0] && |Directory(u.kind)| == |Directory(v.kind)|;
  }

  /** A task id is its path with slashes and the dot turned to underscores. */
  lemma TaskIdSpelled(u: Unit)
    ensures TaskId(TargetPath(u)) == "task::" + ("app" + ("_" + (Directory(u.kind) + PathTail(ModuleName(u)))))
  {
    ModuleNameIsSlug(u);
    DirectoryIsWord(u.kind);
    SlugOfPath(Directory(u.kind), ModuleName(u));
  }

  lemma PathTailInjective(m: string, n: string)
    requires PathTail(m) == PathTail(n)
    ensures m == n
  {
    assert m != "" ==> PathTail(m)[1..|m| + 1] == m;
    assert n != "" ==> PathTail(n)[1..|n| + 1] == n;
  }
}

/** The plan built from the units: one task per target file, with the unit dependency graph folded
    onto the tasks. The target adapter is a parameter. */
module Synthesising {
  import opened OrderedDict
  import opened PlanTypes
  import Api = FastApiLayout

  const DEFAULT_MAX_RETRIES: nat := 3

  /** A target adapter: where a unit's code goes, and the task id of a target path. */
  datatype Layout = Layout(path: Unit -> string, taskId: string -> string)

  function FastApi(): Layout {
    Layout(u => Api.TargetPath(u), p => Api.TaskId(p))
  }

  ghost predicate Injective(lay: Layout) {
    forall u, v :: lay.taskId(lay.path(u)) == lay.taskId(lay.path(v)) ==> lay.path(u) == lay.path(v)
  }

  lemma FastApiInjective()
    ensures Injective(FastApi())
  {
    forall u, v | Api.TaskId(Api.TargetPath(u)) == Api.TaskId(Api.TargetPath(v))
      ensures Api.TargetPath(u) == Api.TargetPath(v)
    {
      Api.TaskIdInjective(u, v);
    }
  }

  /** The units of each path, paths in first-seen order and units in list order. */
  function Groups(lay: Layout, units: seq<Unit>): seq<Entry<seq<Unit>>> {
    if units == [] then []
    else
      var u := units[|units| - 1];
      var before := Groups(lay, units[..|units| - 1]);
      var was := Get(before, lay.path(u));
      Put(before, lay.path(u), (if was.Some? then was.value else []) + [u])
  }

  /** The task that holds the last unit with this id. */
  function TaskOfUnit(lay: Layout, units: seq<Unit>, id: string): Option<string> {
    if units == [] then None
    else if units[|units| - 1].id == id then Some(lay.taskId(lay.path(units[|units| - 1])))
    else TaskOfUnit(lay, units[..|units| - 1], id)
  }

  function UnitIds(us: seq<Unit>): seq<string> {
    seq(|us|, i requires 0 <= i < |us| => us[i].id)
  }

  function TaskDeps(lay: Layout, units: seq<Unit>, us: seq<Unit>, self: string): set<string> {
    set i, k | 0 <= i < |us| && 0 <= k < |us[i].deps|
      && TaskOfUnit(lay, units, us[i].deps[k]).Some? && TaskOfUnit(lay, units, us[i].deps[k]).value != self
      :: TaskOfUnit(lay, units, us[i].deps[k]).value
  }

  function TaskFor(lay: Layout, units: seq<Unit>, e: Entry<seq<Unit>>): Task {
    Task(lay.taskId(e.key), UnitIds(e.value), e.key, TaskDeps(lay, units, e.value, lay.taskId(e.key)),
         Pending, 0, DEFAULT_MAX_RETRIES)
  }

  function Synthesize(lay: Layout, units: seq<Unit>): (r: seq<Task>)
    ensures |r| == |Groups(lay, units)|
    ensures forall i :: 0 <= i < |r| ==> r[i] == TaskFor(lay, units, Groups(lay, units)[i])
  {
    seq(|Groups(lay, units)|, i requires 0 <= i < |Groups(lay, units)| => TaskFor(lay, units, Groups(lay, units)[i]))
  }

  /** The planning loops: group units by path, name the tasks, then collect each task's dependencies. */
  method RunSynthesis(lay: Layout, units: seq<Unit>) returns (tasks: seq<Task>)
    ensures tasks == Synthesize(lay, units)
  {
    var groups: seq<Entry<seq<Unit>>> := [];
    var taskOf: map<string, string> := map[];
    for i := 0 to |units|
      invariant groups == Groups(lay, units[..i])
      invariant forall id :: id in taskOf <==> TaskOfUnit(lay, units[..i], id).Some?
      invariant forall id :: id in taskOf ==> taskOf[id] == TaskOfUnit(lay, units[..i], id).value
    {
      assert units[..i + 1][..i] == units[..i];
      var path := lay.path(units[i]);
      var was := Get(groups, path);
      groups := Put(groups, path, (if was.Some? then was.value else []) + [units[i]]);
      taskOf := taskOf[units[i].id := lay.taskId(path)];
    }
    assert units[..|units|] == units;
    tasks := [];
    for i := 0 to |groups|
      invariant |tasks| == i && forall j :: 0 <= j < i ==> tasks[j] == TaskFor(lay, units, groups[j])
    {
      var us, self := groups[i].value, lay.taskId(groups[i].key);
      var deps := set j, k | 0 <= j < |us| && 0 <= k < |us[j].deps|
                    && us[j].deps[k] in taskOf && taskOf[us[j].deps[k]] != self :: taskOf[us[j].deps[k]];
      assert deps == TaskDeps(lay, units, us, self);
      tasks := tasks + [Task(self, UnitIds(us), groups[i].key, deps, Pending, 0, DEFAULT_MAX_RETRIES)];
    }
  }

  function On(lay: Layout, units: seq<Unit>, path: string): seq<Unit> {
    if units == [] then []
    else
      var before := On(lay, units[..|units| - 1], path);
      if lay.path(units[|units| - 1]) == path then before + [units[|units| - 1]] else before
  }

  lemma {:induction false} OnExact(lay: Layout, units: seq<Unit>, path: string, u: Unit)
    ensures u in On(lay, units, path) <==> u in units && lay.path(u) == path
  {
    if units != [] {
      var n := |units| - 1;
      OnExact(lay, units[..n], path, u);
      assert u in units <==> u in units[..n] || u == units[n];
    }
  }

  lemma {:induction false} GroupsExact(lay: Layout, units: seq<Unit>, path: string)
    ensures Distinct(Groups(lay, units))
    ensures Get(Groups(lay, units), path) == if On(lay, units, path) == [] then None else Some(On(lay, units, path))
  {
    if units != [] {
      var n := |units| - 1;
      GroupsExact(lay, units[..n], path);
      GroupsExact(lay, units[..n], lay.path(units[n]));
      var was := Get(Groups(lay, units[..n]), lay.path(units[n]));
      PutGet(Groups(lay, units[..n]), lay.path(units[n]), (if was.Some? then was.value else []) + [units[n]], path);
    }
  }

  lemma GroupAt(lay: Layout, units: seq<Unit>, i: nat)
    requires i < |Groups(lay, units)|
    ensures var e := Groups(lay, units)[i];
      && Distinct(Groups(lay, units)) && e.value == On(lay, units, e.key) && e.value != []
      && forall u :: u in e.value <==> u in units && lay.path(u) == e.key
  {
    var e := Groups(lay, units)[i];
    GroupsExact(lay, units, e.key);
    GetAt(Groups(lay, units), i);
    forall u ensures u in e.value <==> u in units && lay.path(u) == e.key {
      OnExact(lay, units, e.key, u);
    }
  }

  lemma GroupOf(lay: Layout, units: seq<Unit>, u: Unit) returns (i: nat)
    requires u in units
    ensures i < |Groups(lay, units)| && Groups(lay, units)[i].key == lay.path(u)
  {
    GroupsExact(lay, units, lay.path(u));
    OnExact(lay, units, lay.path(u), u);
    i := IndexOf(Groups(lay, units), lay.path(u));
  }

  lemma {:induction false} TaskOfUnitExact(lay: Layout, units: seq<Unit>, id: string)
    ensures TaskOfUnit(lay, units, id).Some? ==>
      exists u :: u in units && u.id == id && TaskOfUnit(lay, units, id) == Some(lay.taskId(lay.path(u)))
    ensures TaskOfUnit(lay, units, id).None? ==> forall u :: u in units ==> u.id != id
  {
    if units != [] {
      var n := |units| - 1;
      assert units == units[..n] + [units[n]];
      if units[n].id == id {
        assert units[n] in units;
      } else {
        TaskOfUnitExact(lay, units[..n], id);
      }
    }
  }

  lemma SameUnit(units: seq<Unit>, u: Unit, v: Unit)
    requires UniqueIds(units) && u in units && v in units && u.id == v.id
    ensures u == v
  {
  }

  ghost predicate UnitDependency(lay: Layout, units: seq<Unit>, from: string, to: string) {
    exists u, v :: u in units && v in units && lay.path(u) == from && lay.path(v) == to && v.id in u.deps
  }

  lemma DepsSound(lay: Layout, units: seq<Unit>, i: nat, j: nat)
    requires Injective(lay) && i < |Groups(lay, units)| && j < |Groups(lay, units)|
    requires Synthesize(lay, units)[j].id in Synthesize(lay, units)[i].deps
    ensures UnitDependency(lay, units, Groups(lay, units)[i].key, Groups(lay, units)[j].key)
  {
    var us, gj := Groups(lay, units)[i].value, Groups(lay, units)[j];
    GroupAt(lay, units, i);
    GroupAt(lay, units, j);
    var a, k :| 0 <= a < |us| && 0 <= k < |us[a].deps|
      && TaskOfUnit(lay, units, us[a].deps[k]) == Some(lay.taskId(gj.key));
    TaskOfUnitExact(lay, units, us[a].deps[k]);
    var v :| v in units && v.id == us[a].deps[k] && lay.taskId(lay.path(v)) == lay.taskId(gj.key);
    assert lay.path(gj.value[0]) == gj.key && lay.taskId(lay.path(v)) == lay.taskId(lay.path(gj.value[0]));
    assert us[a] in units && v.id in us[a].deps;
  }

  lemma DepsComplete(lay: Layout, units: seq<Unit>, i: nat, j: nat)
    requires Injective(lay) && UniqueIds(units) && i < |Groups(lay, units)| && j < |Groups(lay, units)| && i != j
    requires UnitDependency(lay, units, Groups(lay, units)[i].key, Groups(lay, units)[j].key)
    ensures Synthesize(lay, units)[j].id in Synthesize(lay, units)[i].deps
  {
    var us, gi, gj := Groups(lay, units)[i].value, Groups(lay, units)[i].key, Groups(lay, units)[j].key;
    GroupAt(lay, units, i);
    DistinctTaskIds(lay, units, i, j);
    var u, v :| u in units && v in units && lay.path(u) == gi && lay.path(v) == gj && v.id in u.deps;
    var a :| 0 <= a < |us| && us[a] == u;
    var k :| 0 <= k < |u.deps| && u.deps[k] == v.id;
    TaskOfUnitExact(lay, units, v.id);
    var w :| w in units && w.id == v.id && TaskOfUnit(lay, units, v.id) == Some(lay.taskId(lay.path(w)));
    SameUnit(units, v, w);
    assert TaskOfUnit(lay, units, us[a].deps[k]).value == lay.taskId(gj);
  }

  lemma DistinctTaskIds(lay: Layout, units: seq<Unit>, i: nat, j: nat)
    requires Injective(lay) && i < |Groups(lay, units)| && j < |Groups(lay, units)|
    ensures Synthesize(lay, units)[i].id == Synthesize(lay, units)[j].id ==> i == j
  {
    GroupAt(lay, units, i);
    GroupAt(lay, units, j);
    if Synthesize(lay, units)[i].id == Synthesize(lay, units)[j].id {
      var u, v := Groups(lay, units)[i].value[0], Groups(lay, units)[j].value[0];
      assert lay.taskId(lay.path(u)) == lay.taskId(lay.path(v));
    }
  }

  lemma DepsAreTasks(lay: Layout, units: seq<Unit>, i: nat, dep: string)
    requires i < |Groups(lay, units)| && dep in Synthesize(lay, units)[i].deps
    ensures dep != Synthesize(lay, units)[i].id && HasTask(Synthesize(lay, units), dep)
  {
    var us := Groups(lay, units)[i].value;
    var a, k :| 0 <= a < |us| && 0 <= k < |us[a].deps| && TaskOfUnit(lay, units, us[a].deps[k]) == Some(dep);
    TaskOfUnitExact(lay, units, us[a].deps[k]);
    var v :| v in units && dep == lay.taskId(lay.path(v));
    var j := GroupOf(lay, units, v);
    assert Synthesize(lay, units)[j].id == dep;
  }

  lemma DepsExact(lay: Layout, units: seq<Unit>, i: nat, j: nat)
    requires Injective(lay) && UniqueIds(units) && i < |Groups(lay, units)| && j < |Groups(lay, units)|
    ensures var tasks := Synthesize(lay, units);
      tasks[j].id in tasks[i].deps <==> i != j && UnitDependency(lay, units, tasks[i].path, tasks[j].path)
  {
    if Synthesize(lay, units)[j].id in Synthesize(lay, units)[i].deps {
      DepsAreTasks(lay, units, i, Synthesize(lay, units)[j].id);
      DepsSound(lay, units, i, j);
    }
    if i != j && UnitDependency(lay, units, Groups(lay, units)[i].key, Groups(lay, units)[j].key) {
      DepsComplete(lay, units, i, j);
    }
  }

  /** A fresh plan: unique task ids, nothing started, dependencies only on other planned tasks. */
  predicate FreshPlan(tasks: seq<Task>) {
    && DistinctTasks(tasks)
    && forall i :: 0 <= i < |tasks| ==>
         && tasks[i].status == Pending && tasks[i].retries == 0
         && forall d :: d in tasks[i].deps ==> d != tasks[i].id && HasTask(tasks, d)
  }

  lemma PlanIsFresh(lay: Layout, units: seq<Unit>)
    requires Injective(lay)
    ensures FreshPlan(Synthesize(lay, units))
    ensures units != [] ==> Synthesize(lay, units) != []
  {
    var tasks := Synthesize(lay, units);
    forall i, j | 0 <= i < j < |tasks| ensures tasks[i].id != tasks[j].id { DistinctTaskIds(lay, units, i, j); }
    forall i, d | 0 <= i < |tasks| && d in tasks[i].deps ensures d != tasks[i].id && HasTask(tasks, d) {
      DepsAreTasks(lay, units, i, d);
    }
    if units != [] {
      var _ := GroupOf(lay, units, units[0]);
    }
  }

  lemma TaskHoldsItsUnits(lay: Layout, units: seq<Unit>, i: nat, u: Unit)
    requires UniqueIds(units) && i < |Groups(lay, units)| && u in units
    ensures u.id in Synthesize(lay, units)[i].unitIds <==> lay.path(u) == Synthesize(lay, units)[i].path
  {
    GroupAt(lay, units, i);
    var us := Groups(lay, units)[i].value;
    if u.id in UnitIds(us) {
      var a :| 0 <= a < |us| && us[a].id == u.id;
      assert us[a] in us;
      SameUnit(units, us[a], u);
    }
    if u in us {
      var a :| 0 <= a < |us| && us[a] == u;
      assert UnitIds(us)[a] == u.id;
    }
  }

  /** The quotient of the units by target path: paths are distinct, a task holds exactly the units of
      its path, every unit is in one task, and one task depends on another exactly when they differ and
      some unit of the first depends on a unit of the second. */
  ghost predicate Quotient(lay: Layout, units: seq<Unit>, tasks: seq<Task>) {
    && (forall i, j :: 0 <= i < j < |tasks| ==> tasks[i].path != tasks[j].path)
    && (forall u :: u in units ==> exists i :: 0 <= i < |tasks| && tasks[i].path == lay.path(u))
    && (forall i, u :: 0 <= i < |tasks| && u in units ==> (u.id in tasks[i].unitIds <==> lay.path(u) == tasks[i].path))
    && (forall i, j :: 0 <= i < |tasks| && 0 <= j < |tasks| ==>
          (tasks[j].id in tasks[i].deps <==> i != j && UnitDependency(lay, units, tasks[i].path, tasks[j].path)))
  }

  lemma PlanIsQuotient(lay: Layout, units: seq<Unit>)
    requires Injective(lay) && UniqueIds(units)
    ensures Quotient(lay, units, Synthesize(lay, units))
  {
    var tasks := Synthesize(lay, units);
    GroupsExact(lay, units, "");
    forall u | u in units ensures exists i :: 0 <= i < |tasks| && tasks[i].path == lay.path(u) {
      var i := GroupOf(lay, units, u);
      assert tasks[i].path == lay.path(u);
    }
    forall i, u | 0 <= i < |tasks| && u in units
      ensures u.id in tasks[i].unitIds <==> lay.path(u) == tasks[i].path
    {
      TaskHoldsItsUnits(lay, units, i, u);
    }
    forall i, j | 0 <= i < |tasks| && 0 <= j < |tasks|
      ensures tasks[j].id in tasks[i].deps <==> i != j && UnitDependency(lay, units, tasks[i].path, tasks[j].path)
    {
      DepsExact(lay, units, i, j);
    }
  }
}
