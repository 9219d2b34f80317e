/** Two small plans, computed from source files. */
module SmallPlans {
  import opened OrderedDict
  import opened PlanTypes
  import opened Text
  import opened Comprehending
  import opened Synthesising
  import Api = FastApiLayout

  /** A file with a service "b" and, unless alone, a service "a", which may depend on "b". */
  datatype PlanShape = Alone | Pair(chained: bool)

  function RawsOf(shape: PlanShape): seq<RawUnit> {
    var b := RawUnit(Service, "b", ServicePayload("b", []));
    match shape
    case Alone => [b]
    case Pair(chained) => [b, RawUnit(Service, "a", ServicePayload("a", if chained then ["b"] else []))]
  }

  function SourcesOf(shape: PlanShape): seq<SourceFile> {
    JustOne(RawsOf(shape))
  }

  function UnitsFor(shape: PlanShape): seq<Unit> {
    Comprehend(SourcesOf(shape), 10.0).units
  }

  /** What the extraction makes of it, up to the ids. */
  predicate SmallUnits(shape: PlanShape, units: seq<Unit>) {
    && |units| == |RawsOf(shape)|
    && (forall i :: 0 <= i < |units| ==> units[i].kind == Service && units[i].payload == RawsOf(shape)[i].payload)
    && units[0].deps == []
    && (shape.Pair? ==> units[1].id != units[0].id && units[1].deps == if shape.chained then [units[0].id] else [])
  }

  lemma OneDep(pending: seq<PendingUnit>)
    requires |pending| == 2 && DistinctIds(pending) && pending[0].raw.name == "b"
    ensures DepsOf(pending, pending[1].id, ["b"]) == [pending[0].id]
  {
    assert FirstNamed(pending, 0, "b");
    LookupFirst(pending, 0, "b");
    assert ["b"][..0] == [];
    assert DepsOf(pending, pending[1].id, []) == [];
  }

  lemma UnitsAreSmall(shape: PlanShape)
    ensures SmallUnits(shape, UnitsFor(shape))
    ensures Comprehend(SourcesOf(shape), 10.0).cost == 0.0
  {
    var raws := RawsOf(shape);
    OneRead(raws, 10.0);
    OneOrigins(raws);
    AddUnitsDistinct([], "f", raws);
    OneCost(raws);
    hide AddUnits, JustOne, Collect, AllUnresolved;
    PendingSmall(shape, AddUnits([], "f", raws));
  }

  lemma PendingSmall(shape: PlanShape, pending: seq<PendingUnit>)
    requires DistinctIds(pending) && |pending| == |RawsOf(shape)|
    requires forall i :: 0 <= i < |pending| ==> pending[i].raw == RawsOf(shape)[i]
    ensures SmallUnits(shape, UnitsOf(pending))
  {
    var raws := RawsOf(shape);
    assert pending[0].raw == raws[0];
    if shape.Pair? {
      assert pending[1].raw == raws[1];
      if shape.chained {
        OneDep(pending);
      }
    }
  }

  lemma OneCost(raws: seq<RawUnit>)
    ensures Gathered(JustOne(raws), 10.0).cost == 0.0
  {
    CollectOne(JustOne(raws), 10.0, Harvest(0.0, []));
    assert JustOne(raws)[1..] == [];
  }

  // ---- the plan ----

  lemma ServicePath(u: Unit, name: string)
    requires u.kind == Service && u.payload.ServicePayload? && u.payload.name == name && IsSlug(name) && name != ""
    ensures Api.TargetPath(u) == Api.JoinPath("services", name)
  {
    SlugOfSlug(name);
  }

  lemma DifferentPaths(u: Unit, v: Unit)
    requires u.kind == Service && u.payload.ServicePayload? && u.payload.name == "b"
    requires v.kind == Service && v.payload.ServicePayload? && v.payload.name == "a"
    ensures Api.TargetPath(u) != Api.TargetPath(v) && Api.TaskId(Api.TargetPath(u)) != Api.TaskId(Api.TargetPath(v))
  {
    assert IsSlug("b") && IsSlug("a");
    ServicePath(u, "b");
    ServicePath(v, "a");
    var p, q := "services" + ("/" + ("b" + ".py")), "services" + ("/" + ("a" + ".py"));
    assert p[9] == 'b' && q[9] == 'a';
    assert Api.TargetPath(u)[13] == p[9] && Api.TargetPath(v)[13] == q[9];
    if Api.TaskId(Api.TargetPath(u)) == Api.TaskId(Api.TargetPath(v)) {
      Api.TaskIdInjective(u, v);
    }
  }

  function PlanFor(shape: PlanShape): seq<Task> {
    Synthesize(FastApi(), UnitsFor(shape))
  }

  predicate FreshTask(t: Task, deps: set<string>) {
    t.deps == deps && t.status == Pending && t.retries == 0 && t.maxRetries == DEFAULT_MAX_RETRIES
  }

  /** One task a unit; the second depends on the first when chained. */
  predicate SmallPlan(shape: PlanShape, tasks: seq<Task>) {
    && |tasks| == |RawsOf(shape)| && FreshTask(tasks[0], {})
    && (shape.Pair? ==> tasks[1].id != tasks[0].id && FreshTask(tasks[1], if shape.chained then {tasks[0].id} else {}))
  }

  lemma GroupsOfOne(lay: Layout, u: Unit)
    ensures Groups(lay, [u]) == [Entry(lay.path(u), [u])]
  {
    assert [u][..0] == [];
    var none: seq<Unit> := [];
    assert none + [u] == [u];
  }

  lemma GroupsOfTwo(lay: Layout, u: Unit, v: Unit)
    requires lay.path(u) != lay.path(v)
    ensures Groups(lay, [u, v]) == [Entry(lay.path(u), [u]), Entry(lay.path(v), [v])]
  {
    GroupsOfOne(lay, u);
    assert [u, v][..1] == [u];
    var first := [Entry(lay.path(u), [u])];
    assert first[1..] == [];
    assert IndexOf(first, lay.path(v)) == 1;
    var none: seq<Unit> := [];
    assert none + [v] == [v];
  }

  lemma TaskOfFirst(lay: Layout, u: Unit, v: Unit)
    requires u.id != v.id
    ensures TaskOfUnit(lay, [u, v], u.id) == Some(lay.taskId(lay.path(u)))
  {
    assert [u, v][..1] == [u];
  }

  lemma PlanIsSmall(shape: PlanShape)
    ensures SmallPlan(shape, PlanFor(shape))
  {
    UnitsAreSmall(shape);
    var units := UnitsFor(shape);
    hide UnitsFor;
    match shape {
      case Alone =>
        assert units == [units[0]];
        AlonePlan(units[0]);
      case Pair(chained) =>
        assert units == [units[0], units[1]];
        PairPlan(units[0], units[1], chained);
    }
  }

  lemma AlonePlan(u: Unit)
    requires SmallUnits(Alone, [u])
    ensures SmallPlan(Alone, Synthesize(FastApi(), [u]))
  {
    var lay := FastApi();
    GroupsOfOne(lay, u);
    assert [u][0].deps == [];
    assert TaskDeps(lay, [u], [u], lay.taskId(lay.path(u))) == {};
  }

  lemma PairPlan(u: Unit, v: Unit, chained: bool)
    requires SmallUnits(Pair(chained), [u, v])
    ensures SmallPlan(Pair(chained), Synthesize(FastApi(), [u, v]))
  {
    var units := [u, v];
    var lay := FastApi();
    assert units[0].payload.name == "b" && units[1].payload.name == "a";
    DifferentPaths(u, v);
    GroupsOfTwo(lay, u, v);
    TaskOfFirst(lay, u, v);
    var t0, t1 := lay.taskId(lay.path(u)), lay.taskId(lay.path(v));
    assert TaskDeps(lay, units, [u], t0) == {};
    assert TaskDeps(lay, units, [v], t1) == if chained then {t0} else {} by {
      if chained {
        assert [v][0].deps[0] == u.id;
      }
    }
  }
}
