/** The planning front end as a whole, and how the plan survives the run. */
module FrontEnd {
  import opened PlanTypes
  import opened Workspaces
  import opened Scheduling
  import opened RunTypes
  import opened Machine
  import opened Shape
  import opened Synthesising
  import Attempts
  import Comprehending

  /** From any files the extractor may answer for: the units have unique ids and depend only on other
      units, and the plan of the FastAPI adapter is fresh and the quotient of the units by target path. */
  lemma PlanFromSources(files: seq<SourceFile>, remaining: real)
    ensures var units := Comprehending.Comprehend(files, remaining).units;
      && UniqueIds(units)
      && (forall i, d :: 0 <= i < |units| && d in units[i].deps ==>
            d != units[i].id && exists k :: 0 <= k < |units| && units[k].id == d)
      && FreshPlan(Synthesize(FastApi(), units)) && Quotient(FastApi(), units, Synthesize(FastApi(), units))
      && (units != [] ==> Synthesize(FastApi(), units) != [])
  {
    Comprehending.UnitsWellFormed(files, remaining);
    FastApiInjective();
    PlanIsFresh(FastApi(), Comprehending.Comprehend(files, remaining).units);
    PlanIsQuotient(FastApi(), Comprehending.Comprehend(files, remaining).units);
  }

  /** The task list is still the plan: the same tasks in the same order, with the same dependencies. */
  predicate PlanKept(s: State) {
    !Unplanned(s.node) ==> SameTasks(Synthesize(FastApi(), s.units), s.tasks)
  }

  lemma SameTasksTransitive(a: seq<Task>, b: seq<Task>, c: seq<Task>)
    requires SameTasks(a, b) && SameTasks(b, c)
    ensures SameTasks(a, c)
  {
  }

  lemma PlanStep(s: State, a: Answer)
    requires WellFormed(s) && PlanKept(s) && Legal(s, a) && (s.node == Comprehension ==> s.units == [])
    ensures PlanKept(Step(s, a))
  {
    if s.node == Synthesis {
      PlanMade(s);
      UnitsStay(s, a);
    } else if s.node != Comprehension {
      TasksMove(s, a);
      UnitsStay(s, a);
      SameTasksTransitive(Synthesize(FastApi(), s.units), s.tasks, Step(s, a).tasks);
    }
  }

  lemma PlanMade(s: State)
    requires s.tasks == []
    ensures SameTasks(Synthesize(FastApi(), s.units), Planned(s).tasks) && Planned(s).units == s.units
  {
    FastApiInjective();
    PlanIsFresh(FastApi(), s.units);
    MergeFresh(Synthesize(FastApi(), s.units));
  }

  lemma UnitsStay(s: State, a: Answer)
    requires Legal(s, a) && s.node != Comprehension
    ensures Step(s, a).units == s.units
    ensures s.node == Synthesis ==> Step(s, a).tasks == Planned(s).tasks
  {
  }

  lemma {:induction false} PlanRun(s: State, run: seq<Answer>)
    requires WellFormed(s) && PlanKept(s) && LegalRun(s, run) && (s.node == Comprehension ==> s.units == [])
    ensures PlanKept(Exec(s, run))
    decreases |run|
  {
    if run != [] {
      WellFormedStep(s, run[0]);
      PlanStep(s, run[0]);
      NotAgain(s, run[0]);
      PlanRun(Step(s, run[0]), run[1..]);
    }
  }

  lemma NotAgain(s: State, a: Answer)
    requires Legal(s, a)
    ensures Step(s, a).node != Comprehension
  {
    if Quiet(s.node) {
      QuietStep(s, a);
    } else if s.node.Editors? {
      assert Step(s, a) == RunBranch(s, a);
    }
  }

  /** In every run, once planned, the task list is the plan of the extracted units: no task is ever
      lost, duplicated, merged with another or given other dependencies. */
  lemma PlanIsKept(cfg: Config, files: Files, run: seq<Answer>)
    requires LegalRun(Init(cfg, files), run) && !Unplanned(Exec(Init(cfg, files), run).node)
    ensures SameTasks(Synthesize(FastApi(), Exec(Init(cfg, files), run).units), Exec(Init(cfg, files), run).tasks)
  {
    PlanRun(Init(cfg, files), run);
  }

  /** In every run no id is generated more than four times: a planned task is retried three times at most, and
      nothing else is ever generated. */
  lemma FourAttemptsAtMost(cfg: Config, files: Files, run: seq<Answer>, id: string)
    requires LegalRun(Init(cfg, files), run)
    ensures Exec(Init(cfg, files), run).h.generated[id] <= 4
  {
    Attempts.AttemptLedger(cfg, files, run);
    var s := Exec(Init(cfg, files), run);
    if id in s.h.generated {
      var i :| 0 <= i < |s.tasks| && s.tasks[i].id == id;
      WellFormedRun(Init(cfg, files), run);
      PlanIsKept(cfg, files, run);
      assert s.tasks[i].maxRetries == Synthesize(FastApi(), s.units)[i].maxRetries;
    }
  }
}
