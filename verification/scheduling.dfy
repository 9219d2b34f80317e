/** The task list, its reducer, and the scheduler that decides which tasks are ready. */
module Scheduling {
  import opened OrderedDict
  import opened PlanTypes
  import opened Budgeting

  function TaskEntries(tasks: seq<Task>): (r: seq<Entry<Task>>)
    ensures |r| == |tasks|
    ensures forall i :: 0 <= i < |r| ==> r[i] == Entry(tasks[i].id, tasks[i])
  {
    EntriesBy(tasks, (t: Task) => t.id)
  }

  function Merge(existing: seq<Task>, updates: seq<Task>): seq<Task> {
    Values(PutAll(PutAll([], TaskEntries(existing)), TaskEntries(updates)))
  }

  method PutTasks(byId: seq<Entry<Task>>, tasks: seq<Task>) returns (r: seq<Entry<Task>>)
    ensures r == PutAll(byId, TaskEntries(tasks))
  {
    r := byId;
    ghost var es := TaskEntries(tasks);
    for i := 0 to |tasks|
      invariant r == PutAll(byId, es[..i])
    {
      assert es[..i + 1][..i] == es[..i];
      r := Put(r, tasks[i].id, tasks[i]);
    }
    assert es[..|tasks|] == es;
  }

  /** The reducer's two passes over one dictionary. */
  method MergeTaskLists(existing: seq<Task>, updates: seq<Task>) returns (merged: seq<Task>)
    ensures merged == Merge(existing, updates)
  {
    var byId := PutTasks([], existing);
    byId := PutTasks(byId, updates);
    merged := Values(byId);
  }

  /** The last update for a task, or the task itself. */
  function Updated(t: Task, ups: seq<Task>): Task {
    match LastOf(TaskEntries(ups), t.id)
    case Some(u) => u
    case None => t
  }

  lemma EntriesDistinct(tasks: seq<Task>)
    requires DistinctTasks(tasks)
    ensures Distinct(TaskEntries(tasks)) && PutAll([], TaskEntries(tasks)) == TaskEntries(tasks)
    ensures Values(TaskEntries(tasks)) == tasks
  {
    PutAllDistinct(TaskEntries(tasks));
  }

  /** A fresh plan enters the empty list unchanged. */
  lemma MergeFresh(plan: seq<Task>)
    requires DistinctTasks(plan)
    ensures Merge([], plan) == plan
  {
    EntriesDistinct(plan);
    assert TaskEntries([]) == [];
  }

  /** Merging updates of known tasks keeps the list's ids and order, and each task becomes the last
      update that names it. */
  lemma MergeInPlace(tasks: seq<Task>, ups: seq<Task>)
    requires DistinctTasks(tasks)
    requires forall j :: 0 <= j < |ups| ==> HasTask(tasks, ups[j].id)
    ensures var r := Merge(tasks, ups);
      |r| == |tasks| && forall i :: 0 <= i < |r| ==> r[i] == Updated(tasks[i], ups) && r[i].id == tasks[i].id
  {
    var d, us := TaskEntries(tasks), TaskEntries(ups);
    EntriesDistinct(tasks);
    forall j | 0 <= j < |us| ensures Has(d, us[j].key) {
      var i :| 0 <= i < |tasks| && tasks[i].id == ups[j].id;
      assert d[i].key == us[j].key;
    }
    PutAllInPlace(d, us);
    var e := PutAll(d, us);
    PutAllGet(d, us, "");
    forall i | 0 <= i < |e| ensures e[i].value == Updated(tasks[i], ups) && e[i].value.id == tasks[i].id {
      PutAllGet(d, us, d[i].key);
      GetAt(d, i);
      GetAt(e, i);
      LastOfIn(us, d[i].key);
    }
  }

  /** Merging one update of a known task overwrites that task where it stands. */
  lemma MergeOne(tasks: seq<Task>, i: nat, u: Task)
    requires DistinctTasks(tasks) && i < |tasks| && u.id == tasks[i].id
    ensures Merge(tasks, [u]) == tasks[i := u]
  {
    MergeInPlace(tasks, [u]);
    var es := TaskEntries([u]);
    assert es[..0] == [];
    forall j | 0 <= j < |tasks| ensures Updated(tasks[j], [u]) == tasks[i := u][j] {
      assert LastOf(es, tasks[j].id) == if j == i then Some(u) else LastOf([], tasks[j].id);
    }
  }

  predicate IsWaiting(t: Task) {
    t.status == Pending || t.status == Retrying
  }

  function StatusOf(tasks: seq<Task>, id: string): Option<Status> {
    match LastOf(TaskEntries(tasks), id)
    case Some(t) => Some(t.status)
    case None => None
  }

  predicate DepsMet(tasks: seq<Task>, t: Task) {
    forall d :: d in t.deps ==> StatusOf(tasks, d) == Some(Succeeded)
  }

  function ReadyUpTo(tasks: seq<Task>, n: nat): seq<Task>
    requires n <= |tasks|
  {
    if n == 0 then []
    else
      var rest := ReadyUpTo(tasks, n - 1);
      if IsWaiting(tasks[n - 1]) && DepsMet(tasks, tasks[n - 1]) then rest + [tasks[n - 1]] else rest
  }

  function Ready(tasks: seq<Task>): seq<Task> {
    ReadyUpTo(tasks, |tasks|)
  }

  /** The scheduling loop over a status dictionary. */
  method GetReadyTasks(tasks: seq<Task>) returns (ready: seq<Task>)
    ensures ready == Ready(tasks)
  {
    var statusById: map<string, Status> := map[];
    ghost var es: seq<Entry<Task>> := TaskEntries(tasks);
    for i := 0 to |tasks|
      invariant forall id :: id in statusById <==> LastOf(es[..i], id).Some?
      invariant forall id :: id in statusById ==> statusById[id] == LastOf<Task>(es[..i], id).value.status
    {
      assert es[..i + 1][..i] == es[..i];
      statusById := statusById[tasks[i].id := tasks[i].status];
    }
    assert es[..|tasks|] == es;
    ready := [];
    for i := 0 to |tasks|
      invariant ready == ReadyUpTo(tasks, i)
    {
      if IsWaiting(tasks[i]) && forall d :: d in tasks[i].deps ==> d in statusById && statusById[d] == Succeeded {
        ready := ready + [tasks[i]];
      }
    }
  }

  lemma StatusAt(tasks: seq<Task>, i: nat)
    requires DistinctTasks(tasks) && i < |tasks|
    ensures StatusOf(tasks, tasks[i].id) == Some(tasks[i].status)
  {
    var es := TaskEntries(tasks);
    assert es[i].key == tasks[i].id;
    LastOfIn(es, tasks[i].id);
  }

  lemma {:induction false} ReadyUpToExact(tasks: seq<Task>, n: nat)
    requires DistinctTasks(tasks) && n <= |tasks|
    ensures var r := ReadyUpTo(tasks, n);
      && DistinctTasks(r) && |r| <= n
      && (forall k :: 0 <= k < |r| ==> exists i :: 0 <= i < n && tasks[i] == r[k] && IsWaiting(r[k]) && DepsMet(tasks, r[k]))
      && (r == [] <==> forall i :: 0 <= i < n ==> !(IsWaiting(tasks[i]) && DepsMet(tasks, tasks[i])))
  {
    if n > 0 {
      ReadyUpToExact(tasks, n - 1);
    }
  }

  /** The scheduler finds exactly the waiting tasks whose dependencies have all SUCCEEDED. */
  lemma {:induction false} ReadyHas(tasks: seq<Task>, n: nat, t: Task)
    requires n <= |tasks|
    ensures t in ReadyUpTo(tasks, n) <==> t in tasks[..n] && IsWaiting(t) && DepsMet(tasks, t)
  {
    if n > 0 {
      ReadyHas(tasks, n - 1, t);
      assert tasks[..n] == tasks[..n - 1] + [tasks[n - 1]];
    }
  }

  /** It keeps them in list order. */
  lemma {:induction false} ReadyInOrder(tasks: seq<Task>, n: nat, k: nat, m: nat, i: nat, j: nat)
    requires DistinctTasks(tasks) && n <= |tasks| && i < n && j < n
    requires k < m < |ReadyUpTo(tasks, n)| && ReadyUpTo(tasks, n)[k] == tasks[i] && ReadyUpTo(tasks, n)[m] == tasks[j]
    ensures i < j
  {
    var r := ReadyUpTo(tasks, n - 1);
    ReadyUpToExact(tasks, n - 1);
    if m < |r| {
      var a :| 0 <= a < n - 1 && tasks[a] == r[k];
      var b :| 0 <= b < n - 1 && tasks[b] == r[m];
      ReadyInOrder(tasks, n - 1, k, m, a, b);
    } else {
      var a :| 0 <= a < n - 1 && tasks[a] == r[k];
    }
  }

  /** Nothing can become ready when no task starts waiting and no task becomes SUCCEEDED. */
  lemma StaysIdle(tasks: seq<Task>, after: seq<Task>)
    requires DistinctTasks(tasks) && DistinctTasks(after) && |after| == |tasks|
    requires forall i :: 0 <= i < |tasks| ==>
      && after[i].id == tasks[i].id && after[i].deps == tasks[i].deps
      && (IsWaiting(after[i]) ==> IsWaiting(tasks[i]))
      && (after[i].status == Succeeded ==> tasks[i].status == Succeeded)
    requires Ready(tasks) == []
    ensures Ready(after) == []
  {
    ReadyUpToExact(tasks, |tasks|);
    ReadyUpToExact(after, |after|);
    forall i | 0 <= i < |after| && IsWaiting(after[i]) ensures !DepsMet(after, after[i]) {
      var d :| d in tasks[i].deps && StatusOf(tasks, d) != Some(Succeeded);
      if StatusOf(after, d) == Some(Succeeded) {
        LastOfIn(TaskEntries(after), d);
        var j :| 0 <= j < |after| && after[j].id == d && after[j].status == Succeeded;
        StatusAt(tasks, j);
        assert tasks[j].status == Succeeded;
      }
    }
  }

  // ---- why the scheduler stops ----

  predicate Edge(tasks: seq<Task>, i: nat, j: nat) {
    i < |tasks| && j < |tasks| && tasks[j].id in tasks[i].deps
  }

  predicate IsBlocked(t: Task) {
    t.status == NeedsHuman || t.status == Skipped
  }

  /** A dependency path through waiting tasks, starting at task `i`. */
  predicate WaitingPath(tasks: seq<Task>, i: nat, path: seq<nat>) {
    && |path| >= 1 && path[0] == i
    && (forall k :: 0 <= k < |path| ==> path[k] < |tasks| && IsWaiting(tasks[path[k]]))
    && (forall k :: 0 < k < |path| ==> Edge(tasks, path[k - 1], path[k]))
  }

  predicate Closed(tasks: seq<Task>) {
    forall i, d :: 0 <= i < |tasks| && d in tasks[i].deps ==> HasTask(tasks, d)
  }

  /** Statuses the graph can produce. */
  predicate InUse(s: Status) {
    s == Pending || s == Retrying || s == Succeeded || s == NeedsHuman || s == Skipped
  }

  /** When nothing is ready, a waiting task has a dependency that is waiting too or blocked. */
  lemma UnmetDependency(tasks: seq<Task>, i: nat) returns (j: nat)
    requires DistinctTasks(tasks) && Closed(tasks) && Ready(tasks) == []
    requires i < |tasks| && IsWaiting(tasks[i])
    ensures Edge(tasks, i, j) && tasks[j].status != Succeeded
  {
    ReadyUpToExact(tasks, |tasks|);
    var d :| d in tasks[i].deps && StatusOf(tasks, d) != Some(Succeeded);
    assert HasTask(tasks, d);
    j :| 0 <= j < |tasks| && tasks[j].id == d;
    StatusAt(tasks, j);
  }

  ghost function Unvisited(n: nat, path: seq<nat>): set<nat> {
    set k: nat | k < n && k !in path
  }

  /** Following unmet dependencies leads to a blocked task or back onto the path. */
  lemma Chase(tasks: seq<Task>, i: nat, path: seq<nat>) returns (full: seq<nat>, j: nat)
    requires DistinctTasks(tasks) && Closed(tasks) && Ready(tasks) == []
    requires forall k :: 0 <= k < |tasks| ==> InUse(tasks[k].status)
    requires WaitingPath(tasks, i, path)
    ensures WaitingPath(tasks, i, full) && Edge(tasks, full[|full| - 1], j)
    ensures IsBlocked(tasks[j]) || j in full
    decreases Unvisited(|tasks|, path)
  {
    j := UnmetDependency(tasks, path[|path| - 1]);
    full := path;
    if !IsBlocked(tasks[j]) && j !in path {
      assert j in Unvisited(|tasks|, path) && j !in Unvisited(|tasks|, path + [j]);
      full, j := Chase(tasks, i, path + [j]);
    }
  }

  /** Maximality: when the scheduler finds nothing ready, every waiting task has a dependency path
      through waiting tasks to a blocked task or to a cycle. */
  lemma IdleMeansStuck(tasks: seq<Task>, i: nat)
    requires DistinctTasks(tasks) && Closed(tasks) && Ready(tasks) == []
    requires forall k :: 0 <= k < |tasks| ==> InUse(tasks[k].status)
    requires i < |tasks| && IsWaiting(tasks[i])
    ensures exists path, j: nat ::
        WaitingPath(tasks, i, path) && Edge(tasks, path[|path| - 1], j) && (IsBlocked(tasks[j]) || j in path)
  {
    var path, j := Chase(tasks, i, [i]);
  }

  ghost predicate Acyclic(tasks: seq<Task>, rank: seq<nat>) {
    |rank| == |tasks| && forall i: nat, j: nat :: Edge(tasks, i, j) ==> rank[j] < rank[i]
  }

  lemma {:induction false} RankDescends(tasks: seq<Task>, rank: seq<nat>, i: nat, path: seq<nat>, k: nat)
    requires Acyclic(tasks, rank) && WaitingPath(tasks, i, path) && k < |path|
    ensures rank[path[|path| - 1]] <= rank[path[k]]
    decreases |path| - k
  {
    if k < |path| - 1 {
      assert Edge(tasks, path[k], path[k + 1]);
      RankDescends(tasks, rank, i, path, k + 1);
    }
  }

  /** On an acyclic plan the cause is always a task that needs a human or was skipped. */
  lemma IdleMeansBlocked(tasks: seq<Task>, rank: seq<nat>, i: nat)
    requires DistinctTasks(tasks) && Closed(tasks) && Ready(tasks) == [] && Acyclic(tasks, rank)
    requires forall k :: 0 <= k < |tasks| ==> InUse(tasks[k].status)
    requires i < |tasks| && IsWaiting(tasks[i])
    ensures exists path, j: nat :: WaitingPath(tasks, i, path) && Edge(tasks, path[|path| - 1], j) && IsBlocked(tasks[j])
  {
    var path, j := Chase(tasks, i, [i]);
    if j in path {
      var k :| 0 <= k < |path| && path[k] == j;
      RankDescends(tasks, rank, i, path, k);
      assert false;
    }
  }

  // ---- the router in front of the editors ----

  datatype Route = NoReadyTasks | BudgetExhausted | Send(wave: seq<Task>)

  /** The budget is read twice, so two clock readings. */
  function RouteToEditors(tasks: seq<Task>, b: Ledger, now1: real, now2: real): Route
  {
    var ready := Ready(tasks);
    if ready == [] then NoReadyTasks
    else if Exhausted(b, now1) then BudgetExhausted
    else
      var n := AffordableCalls(b, |ready|, now2);
      Send(if 0 <= n <= |ready| then ready[..n] else ready)
  }

  method FindRoute(tasks: seq<Task>, b: Ledger, now1: real, now2: real) returns (route: Route)
    ensures route == RouteToEditors(tasks, b, now1, now2)
  {
    var ready := GetReadyTasks(tasks);
    if ready == [] {
      return NoReadyTasks;
    }
    if Exhausted(b, now1) {
      return BudgetExhausted;
    }
    AffordableIsLargest(b, |ready|, now2);
    route := Send(ready[..AffordableCalls(b, |ready|, now2)]);
  }

  /** The wave is the prefix of the ready tasks the budget allows. It is empty exactly when the clock
      passes the wall-clock limit between the two reads. */
  lemma RouteExact(tasks: seq<Task>, b: Ledger, now1: real, now2: real)
    requires DistinctTasks(tasks)
    ensures var r := RouteToEditors(tasks, b, now1, now2);
      && (r.NoReadyTasks? <==> Ready(tasks) == [])
      && (r.Send? ==> r.wave == Ready(tasks)[..|r.wave|] && |r.wave| == AffordableCalls(b, |Ready(tasks)|, now2))
      && (r == Send([]) <==> Ready(tasks) != [] && !Exhausted(b, now1) && now2 - b.startedAt >= b.maxSeconds)
  {
    AffordableIsLargest(b, |Ready(tasks)|, now2);
  }
}
