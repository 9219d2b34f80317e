/** What the comprehension and synthesis phases exchange. */
module PlanTypes {
  import opened OrderedDict

  datatype Kind = Endpoint | Service | DataModel | Repository | Middleware | ConfigUnit | Utility

  /** The part of a unit's payload that names other units, one shape per kind of unit. A data model
      carries the type names found in its relationship texts. */
  datatype Payload =
    | EndpointPayload(name: string, callsServices: seq<string>, requestBody: Option<string>, response: Option<string>)
    | ServicePayload(name: string, dependsOn: seq<string>)
    | RepositoryPayload(name: string, targetDataModel: string)
    | DataModelPayload(name: string, relationshipTokens: seq<string>)
    | OtherPayload(name: string)

  datatype RawUnit = RawUnit(kind: Kind, name: string, payload: Payload)

  /** The extractor's answer for one discovered file: an exception, or units and the cost of the call. */
  datatype FileAnswer = ExtractionFailed | Extraction(cost: real, units: seq<RawUnit>)

  datatype SourceFile = SourceFile(path: string, answer: FileAnswer)

  datatype PendingUnit = PendingUnit(raw: RawUnit, path: string, id: string)

  datatype Unit = Unit(id: string, kind: Kind, sourceFile: string, deps: seq<string>, payload: Payload)

  datatype Status = Pending | InProgress | Succeeded | Failed | Retrying | Skipped | NeedsHuman

  datatype Task = Task(id: string, unitIds: seq<string>, path: string, deps: set<string>,
                       status: Status, retries: nat, maxRetries: nat)

  predicate UniqueIds(units: seq<Unit>) {
    forall i, j :: 0 <= i < j < |units| ==> units[i].id != units[j].id
  }

  predicate DistinctTasks(tasks: seq<Task>) {
    forall i, j :: 0 <= i < j < |tasks| ==> tasks[i].id != tasks[j].id
  }

  predicate HasTask(tasks: seq<Task>, id: string) {
    exists i :: 0 <= i < |tasks| && tasks[i].id == id
  }
}

/** Extraction over the discovered files, id assignment and reference resolution. */
module Comprehending {
  import opened OrderedDict
  import opened PlanTypes
  import opened Text

  const KIND_NAMES: seq<string> :=
    ["endpoint", "service", "data_model", "repository", "middleware", "config", "utility"]

  function KindName(k: Kind): string {
    match k
    case Endpoint => KIND_NAMES[0]
    case Service => KIND_NAMES[1]
    case DataModel => KIND_NAMES[2]
    case Repository => KIND_NAMES[3]
    case Middleware => KIND_NAMES[4]
    case ConfigUnit => KIND_NAMES[5]
    case Utility => KIND_NAMES[6]
  }

  function Base(k: Kind, name: string): string {
    KindName(k) + "::" + Slugify(name)
  }

  function Suffixed(base: string, k: nat): string {
    base + "_" + Digits(k)
  }

  lemma SuffixedInjective(base: string, j: nat, k: nat)
    requires Suffixed(base, j) == Suffixed(base, k)
    ensures j == k
  {
    var b := base + "_";
    assert Suffixed(base, j)[|b|..] == Digits(j);
    assert Suffixed(base, k)[|b|..] == Digits(k);
  }

  /** The used ids that are a suffixed form of `base` with suffix `k` or more. */
  ghost function Taken(base: string, k: nat, used: set<string>): set<string> {
    set u | u in used && exists n: nat :: n >= k && u == Suffixed(base, n)
  }

  lemma TakenShrinks(base: string, k: nat, used: set<string>)
    requires Suffixed(base, k) in used
    ensures Taken(base, k + 1, used) < Taken(base, k, used)
  {
    assert Suffixed(base, k) in Taken(base, k, used);
    if Suffixed(base, k) in Taken(base, k + 1, used) {
      var n: nat :| n >= k + 1 && Suffixed(base, k) == Suffixed(base, n);
      SuffixedInjective(base, k, n);
    }
  }

  /** The first free suffixed form from `k` on. The search ends for every finite `used`: each taken
      suffix removes one id from `Taken`, because different suffixes are different ids. */
  function FirstFree(base: string, k: nat, used: set<string>): (id: string)
    ensures id !in used
    ensures exists n: nat :: n >= k && id == Suffixed(base, n) && forall j: nat :: k <= j < n ==> Suffixed(base, j) in used
    decreases Taken(base, k, used)
  {
    if Suffixed(base, k) !in used then
      Suffixed(base, k)
    else
      TakenShrinks(base, k, used);
      FirstFree(base, k + 1, used)
  }

  function FreshId(k: Kind, name: string, used: set<string>): (id: string)
    ensures id !in used
  {
    var base := Base(k, name);
    if base in used then FirstFree(base, 2, used) else base
  }

  /** Adds a fresh id to `used`: the base itself when free, else the base with the least free
      suffix counting from 2. */
  method AssignId(k: Kind, name: string, used: set<string>) returns (id: string, used': set<string>)
    ensures id !in used && used' == used + {id}
    ensures Base(k, name) !in used ==> id == Base(k, name)
    ensures Base(k, name) in used ==>
      exists n: nat :: n >= 2 && id == Suffixed(Base(k, name), n)
        && forall j: nat :: 2 <= j < n ==> Suffixed(Base(k, name), j) in used
    ensures id == FreshId(k, name, used)
  {
    var base := Base(k, name);
    id := base;
    var suffix: nat := 2;
    while id in used
      invariant suffix >= 2
      invariant FreshId(k, name, used) == if id in used then FirstFree(base, suffix, used) else id
      decreases id in used, Taken(base, suffix, used)
    {
      if Suffixed(base, suffix) in used {
        TakenShrinks(base, suffix, used);
      }
      id := Suffixed(base, suffix);
      suffix := suffix + 1;
    }
    used' := used + {id};
  }

  function ReferencedNames(p: Payload): seq<string> {
    match p
    case EndpointPayload(_, calls, body, response) =>
      calls
      + (if body.Some? && body.value != "" then [body.value] else [])
      + (if response.Some? && response.value != "" then [response.value] else [])
    case ServicePayload(_, deps) => deps
    case RepositoryPayload(_, model) => [model]
    case DataModelPayload(_, tokens) => tokens
    case OtherPayload(_) => []
  }

  function Ids(pending: seq<PendingUnit>): set<string> {
    set i | 0 <= i < |pending| :: pending[i].id
  }

  function AddUnits(pending: seq<PendingUnit>, path: string, raws: seq<RawUnit>): seq<PendingUnit> {
    if raws == [] then pending
    else
      var before := AddUnits(pending, path, raws[..|raws| - 1]);
      var raw := raws[|raws| - 1];
      before + [PendingUnit(raw, path, FreshId(raw.kind, raw.name, Ids(before)))]
  }

  datatype Harvest = Harvest(cost: real, pending: seq<PendingUnit>)

  /** Reads files in order while the cost so far is under `remaining`; a failed file costs nothing. */
  function Collect(files: seq<SourceFile>, remaining: real, h: Harvest): Harvest
    decreases |files|
  {
    if files == [] || h.cost >= remaining then h
    else
      match files[0].answer
      case ExtractionFailed => Collect(files[1..], remaining, h)
      case Extraction(cost, units) =>
        Collect(files[1..], remaining, Harvest(h.cost + cost, AddUnits(h.pending, files[0].path, units)))
  }

  /** The id of the first unit whose name matches without regard to case. */
  function Lookup(pending: seq<PendingUnit>, key: string): Option<string> {
    if pending == [] then None
    else if Lower(pending[0].raw.name) == key then Some(pending[0].id)
    else Lookup(pending[1..], key)
  }

  predicate Resolves(pending: seq<PendingUnit>, self: string, name: string) {
    var r := Lookup(pending, Lower(name));
    r.Some? && r.value != self
  }

  function DepsOf(pending: seq<PendingUnit>, self: string, names: seq<string>): seq<string> {
    if names == [] then []
    else
      var rest := DepsOf(pending, self, names[..|names| - 1]);
      var name := names[|names| - 1];
      if Resolves(pending, self, name) then rest + [Lookup(pending, Lower(name)).value] else rest
  }

  function Unresolved(pending: seq<PendingUnit>, self: string, names: seq<string>): seq<(string, string)> {
    if names == [] then []
    else
      var rest := Unresolved(pending, self, names[..|names| - 1]);
      var name := names[|names| - 1];
      if !Resolves(pending, self, name) && name != "" then rest + [(self, name)] else rest
  }

  datatype Comprehension = Comprehension(units: seq<Unit>, cost: real, unresolved: seq<(string, string)>)

  function UnitOf(pending: seq<PendingUnit>, p: PendingUnit): Unit {
    Unit(p.id, p.raw.kind, p.path, DepsOf(pending, p.id, ReferencedNames(p.raw.payload)), p.raw.payload)
  }

  function UnitsOf(pending: seq<PendingUnit>): (r: seq<Unit>)
    ensures |r| == |pending|
    ensures forall i :: 0 <= i < |r| ==> r[i] == UnitOf(pending, pending[i])
  {
    seq(|pending|, i requires 0 <= i < |pending| => UnitOf(pending, pending[i]))
  }

  function AllUnresolved(pending: seq<PendingUnit>, n: nat): seq<(string, string)>
    requires n <= |pending|
  {
    if n == 0 then []
    else AllUnresolved(pending, n - 1)
         + Unresolved(pending, pending[n - 1].id, ReferencedNames(pending[n - 1].raw.payload))
  }

  function Comprehend(files: seq<SourceFile>, remaining: real): Comprehension {
    var h := Collect(files, remaining, Harvest(0.0, []));
    Comprehension(UnitsOf(h.pending), h.cost, AllUnresolved(h.pending, |h.pending|))
  }

  /** The extraction pass: a running cost, the units found so far and the set of used ids. */
  method ExtractFiles(files: seq<SourceFile>, remaining: real) returns (cost: real, pending: seq<PendingUnit>)
    ensures Harvest(cost, pending) == Collect(files, remaining, Harvest(0.0, []))
  {
    hide AddUnits, FreshId;
    cost, pending := 0.0, [];
    var used: set<string> := {};
    var i := 0;
    while i < |files| && cost < remaining
      invariant 0 <= i <= |files|
      invariant used == Ids(pending)
      invariant Collect(files[i..], remaining, Harvest(cost, pending)) == Collect(files, remaining, Harvest(0.0, []))
    {
      assert files[i..][1..] == files[i + 1..];
      if files[i].answer.Extraction? {
        cost := cost + files[i].answer.cost;
        pending, used := AssignIds(pending, used, files[i].path, files[i].answer.units);
      }
      i := i + 1;
    }
  }

  method AssignIds(before: seq<PendingUnit>, taken: set<string>, path: string, raws: seq<RawUnit>)
    returns (pending: seq<PendingUnit>, used: set<string>)
    requires taken == Ids(before)
    ensures pending == AddUnits(before, path, raws) && used == Ids(pending)
  {
    pending, used := before, taken;
    for j := 0 to |raws|
      invariant pending == AddUnits(before, path, raws[..j]) && used == Ids(pending)
    {
      assert raws[..j + 1][..j] == raws[..j];
      var id;
      id, used := AssignId(raws[j].kind, raws[j].name, used);
      IdsAppend(pending, PendingUnit(raws[j], path, id));
      pending := pending + [PendingUnit(raws[j], path, id)];
    }
    assert raws[..|raws|] == raws;
  }

  /** `names` maps each lower-cased unit name to the id of the first unit so named. */
  ghost predicate IsNameTable(names: map<string, string>, pending: seq<PendingUnit>) {
    && (forall key :: key in names <==> Lookup(pending, key).Some?)
    && (forall key :: key in names ==> names[key] == Lookup(pending, key).value)
  }

  method NameTable(pending: seq<PendingUnit>) returns (names: map<string, string>)
    ensures IsNameTable(names, pending)
  {
    names := map[];
    for j := 0 to |pending|
      invariant IsNameTable(names, pending[..j])
    {
      forall key {
        LookupAppend(pending[..j], pending[j], key);
      }
      assert pending[..j + 1] == pending[..j] + [pending[j]];
      var key := Lower(pending[j].raw.name);
      if key !in names {
        names := names[key := pending[j].id];
      }
    }
    assert pending[..|pending|] == pending;
  }

  method ResolveUnit(ghost pending: seq<PendingUnit>, names: map<string, string>, p: PendingUnit)
    returns (deps: seq<string>, unresolved: seq<(string, string)>)
    requires IsNameTable(names, pending)
    ensures deps == DepsOf(pending, p.id, ReferencedNames(p.raw.payload))
    ensures unresolved == Unresolved(pending, p.id, ReferencedNames(p.raw.payload))
  {
    var refs := ReferencedNames(p.raw.payload);
    deps, unresolved := [], [];
    for k := 0 to |refs|
      invariant deps == DepsOf(pending, p.id, refs[..k]) && unresolved == Unresolved(pending, p.id, refs[..k])
    {
      assert refs[..k + 1][..k] == refs[..k];
      var key := Lower(refs[k]);
      if key in names && names[key] != p.id {
        deps := deps + [names[key]];
      } else if refs[k] != "" {
        unresolved := unresolved + [(p.id, refs[k])];
      }
    }
    assert refs[..|refs|] == refs;
  }

  method ResolveAll(pending: seq<PendingUnit>, names: map<string, string>)
    returns (units: seq<Unit>, unresolved: seq<(string, string)>)
    requires IsNameTable(names, pending)
    ensures units == UnitsOf(pending) && unresolved == AllUnresolved(pending, |pending|)
  {
    hide IsNameTable, DepsOf, Unresolved;
    units, unresolved := [], [];
    for j := 0 to |pending|
      invariant |units| == j && forall k :: 0 <= k < j ==> units[k] == UnitOf(pending, pending[k])
      invariant unresolved == AllUnresolved(pending, j)
    {
      var p := pending[j];
      var deps, missing := ResolveUnit(pending, names, p);
      unresolved := unresolved + missing;
      units := units + [Unit(p.id, p.raw.kind, p.path, deps, p.raw.payload)];
    }
  }

  /** The whole orchestration: one pass over the files, the name table, one pass over the units. */
  method RunComprehension(files: seq<SourceFile>, remaining: real) returns (result: Comprehension)
    ensures result == Comprehend(files, remaining)
  {
    var cost, pending := ExtractFiles(files, remaining);
    var names := NameTable(pending);
    var units, unresolved := ResolveAll(pending, names);
    result := Comprehension(units, cost, unresolved);
  }

  lemma IdsAppend(pending: seq<PendingUnit>, p: PendingUnit)
    ensures Ids(pending + [p]) == Ids(pending) + {p.id}
  {
    var all := pending + [p];
    assert all[|pending|] == p;
    forall id | id in Ids(pending) ensures id in Ids(all) {
      var i :| 0 <= i < |pending| && pending[i].id == id;
      assert all[i].id == id;
    }
  }

  lemma {:induction false} LookupAppend(pending: seq<PendingUnit>, p: PendingUnit, key: string)
    ensures Lookup(pending + [p], key) ==
      if Lookup(pending, key).Some? then Lookup(pending, key)
      else if Lower(p.raw.name) == key then Some(p.id) else None
  {
    if pending != [] {
      assert (pending + [p])[1..] == pending[1..] + [p];
      LookupAppend(pending[1..], p, key);
    }
  }

  predicate DistinctIds(pending: seq<PendingUnit>) {
    forall i, j :: 0 <= i < j < |pending| ==> pending[i].id != pending[j].id
  }

  lemma {:induction false} AddUnitsDistinct(pending: seq<PendingUnit>, path: string, raws: seq<RawUnit>)
    requires DistinctIds(pending)
    ensures DistinctIds(AddUnits(pending, path, raws))
  {
    if raws != [] {
      AddUnitsDistinct(pending, path, raws[..|raws| - 1]);
    }
  }

  lemma {:induction false} CollectDistinct(files: seq<SourceFile>, remaining: real, h: Harvest)
    requires DistinctIds(h.pending)
    ensures DistinctIds(Collect(files, remaining, h).pending)
    decreases |files|
  {
    if files != [] && h.cost < remaining {
      match files[0].answer
      case ExtractionFailed => CollectDistinct(files[1..], remaining, h);
      case Extraction(cost, units) =>
        AddUnitsDistinct(h.pending, files[0].path, units);
        CollectDistinct(files[1..], remaining, Harvest(h.cost + cost, AddUnits(h.pending, files[0].path, units)));
    }
  }

  predicate CallsWithin(files: seq<SourceFile>, low: real, high: real) {
    forall i :: 0 <= i < |files| && files[i].answer.Extraction? ==> low <= files[i].answer.cost <= high
  }

  /** Extraction stops before the first file it cannot pay for, so it overshoots by less than one call. */
  lemma {:induction false} CollectOvershoot(files: seq<SourceFile>, remaining: real, h: Harvest, high: real)
    requires CallsWithin(files, 0.0, high) && high >= 0.0
    requires h.cost >= 0.0 && (h.cost < remaining || h.cost < remaining + high)
    ensures 0.0 <= Collect(files, remaining, h).cost
    ensures Collect(files, remaining, h).cost < remaining + high || Collect(files, remaining, h).cost == h.cost
    decreases |files|
  {
    if files != [] && h.cost < remaining {
      assert forall i :: 0 <= i < |files[1..]| ==> files[1..][i] == files[i + 1];
      match files[0].answer
      case ExtractionFailed => CollectOvershoot(files[1..], remaining, h, high);
      case Extraction(cost, units) =>
        CollectOvershoot(files[1..], remaining, Harvest(h.cost + cost, AddUnits(h.pending, files[0].path, units)), high);
    }
  }

  function UnitsIn(f: SourceFile): seq<RawUnit> {
    if f.answer.Extraction? then f.answer.units else []
  }

  function CostIn(f: SourceFile): real {
    if f.answer.Extraction? then f.answer.cost else 0.0
  }

  /** What the extractor found in these files, in order. */
  function Extracted(files: seq<SourceFile>): seq<(string, RawUnit)> {
    if files == [] then [] else Tagged(files[0].path, UnitsIn(files[0])) + Extracted(files[1..])
  }

  function Tagged(path: string, raws: seq<RawUnit>): (r: seq<(string, RawUnit)>)
    ensures |r| == |raws|
  {
    seq(|raws|, i requires 0 <= i < |raws| => (path, raws[i]))
  }

  function CostOf(files: seq<SourceFile>): real {
    if files == [] then 0.0 else CostIn(files[0]) + CostOf(files[1..])
  }

  lemma PrefixParts(files: seq<SourceFile>, k: nat)
    requires k < |files|
    ensures CostOf(files[..k + 1]) == CostIn(files[0]) + CostOf(files[1..][..k])
    ensures Extracted(files[..k + 1]) == Tagged(files[0].path, UnitsIn(files[0])) + Extracted(files[1..][..k])
  {
    assert files[..k + 1][0] == files[0] && files[..k + 1][1..] == files[1..][..k];
  }

  function Origins(pending: seq<PendingUnit>): (r: seq<(string, RawUnit)>)
    ensures |r| == |pending|
    ensures forall i :: 0 <= i < |r| ==> r[i] == (pending[i].path, pending[i].raw)
  {
    seq(|pending|, i requires 0 <= i < |pending| => (pending[i].path, pending[i].raw))
  }

  lemma OriginsAppend(pending: seq<PendingUnit>, p: PendingUnit)
    ensures Origins(pending + [p]) == Origins(pending) + [(p.path, p.raw)]
  {
  }

  lemma TaggedAppend(path: string, raws: seq<RawUnit>, n: nat)
    requires n < |raws|
    ensures Tagged(path, raws[..n + 1]) == Tagged(path, raws[..n]) + [(path, raws[n])]
  {
  }

  lemma {:induction false} AddUnitsOrigins(pending: seq<PendingUnit>, path: string, raws: seq<RawUnit>)
    ensures Origins(AddUnits(pending, path, raws)) == Origins(pending) + Tagged(path, raws)
  {
    if raws != [] {
      var n := |raws| - 1;
      var before := AddUnits(pending, path, raws[..n]);
      AddUnitsOrigins(pending, path, raws[..n]);
      OriginsAppend(before, PendingUnit(raws[n], path, FreshId(raws[n].kind, raws[n].name, Ids(before))));
      TaggedAppend(path, raws, n);
      assert raws[..n + 1] == raws;
    }
  }

  function Read(f: SourceFile, h: Harvest): Harvest {
    if f.answer.Extraction? then Harvest(h.cost + f.answer.cost, AddUnits(h.pending, f.path, f.answer.units)) else h
  }

  lemma ReadAdds(f: SourceFile, h: Harvest)
    ensures Read(f, h).cost == h.cost + CostIn(f)
    ensures Origins(Read(f, h).pending) == Origins(h.pending) + Tagged(f.path, UnitsIn(f))
  {
    AddUnitsOrigins(h.pending, f.path, UnitsIn(f));
  }

  /** How many files are read before the money is used up. */
  function FilesRead(files: seq<SourceFile>, remaining: real, cost: real): (n: nat)
    ensures n <= |files|
  {
    if files == [] || cost >= remaining then 0 else 1 + FilesRead(files[1..], remaining, cost + CostIn(files[0]))
  }

  /** It is the shortest prefix that uses up the money, or all of them. */
  lemma {:induction false} ReadsUntilSpent(files: seq<SourceFile>, remaining: real, cost: real, m: nat)
    ensures var n := FilesRead(files, remaining, cost);
      && (n == |files| || cost + CostOf(files[..n]) >= remaining)
      && (m < n ==> cost + CostOf(files[..m]) < remaining)
    decreases |files|
  {
    assert files[..0] == [];
    if files != [] && cost < remaining {
      var n := FilesRead(files, remaining, cost);
      ReadsUntilSpent(files[1..], remaining, cost + CostIn(files[0]), if m == 0 then 0 else m - 1);
      PrefixParts(files, n - 1);
      if 0 < m < n {
        PrefixParts(files, m - 1);
      }
    }
  }

  lemma CollectOne(files: seq<SourceFile>, remaining: real, h: Harvest)
    requires files != [] && h.cost < remaining
    ensures Collect(files, remaining, h) == Collect(files[1..], remaining, Read(files[0], h))
    ensures FilesRead(files, remaining, h.cost) == 1 + FilesRead(files[1..], remaining, Read(files[0], h).cost)
  {
    ReadAdds(files[0], h);
  }

  /** Extraction keeps every unit found in the files it reads, in order, and nothing else. */
  lemma {:induction false} CollectReadsPrefix(files: seq<SourceFile>, remaining: real, h: Harvest)
    ensures var r, n := Collect(files, remaining, h), FilesRead(files, remaining, h.cost);
      r.cost == h.cost + CostOf(files[..n]) && Origins(r.pending) == Origins(h.pending) + Extracted(files[..n])
    decreases |files|, 1
  {
    if files == [] || h.cost >= remaining {
      assert files[..0] == [];
    } else {
      CollectMore(files, remaining, h);
    }
  }

  lemma CollectMore(files: seq<SourceFile>, remaining: real, h: Harvest)
    requires files != [] && h.cost < remaining
    ensures var r, n := Collect(files, remaining, h), FilesRead(files, remaining, h.cost);
      r.cost == h.cost + CostOf(files[..n]) && Origins(r.pending) == Origins(h.pending) + Extracted(files[..n])
    decreases |files|, 0
  {
    hide *;
    CollectOne(files, remaining, h);
    ReadAdds(files[0], h);
    CollectReadsPrefix(files[1..], remaining, Read(files[0], h));
    PrefixParts(files, FilesRead(files[1..], remaining, Read(files[0], h).cost));
  }

  /** A unit keeps the file, kind and payload it was found with. */
  predicate IsFound(u: Unit, found: (string, RawUnit)) {
    u.sourceFile == found.0 && u.kind == found.1.kind && u.payload == found.1.payload
  }

  lemma UnitsFound(pending: seq<PendingUnit>)
    ensures forall i :: 0 <= i < |pending| ==> IsFound(UnitsOf(pending)[i], Origins(pending)[i])
  {
    hide DepsOf;
  }

  /** Everything the extraction pass harvests. */
  function Gathered(files: seq<SourceFile>, remaining: real): Harvest {
    Collect(files, remaining, Harvest(0.0, []))
  }

  lemma GatheredPrefix(files: seq<SourceFile>, remaining: real)
    ensures var r, n := Gathered(files, remaining), FilesRead(files, remaining, 0.0);
      r.cost == CostOf(files[..n]) && Origins(r.pending) == Extracted(files[..n])
  {
    CollectReadsPrefix(files, remaining, Harvest(0.0, []));
    var none: seq<PendingUnit> := [];
    assert Origins(none) == [];
    hide Collect, Extracted, CostOf, FilesRead, Origins;
  }

  predicate AllFound(units: seq<Unit>, found: seq<(string, RawUnit)>) {
    |units| == |found| && forall i :: 0 <= i < |found| ==> IsFound(units[i], found[i])
  }

  /** One unit for every unit the extractor found in the files that were paid for, in order. */
  lemma UnitsAreExtracted(files: seq<SourceFile>, remaining: real)
    ensures var c, paid := Comprehend(files, remaining), files[..FilesRead(files, remaining, 0.0)];
      c.cost == CostOf(paid) && AllFound(c.units, Extracted(paid))
  {
    GatheredPrefix(files, remaining);
    var pending := Gathered(files, remaining).pending;
    UnitsFound(pending);
    assert AllFound(UnitsOf(pending), Origins(pending));
    hide Collect, Extracted, CostOf, FilesRead, Origins, AllFound, AllUnresolved, UnitsOf;
  }

  lemma {:induction false} LookupIn(pending: seq<PendingUnit>, key: string)
    ensures Lookup(pending, key).Some? ==>
      exists i :: 0 <= i < |pending| && pending[i].id == Lookup(pending, key).value && Lower(pending[i].raw.name) == key
    ensures Lookup(pending, key).None? ==> forall i :: 0 <= i < |pending| ==> Lower(pending[i].raw.name) != key
  {
    if pending != [] {
      LookupIn(pending[1..], key);
      assert forall i :: 0 < i < |pending| ==> pending[i] == pending[1..][i - 1];
      if Lower(pending[0].raw.name) == key {
        assert pending[0].id == Lookup(pending, key).value;
      } else if Lookup(pending, key).Some? {
        var i :| 0 <= i < |pending[1..]| && pending[1..][i].id == Lookup(pending, key).value
                 && Lower(pending[1..][i].raw.name) == key;
        assert pending[i + 1].id == Lookup(pending, key).value;
      }
    }
  }

  /** Every reference is accounted for: a dependency on another unit of that name, or, when it is
      not empty, an ambiguity. Nothing else is a dependency. */
  lemma {:induction false} ReferencesAccounted(pending: seq<PendingUnit>, self: string, names: seq<string>)
    ensures forall d :: d in DepsOf(pending, self, names) <==>
      exists k :: 0 <= k < |names| && Resolves(pending, self, names[k]) && d == Lookup(pending, Lower(names[k])).value
    ensures forall u :: u in Unresolved(pending, self, names) <==>
      exists k :: 0 <= k < |names| && !Resolves(pending, self, names[k]) && names[k] != "" && u == (self, names[k])
  {
    if names != [] {
      var n := |names| - 1;
      ReferencesAccounted(pending, self, names[..n]);
      assert names == names[..n] + [names[n]];
    }
  }

  lemma {:induction false} AllUnresolvedHas(pending: seq<PendingUnit>, n: nat, i: nat, u: (string, string))
    requires i < n <= |pending|
    requires u in Unresolved(pending, pending[i].id, ReferencedNames(pending[i].raw.payload))
    ensures u in AllUnresolved(pending, n)
  {
    if i < n - 1 {
      AllUnresolvedHas(pending, n - 1, i, u);
    }
  }

  /** Unit ids are unique, and every dependency names another produced unit. */
  lemma UnitsWellFormed(files: seq<SourceFile>, remaining: real)
    ensures var units := Comprehend(files, remaining).units;
      && UniqueIds(units)
      && forall i, d :: 0 <= i < |units| && d in units[i].deps ==>
           d != units[i].id && exists k :: 0 <= k < |units| && units[k].id == d
  {
    var units, pending := Comprehend(files, remaining).units, Collect(files, remaining, Harvest(0.0, [])).pending;
    CollectDistinct(files, remaining, Harvest(0.0, []));
    assert forall i :: 0 <= i < |units| ==> units[i].id == pending[i].id;
    forall i, d | 0 <= i < |units| && d in units[i].deps
      ensures d != units[i].id && exists k :: 0 <= k < |units| && units[k].id == d
    {
      var names := ReferencedNames(pending[i].raw.payload);
      ReferencesAccounted(pending, pending[i].id, names);
      var k :| 0 <= k < |names| && Resolves(pending, pending[i].id, names[k]) && d == Lookup(pending, Lower(names[k])).value;
      LookupIn(pending, Lower(names[k]));
    }
  }

  /** The unit at `i` depends on a different unit whose name is `name` up to case. */
  predicate DependsOnNamed(pending: seq<PendingUnit>, i: nat, name: string)
    requires i < |pending|
  {
    exists j :: 0 <= j < |pending| && Lower(pending[j].raw.name) == Lower(name)
      && pending[j].id != pending[i].id && pending[j].id in UnitOf(pending, pending[i]).deps
  }

  /** No reference is lost: every non-empty name a unit references is a dependency on another unit
      of that name, or is recorded as an ambiguity of that unit. */
  lemma NoReferenceLost(pending: seq<PendingUnit>, i: nat, name: string)
    requires i < |pending| && name in ReferencedNames(pending[i].raw.payload) && name != ""
    ensures DependsOnNamed(pending, i, name) || (pending[i].id, name) in AllUnresolved(pending, |pending|)
  {
    var self, names := pending[i].id, ReferencedNames(pending[i].raw.payload);
    var k :| 0 <= k < |names| && names[k] == name;
    ReferencesAccounted(pending, self, names);
    if Resolves(pending, self, name) {
      LookupIn(pending, Lower(name));
      assert Lookup(pending, Lower(name)).value in DepsOf(pending, self, names);
    } else {
      assert (self, name) in Unresolved(pending, self, names);
      AllUnresolvedHas(pending, |pending|, i, (self, name));
    }
  }

  // ---- exactly which references are recorded ----

  lemma {:induction false} AllUnresolvedFrom(pending: seq<PendingUnit>, n: nat, u: (string, string)) returns (i: nat)
    requires n <= |pending| && u in AllUnresolved(pending, n)
    ensures i < n && u in Unresolved(pending, pending[i].id, ReferencedNames(pending[i].raw.payload)) && u.0 == pending[i].id
  {
    var names := ReferencedNames(pending[n - 1].raw.payload);
    if u in Unresolved(pending, pending[n - 1].id, names) {
      i := n - 1;
      ReferencesAccounted(pending, pending[i].id, names);
    } else {
      i := AllUnresolvedFrom(pending, n - 1, u);
    }
  }

  predicate Named(p: PendingUnit, name: string) {
    Lower(p.raw.name) == Lower(name)
  }

  /** The unit at `i` is the first with this name up to case. */
  predicate FirstNamed(pending: seq<PendingUnit>, i: nat, name: string)
    requires i < |pending|
  {
    Named(pending[i], name) && forall j :: 0 <= j < i ==> !Named(pending[j], name)
  }

  predicate NoneNamed(pending: seq<PendingUnit>, name: string) {
    forall j :: 0 <= j < |pending| ==> !Named(pending[j], name)
  }

  lemma {:induction false} LookupFirst(pending: seq<PendingUnit>, i: nat, name: string)
    requires i < |pending| && FirstNamed(pending, i, name)
    ensures Lookup(pending, Lower(name)) == Some(pending[i].id)
  {
    if i > 0 {
      assert !Named(pending[0], name);
      LookupFirst(pending[1..], i - 1, name);
    }
  }

  lemma {:induction false} FirstOf(pending: seq<PendingUnit>, name: string) returns (i: nat)
    requires !NoneNamed(pending, name)
    ensures i < |pending| && FirstNamed(pending, i, name)
  {
    i := 0;
    while !Named(pending[i], name)
      invariant i < |pending| && forall j :: 0 <= j < i ==> !Named(pending[j], name)
      decreases |pending| - i
    {
      i := i + 1;
    }
  }

  /** A reference resolves unless no unit has the name or the unit itself is the first that has it. */
  lemma ResolvesExactly(pending: seq<PendingUnit>, i: nat, name: string)
    requires DistinctIds(pending) && i < |pending|
    ensures Resolves(pending, pending[i].id, name) <==> !NoneNamed(pending, name) && !FirstNamed(pending, i, name)
  {
    if NoneNamed(pending, name) {
      LookupIn(pending, Lower(name));
    } else {
      var j := FirstOf(pending, name);
      LookupFirst(pending, j, name);
    }
  }

  /** Exactly the non-empty references to a name nobody has, or that the unit is itself the first to have,
      are recorded for it. That other units share the name makes no difference. */
  lemma RecordedExactly(pending: seq<PendingUnit>, i: nat, name: string)
    requires DistinctIds(pending) && i < |pending|
    ensures (pending[i].id, name) in AllUnresolved(pending, |pending|) <==>
      && name in ReferencedNames(pending[i].raw.payload) && name != ""
      && (NoneNamed(pending, name) || FirstNamed(pending, i, name))
  {
    var u, names := (pending[i].id, name), ReferencedNames(pending[i].raw.payload);
    ResolvesExactly(pending, i, name);
    ReferencesAccounted(pending, pending[i].id, names);
    if u in AllUnresolved(pending, |pending|) {
      var j := AllUnresolvedFrom(pending, |pending|, u);
      assert j == i;
    }
    if u in Unresolved(pending, pending[i].id, names) {
      AllUnresolvedHas(pending, |pending|, i, u);
    }
  }

  // ---- references, from the payloads to the units ----

  /** The payload names another unit in one of its fields. */
  predicate Mentions(p: Payload, name: string) {
    match p
    case EndpointPayload(_, calls, body, response) =>
      name in calls || (name != "" && (body == Some(name) || response == Some(name)))
    case ServicePayload(_, deps) => name in deps
    case RepositoryPayload(_, model) => name == model
    case DataModelPayload(_, tokens) => name in tokens
    case OtherPayload(_) => false
  }

  lemma NamesAreMentions(p: Payload, name: string)
    ensures name in ReferencedNames(p) <==> Mentions(p, name)
  {
  }

  /** What the extractor found in the files that were paid for. */
  function FoundIn(files: seq<SourceFile>, remaining: real): seq<(string, RawUnit)> {
    Extracted(files[..FilesRead(files, remaining, 0.0)])
  }

  /** The `j`-th find is the first one called `name`, up to case. */
  predicate FirstCalled(found: seq<(string, RawUnit)>, j: nat, name: string) {
    j < |found| && Lower(found[j].1.name) == Lower(name) && forall k :: 0 <= k < j ==> Lower(found[k].1.name) != Lower(name)
  }

  predicate NoneCalled(found: seq<(string, RawUnit)>, name: string) {
    forall k :: 0 <= k < |found| ==> Lower(found[k].1.name) != Lower(name)
  }

  lemma GatheredUnits(files: seq<SourceFile>, remaining: real)
    ensures var pending := Gathered(files, remaining).pending;
      var c, found := Comprehend(files, remaining), FoundIn(files, remaining);
      && DistinctIds(pending) && c.units == UnitsOf(pending) && c.unresolved == AllUnresolved(pending, |pending|)
      && |found| == |pending| && forall k :: 0 <= k < |found| ==> found[k].1 == pending[k].raw
  {
    CollectDistinct(files, remaining, Harvest(0.0, []));
    GatheredPrefix(files, remaining);
    hide Collect, Extracted, CostOf, FilesRead, AllUnresolved, DistinctIds, UnitsOf;
    var pending, found := Gathered(files, remaining).pending, FoundIn(files, remaining);
    assert Origins(pending) == found;
    forall k | 0 <= k < |found| ensures found[k].1 == pending[k].raw {
      assert Origins(pending)[k] == (pending[k].path, pending[k].raw);
    }
  }

  lemma SameFirst(pending: seq<PendingUnit>, found: seq<(string, RawUnit)>, i: nat, name: string)
    requires |found| == |pending| && (forall k :: 0 <= k < |found| ==> found[k].1 == pending[k].raw) && i < |pending|
    ensures FirstNamed(pending, i, name) <==> FirstCalled(found, i, name)
    ensures NoneNamed(pending, name) <==> NoneCalled(found, name)
  {
    assert forall k :: 0 <= k < |found| ==> (Named(pending[k], name) <==> Lower(found[k].1.name) == Lower(name));
    hide Lower;
  }

  lemma DependsOnFirst(pending: seq<PendingUnit>, i: nat, j: nat)
    requires DistinctIds(pending) && i < |pending| && j < |pending|
    ensures pending[j].id in UnitOf(pending, pending[i]).deps <==>
      i != j && exists name :: Mentions(pending[i].raw.payload, name) && FirstNamed(pending, j, name)
  {
    var self, names := pending[i].id, ReferencedNames(pending[i].raw.payload);
    ReferencesAccounted(pending, self, names);
    hide FirstNamed, Mentions, ReferencedNames, DepsOf;
    if pending[j].id in DepsOf(pending, self, names) {
      var k :| 0 <= k < |names| && Resolves(pending, self, names[k]) && pending[j].id == Lookup(pending, Lower(names[k])).value;
      NamesAreMentions(pending[i].raw.payload, names[k]);
      ResolvesExactly(pending, i, names[k]);
      var f := FirstOf(pending, names[k]);
      LookupFirst(pending, f, names[k]);
      assert f == j;
    }
    if name :| i != j && Mentions(pending[i].raw.payload, name) && FirstNamed(pending, j, name) {
      NamesAreMentions(pending[i].raw.payload, name);
      LookupFirst(pending, j, name);
    }
  }

  /** Every dependency comes from the payload, and everything the payload names becomes one: a unit depends on
      another exactly when some field of its payload names it and it is the first unit so called. */
  lemma DependenciesExactly(files: seq<SourceFile>, remaining: real, i: nat, j: nat)
    requires i < |Comprehend(files, remaining).units| && j < |Comprehend(files, remaining).units|
    ensures var units, found := Comprehend(files, remaining).units, FoundIn(files, remaining);
      units[j].id in units[i].deps <==>
        i != j && exists name :: Mentions(units[i].payload, name) && FirstCalled(found, j, name)
  {
    GatheredUnits(files, remaining);
    var pending, found := Gathered(files, remaining).pending, FoundIn(files, remaining);
    hide Collect, DistinctIds, AllUnresolved, FirstCalled, FirstNamed, Mentions, DepsOf, FoundIn, Gathered;
    DependsOnFirst(pending, i, j);
    forall name ensures FirstNamed(pending, j, name) <==> FirstCalled(found, j, name) {
      SameFirst(pending, found, j, name);
    }
  }

  /** And what it names is recorded as not found exactly when it is not empty and no unit is called so, or the
      unit itself is the first that is. */
  lemma AmbiguitiesExactly(files: seq<SourceFile>, remaining: real, i: nat, name: string)
    requires i < |Comprehend(files, remaining).units|
    ensures var c, found := Comprehend(files, remaining), FoundIn(files, remaining);
      (c.units[i].id, name) in c.unresolved <==>
        Mentions(c.units[i].payload, name) && name != "" && (NoneCalled(found, name) || FirstCalled(found, i, name))
  {
    GatheredUnits(files, remaining);
    var pending := Gathered(files, remaining).pending;
    hide Collect, DistinctIds, AllUnresolved, FirstCalled, FirstNamed, NoneCalled, NoneNamed, DepsOf, FoundIn, Gathered;
    RecordedExactly(pending, i, name);
    NamesAreMentions(pending[i].raw.payload, name);
    SameFirst(pending, FoundIn(files, remaining), i, name);
  }

  /** Nothing is recorded for anything but a produced unit. */
  lemma AmbiguitiesOfUnits(files: seq<SourceFile>, remaining: real, u: (string, string)) returns (i: nat)
    requires u in Comprehend(files, remaining).unresolved
    ensures i < |Comprehend(files, remaining).units| && Comprehend(files, remaining).units[i].id == u.0
  {
    GatheredUnits(files, remaining);
    var pending := Gathered(files, remaining).pending;
    i := AllUnresolvedFrom(pending, |pending|, u);
  }

  /** Ids of different kinds differ, and so do those of one kind with different slugs. */
  lemma BaseInjective(k: Kind, name: string, k': Kind, name': string)
    ensures Base(k, name) == Base(k', name') <==> k == k' && Slugify(name) == Slugify(name')
  {
    if Base(k, name) == Base(k', name') {
      KindNamesPlain(k);
      KindNamesPlain(k');
      hide Slugify, KindName;
      SameHead(KindName(k), Slugify(name), KindName(k'), Slugify(name'));
      KindsDiffer(k, k');
    }
  }

  /** A unit's base id: its kind in lower case, two colons and its slug. */
  lemma BaseSpelled(k: Kind, name: string)
    ensures Base(k, name) == (match k
                              case Endpoint => "endpoint::"
                              case Service => "service::"
                              case DataModel => "data_model::"
                              case Repository => "repository::"
                              case Middleware => "middleware::"
                              case ConfigUnit => "config::"
                              case Utility => "utility::") + Words(name, false, false)
  {
    SlugExactly(name);
    var slug := Slugify(name);
    hide Slugify, Words;
    match k {
      case Endpoint => assert "endpoint" + "::" == "endpoint::";
      case Service => assert "service" + "::" == "service::";
      case DataModel => assert "data_model" + "::" == "data_model::";
      case Repository => assert "repository" + "::" == "repository::";
      case Middleware => assert "middleware" + "::" == "middleware::";
      case ConfigUnit => assert "config" + "::" == "config::";
      case Utility => assert "utility" + "::" == "utility::";
    }
  }

  lemma KindNamesPlain(k: Kind)
    ensures ':' !in KindName(k)
  {
  }

  lemma SameHead(a: string, s: string, b: string, t: string)
    requires ':' !in a && ':' !in b && a + "::" + s == b + "::" + t
    ensures a == b && s == t
  {
    var x, y := a + "::" + s, b + "::" + t;
    assert x[|a|] == ':' && y[|b|] == ':';
    assert x[..|a|] == a && y[..|b|] == b;
    assert x[|a| + 2..] == s && y[|b| + 2..] == t;
  }

  lemma KindsDiffer(k: Kind, k': Kind)
    requires KindName(k) == KindName(k')
    ensures k == k'
  {
    assert KindName(k)[0] == KindName(k')[0] && |KindName(k)| == |KindName(k')|;
  }

  const SHARED_NAME: seq<RawUnit> :=
    [RawUnit(Service, "x", ServicePayload("x", [])), RawUnit(Service, "x", ServicePayload("x", [])),
     RawUnit(Service, "y", ServicePayload("y", ["x"]))]

  const SELF_NAMED: seq<RawUnit> := [RawUnit(Service, "x", ServicePayload("x", ["x"]))]

  function JustOne(raws: seq<RawUnit>): seq<SourceFile> {
    [SourceFile("f", Extraction(0.0, raws))]
  }

  lemma OneRead(raws: seq<RawUnit>, remaining: real)
    requires remaining > 0.0
    ensures Gathered(JustOne(raws), remaining).pending == AddUnits([], "f", raws)
  {
    CollectOne(JustOne(raws), remaining, Harvest(0.0, []));
    assert JustOne(raws)[1..] == [];
  }

  lemma OneFile(raws: seq<RawUnit>, remaining: real)
    requires remaining > 0.0
    ensures var pending := AddUnits([], "f", raws);
      && DistinctIds(pending) && |pending| == |raws| && (forall i :: 0 <= i < |raws| ==> pending[i].raw == raws[i])
      && Comprehend(JustOne(raws), remaining).unresolved == AllUnresolved(pending, |raws|)
  {
    OneRead(raws, remaining);
    OneOrigins(raws);
    AddUnitsDistinct([], "f", raws);
    hide AddUnits, Collect, AllUnresolved, UnitsOf, JustOne;
  }

  lemma OneOrigins(raws: seq<RawUnit>)
    ensures var pending := AddUnits([], "f", raws);
      |pending| == |raws| && forall i :: 0 <= i < |raws| ==> pending[i].raw == raws[i]
  {
    AddUnitsOrigins([], "f", raws);
    var pending := AddUnits([], "f", raws);
    assert Origins(pending) == Tagged("f", raws);
    hide AddUnits;
    forall i | 0 <= i < |raws| ensures pending[i].raw == raws[i] {
      assert Origins(pending)[i] == (pending[i].path, pending[i].raw);
    }
  }

  /** A name that two units share is announced as an ambiguity but none is recorded. */
  lemma SharedNameIsNotRecorded(remaining: real)
    requires remaining > 0.0
    ensures Comprehend(JustOne(SHARED_NAME), remaining).unresolved == []
  {
    OneFile(SHARED_NAME, remaining);
    var pending := AddUnits([], "f", SHARED_NAME);
    if AllUnresolved(pending, 3) != [] {
      var u := AllUnresolved(pending, 3)[0];
      var i := AllUnresolvedFrom(pending, 3, u);
      ReferencesAccounted(pending, pending[i].id, ReferencedNames(pending[i].raw.payload));
      RecordedExactly(pending, i, u.1);
    }
  }

  /** A unit that names itself is recorded as naming something that was not found. */
  lemma SelfNameIsRecorded(remaining: real)
    requires remaining > 0.0
    ensures |Comprehend(JustOne(SELF_NAMED), remaining).unresolved| > 0
  {
    OneFile(SELF_NAMED, remaining);
    var pending := AddUnits([], "f", SELF_NAMED);
    assert ReferencedNames(pending[0].raw.payload)[0] == "x";
    RecordedExactly(pending, 0, "x");
    assert FirstNamed(pending, 0, "x");
  }
}
