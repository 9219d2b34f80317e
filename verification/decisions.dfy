/** Concurrent approve and reject requests against one run: requests queue for the run's lock, the
    holder reads the run and resumes it only when it is paused at the approval gate. The worker that
    started the run and every request take their steps in any interleaving. */
module Decisions {
  import opened OrderedDict
  import opened Workspaces
  import opened RunTypes
  import opened Machine
  import opened Shape
  import opened Publication

  /** Where a request stands: not yet at the lock, waiting, holding it, driving the resumed run, done. */
  datatype Stage = Arriving | Waiting | Holding | Resuming | Answered(code: int)

  datatype Request = Request(approved: bool, feedback: Option<string>, stage: Stage)

  /** The worker drives the run; when the gate comes next it enters the gate, whose interrupt sends it
      away without an update. Requests can read the gate before that. */
  datatype Worker = Driving | EnteringGate | Away

  /** The run as the checkpointer shows it (nothing before the worker starts it), the worker, the run's
      lock, the requests, and which requests have resumed the run so far. */
  datatype World = World(run: Option<State>, worker: Worker, lock: Option<nat>, requests: seq<Request>, resumed: seq<nat>)

  datatype Action =
    | Start(cfg: Config, files: Files)
    | Work(answer: Answer)
    | Interrupt
    | Queue(who: nat)
    | Acquire(who: nat)
    | Read(who: nat)
    | Drive(who: nat, answer: Answer)
    | Finish(who: nat)

  predicate AtGate(s: State) {
    s.node == ApprovalGate
  }

  /** The resume value a request sends. */
  function DecisionOf(r: Request): Json {
    JObject(map["approved" := JBool(r.approved),
                "feedback" := match r.feedback case Some(f) => JString(f) case None => JNull])
  }

  predicate At(w: World, who: nat, stage: Stage) {
    who < |w.requests| && w.requests[who].stage == stage
  }

  /** The worker's invocation returns when the run pauses at the gate or ends. */
  predicate Paused(s: State) {
    AtGate(s) || s.node == End
  }

  function WorkerAt(s: State): Worker {
    if AtGate(s) then EnteringGate else if s.node == End then Away else Driving
  }

  predicate Enabled(w: World, a: Action) {
    match a
    case Start(_, _) => w.run.None?
    case Work(answer) => w.run.Some? && w.worker == Driving && Legal(w.run.value, answer)
    case Interrupt => w.worker == EnteringGate
    case Queue(who) => At(w, who, Arriving)
    case Acquire(who) => At(w, who, Waiting) && w.lock.None?
    case Read(who) => At(w, who, Holding)
    case Drive(who, answer) =>
      && At(w, who, Resuming) && w.run.Some? && Legal(w.run.value, answer)
      && (AtGate(w.run.value) ==> answer == Decided(DecisionOf(w.requests[who])))
    case Finish(who) => At(w, who, Resuming) && w.run.Some? && w.run.value.node == End
  }

  function Moved(w: World, who: nat, stage: Stage): seq<Request>
    requires who < |w.requests|
  {
    w.requests[who := w.requests[who].(stage := stage)]
  }

  /** The answer of a request that leaves without resuming. */
  function Refusal(w: World): int {
    if w.run.None? then 404 else 409
  }

  function Act(w: World, a: Action): World
    requires Enabled(w, a)
  {
    match a
    case Start(cfg, files) => w.(run := Some(Init(cfg, files)), worker := Driving)
    case Work(answer) => w.(run := Some(Step(w.run.value, answer)), worker := WorkerAt(Step(w.run.value, answer)))
    case Interrupt => w.(worker := Away)
    case Queue(who) => w.(requests := Moved(w, who, Waiting))
    case Acquire(who) => w.(requests := Moved(w, who, Holding), lock := Some(who))
    case Read(who) =>
      if w.run.Some? && AtGate(w.run.value) then
        w.(requests := Moved(w, who, Resuming), resumed := w.resumed + [who])
      else
        w.(requests := Moved(w, who, Answered(Refusal(w))), lock := None)
    case Drive(who, answer) => w.(run := Some(Step(w.run.value, answer)))
    case Finish(who) => w.(requests := Moved(w, who, Answered(200)), lock := None)
  }

  ghost predicate Behaviour(w: World, acts: seq<Action>)
    decreases |acts|
  {
    acts == [] || (Enabled(w, acts[0]) && Behaviour(Act(w, acts[0]), acts[1..]))
  }

  ghost function After(w: World, acts: seq<Action>): World
    requires Behaviour(w, acts)
    decreases |acts|
  {
    if acts == [] then w else After(Act(w, acts[0]), acts[1..])
  }

  /** Any number of requests, none at the lock yet; the run not started. */
  predicate Fresh(w: World) {
    && w.run.None? && w.worker == Away && w.lock.None? && w.resumed == []
    && forall i :: 0 <= i < |w.requests| ==> w.requests[i].stage == Arriving
  }

  predicate InLock(r: Request) {
    r.stage == Holding || r.stage == Resuming
  }

  /** The requests and the lock. */
  predicate LockHolds(w: World) {
    && (forall i :: 0 <= i < |w.requests| && InLock(w.requests[i]) ==> w.lock == Some(i))
    && (forall i :: 0 <= i < |w.requests| && w.requests[i].stage == Resuming ==> w.resumed == [i])
    && (forall i :: 0 <= i < |w.requests| && w.requests[i].stage == Answered(200) ==> w.resumed == [i])
    && |w.resumed| <= 1
    && (w.resumed != [] ==>
          && w.run.Some? && w.resumed[0] < |w.requests|
          && (w.requests[w.resumed[0]].stage == Resuming
              || (w.requests[w.resumed[0]].stage == Answered(200) && w.run.value.node == End)))
  }

  /** The gate is only on runs that need approval; the publisher of a decided run at its end was
      called exactly when it was approved. */
  predicate Settled(s: State) {
    && (s.node == RequestApproval || s.node == ApprovalGate || s.h.decisions != [] ==> NeedsApproval(s.cfg))
    && (s.node == PrPublish && s.h.decisions != [] ==> IsApproval(s.h.decisions[0]))
    && (s.node == End && s.h.decisions != [] ==> (s.h.publishCalls != [] <==> IsApproval(s.h.decisions[0])))
  }

  lemma SettledLate(s: State, a: Answer)
    requires Ship(s) && Settled(s) && Late(s.node) && Legal(s, a)
    ensures Settled(Step(s, a))
  {
    match s.node
    case Aggregate =>
    case RequestApproval =>
    case ApprovalGate =>
    case PrPublish =>
  }

  /** Undecided so far, and not behind the aggregation. */
  predicate Undecided(s: State, t: State) {
    t.h.decisions == s.h.decisions && !Drafted(t.node)
  }

  lemma UndecidedDispatch(s: State, now1: real, now2: real, idle: Node)
    requires !Drafted(idle)
    ensures Undecided(s, Dispatch(s, now1, now2, idle))
  {
  }

  lemma UndecidedRouted(s: State, a: Answer)
    requires Legal(s, a) && Routes(s.node)
    ensures Undecided(s, Step(s, a))
  {
    match s.node
    case Synthesis => UndecidedDispatch(Planned(s), a.now1, a.now2, SandboxTest);
    case Reconcile => UndecidedDispatch(Reconciled(s), a.now1, a.now2, SandboxTest);
    case ErrorAnalysis => UndecidedDispatch(Judged(s, a), a.now1, a.now2, End);
  }

  lemma DecisionsLate(s: State, a: Answer)
    requires Legal(s, a) && !Late(s.node)
    ensures Undecided(s, Step(s, a))
  {
    if Routes(s.node) {
      UndecidedRouted(s, a);
    } else {
      match s.node
      case Comprehension =>
      case Editors(_, _) =>
      case SandboxTest =>
      case BudgetAbort =>
    }
  }

  lemma SettledStep(s: State, a: Answer)
    requires Ship(s) && Settled(s) && Legal(s, a)
    ensures Settled(Step(s, a))
  {
    if Late(s.node) {
      SettledLate(s, a);
    } else {
      DecisionsLate(s, a);
    }
  }

  /** The paused run has its one decision exactly when a request has driven it past the gate. */
  ghost predicate RunHolds(w: World) {
    && (w.run.None? ==> w.resumed == [] && w.worker == Away)
    && (w.run.Some? ==>
          var s := w.run.value;
          && Ship(s) && Settled(s)
          && (w.worker == Driving ==> !Paused(s) && w.resumed == [])
          && (w.resumed == [] ==> s.h.decisions == [])
          && (w.worker != Driving && w.resumed == [] ==> Paused(s))
          && (w.resumed != [] ==> s.node == ApprovalGate || s.node == PrPublish || s.node == End)
          && (w.resumed != [] && s.node != ApprovalGate ==>
                w.resumed[0] < |w.requests| && s.h.decisions == [DecisionOf(w.requests[w.resumed[0]])]))
  }

  ghost predicate Sound(w: World) {
    LockHolds(w) && RunHolds(w)
  }

  lemma SoundStart(w: World, cfg: Config, files: Files)
    requires Sound(w) && w.run.None?
    ensures Sound(Act(w, Start(cfg, files)))
  {
  }

  lemma SoundWork(w: World, answer: Answer)
    requires Sound(w) && Enabled(w, Work(answer))
    ensures Sound(Act(w, Work(answer)))
  {
    var s := w.run.value;
    ShipStep(s, answer);
    SettledStep(s, answer);
    NoDecision(s, answer);
  }

  lemma NoDecision(s: State, a: Answer)
    requires Legal(s, a) && s.node != ApprovalGate
    ensures Step(s, a).h.decisions == s.h.decisions
  {
    if !Late(s.node) {
      DecisionsLate(s, a);
    }
  }

  lemma SoundDrive(w: World, who: nat, answer: Answer)
    requires Sound(w) && Enabled(w, Drive(who, answer))
    ensures Sound(Act(w, Drive(who, answer)))
  {
    var s := w.run.value;
    ShipStep(s, answer);
    SettledStep(s, answer);
    GateStep(s, answer);
  }

  /** From the gate on there are at most two steps. */
  lemma GateStep(s: State, a: Answer)
    requires Legal(s, a) && (s.node == ApprovalGate || s.node == PrPublish)
    ensures var t := Step(s, a);
      && (s.node == ApprovalGate ==> (t.node == PrPublish || t.node == End) && t.h.decisions == s.h.decisions + [a.value])
      && (s.node == PrPublish ==> t.node == End && t.h.decisions == s.h.decisions)
  {
  }

  predicate Unmoving(a: Action) {
    a.Interrupt? || a.Queue? || a.Acquire? || a.Read? || a.Finish?
  }

  lemma LockRead(w: World, who: nat)
    requires LockHolds(w) && Enabled(w, Read(who))
    ensures LockHolds(Act(w, Read(who)))
  {
  }

  lemma LockStep(w: World, a: Action)
    requires LockHolds(w) && Enabled(w, a) && Unmoving(a)
    ensures LockHolds(Act(w, a))
  {
    if a.Read? {
      LockRead(w, a.who);
    }
  }

  lemma RunStep(w: World, a: Action)
    requires Sound(w) && Enabled(w, a) && Unmoving(a)
    ensures RunHolds(Act(w, a))
  {
    var v := Act(w, a);
    assert v.run == w.run && (v.worker == Driving <==> w.worker == Driving);
    if a.Read? && v.resumed != w.resumed {
      assert v.resumed == [a.who];
    } else {
      assert v.resumed == w.resumed;
    }
  }

  lemma SoundQueue(w: World, a: Action)
    requires Sound(w) && Enabled(w, a) && Unmoving(a)
    ensures Sound(Act(w, a))
  {
    LockStep(w, a);
    RunStep(w, a);
  }

  lemma SoundAct(w: World, a: Action)
    requires Sound(w) && Enabled(w, a)
    ensures Sound(Act(w, a))
  {
    match a
    case Start(cfg, files) => SoundStart(w, cfg, files);
    case Work(answer) => SoundWork(w, answer);
    case Drive(who, answer) => SoundDrive(w, who, answer);
    case _ => SoundQueue(w, a);
  }

  lemma {:induction false} SoundAfter(w: World, acts: seq<Action>)
    requires Sound(w) && Behaviour(w, acts)
    ensures Sound(After(w, acts))
    decreases |acts|
  {
    if acts != [] {
      SoundAct(w, acts[0]);
      SoundAfter(Act(w, acts[0]), acts[1..]);
    }
  }

  /** What the worker and the requests do to the run, in any interleaving, is a legal run of the graph. */
  ghost predicate Reached(s: State) {
    exists cfg, files, run :: LegalRun(Init(cfg, files), run) && s == Exec(Init(cfg, files), run)
  }

  lemma ReachedInit(cfg: Config, files: Files)
    ensures Reached(Init(cfg, files))
  {
    var run: seq<Answer> := [];
    assert LegalRun(Init(cfg, files), run) && Init(cfg, files) == Exec(Init(cfg, files), run);
  }

  lemma ReachedStep(s: State, a: Answer)
    requires Reached(s) && Legal(s, a)
    ensures Reached(Step(s, a))
  {
    var cfg, files, run :| LegalRun(Init(cfg, files), run) && s == Exec(Init(cfg, files), run);
    ExecSplit(Init(cfg, files), run, [a]);
    OneStep(s, a);
  }

  lemma {:induction false} InterleavingsAreRuns(w: World, acts: seq<Action>)
    requires Behaviour(w, acts) && (w.run.Some? ==> Reached(w.run.value))
    ensures After(w, acts).run.Some? ==> Reached(After(w, acts).run.value)
    decreases |acts|
  {
    if acts != [] {
      match acts[0] {
        case Start(cfg, files) => ReachedInit(cfg, files);
        case Work(answer) => ReachedStep(w.run.value, answer);
        case Drive(_, answer) => ReachedStep(w.run.value, answer);
        case _ =>
      }
      InterleavingsAreRuns(Act(w, acts[0]), acts[1..]);
    }
  }

  /** Publication is safe under every interleaving of any number of requests: the publisher is called
      at most once; at most one request resumes the run, and it is the only one answered 200; the
      publisher of a run that needs approval is called only if the request that resumed it approves. */
  lemma PublicationIsSafe(w: World, acts: seq<Action>)
    requires Fresh(w) && Behaviour(w, acts) && After(w, acts).run.Some?
    ensures var v := After(w, acts);
      var s := v.run.value;
      && |v.resumed| <= 1 && |s.h.publishCalls| <= 1
      && (forall i :: 0 <= i < |v.requests| && v.requests[i].stage == Answered(200) ==> v.resumed == [i] && s.node == End)
      && (s.h.publishCalls != [] && s.cfg.hasRepo && s.cfg.requireApproval ==>
            v.resumed != [] && v.resumed[0] < |v.requests| && v.requests[v.resumed[0]].approved)
  {
    SoundAfter(w, acts);
    SafeNow(After(w, acts));
  }

  lemma SafeNow(v: World)
    requires Sound(v) && v.run.Some?
    ensures var s := v.run.value;
      && |v.resumed| <= 1 && |s.h.publishCalls| <= 1
      && (forall i :: 0 <= i < |v.requests| && v.requests[i].stage == Answered(200) ==> v.resumed == [i] && s.node == End)
      && (s.h.publishCalls != [] && s.cfg.hasRepo && s.cfg.requireApproval ==>
            v.resumed != [] && v.resumed[0] < |v.requests| && v.requests[v.resumed[0]].approved)
  {
  }

  /** A run behind the gate was decided by the request that resumed it, with its own answer and feedback. */
  lemma DecidedByTheHolder(w: World, acts: seq<Action>)
    requires Fresh(w) && Behaviour(w, acts) && After(w, acts).run.Some? && After(w, acts).run.value.h.decisions != []
    ensures var v := After(w, acts);
      && |v.resumed| == 1 && v.resumed[0] < |v.requests|
      && var r := v.requests[v.resumed[0]];
         v.run.value.h.decisions == [JObject(map[
           "approved" := JBool(r.approved),
           "feedback" := if r.feedback.None? then JNull else JString(r.feedback.value)])]
  {
    SoundAfter(w, acts);
    DecidedNow(After(w, acts));
  }

  lemma DecidedNow(v: World)
    requires Sound(v) && v.run.Some? && v.run.value.h.decisions != []
    ensures |v.resumed| == 1 && v.resumed[0] < |v.requests|
    ensures v.run.value.h.decisions == [DecisionOf(v.requests[v.resumed[0]])]
  {
  }

  /** When a request has been answered 200 the run is over, and the publisher was called if and
      only if that request approved. */
  lemma AnsweredMeansSettled(w: World, acts: seq<Action>, who: nat)
    requires Fresh(w) && Behaviour(w, acts) && At(After(w, acts), who, Answered(200))
    ensures var v := After(w, acts);
      v.run.Some? && v.run.value.node == End && (v.run.value.h.publishCalls != [] <==> v.requests[who].approved)
  {
    SoundAfter(w, acts);
    SettledAnswer(After(w, acts), who);
  }

  lemma SettledAnswer(v: World, who: nat)
    requires Sound(v) && At(v, who, Answered(200))
    ensures v.run.Some? && v.run.value.node == End && (v.run.value.h.publishCalls != [] <==> v.requests[who].approved)
  {
  }

  // ---- the first decision stands ----

  /** Nothing about a request that is not its turn changes. */
  predicate Kept(w: World, v: World, who: nat) {
    |v.requests| == |w.requests| && (who < |w.requests| ==>
      v.requests[who].approved == w.requests[who].approved && v.requests[who].feedback == w.requests[who].feedback
      && (w.requests[who].stage.Answered? ==> v.requests[who] == w.requests[who]))
  }

  /** Once some request has resumed the run, no other ever does, and every other request still to be
      answered can only be answered 409. */
  lemma FirstStands(w: World, a: Action, other: nat)
    requires Sound(w) && Enabled(w, a) && w.resumed != [] && other != w.resumed[0]
    ensures var v := Act(w, a);
      && v.resumed == w.resumed && Kept(w, v, other)
      && (other < |w.requests| && !w.requests[other].stage.Answered? && v.requests[other].stage.Answered?
          ==> v.requests[other].stage == Answered(409))
  {
  }

  lemma {:induction false} FirstDecisionStands(w: World, acts: seq<Action>, other: nat)
    requires Sound(w) && Behaviour(w, acts) && w.resumed != [] && other != w.resumed[0]
    requires other < |w.requests| && !w.requests[other].stage.Answered?
    ensures var v := After(w, acts);
      && v.resumed == w.resumed && |v.requests| == |w.requests|
      && (v.requests[other].stage.Answered? ==> v.requests[other].stage == Answered(409))
    decreases |acts|
  {
    if acts != [] {
      var v := Act(w, acts[0]);
      FirstStands(w, acts[0], other);
      SoundAct(w, acts[0]);
      if v.requests[other].stage.Answered? {
        AnswerStays(v, acts[1..], other);
      } else {
        FirstDecisionStands(v, acts[1..], other);
      }
    }
  }

  lemma {:induction false} AnswerStays(w: World, acts: seq<Action>, other: nat)
    requires Sound(w) && Behaviour(w, acts) && w.resumed != [] && other != w.resumed[0]
    requires other < |w.requests| && w.requests[other].stage.Answered?
    ensures After(w, acts).resumed == w.resumed && |After(w, acts).requests| == |w.requests|
    ensures After(w, acts).requests[other] == w.requests[other]
    decreases |acts|
  {
    if acts != [] {
      FirstStands(w, acts[0], other);
      SoundAct(w, acts[0]);
      AnswerStays(Act(w, acts[0]), acts[1..], other);
    }
  }

  /** The decision is that of the first holder of the lock to find the run paused: reading a paused run
      resumes it, and reading one that is not paused (before the gate, or after a decision) never does. */
  lemma FirstHolderDecides(w: World, who: nat)
    requires Sound(w) && Enabled(w, Read(who))
    ensures var v := Act(w, Read(who));
      && (v.resumed != w.resumed <==> w.run.Some? && AtGate(w.run.value))
      && (v.resumed != w.resumed ==> w.resumed == [] && v.resumed == [who])
      && (v.resumed == w.resumed ==> v.requests[who].stage == Answered(if w.run.None? then 404 else 409))
  {
  }
}
