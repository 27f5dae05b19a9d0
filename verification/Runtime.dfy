/** The journey runtime as one machine of interleaved thread steps: thread pools, strands,
    journeys with their coroutine flags and deferred handler, goers and the two global counters.
    Control switches of the coroutine library are single steps; everything else a thread does
    to a journey between two points visible to other threads is one step. */
module Runtime {
  import opened Prelude

  type Jid = nat

  /** A thread pool, or an Alone: a strand served by the threads of one pool. */
  datatype Sched = Pool(pool: nat) | Alone(pool: nat, strand: nat)

  datatype Tid = Tid(pool: nat, number: nat)

  datatype Status = Normal | Cancelled | TimedOut

  /** What was handed to `defer`: the journey's own proceed handler, or any other program. */
  datatype Code = Reschedule | Program(tag: nat)

  /** The fields of a journey and of its coroutine. */
  datatype Journey = Journey(
    sched: Sched,
    started: bool,
    running: bool,
    deferHandler: Option<Code>,
    eventsAllowed: bool)

  /** Where an OS thread is. `on` is the scheduler whose task the thread executes. */
  datatype Thread =
    | Idle
    | Entered(j: Jid, on: Sched, first: bool)   // t_journey is set; start() or resume() comes next
    | InCoro(j: Jid, on: Sched)                 // the body of the journey runs
    | SwitchedBack(j: Jid, on: Sched)           // yield0 has jumped back into jump0
    | Exiting(j: Jid, on: Sched)                // jump0 is over; ~CoroGuard comes next
    | Handling(j: Jid, on: Sched, code: Code, right: bool) // runs the moved deferred handler

  /** A handler posted to a scheduler: the first segment of a journey, or its continuation. */
  datatype Task = Task(j: Jid, sched: Sched, first: bool)

  datatype Fault =
    | ResumeNotStarted | ResumeRunning | StartStarted // the VERIFY checks of start and resume
    | UseAfterDelete
    | DeleteStarted

  datatype State = State(
    live: map<Jid, Journey>,
    goer: map<Jid, Status>,
    threads: map<Tid, Thread>,
    tasks: map<nat, Task>,
    next: nat,            // identifier of the next posted task
    held: set<Jid>,       // journeys whose proceed handler is stored somewhere, not called yet
    lost: set<Jid>,       // journeys whose deferred handler ended without using the proceed handler
    created: nat,
    destroyed: nat,
    fault: Option<Fault>)

  /** Who calls a proceed handler. */
  datatype Caller =
    | Handler(t: Tid)  // the deferred handler itself
    | Holder           // whoever the deferred handler gave it to
    | Stray            // anybody, although the right was used before

  datatype Event =
    | Go(from: Option<Tid>, sched: Sched)
    | Take(t: Tid, task: nat)
    | Jump(t: Tid)
    | HandleEvents(t: Tid, unwinding: bool)
    | DisableEvents(t: Tid, unwinding: bool)
    | EnableEvents(t: Tid, unwinding: bool)
    | Raise(target: Jid, status: Status)
    | Teleport(t: Tid, to: Sched, unwinding: bool)
    | Defer(t: Tid, code: Code, unwinding: bool)
    | Finish(t: Tid)
    | Return(t: Tid)
    | Exit(t: Tid)
    | Publish(t: Tid)
    | Proceed(caller: Caller, target: Jid)
    | Leave(t: Tid)

  // ---- one journey ----

  function NewJourney(sched: Sched): Journey {
    Journey(sched, false, false, None, true)
  }

  /** handleEvents throws exactly in this case. */
  predicate Deliverable(jn: Journey, status: Status, unwinding: bool) {
    jn.eventsAllowed && !unwinding && status != Normal
  }

  // ---- enabledness ----

  ghost predicate RunsBody(s: State, t: Tid) {
    t in s.threads && s.threads[t].InCoro?
  }

  /** A strand runs one handler at a time, in posting order. */
  ghost predicate StrandReady(s: State, id: nat)
    requires id in s.tasks
  {
    && (forall t :: t in s.threads && !s.threads[t].Idle? ==> s.threads[t].on != s.tasks[id].sched)
    && (forall i :: i in s.tasks && s.tasks[i].sched == s.tasks[id].sched ==> id <= i)
  }

  /** A body, or a deferred handler other than the journey's own proceed handler. */
  predicate MaySpawn(th: Thread) {
    th.InCoro? || (th.Handling? && th.code.Program?)
  }

  ghost predicate Enabled(s: State, e: Event) {
    s.fault.None? &&
    match e
    case Go(from, _) => from.Some? ==> from.value in s.threads && MaySpawn(s.threads[from.value])
    case Take(t, id) =>
      && t in s.threads && s.threads[t].Idle? && id in s.tasks
      && t.pool == s.tasks[id].sched.pool
      && (s.tasks[id].sched.Alone? ==> StrandReady(s, id))
    case Jump(t) => t in s.threads && s.threads[t].Entered?
    case HandleEvents(t, _) => RunsBody(s, t)
    case DisableEvents(t, _) => RunsBody(s, t)
    case EnableEvents(t, _) => RunsBody(s, t)
    case Raise(j, st) => j in s.goer && st != Normal
    case Teleport(t, _, _) => RunsBody(s, t)
    case Defer(t, _, _) => RunsBody(s, t)
    case Finish(t) => RunsBody(s, t)
    case Return(t) => t in s.threads && s.threads[t].SwitchedBack?
    case Exit(t) => t in s.threads && s.threads[t].Exiting?
    case Publish(t) => t in s.threads && s.threads[t].Handling? && s.threads[t].right && s.threads[t].code.Program?
    case Proceed(Handler(t), j) => t in s.threads && s.threads[t].Handling? && s.threads[t].right && s.threads[t].j == j
    case Proceed(Holder, j) => j in s.held
    case Proceed(Stray, j) => j in s.goer
    case Leave(t) => t in s.threads && s.threads[t].Handling? && (s.threads[t].code.Reschedule? ==> !s.threads[t].right)
  }

  /** Every deferred handler arranges at most one call of the proceed handler it was given. */
  predicate Disciplined(e: Event) {
    e.Proceed? ==> !e.caller.Stray?
  }

  // ---- effects ----

  ghost function SetThread(s: State, t: Tid, th: Thread): State {
    s.(threads := s.threads[t := th])
  }

  ghost function SetJourney(s: State, j: Jid, jn: Journey): State {
    s.(live := s.live[j := jn])
  }

  ghost function Fail(s: State, f: Fault): State {
    s.(fault := Some(f))
  }

  ghost function Post(s: State, task: Task): State {
    s.(tasks := s.tasks[s.next := task], next := s.next + 1)
  }

  ghost function ApplyGo(s: State, sched: Sched): State {
    var j := s.created + 1;
    Post(s.(live := s.live[j := NewJourney(sched)], goer := s.goer[j := Normal], created := j), Task(j, sched, true))
  }

  ghost function ApplyTake(s: State, t: Tid, id: nat): State
    requires id in s.tasks
  {
    var task := s.tasks[id];
    SetThread(s.(tasks := s.tasks - {id}), t, Entered(task.j, task.sched, task.first))
  }

  /** Coro::start and Coro::resume up to the context switch. */
  ghost function ApplyJump(s: State, t: Tid): State
    requires t in s.threads && s.threads[t].Entered?
  {
    var th := s.threads[t];
    if th.j !in s.live then Fail(s, UseAfterDelete) else
    var jn := s.live[th.j];
    if th.first then
      if jn.started || jn.running then Fail(s, StartStarted)
      else SetThread(SetJourney(s, th.j, jn.(started := true, running := true)), t, InCoro(th.j, th.on))
    else
      if !jn.started then Fail(s, ResumeNotStarted)
      else if jn.running then Fail(s, ResumeRunning)
      else SetThread(SetJourney(s, th.j, jn.(running := true)), t, InCoro(th.j, th.on))
  }

  /** An event is taken and thrown: the body goes on in its exception path. */
  ghost function Deliver(s: State, j: Jid): State {
    s.(goer := s.goer[j := Normal])
  }

  ghost function Suspend(s: State, t: Tid, j: Jid, jn: Journey, code: Code): State
    requires t in s.threads && !s.threads[t].Idle?
  {
    SetThread(SetJourney(s, j, jn.(deferHandler := Some(code))), t, SwitchedBack(j, s.threads[t].on))
  }

  /** What the running body does to its own journey. */
  ghost function ApplyBody(s: State, t: Tid, e: Event): State
    requires RunsBody(s, t)
  {
    var j := s.threads[t].j;
    if j !in s.live || j !in s.goer then Fail(s, UseAfterDelete) else
    var jn := s.live[j];
    match e
    case HandleEvents(_, u) => if Deliverable(jn, s.goer[j], u) then Deliver(s, j) else s
    case DisableEvents(_, u) =>
      if Deliverable(jn, s.goer[j], u) then Deliver(s, j) else SetJourney(s, j, jn.(eventsAllowed := false))
    case EnableEvents(_, u) =>
      var s1 := SetJourney(s, j, jn.(eventsAllowed := true));
      if Deliverable(jn.(eventsAllowed := true), s.goer[j], u) then Deliver(s1, j) else s1
    case Teleport(_, to, u) =>
      if to == jn.sched then s
      else if Deliverable(jn, s.goer[j], u) then Deliver(SetJourney(s, j, jn.(sched := to)), j)
      else Suspend(s, t, j, jn.(sched := to), Reschedule)
    case Defer(_, code, u) =>
      if Deliverable(jn, s.goer[j], u) then Deliver(s, j) else Suspend(s, t, j, jn, code)
    case Finish(_) =>
      SetThread(SetJourney(s, j, jn.(started := false)), t, SwitchedBack(j, s.threads[t].on))
    case _ => s
  }

  /** The rest of jump0 after the context switch. */
  ghost function ApplyReturn(s: State, t: Tid): State
    requires t in s.threads && s.threads[t].SwitchedBack?
  {
    var th := s.threads[t];
    if th.j !in s.live then Fail(s, UseAfterDelete)
    else SetThread(SetJourney(s, th.j, s.live[th.j].(running := false)), t, Exiting(th.j, th.on))
  }

  /** onExit0 up to the call of the moved handler. */
  ghost function ApplyExit(s: State, t: Tid): State
    requires t in s.threads && s.threads[t].Exiting?
  {
    var th := s.threads[t];
    if th.j !in s.live then Fail(s, UseAfterDelete) else
    var jn := s.live[th.j];
    match jn.deferHandler
    case None =>
      if jn.started || jn.running then Fail(s, DeleteStarted)
      else SetThread(s.(live := s.live - {th.j}, destroyed := s.destroyed + 1), t, Idle)
    case Some(code) =>
      SetThread(SetJourney(s, th.j, jn.(deferHandler := None)), t, Handling(th.j, th.on, code, true))
  }

  /** Journey::proceed: post the continuation to the journey's current scheduler. */
  ghost function ApplyProceed(s: State, j: Jid): State {
    if j !in s.live then Fail(s, UseAfterDelete)
    else Post(s, Task(j, s.live[j].sched, false))
  }

  /** The caller of the proceed handler has no right to call it again. */
  ghost function Spend(s: State, caller: Caller, j: Jid): State
    requires caller.Handler? ==> caller.t in s.threads && s.threads[caller.t].Handling?
  {
    match caller
    case Handler(t) => SetThread(s, t, s.threads[t].(right := false))
    case Holder => s.(held := s.held - {j})
    case Stray => s
  }

  ghost function Apply(s: State, e: Event): State
    requires Enabled(s, e)
  {
    match e
    case Go(_, sched) => ApplyGo(s, sched)
    case Take(t, id) => ApplyTake(s, t, id)
    case Jump(t) => ApplyJump(s, t)
    case Raise(j, st) => if s.goer[j] == Normal then s.(goer := s.goer[j := st]) else s
    case Return(t) => ApplyReturn(s, t)
    case Exit(t) => ApplyExit(s, t)
    case Publish(t) =>
      SetThread(s, t, s.threads[t].(right := false)).(held := s.held + {s.threads[t].j})
    case Proceed(caller, j) => ApplyProceed(Spend(s, caller, j), j)
    case Leave(t) =>
      SetThread(s, t, Idle).(lost := if s.threads[t].right then s.lost + {s.threads[t].j} else s.lost)
    case _ => ApplyBody(s, e.t, e)
  }

  // ---- runs ----

  ghost predicate Legal(s: State, es: seq<Event>)
    decreases |es|
  {
    es == [] || (Enabled(s, es[0]) && Legal(Apply(s, es[0]), es[1..]))
  }

  ghost function Exec(s: State, es: seq<Event>): State
    requires Legal(s, es)
    decreases |es|
  {
    if es == [] then s else Exec(Apply(s, es[0]), es[1..])
  }

  ghost predicate DisciplinedRun(es: seq<Event>) {
    forall i :: 0 <= i < |es| ==> Disciplined(es[i])
  }

  /** Nothing has happened yet: only idle threads. */
  ghost predicate Init(s: State) {
    && s.live == map[] && s.goer == map[] && s.tasks == map[] && s.held == {} && s.lost == {}
    && s.created == 0 && s.destroyed == 0 && s.fault.None?
    && forall t :: t in s.threads ==> s.threads[t].Idle?
  }
}
