/** A Waiter and its owner on top of the journey runtime: the right that the owner's deferred handler gets
    travels with the pointer that the handler moves out of the member. */
module BarrierRuntime {
  import opened Prelude
  import R = Runtime
  import opened Tokens
  import Lifecycle
  import B = Barrier

  type Jid = R.Jid
  type Tid = R.Tid

  datatype State = State(rt: R.State, owner: Jid, waiter: B.State, fault: bool)

  datatype Event =
    | Rt(e: R.Event)             // a step that does not belong to the waiter
    | Step(be: B.Event, t: Tid)

  const WAIT_HANDLER := R.Program(1)

  /** The default scheduler. */
  const DEFAULT_SCHED := R.Pool(0)

  /** The owner is suspended in a wait and nobody has proceeded yet. */
  predicate InFlight(w: B.State) {
    w.local || (w.owner.Suspended? && (w.refs > 0 || w.deleting))
  }

  ghost predicate BodyOf(rt: R.State, j: Jid, t: Tid) {
    R.RunsBody(rt, t) && rt.threads[t].j == j
  }

  /** The owner's calls are made by its body, the deferred handler runs on the thread that left the body,
      copies are dropped by anybody. */
  ghost predicate RightThread(s: State, e: B.Event, t: Tid) {
    match e
    case Go => BodyOf(s.rt, s.owner, t)
    case WaitFast => BodyOf(s.rt, s.owner, t)
    case WaitSlow => BodyOf(s.rt, s.owner, t) && !Disturbed(s.rt, s.owner)
    case WaitThrowing => BodyOf(s.rt, s.owner, t) && Disturbed(s.rt, s.owner)
    case Move =>
      t in s.rt.threads && s.rt.threads[t].Handling? && s.rt.threads[t].j == s.owner && R.Enabled(s.rt, R.Publish(t))
    case Return => BodyOf(s.rt, s.owner, t) && !Disturbed(s.rt, s.owner)
    case ReturnThrowing => BodyOf(s.rt, s.owner, t) && Disturbed(s.rt, s.owner)
    case _ => true
  }

  /** handleEvents throws: at the beginning of defer, or when it goes on after the yield. */
  ghost predicate Disturbed(rt: R.State, j: Jid) {
    j in rt.live && j in rt.goer && R.Deliverable(rt.live[j], rt.goer[j], false)
  }

  /** While the right is in flight nobody else has it. */
  ghost predicate Foreign(s: State, r: R.Event) {
    InFlight(s.waiter) && r.Proceed? && r.caller.Holder? ==> r.target != s.owner
  }

  ghost predicate Enabled(s: State, e: Event) {
    !s.fault && s.rt.fault.None? &&
    match e
    case Rt(r) => R.Enabled(s.rt, r) && R.Disciplined(r) && Foreign(s, r)
    case Step(be, t) => B.Enabled(s.waiter, be) && RightThread(s, be, t)
  }

  /** The runtime's share of a step. An empty pointer takes no right along. */
  ghost function RtPart(s: State, e: B.Event, t: Tid): Option<R.Event> {
    match e
    case Go => Some(R.Go(Some(t), DEFAULT_SCHED))
    case WaitSlow => Some(R.Defer(t, WAIT_HANDLER, false))
    case WaitThrowing => Some(R.Defer(t, WAIT_HANDLER, false))
    case ReturnThrowing => Some(R.HandleEvents(t, false))
    case Move => if s.waiter.member then Some(R.Publish(t)) else None
    case Delete => Some(R.Proceed(R.Holder, s.owner))
    case _ => None
  }

  ghost function Apply(s: State, e: Event): State
    requires Enabled(s, e)
  {
    match e
    case Rt(r) => s.(rt := R.Apply(s.rt, r))
    case Step(be, t) =>
      var r := RtPart(s, be, t);
      var s1 := s.(waiter := B.Apply(s.waiter, be));
      if r.None? then s1
      else if !R.Enabled(s.rt, r.value) then s1.(fault := true)
      else s1.(rt := R.Apply(s.rt, r.value))
  }

  ghost predicate Legal(s: State, es: seq<Event>)
    decreases |es|
  {
    es == [] || (Enabled(s, es[0]) && Legal(Apply(s, es[0]), es[1..]))
  }

  ghost function Exec(s: State, es: seq<Event>): State
    requires Legal(s, es)
    decreases |es|
  {
    if es == [] then s else Exec(Apply(s, es[0]), es[1..])
  }

  /** The waiter has just been made, in a state that a run of the runtime has reached. */
  ghost predicate Init(s: State) {
    Inv(s.rt) && s.waiter == B.START && !s.fault
  }

  // ---- the invariant ----

  ghost predicate Right(s: State) {
    && !s.fault && Inv(s.rt)
    && (B.Inv(s.waiter) || B.Emptied(s.waiter))
    && (InFlight(s.waiter) ==> s.owner in s.rt.held)
  }

  /** How a step of the waiter changes the flight of the right. */
  lemma Flight(w: B.State, e: B.Event)
    requires (B.Inv(w) || B.Emptied(w)) && B.Enabled(w, e)
    ensures var w' := B.Apply(w, e);
      && (B.Inv(w') || B.Emptied(w'))
      && (InFlight(w') <==> (InFlight(w) && !e.Delete?) || (e.Move? && w.member))
      && (e.Delete? ==> InFlight(w))
  {
    if B.Inv(w) { B.StepKeeps(w, e); } else { B.EmptiedStep(w, e); }
    if e.Release? { WeightUpdate(w.children, e.i, B.Gone, B.CopyOf); }
  }

  lemma RtKeeps(s: State, r: R.Event)
    requires Right(s) && Enabled(s, Rt(r))
    ensures Right(Apply(s, Rt(r)))
  {
    StepKeeps(s.rt, r);
    if InFlight(s.waiter) { Lifecycle.HeldStays(s.rt, r, s.owner); }
  }

  lemma RtPartKeeps(s: State, e: B.Event, t: Tid)
    requires Right(s) && Enabled(s, Step(e, t)) && RtPart(s, e, t).Some?
    ensures var r := RtPart(s, e, t).value;
      && R.Enabled(s.rt, r) && R.Disciplined(r) && Inv(R.Apply(s.rt, r))
      && (s.owner in s.rt.held && !e.Delete? ==> s.owner in R.Apply(s.rt, r).held)
      && (e.Move? ==> s.owner in R.Apply(s.rt, r).held)
  {
    Flight(s.waiter, e);
    var r := RtPart(s, e, t).value;
    StepKeeps(s.rt, r);
    if s.owner in s.rt.held && !e.Delete? { Lifecycle.HeldStays(s.rt, r, s.owner); }
  }

  /** go creates a journey on the default scheduler. */
  lemma GoCreates(s: State, t: Tid)
    requires Right(s) && Enabled(s, Step(B.Go, t))
    ensures
      var rt := Apply(s, Step(B.Go, t)).rt; var j := s.rt.created + 1;
      j !in s.rt.live && j in rt.live && rt.tasks == s.rt.tasks[s.rt.next := R.Task(j, DEFAULT_SCHED, true)]
  {
    RtPartKeeps(s, B.Go, t);
  }

  /** The deferred handler stores the owner's right if it has a pointer to give it. */
  lemma MoveStores(s: State, t: Tid)
    requires Right(s) && Enabled(s, Step(B.Move, t))
    ensures Apply(s, Step(B.Move, t)).rt.held == if s.waiter.member then s.rt.held + {s.owner} else s.rt.held
  {
  }

  /** The deleter posts the rest of the owner's journey to the scheduler it is on. */
  lemma DeletePosts(s: State, t: Tid)
    requires Right(s) && Enabled(s, Step(B.Delete, t))
    ensures s.owner in s.rt.live
    ensures Apply(s, Step(B.Delete, t)).rt.tasks == s.rt.tasks[s.rt.next := R.Task(s.owner, s.rt.live[s.owner].sched, false)]
  {
    Flight(s.waiter, B.Delete);
    RtPartKeeps(s, B.Delete, t);
    assert At(s.rt, s.owner, ByHolder);
  }

  /** Thread t runs the deferred handler of wait and still has the right. */
  ghost predicate Defers(rt: R.State, j: Jid, t: Tid) {
    && t in rt.threads && rt.threads[t].Handling? && rt.threads[t].j == j
    && rt.threads[t].right && rt.threads[t].code == WAIT_HANDLER
  }

  /** The owner's body is free to call go and wait, in any state, and to go on after a sleep; anybody may end a
      handler or drop a copy. */
  lemma ParticipantsCanStep(s: State, t: Tid)
    requires Right(s)
    ensures s.waiter.owner.Body? && BodyOf(s.rt, s.owner, t) ==>
              && Enabled(s, Step(B.Go, t))
              && Enabled(s, Step(B.Call(s.waiter, Disturbed(s.rt, s.owner)), t))
    ensures s.waiter.owner.Ready? && BodyOf(s.rt, s.owner, t) ==>
              Enabled(s, Step(if Disturbed(s.rt, s.owner) then B.ReturnThrowing else B.Return, t))
    ensures s.waiter.owner.Moved? ==> Enabled(s, Step(B.DropLocal, t))
    ensures s.waiter.owner.Yielding? && Defers(s.rt, s.owner, t) ==> Enabled(s, Step(B.Move, t))
    ensures s.waiter.deleting ==> Enabled(s, Step(B.Delete, t))
    ensures forall i :: 0 <= i < |s.waiter.children| ==>
              && (s.waiter.children[i].Running? ==> Enabled(s, Step(B.End(i), t)))
              && (s.waiter.children[i].Releasing? ==> Enabled(s, Step(B.Release(i), t)))
  {
  }

  /** All that others may not do is to use the owner's right while it is in flight. */
  lemma OthersAreFree(s: State, r: R.Event)
    requires Right(s) && R.Enabled(s.rt, r) && R.Disciplined(r) && r != R.Proceed(R.Holder, s.owner)
    ensures Enabled(s, Rt(r))
  {
  }

  lemma RightStep(s: State, e: Event)
    requires Right(s) && Enabled(s, e)
    ensures Right(Apply(s, e))
  {
    match e
    case Rt(r) => RtKeeps(s, r);
    case Step(be, t) =>
      Flight(s.waiter, be);
      if RtPart(s, be, t).Some? { RtPartKeeps(s, be, t); }
  }

  lemma {:induction false} AlwaysRight(s: State, es: seq<Event>)
    requires Right(s) && Legal(s, es)
    ensures Right(Exec(s, es)) && Exec(s, es).owner == s.owner
    decreases |es|
  {
    if es != [] {
      RightStep(s, es[0]);
      AlwaysRight(Apply(s, es[0]), es[1..]);
    }
  }

  /** In every run, over any number of rounds and amid anything else that journeys do: whenever the deleter
      runs, the owner's right is stored, the owner lives and is suspended, and no check of the runtime
      fails. */
  lemma WaiterKeepsTheRight(s0: State, es: seq<Event>)
    requires Init(s0) && Legal(s0, es)
    ensures
      var s := Exec(s0, es);
      && !s.fault && s.rt.fault.None?
      && (B.Enabled(s.waiter, B.Delete) ==>
            && R.Enabled(s.rt, R.Proceed(R.Holder, s0.owner))
            && s0.owner in s.rt.live && s.rt.live[s0.owner].started && !s.rt.live[s0.owner].running)
  {
    assert Weight([], B.CopyOf) == 0;
    AlwaysRight(s0, es);
    var s := Exec(s0, es);
    if B.Enabled(s.waiter, B.Delete) {
      Flight(s.waiter, B.Delete);
      assert At(s.rt, s.owner, ByHolder);
    }
  }

  /** The runtime's part of such a run is a run of the runtime in which nobody uses a right twice. */
  lemma {:induction false} WaiterIsDisciplined(s: State, es: seq<Event>) returns (rs: seq<R.Event>)
    requires Right(s) && Legal(s, es)
    ensures R.Legal(s.rt, rs) && R.DisciplinedRun(rs) && R.Exec(s.rt, rs) == Exec(s, es).rt
    decreases |es|
  {
    if es == [] {
      rs := [];
    } else {
      RightStep(s, es[0]);
      rs := WaiterIsDisciplined(Apply(s, es[0]), es[1..]);
      var r := if es[0].Rt? then Some(es[0].e) else RtPart(s, es[0].be, es[0].t);
      if r.Some? {
        if es[0].Step? { RtPartKeeps(s, es[0].be, es[0].t); }
        rs := Lifecycle.Prepend(s.rt, r.value, rs);
      }
    }
  }

  /** Whether a call of wait yields or throws, and how a sleep ends, is decided by the owner's events: the
      owner suspends itself exactly in a WaitSlow, and each of the two throwing steps takes out the event. */
  lemma EventsDecide(s: State, e: B.Event, t: Tid)
    requires Right(s) && Enabled(s, Step(e, t)) && (e.WaitSlow? || e.WaitThrowing? || e.Return? || e.ReturnThrowing?)
    ensures s.owner in s.rt.goer
    ensures var rt := Apply(s, Step(e, t)).rt;
      && t in rt.threads && (rt.threads[t].SwitchedBack? <==> e.WaitSlow?) && (R.RunsBody(rt, t) <==> !e.WaitSlow?)
      && s.owner in rt.goer
      && (e.WaitThrowing? || e.ReturnThrowing? ==> s.rt.goer[s.owner] != R.Normal && rt.goer[s.owner] == R.Normal)
      && (e.WaitSlow? || e.Return? ==> rt.goer[s.owner] == s.rt.goer[s.owner])
  {
    assert At(s.rt, s.owner, ByThread(t));
  }
}
