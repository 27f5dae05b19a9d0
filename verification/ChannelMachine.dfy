/** Any number of producers, consumers and closers of one channel, on top of the journey runtime.
    The mutex that get keeps through its yield is explicit; the other critical sections are single
    steps that need the mutex free. What happens after a critical section (the hand-off of put, the
    loop of close) is made of steps of its own. Runs in which an event interrupts a get are left out. */
module ChannelMachine {
  import opened Prelude
  import opened ChannelValue
  import R = Runtime
  import opened Tokens
  import opened Lifecycle

  type Jid = R.Jid
  type Tid = R.Tid

  /** What an OS thread is in the middle of, inside the channel. */
  datatype Op<T> =
    | Parking(j: Jid)          // get: the waiter is pushed; switch and deferred handler are to come
    | Unlocking                // the deferred handler has stored the proceed handler
    | Handing(j: Jid, v: T)    // put: a waiter was popped; its proceed is to come
    | Closing(js: seq<Jid>)    // close: waiters still to proceed

  /** The operations of a plain queue, in the order of their critical sections. */
  datatype Label<T> = Putting(v: T) | Got(j: Jid, v: T) | Failed(j: Jid) | Closes | Opens

  datatype State<T> = State(
    rt: R.State,
    chan: Chan<Jid, T>,
    mutex: Option<Tid>,
    ops: map<Tid, Op<T>>,
    armed: set<Jid>,                  // waiters whose proceed handler is stored and not called yet
    answered: map<Jid, Option<T>>,    // readers that were told to proceed and have not returned
    log: seq<Label<T>>,
    results: seq<(Jid, Option<T>)>,   // what calls of get returned
    fault: bool)

  datatype Event<T> =
    | Rt(e: R.Event)
    | Put(t: Tid, v: T)
    | HandOver(t: Tid)
    | Get(t: Tid)
    | Arm(t: Tid)
    | Unlock(t: Tid)
    | GetReturn(t: Tid)
    | Close(t: Tid)
    | CloseNext(t: Tid)
    | Open(t: Tid)

  /** The deferred handler of get, as a program of the runtime. */
  const GET_HANDLER := R.Program(0)

  /** Thread t may call the channel: a body that is not inside get, a deferred handler, or a thread
      that belongs to no pool. */
  ghost predicate CanCall<T>(s: State<T>, t: Tid) {
    && t !in s.ops && s.mutex.None?
    && (t in s.rt.threads ==>
          (s.rt.threads[t].InCoro? && s.rt.threads[t].j !in s.answered) || s.rt.threads[t].Handling?)
  }

  ghost predicate CanGet<T>(s: State<T>, t: Tid) {
    && CanCall(s, t) && R.RunsBody(s.rt, t) && s.rt.threads[t].j in s.rt.live && s.rt.threads[t].j in s.rt.goer
    && !R.Deliverable(s.rt.live[s.rt.threads[t].j], s.rt.goer[s.rt.threads[t].j], false)
  }

  /** A runtime step that is not part of a channel operation. */
  ghost predicate Foreign<T>(s: State<T>, e: R.Event) {
    && (ThreadOf(e).Some? && ThreadOf(e).value in s.ops ==>
          s.ops[ThreadOf(e).value].Parking? && (e.Return? || e.Exit?))
    && (ThreadOf(e).Some? && R.RunsBody(s.rt, ThreadOf(e).value) ==> s.rt.threads[ThreadOf(e).value].j !in s.answered)
    && (e.Proceed? && e.caller.Holder? ==> e.target !in s.armed)
  }

  ghost predicate Enabled<T>(s: State<T>, e: Event<T>) {
    !s.fault && s.rt.fault.None? &&
    match e
    case Rt(r) => R.Enabled(s.rt, r) && R.Disciplined(r) && Foreign(s, r)
    case Put(t, _) => CanCall(s, t)
    case HandOver(t) => t in s.ops && s.ops[t].Handing?
    case Get(t) => CanGet(s, t)
    case Arm(t) => t in s.ops && s.ops[t].Parking? && R.Enabled(s.rt, R.Publish(t))
    case Unlock(t) => t in s.ops && s.ops[t].Unlocking?
    case GetReturn(t) =>
      && t !in s.ops && R.RunsBody(s.rt, t) && s.rt.threads[t].j in s.answered
      && s.rt.threads[t].j in s.rt.live && s.rt.threads[t].j in s.rt.goer
      && !R.Deliverable(s.rt.live[s.rt.threads[t].j], s.rt.goer[s.rt.threads[t].j], false)
    case Close(t) => CanCall(s, t)
    case CloseNext(t) => t in s.ops && s.ops[t].Closing?
    case Open(t) => CanCall(s, t)
  }

  ghost function Without<T>(s: State<T>, t: Tid): State<T> {
    s.(ops := s.ops - {t})
  }

  function Failures<T>(js: seq<Jid>): (ls: seq<Label<T>>)
    ensures |ls| == |js| && forall i :: 0 <= i < |js| ==> ls[i] == Failed(js[i])
  {
    if js == [] then [] else [Failed(js[0])] + Failures(js[1..])
  }

  /** Waiter::proceed: the answer is written and the stored proceed handler called. */
  ghost function Answer<T>(s: State<T>, j: Jid, a: Option<T>): State<T> {
    if j !in s.armed || !R.Enabled(s.rt, R.Proceed(R.Holder, j)) then s.(fault := true)
    else s.(rt := R.Apply(s.rt, R.Proceed(R.Holder, j)), armed := s.armed - {j}, answered := s.answered[j := a])
  }

  ghost function ApplyPut<T>(s: State<T>, t: Tid, v: T): State<T> {
    var s1 := s.(chan := s.chan.Put(v), log := s.log + [Putting(v)]);
    if s.chan.waiters == [] then s1
    else s1.(ops := s.ops[t := Handing(s.chan.waiters[0], v)], log := s1.log + [Got(s.chan.waiters[0], v)])
  }

  ghost function ApplyGet<T>(s: State<T>, t: Tid): State<T>
    requires !s.fault && CanGet(s, t) && s.rt.fault.None?
  {
    var j := s.rt.threads[t].j;
    if s.chan.queue != [] then
      var v := s.chan.queue[0];
      s.(chan := s.chan.Take(), log := s.log + [Got(j, v)], results := s.results + [(j, Some(v))])
    else if s.chan.closed then
      s.(log := s.log + [Failed(j)], results := s.results + [(j, None)])
    else
      s.(rt := R.Apply(s.rt, R.Defer(t, GET_HANDLER, false)),
         chan := s.chan.Park(j), mutex := Some(t), ops := s.ops[t := Parking(j)])
  }

  ghost function ApplyClose<T>(s: State<T>, t: Tid): State<T> {
    if s.chan.closed then s
    else s.(chan := s.chan.Close(), ops := s.ops[t := Closing(s.chan.waiters)],
            log := s.log + [Closes] + Failures(s.chan.waiters))
  }

  ghost function ApplyCloseNext<T>(s: State<T>, t: Tid): State<T>
    requires t in s.ops && s.ops[t].Closing?
  {
    var js := s.ops[t].js;
    if js == [] then Without(s, t) else Answer(s.(ops := s.ops[t := Closing(js[1..])]), js[0], None)
  }

  ghost function Apply<T>(s: State<T>, e: Event<T>): State<T>
    requires Enabled(s, e)
  {
    match e
    case Rt(r) => s.(rt := R.Apply(s.rt, r))
    case Put(t, v) => ApplyPut(s, t, v)
    case HandOver(t) => Answer(Without(s, t), s.ops[t].j, Some(s.ops[t].v))
    case Get(t) => ApplyGet(s, t)
    case Arm(t) =>
      s.(rt := R.Apply(s.rt, R.Publish(t)), armed := s.armed + {s.ops[t].j}, ops := s.ops[t := Unlocking])
    case Unlock(t) => if s.mutex != Some(t) then s.(fault := true) else Without(s, t).(mutex := None)
    case GetReturn(t) =>
      var j := s.rt.threads[t].j;
      s.(results := s.results + [(j, s.answered[j])], answered := s.answered - {j})
    case Close(t) => ApplyClose(s, t)
    case CloseNext(t) => ApplyCloseNext(s, t)
    case Open(t) => s.(chan := s.chan.Open(), log := s.log + [Opens])
  }

  // ---- runs ----

  ghost predicate Legal<T>(s: State<T>, es: seq<Event<T>>)
    decreases |es|
  {
    es == [] || (Enabled(s, es[0]) && Legal(Apply(s, es[0]), es[1..]))
  }

  ghost function Exec<T>(s: State<T>, es: seq<Event<T>>): State<T>
    requires Legal(s, es)
    decreases |es|
  {
    if es == [] then s else Exec(Apply(s, es[0]), es[1..])
  }

  ghost predicate Init<T>(s: State<T>) {
    && R.Init(s.rt) && s.chan == Chan([], [], false) && s.mutex.None? && s.ops == map[] && s.armed == {}
    && s.answered == map[] && s.log == [] && s.results == [] && !s.fault
  }

  // ---- where the waiters are ----

  datatype Spot = InList(i: nat) | InHand(t: Tid) | InClose(t: Tid, i: nat)

  ghost predicate Has<T>(s: State<T>, j: Jid, p: Spot) {
    match p
    case InList(i) => i < |s.chan.waiters| && s.chan.waiters[i] == j
    case InHand(t) => t in s.ops && s.ops[t].Handing? && s.ops[t].j == j
    case InClose(t, i) => t in s.ops && s.ops[t].Closing? && i < |s.ops[t].js| && s.ops[t].js[i] == j
  }

  ghost predicate ParkedNow<T>(s: State<T>, j: Jid) {
    s.mutex.Some? && s.mutex.value in s.ops && s.ops[s.mutex.value] == Parking(j)
  }

  ghost predicate Spots<T>(s: State<T>) {
    && (forall j, p, q {:trigger Has(s, j, p), Has(s, j, q)} :: Has(s, j, p) && Has(s, j, q) ==> p == q)
    && (forall j, p {:trigger Has(s, j, p)} :: Has(s, j, p) ==> j in s.armed || (p == InList(0) && ParkedNow(s, j)))
    && (forall j :: j in s.armed ==> j in s.rt.held && j !in s.answered)
  }

  ghost predicate Lock<T>(s: State<T>) {
    && (forall t :: t in s.ops && (s.ops[t].Parking? || s.ops[t].Unlocking?) ==> s.mutex == Some(t))
    && (s.mutex.Some? ==> s.mutex.value in s.ops && (s.ops[s.mutex.value].Parking? || s.ops[s.mutex.value].Unlocking?))
  }

  /** The thread that parks journey j is between the yield and the call of proceed. */
  ghost predicate Between(rt: R.State, t: Tid, j: Jid) {
    && t in rt.threads && Owns(rt.threads[t], j) && j in rt.live
    && (rt.threads[t].SwitchedBack? || rt.threads[t].Exiting? || rt.threads[t].Handling?)
    && (if rt.threads[t].Handling? then rt.threads[t].code == GET_HANDLER
        else rt.live[j].deferHandler == Some(GET_HANDLER))
  }

  ghost predicate Park<T>(s: State<T>) {
    forall t :: t in s.ops && s.ops[t].Parking? ==>
      && s.chan.waiters != [] && s.chan.waiters[0] == s.ops[t].j
      && s.ops[t].j !in s.armed && s.ops[t].j !in s.answered
      && Between(s.rt, t, s.ops[t].j)
  }

  ghost predicate Struct<T>(s: State<T>) {
    !s.fault && Inv(s.rt) && s.chan.Sane() && Spots(s) && Lock(s) && Park(s)
  }
}
