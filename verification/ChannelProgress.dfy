/** Nobody is forgotten: every operation on the channel that has begun can go on and comes to its end, every
    reader that was popped is told, and every call is one operation of the plain queue. */
module ChannelProgress {
  import opened Prelude
  import opened ChannelValue
  import R = Runtime
  import opened Tokens
  import opened Lifecycle
  import opened ChannelMachine
  import opened ChannelSafety
  import opened ChannelFifo

  // ---- operations in progress ----

  /** How many steps of its own separate a thread from the end of what it does inside the channel. */
  ghost function OpLeft<T>(s: State<T>, t: Tid): nat {
    if t !in s.ops then 0
    else match s.ops[t]
      case Handing(_, _) => 1
      case Closing(js) => |js| + 1
      case _ => HolderLeft(s)
  }

  ghost function OpNext<T>(s: State<T>, t: Tid): Event<T>
    requires t in s.ops && (s.ops[t].Parking? || s.ops[t].Unlocking? ==> s.mutex.Some?)
  {
    match s.ops[t]
    case Handing(_, _) => HandOver(t)
    case Closing(_) => CloseNext(t)
    case _ => HolderNext(s)
  }

  /** A thread inside the channel can always take its next step: nothing that others do or have done stands
      in the way of a hand-off, of the loop of close, or of the way to the unlock. */
  lemma OpCanStep<T>(s: State<T>, t: Tid)
    requires Struct(s) && t in s.ops
    ensures s.ops[t].Parking? || s.ops[t].Unlocking? ==> s.mutex == Some(t)
    ensures Enabled(s, OpNext(s, t)) && StepBy(OpNext(s, t)) == Some(t) && OpLeft(s, t) > 0
  {
    if s.mutex == Some(t) { HolderCanStep(s); }
  }

  /** Each of its steps brings it one nearer to the end; steps of others neither delay nor undo that. */
  lemma OpStep<T>(s: State<T>, t: Tid, e: Event<T>)
    requires Struct(s) && t in s.ops && Enabled(s, e)
    ensures OpLeft(Apply(s, e), t) == OpLeft(s, t) - (if StepBy(e) == Some(t) then 1 else 0)
  {
    if s.mutex == Some(t) {
      HolderStep(s, e);
      HolderOp(s, t, e);
    } else if StepBy(e) == Some(t) {
      OwnOp(s, t, e);
    } else {
      OtherOp(s, t, e);
    }
  }

  lemma HolderOp<T>(s: State<T>, t: Tid, e: Event<T>)
    requires Struct(s) && s.mutex == Some(t) && Enabled(s, e) && NearsUnlock(s, e)
    ensures OpLeft(s, t) == HolderLeft(s) && OpLeft(Apply(s, e), t) == HolderLeft(Apply(s, e))
  {
    StructStep(s, e);
  }

  /** A thread that hands over, or closes, takes the steps of that operation only. */
  lemma OwnOp<T>(s: State<T>, t: Tid, e: Event<T>)
    requires Struct(s) && t in s.ops && (s.ops[t].Handing? || s.ops[t].Closing?) && Enabled(s, e) && StepBy(e) == Some(t)
    ensures e == OpNext(s, t)
    ensures OpLeft(Apply(s, e), t) == OpLeft(s, t) - 1
  {
    if e.CloseNext? && s.ops[t].js != [] {
      AnswerOps(s.(ops := s.ops[t := Closing(s.ops[t].js[1..])]), s.ops[t].js[0], None);
    }
  }

  lemma AnswerOps<T>(s: State<T>, j: Jid, a: Option<T>)
    ensures Answer(s, j, a).ops == s.ops
  {
  }

  lemma OtherOp<T>(s: State<T>, t: Tid, e: Event<T>)
    requires t in s.ops && (s.ops[t].Handing? || s.ops[t].Closing?) && Enabled(s, e) && StepBy(e) != Some(t)
    ensures t in Apply(s, e).ops && Apply(s, e).ops[t] == s.ops[t]
  {
    match e
    case HandOver(u) => AnswerOps(Without(s, u), s.ops[u].j, Some(s.ops[u].v));
    case CloseNext(u) =>
      if s.ops[u].js != [] {
        AnswerOps(s.(ops := s.ops[u := Closing(s.ops[u].js[1..])]), s.ops[u].js[0], None);
      }
    case _ =>
  }

  // ---- a popped reader gets its answer ----

  /** The thread pops nobody any more: it tells the reader that it has popped. */
  ghost function Told<T>(s: State<T>, t: Tid): Option<(Jid, Option<T>)> {
    if t !in s.ops then None
    else match s.ops[t]
      case Handing(j, v) => Some((j, Some(v)))
      case Closing(js) => if js == [] then None else Some((js[0], None))
      case _ => None
  }

  /** Reader j of state s has been told a: the rest of its journey is posted to its scheduler. */
  ghost predicate HasTold<T>(s: State<T>, s': State<T>, j: Jid, a: Option<T>) {
    && j in s.rt.live && s.rt.next !in s.rt.tasks && !s'.fault
    && s'.answered == s.answered[j := a] && s'.armed == s.armed - {j} && s'.results == s.results
    && s'.rt == s.rt.(tasks := s.rt.tasks[s.rt.next := R.Task(j, s.rt.live[j].sched, false)], next := s.rt.next + 1,
                      held := s.rt.held - {j})
    && s'.ops.Keys <= s.ops.Keys
  }

  lemma AnswerTells<T>(s: State<T>, m: State<T>, j: Jid, a: Option<T>)
    requires !s.fault && Inv(s.rt) && j in s.armed && j in s.rt.held && m == s.(ops := m.ops) && m.ops.Keys <= s.ops.Keys
    ensures HasTold(s, Answer(m, j, a), j, a)
  {
    assert At(s.rt, j, ByHolder);
  }

  /** The next step of a put or a close that has popped a reader gives that reader its answer. */
  lemma TellsReader<T>(s: State<T>, t: Tid)
    requires Struct(s) && Told(s, t).Some?
    ensures Enabled(s, OpNext(s, t)) && HasTold(s, Apply(s, OpNext(s, t)), Told(s, t).value.0, Told(s, t).value.1)
  {
    if s.ops[t].Handing? {
      assert Has(s, s.ops[t].j, InHand(t));
      AnswerTells(s, Without(s, t), s.ops[t].j, Some(s.ops[t].v));
    } else {
      var js := s.ops[t].js;
      assert Has(s, js[0], InClose(t, 0));
      AnswerTells(s, s.(ops := s.ops[t := Closing(js[1..])]), js[0], None);
    }
  }

  /** A free thread of the reader's pool, and no event for the reader. */
  ghost predicate CanGoOn<T>(s: State<T>, j: Jid, u: Tid) {
    && u in s.rt.threads && s.rt.threads[u].Idle? && u !in s.ops
    && j in s.rt.live && s.rt.live[j].sched == R.Pool(u.pool)
    && j in s.rt.goer && !R.Deliverable(s.rt.live[j], s.rt.goer[j], false)
  }

  /** From every state in which a reader has been popped, four steps lead to the return of its call of get
      with the value of the put, or with nothing for a close. */
  lemma PoppedReaderReturns<T>(s: State<T>, t: Tid, u: Tid)
    requires Struct(s) && Told(s, t).Some? && CanGoOn(s, Told(s, t).value.0, u)
    ensures
      var es := [OpNext(s, t), Rt(R.Take(u, s.rt.next)), Rt(R.Jump(u)), GetReturn(u)];
      Legal(s, es) && Exec(s, es).results == s.results + [Told(s, t).value] && StepBy(es[0]) == Some(t)
  {
    TellsReader(s, t);
    OpCanStep(s, t);
    StructStep(s, OpNext(s, t));
    var s1 := Apply(s, OpNext(s, t));
    AnsweredReaderReturns(s1, Told(s, t).value.0, u, s.rt.next);
    var es := [OpNext(s, t), Rt(R.Take(u, s.rt.next)), Rt(R.Jump(u)), GetReturn(u)];
    assert es[1..] == [Rt(R.Take(u, s.rt.next)), Rt(R.Jump(u)), GetReturn(u)];
  }

  /** A reader that was told goes on as soon as a thread takes its task, and its call returns the answer. */
  lemma AnsweredReaderReturns<T>(s: State<T>, j: Jid, u: Tid, id: nat)
    requires Struct(s) && j in s.answered && id in s.rt.tasks && s.rt.tasks[id] == R.Task(j, R.Pool(u.pool), false)
    requires CanGoOn(s, j, u)
    ensures
      var es := [Rt(R.Take(u, id)), Rt(R.Jump(u)), GetReturn(u)];
      Legal(s, es) && Exec(s, es).results == s.results + [(j, s.answered[j])]
  {
    assert At(s.rt, j, ByTask(id));
    var s1 := Apply(s, Rt(R.Take(u, id)));
    var s2 := Apply(s1, Rt(R.Jump(u)));
    assert s2.rt.threads[u] == R.InCoro(j, R.Pool(u.pool));
    assert Enabled(s2, GetReturn(u));
    Steps3(s, Rt(R.Take(u, id)), Rt(R.Jump(u)), GetReturn(u));
  }

  lemma Steps3<T>(s: State<T>, e: Event<T>, f: Event<T>, g: Event<T>)
    requires Enabled(s, e) && Enabled(Apply(s, e), f) && Enabled(Apply(Apply(s, e), f), g)
    ensures Legal(s, [e, f, g]) && Exec(s, [e, f, g]) == Apply(Apply(Apply(s, e), f), g)
  {
    var s1, s2 := Apply(s, e), Apply(Apply(s, e), f);
    First(s2, g, []);
    First(s1, f, [g]);
    First(s, e, [f, g]);
    assert [g] + [] == [g] && [f] + [g] == [f, g] && [e] + [f, g] == [e, f, g];
  }

  lemma First<T>(s: State<T>, e: Event<T>, es: seq<Event<T>>)
    requires Enabled(s, e) && Legal(Apply(s, e), es)
    ensures Legal(s, [e] + es) && Exec(s, [e] + es) == Exec(Apply(s, e), es)
  {
    assert ([e] + es)[1..] == es;
  }

  // ---- every call is logged ----

  /** What the calls of put have put, in order. */
  ghost function PutsOf<T>(es: seq<Event<T>>): seq<T> {
    if es == [] then [] else PutBy(es[0]) + PutsOf(es[1..])
  }

  ghost function PutBy<T>(e: Event<T>): seq<T> {
    if e.Put? then [e.v] else []
  }

  /** How often journey j has called get. */
  ghost function GetsOf<T>(s: State<T>, es: seq<Event<T>>, j: Jid): nat
    requires Legal(s, es)
    decreases |es|
  {
    if es == [] then 0 else GetBy(s, es[0], j) + GetsOf(Apply(s, es[0]), es[1..], j)
  }

  ghost function GetBy<T>(s: State<T>, e: Event<T>, j: Jid): nat
    requires Enabled(s, e)
  {
    if e.Get? && s.rt.threads[e.t].j == j then 1 else 0
  }

  lemma {:induction false} PutsFailures<T>(ls: seq<Label<T>>, js: seq<Jid>)
    ensures Puts(ls + Failures(js)) == Puts(ls)
    decreases |js|
  {
    FailuresSplit(ls, js);
    if js != [] {
      PutsSnoc(ls, Failed(js[0]));
      PutsFailures(ls + [Failed(js[0])], js[1..]);
    }
  }

  lemma PutsSnoc<T>(ls: seq<Label<T>>, l: Label<T>)
    ensures Puts(ls + [l]) == Puts(ls) + if l.Putting? then [l.v] else []
  {
    assert (ls + [l])[..|ls|] == ls;
  }

  ghost function PutSoFar<T>(s: State<T>): seq<T> {
    Puts(s.log)
  }

  lemma PutsStep<T>(s: State<T>, e: Event<T>)
    requires Enabled(s, e)
    ensures PutSoFar(Apply(s, e)) == PutSoFar(s) + PutBy(e)
  {
    match e
    case Put(t, v) =>
      PutsSnoc(s.log, Putting(v));
      if s.chan.waiters != [] { PutsSnoc(s.log + [Putting(v)], Got(s.chan.waiters[0], v)); }
    case Get(t) =>
      var j := s.rt.threads[t].j;
      PutsSnoc(s.log, if s.chan.queue != [] then Got(j, s.chan.queue[0]) else Failed(j));
    case Close(t) =>
      PutsSnoc(s.log, Closes);
      PutsFailures(s.log + [Closes], s.chan.waiters);
    case Open(t) => PutsSnoc(s.log, Opens);
    case _ =>
  }

  lemma {:induction false} EveryPutIsLogged<T>(s: State<T>, es: seq<Event<T>>)
    requires Legal(s, es)
    ensures PutSoFar(Exec(s, es)) == PutSoFar(s) + PutsOf(es)
    decreases |es|
  {
    if es != [] {
      PutsStep(s, es[0]);
      EveryPutIsLogged(Apply(s, es[0]), es[1..]);
      Regroup(PutSoFar(s), PutBy(es[0]), PutsOf(es[1..]));
    }
  }

  lemma Regroup<T>(a: seq<T>, b: seq<T>, c: seq<T>)
    ensures (a + b) + c == a + (b + c)
  {
  }

  /** Calls of get of journey j that the queue has answered, and the one that waits. */
  ghost function Asked<T>(s: State<T>, j: Jid): nat {
    |Decided(s.log, j)| + (if j in s.chan.waiters then 1 else 0)
  }

  lemma GetAsks<T>(s: State<T>, t: Tid, j: Jid)
    requires Struct(s) && Enabled(s, Get(t))
    ensures Asked(ApplyGet(s, t), j) == Asked(s, j) + (if s.rt.threads[t].j == j then 1 else 0)
  {
    var r := s.rt.threads[t].j;
    BodyHasNoSpot(s, t);
    if s.chan.queue == [] && !s.chan.closed {
      if r in s.chan.waiters {
        var i :| 0 <= i < |s.chan.waiters| && s.chan.waiters[i] == r;
        assert Has(s, r, InList(i));
      }
    } else {
      DecidedSnoc(s.log, if s.chan.queue != [] then Got(r, s.chan.queue[0]) else Failed(r), j);
    }
  }

  lemma PopIsAnswered<T>(s: State<T>, t: Tid, v: T, j: Jid)
    requires Struct(s)
    ensures Asked(ApplyPut(s, t, v), j) == Asked(s, j)
  {
    PutDecides(s, t, v);
    WaitersDistinct(s);
  }

  lemma CloseAnswers<T>(s: State<T>, t: Tid, j: Jid)
    requires Struct(s)
    ensures Asked(ApplyClose(s, t), j) == Asked(s, j)
  {
    if !s.chan.closed { CloseDecides(s, t); }
  }

  lemma AskedStep<T>(s: State<T>, e: Event<T>, j: Jid)
    requires Struct(s) && Enabled(s, e)
    ensures Asked(Apply(s, e), j) == Asked(s, j) + GetBy(s, e, j)
  {
    match e
    case Put(t, v) => PopIsAnswered(s, t, v, j);
    case Get(t) => GetAsks(s, t, j);
    case Close(t) => CloseAnswers(s, t, j);
    case Open(t) => OpenAsksNobody(s, t, j);
    case _ => SameLog(s, e);
  }

  lemma OpenAsksNobody<T>(s: State<T>, t: Tid, j: Jid)
    requires Enabled(s, Open(t))
    ensures Asked(Apply(s, Open(t)), j) == Asked(s, j)
  {
    DecidedSnoc(s.log, Opens, j);
  }

  lemma SameLog<T>(s: State<T>, e: Event<T>)
    requires Enabled(s, e) && !e.Put? && !e.Get? && !e.Close? && !e.Open?
    ensures Apply(s, e).log == s.log && Apply(s, e).chan == s.chan
  {
  }

  lemma {:induction false} EveryGetIsLogged<T>(s: State<T>, es: seq<Event<T>>, j: Jid)
    requires Struct(s) && Legal(s, es)
    ensures Asked(Exec(s, es), j) == Asked(s, j) + GetsOf(s, es, j)
    decreases |es|
  {
    if es != [] {
      StructStep(s, es[0]);
      AskedStep(s, es[0], j);
      EveryGetIsLogged(Apply(s, es[0]), es[1..], j);
    }
  }

  /** No call is lost: what was put, in order, is what readers were given and what is queued; and each call of
      get of a journey has returned, or has its answer on the way, or waits in the list. */
  lemma NoCallIsLost<T>(s0: State<T>, es: seq<Event<T>>)
    requires Init(s0) && Legal(s0, es)
    ensures
      var s := Exec(s0, es);
      && PutsOf(es) == Gots(s.log) + s.chan.queue
      && (forall j :: GetsOf(s0, es, j) == Asked(s, j))
      && (forall j :: Settled(s, j) && j !in s.chan.waiters ==> GetsOf(s0, es, j) == |Given(s.results, j)|)
  {
    var s := Exec(s0, es);
    ChannelIsFifo(s0, es);
    EveryPutIsLogged(s0, es);
    assert Struct(s0) by { InitHolds(s0); }
    forall j ensures GetsOf(s0, es, j) == Asked(s, j) {
      EveryGetIsLogged(s0, es, j);
    }
  }

  /** Close leaves nobody in the list and the queue as it is, and open just clears the flag. */
  lemma CloseAndOpen<T>(s: State<T>, t: Tid)
    requires Struct(s)
    ensures Enabled(s, Close(t)) ==> Apply(s, Close(t)).chan == Chan([], s.chan.queue, true)
    ensures Enabled(s, Open(t)) ==> Apply(s, Open(t)).chan == s.chan.(closed := false)
  {
  }

  // ---- every run ----

  /** The body that the thread runs has no event to take. */
  ghost predicate Undisturbed(rt: R.State, t: Tid) {
    && R.RunsBody(rt, t) && rt.threads[t].j in rt.live && rt.threads[t].j in rt.goer
    && (rt.live[rt.threads[t].j].eventsAllowed ==> rt.goer[rt.threads[t].j] == R.Normal)
  }

  ghost predicate FreeBody<T>(s: State<T>, t: Tid) {
    t !in s.ops && R.RunsBody(s.rt, t) && s.rt.threads[t].j !in s.answered
  }

  lemma CallsArePossible<T>(s: State<T>, t: Tid)
    requires Struct(s) && s.mutex.None?
    requires FreeBody(s, t) || (t !in s.ops && (t in s.rt.threads ==> s.rt.threads[t].Handling?))
    ensures Enabled(s, Close(t)) && Enabled(s, Open(t)) && forall v :: Enabled(s, Put(t, v))
    ensures FreeBody(s, t) && Undisturbed(s.rt, t) ==> Enabled(s, Get(t))
  {
  }

  /** The channel stands in nobody else's way: whatever a thread that is not inside it can do, it may do, unless
      that is to end a call of get that has not returned, or to use a right that a listed waiter has stored. */
  lemma OthersAreFree<T>(s: State<T>, r: R.Event)
    requires Struct(s) && R.Enabled(s.rt, r) && R.Disciplined(r)
    requires ThreadOf(r).Some? ==> ThreadOf(r).value !in s.ops
    requires ThreadOf(r).Some? && R.RunsBody(s.rt, ThreadOf(r).value) ==> s.rt.threads[ThreadOf(r).value].j !in s.answered
    requires r.Proceed? && r.caller.Holder? ==> r.target !in s.armed
    ensures Enabled(s, Rt(r))
  {
  }

  lemma ReturnIsPossible<T>(s: State<T>, t: Tid)
    requires Struct(s) && t !in s.ops && Undisturbed(s.rt, t) && s.rt.threads[t].j in s.answered
    ensures Enabled(s, GetReturn(t))
  {
  }

  /** In every reachable state: each thread that is inside the channel can take its next step; each of its own
      steps brings it nearer to the end of its operation, and no step of others changes that; and the next step
      of a thread that has popped a reader tells it the value of the put, or the end. */
  lemma NobodyIsForgotten<T>(s0: State<T>, es: seq<Event<T>>)
    requires Init(s0) && Legal(s0, es)
    ensures
      var s := Exec(s0, es);
      && Struct(s)
      && (forall t :: t in s.ops ==> (s.ops[t].Parking? || s.ops[t].Unlocking? ==> s.mutex == Some(t)))
      && (forall t :: t in s.ops ==> Enabled(s, OpNext(s, t)) && StepBy(OpNext(s, t)) == Some(t) && OpLeft(s, t) > 0)
      && (forall t, e :: t in s.ops && Enabled(s, e) ==>
            OpLeft(Apply(s, e), t) == OpLeft(s, t) - (if StepBy(e) == Some(t) then 1 else 0))
      && (forall t :: Told(s, t).Some? ==>
            Apply(s, OpNext(s, t)).answered == s.answered[Told(s, t).value.0 := Told(s, t).value.1])
  {
    var s := Exec(s0, es);
    assert Struct(s) by { InitHolds(s0); AlwaysHolds(s0, es); }
    OpsGoOn(s);
  }

  lemma OpsGoOn<T>(s: State<T>)
    requires Struct(s)
    ensures forall t :: t in s.ops ==> (s.ops[t].Parking? || s.ops[t].Unlocking? ==> s.mutex == Some(t))
    ensures forall t :: t in s.ops ==> Enabled(s, OpNext(s, t)) && StepBy(OpNext(s, t)) == Some(t) && OpLeft(s, t) > 0
    ensures forall t, e :: t in s.ops && Enabled(s, e) ==>
              OpLeft(Apply(s, e), t) == OpLeft(s, t) - (if StepBy(e) == Some(t) then 1 else 0)
    ensures forall t :: Told(s, t).Some? ==>
              Apply(s, OpNext(s, t)).answered == s.answered[Told(s, t).value.0 := Told(s, t).value.1]
  {
    forall t | t in s.ops
      ensures s.ops[t].Parking? || s.ops[t].Unlocking? ==> s.mutex == Some(t)
      ensures Enabled(s, OpNext(s, t)) && StepBy(OpNext(s, t)) == Some(t) && OpLeft(s, t) > 0
    {
      OpCanStep(s, t);
    }
    forall t, e | t in s.ops && Enabled(s, e)
      ensures OpLeft(Apply(s, e), t) == OpLeft(s, t) - (if StepBy(e) == Some(t) then 1 else 0)
    {
      OpStep(s, t, e);
    }
    forall t | Told(s, t).Some?
      ensures Apply(s, OpNext(s, t)).answered == s.answered[Told(s, t).value.0 := Told(s, t).value.1]
    {
      TellsReader(s, t);
    }
  }
}
