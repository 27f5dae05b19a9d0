/** Liveness of the pool: sleepers in `wait` return, the destructor's joins end, and when the destructor
    has run everything. */
module PoolProgress {
  import opened Prelude
  import opened ThreadPool

  // ---- a measure of the work left ----

  function Cost(w: Worker, work: bool, callers: nat): nat {
    match w
    case InRun => if work then 0 else 2
    case Busy(_) => 3
    case OutRun => 1
    case Notifying => callers + 3
    case Exited => 0
  }

  function CostOf(work: bool, callers: nat): Worker -> nat {
    w => Cost(w, work, callers)
  }

  function AwakeOf(c: Caller): nat {
    if c == Asleep(true) then 1 else 0
  }

  /** An upper bound of the number of steps before everything is at rest. */
  function Left(s: State): nat {
    4 * |s.queue| + Weight(s.workers, CostOf(s.work, |s.callers|)) + Weight(s.callers, AwakeOf)
    + (if s.work then 0 else |s.callers| + 3)
  }

  /** No new task, no new wait, no destructor, and no wake-up without a notification. */
  ghost predicate Quiet(s: State, e: Event)
    requires Enabled(s, e)
  {
    match e
    case Post => false
    case WaitStart(_) => false
    case Destroy => false
    case Wake(k) => s.callers[k].awake
    case _ => true
  }

  lemma LockUsesUp(s: State, w: nat)
    requires Enabled(s, Lock(w))
    ensures Left(Apply(s, Lock(w))) < Left(s)
  {
    var t := Apply(s, Lock(w));
    var n := |s.callers|;
    WeightUpdate(s.workers, w, t.workers[w], CostOf(t.work, n));
    WeightBound(s.workers, CostOf(true, n), CostOf(false, n));
  }

  lemma NotifyUsesUp(s: State, w: nat)
    requires Enabled(s, NotifyAll(w))
    ensures Left(Apply(s, NotifyAll(w))) < Left(s)
  {
    WeightUpdate(s.workers, w, InRun, CostOf(s.work, |s.callers|));
    WeightLength(Apply(s, NotifyAll(w)).callers, AwakeOf);
  }

  lemma WakeUsesUp(s: State, k: nat)
    requires Enabled(s, Wake(k)) && Quiet(s, Wake(k))
    ensures Left(Apply(s, Wake(k))) < Left(s)
  {
    WeightUpdate(s.callers, k, Apply(s, Wake(k)).callers[k], AwakeOf);
  }

  /** A worker that takes a task, returns from a handler, or leaves run(). */
  lemma RunUsesUp(s: State, e: Event)
    requires Inv(s) && Enabled(s, e) && (e.Start? || e.Complete? || e.Leave?)
    ensures Left(Apply(s, e)) < Left(s)
  {
    WeightUpdate(s.workers, e.w, Apply(s, e).workers[e.w], CostOf(s.work, |s.callers|));
  }

  lemma StepUsesUp(s: State, e: Event)
    requires Inv(s) && Enabled(s, e) && Quiet(s, e)
    ensures Left(Apply(s, e)) < Left(s)
  {
    match e
    case Wake(k) => WakeUsesUp(s, k);
    case NotifyAll(w) => NotifyUsesUp(s, w);
    case Lock(w) => LockUsesUp(s, w);
    case _ => RunUsesUp(s, e);
  }

  // ---- progress ----

  ghost predicate AllExited(s: State) {
    forall w :: 0 <= w < |s.workers| ==> s.workers[w].Exited?
  }

  /** Somebody can move: true for one worker in a state where something is still to be done. */
  lemma WorkerMoves(s: State, w: nat)
    requires Inv(s) && w < |s.workers| && !s.workers[w].Exited?
    requires s.workers[w].InRun? ==> s.stopped || s.queue != []
    ensures exists e :: Enabled(s, e) && Quiet(s, e)
  {
    match s.workers[w]
    case InRun =>
      if s.stopped { assert Quiet(s, Leave(w)); } else { assert Quiet(s, Start(w, 0)); }
    case Busy(_) => assert Quiet(s, Complete(w));
    case OutRun => assert Quiet(s, Lock(w));
    case Notifying => assert Quiet(s, NotifyAll(w));
  }

  /** No wake-up is lost: while a caller sleeps in wait, some step is possible that is neither outside
      activity nor a wake-up without a notification. Likewise for the joins of the destructor. */
  lemma NeverStuck(s: State)
    requires Inv(s) && |s.workers| > 0
    requires !AllOut(s) || (s.toStop && !AllExited(s))
    ensures exists e :: Enabled(s, e) && Quiet(s, e)
  {
    if !AllOut(s) && s.work {
      if HasNotifier(s) {
        var w :| 0 <= w < |s.workers| && s.workers[w].Notifying?;
        WorkerMoves(s, w);
      } else {
        var k :| 0 <= k < |s.callers| && s.callers[k].Asleep?;
        assert Quiet(s, Wake(k));
      }
    } else if s.stopped || s.queue != [] {
      var w :| 0 <= w < |s.workers| && !s.workers[w].Exited?;
      WorkerMoves(s, w);
    } else {
      var w :| 0 <= w < |s.workers| && s.workers[w].Busy?;
      WorkerMoves(s, w);
    }
  }

  ghost predicate QuietRun(s: State, es: seq<Event>)
    requires Legal(s, es)
    decreases |es|
  {
    es == [] || (Quiet(s, es[0]) && QuietRun(Apply(s, es[0]), es[1..]))
  }

  lemma {:induction false} QuietRunUsesUp(s: State, es: seq<Event>)
    requires Inv(s) && Legal(s, es) && QuietRun(s, es)
    ensures Inv(Exec(s, es)) && Left(Exec(s, es)) + |es| <= Left(s)
    ensures |Exec(s, es).workers| == |s.workers| && Exec(s, es).toStop == s.toStop
    decreases |es|
  {
    if es != [] {
      StepKeeps(s, es[0]);
      StepUsesUp(s, es[0]);
      QuietRunUsesUp(Apply(s, es[0]), es[1..]);
    }
  }

  /** For any number of threads and of callers: once no more tasks are posted, every schedule reaches a
      state of rest after a bounded number of steps, and there every wait has returned and, after the
      destructor has begun, every thread can be joined. */
  lemma WaitReturns(s: State, es: seq<Event>)
    requires Inv(s) && |s.workers| > 0 && Legal(s, es) && QuietRun(s, es)
    ensures |es| <= Left(s)
    ensures (forall e :: !(Enabled(Exec(s, es), e) && Quiet(Exec(s, es), e)))
            ==> AllOut(Exec(s, es)) && (s.toStop ==> AllExited(Exec(s, es)))
  {
    QuietRunUsesUp(s, es);
    var t := Exec(s, es);
    if !AllOut(t) || (t.toStop && !AllExited(t)) {
      NeverStuck(t);
    }
  }

  // ---- wait as closeAndWait uses it ----

  ghost predicate Idle(s: State) {
    s.queue == [] && forall w :: 0 <= w < |s.workers| ==> !s.workers[w].Busy?
  }

  /** Tasks are posted by handlers only. */
  ghost predicate InnerPosts(s: State, es: seq<Event>)
    requires Legal(s, es)
    decreases |es|
  {
    es == [] || ((es[0].Post? ==> !Idle(s)) && InnerPosts(Apply(s, es[0]), es[1..]))
  }

  /** In every run that begins with this call of wait and in which only handlers post, once the call has
      returned nothing is left to do. */
  ghost predicate WaitQuiesces(s: State, k: nat)
    requires k < |s.callers|
  {
    forall es :: Legal(s, [WaitStart(k)] + es) && InnerPosts(s, [WaitStart(k)] + es) && Returned(s, es, k)
      ==> Idle(Exec(s, [WaitStart(k)] + es))
  }

  ghost predicate Returned(s: State, es: seq<Event>, k: nat)
    requires Legal(s, [WaitStart(k)] + es)
  {
    k < |Exec(s, [WaitStart(k)] + es).callers| && Exec(s, [WaitStart(k)] + es).callers[k].Out?
  }

  /** Until the service has been idle the caller sleeps and nobody can renew the work. */
  ghost predicate Settling(s: State, k: nat) {
    k < |s.callers| && (Idle(s) || (s.callers[k].Asleep? && !s.work && !s.stopped && !Stale(s)))
  }

  lemma SettlingStep(s: State, e: Event, k: nat)
    requires Settling(s, k) && Enabled(s, e) && (e.Post? ==> !Idle(s))
    ensures Settling(Apply(s, e), k)
  {
    var t := Apply(s, e);
    if Idle(s) {
      assert t.queue == [] && forall w :: 0 <= w < |t.workers| ==> !t.workers[w].Busy?;
    } else if t.stopped {
      assert !Outstanding(t);
    } else {
      assert forall w :: 0 <= w < |t.workers| ==> !s.workers[w].OutRun?;
    }
  }

  lemma {:induction false} SettlingRun(s: State, es: seq<Event>, k: nat)
    requires Settling(s, k) && Legal(s, es) && InnerPosts(s, es)
    ensures Settling(Exec(s, es), k)
    decreases |es|
  {
    if es != [] {
      SettlingStep(s, es[0], k);
      SettlingRun(Apply(s, es[0]), es[1..], k);
    }
  }

  lemma IdleIsDone(s: State)
    requires Ids(s)
    ensures Idle(s) <==> DoneBefore(s, s.posted)
    ensures forall t: State, n: nat :: Idle(t) ==> DoneBefore(t, n)
  {
    assert s.queue != [] ==> s.queue[0] < s.posted;
  }

  /** Exactly when wait returns only after the pool has come to rest, whatever its handlers post. */
  lemma WaitQuiescesIff(s: State, k: nat)
    requires Inv(s) && Enabled(s, WaitStart(k)) && |s.workers| > 0
    ensures WaitQuiesces(s, k) <==> Idle(s) || (!s.stopped && !Stale(s))
  {
    IdleIsDone(s);
    if Idle(s) || (!s.stopped && !Stale(s)) {
      forall es | Legal(s, [WaitStart(k)] + es) && InnerPosts(s, [WaitStart(k)] + es) && Returned(s, es, k)
        ensures Idle(Exec(s, [WaitStart(k)] + es))
      {
        assert ([WaitStart(k)] + es)[1..] == es;
        WaitStartSettles(s, k);
        SettlingRun(Apply(s, WaitStart(k)), es, k);
      }
    } else {
      var es := EarlyReturn(s, k);
      NoPostsInner(s, [WaitStart(k)] + es);
      assert Returned(s, es, k);
    }
  }

  lemma {:induction false} NoPostsInner(s: State, es: seq<Event>)
    requires Legal(s, es) && forall i :: 0 <= i < |es| ==> !es[i].Post?
    ensures InnerPosts(s, es)
    decreases |es|
  {
    if es != [] { NoPostsInner(Apply(s, es[0]), es[1..]); }
  }

  lemma WaitStartSettles(s: State, k: nat)
    requires Inv(s) && Enabled(s, WaitStart(k)) && (Idle(s) || (!s.stopped && !Stale(s)))
    ensures Settling(Apply(s, WaitStart(k)), k)
  {
    HeldFromStart(s, k);
    IdleIsDone(s);
    var t := Apply(s, WaitStart(k));
    assert t.workers == s.workers && t.queue == s.queue;
  }

  // ---- when the destructor has run every task ----

  /** A worker that will come back to run(). */
  ghost predicate Useful(s: State) {
    exists w :: 0 <= w < |s.workers| && !s.workers[w].OutRun? && !s.workers[w].Exited?
  }

  /** In every run that begins with the destructor, when all threads are joined no task is left. */
  ghost predicate DestructorDrains(s: State) {
    forall es :: Legal(s, [Destroy] + es) && AllExited(Exec(s, [Destroy] + es)) ==> Idle(Exec(s, [Destroy] + es))
  }

  ghost predicate Draining(s: State) {
    s.toStop && !s.work && (Idle(s) || (!s.stopped && Useful(s)))
  }

  lemma DrainingStep(s: State, e: Event)
    requires Draining(s) && Inv(s) && Enabled(s, e)
    ensures Draining(Apply(s, e))
  {
    var t := Apply(s, e);
    if !Idle(s) {
      if t.stopped {
        assert !Outstanding(t);
        assert Idle(t);
      } else {
        var w :| 0 <= w < |s.workers| && !s.workers[w].OutRun? && !s.workers[w].Exited?;
        assert !t.workers[w].OutRun? && !t.workers[w].Exited?;
      }
    }
  }

  lemma {:induction false} DrainingRun(s: State, es: seq<Event>)
    requires Draining(s) && Inv(s) && Legal(s, es)
    ensures Draining(Exec(s, es))
    decreases |es|
  {
    if es != [] {
      DrainingStep(s, es[0]);
      StepKeeps(s, es[0]);
      DrainingRun(Apply(s, es[0]), es[1..]);
    }
  }

  /** A pending task that no worker will take. */
  ghost predicate Doomed(s: State) {
    && Inv(s) && s.toStop && s.queue != [] && |s.workers| > 0
    && (s.stopped || !Useful(s))
  }

  lemma DoomedStep(s: State, e: Event)
    requires Doomed(s) && Enabled(s, e) && Quiet(s, e)
    ensures Doomed(Apply(s, e))
  {
    StepKeeps(s, e);
    var t := Apply(s, e);
    if !s.stopped {
      forall w | 0 <= w < |t.workers| ensures t.workers[w].OutRun? || t.workers[w].Exited? {
        assert s.workers[w].OutRun? || s.workers[w].Exited?;
      }
    }
  }

  lemma {:induction false} DoomedEnd(s: State) returns (es: seq<Event>)
    requires Doomed(s)
    ensures Legal(s, es) && AllExited(Exec(s, es)) && !Idle(Exec(s, es))
    decreases Left(s)
  {
    if AllExited(s) {
      es := [];
    } else {
      NeverStuck(s);
      var e :| Enabled(s, e) && Quiet(s, e);
      DoomedStep(s, e);
      StepUsesUp(s, e);
      es := DoomedEnd(Apply(s, e));
      UnfoldCons(s, e, es);
      es := [e] + es;
    }
  }

  /** Exactly when destroying a pool of at least one thread runs every pending task first, as a condition
      on the state. */
  lemma DestructorDrainsIff(s: State)
    requires Inv(s) && Enabled(s, Destroy) && |s.workers| > 0
    ensures DestructorDrains(s) <==> Idle(s) || (!s.stopped && Useful(s))
  {
    var t := Apply(s, Destroy);
    StepKeeps(s, Destroy);
    if Idle(s) || (!s.stopped && Useful(s)) {
      assert Draining(t) by { DestroyDrains(s); }
      forall es | Legal(s, [Destroy] + es) && AllExited(Exec(s, [Destroy] + es))
        ensures Idle(Exec(s, [Destroy] + es))
      {
        assert ([Destroy] + es)[1..] == es;
        DrainingRun(t, es);
      }
    } else {
      DestroyDooms(s);
      var es := DoomedEnd(t);
      UnfoldCons(s, Destroy, es);
    }
  }

  lemma DestroyDrains(s: State)
    requires Inv(s) && Enabled(s, Destroy) && (Idle(s) || (!s.stopped && Useful(s)))
    ensures Draining(Apply(s, Destroy))
  {
    var t := Apply(s, Destroy);
    assert t.workers == s.workers && t.queue == s.queue;
    if !Idle(s) {
      assert Useful(t);
      if s.queue == [] {
        var w :| 0 <= w < |s.workers| && s.workers[w].Busy?;
        assert t.workers[w].Busy?;
      }
      assert Outstanding(t) <==> Outstanding(s.(work := false, toStop := true));
    }
  }

  lemma DestroyDooms(s: State)
    requires Inv(s) && Enabled(s, Destroy) && |s.workers| > 0 && !Idle(s) && (s.stopped || !Useful(s))
    ensures Doomed(Apply(s, Destroy))
  {
    StepKeeps(s, Destroy);
    var t := Apply(s, Destroy);
    assert t.workers == s.workers && t.queue == s.queue;
    assert s.queue != [] by {
      if exists w :: 0 <= w < |s.workers| && s.workers[w].Busy? {
        assert !s.stopped ==> Useful(s);
      }
    }
  }

  /** While the work object exists, some worker comes back to run(); it is missing only while somebody
      sleeps in wait, or after the destructor has begun. */
  ghost predicate Served(s: State) {
    && (s.work ==> Useful(s))
    && (!s.work && !s.toStop ==> !AllOut(s))
  }

  lemma ServedStep(s: State, e: Event)
    requires Inv(s) && Served(s) && Enabled(s, e)
    ensures Served(Apply(s, e))
  {
    var t := Apply(s, e);
    if t.work {
      UsefulStep(s, e);
    }
    if !t.work && !t.toStop {
      match e
      case WaitStart(k) => assert t.callers[k].Asleep?;
      case Wake(k) => assert t.callers[k].Asleep?;
      case NotifyAll(_) => assert forall j :: 0 <= j < |s.callers| ==> (t.callers[j].Asleep? <==> s.callers[j].Asleep?);
      case _ =>
    }
  }

  lemma UsefulStep(s: State, e: Event)
    requires Inv(s) && Enabled(s, e) && (s.work ==> Useful(s)) && Apply(s, e).work
    ensures Useful(Apply(s, e))
  {
    var t := Apply(s, e);
    if e.Start? || e.Complete? || e.Lock? || e.NotifyAll? {
      assert !t.workers[e.w].OutRun? && !t.workers[e.w].Exited?;
    } else {
      assert t.workers == s.workers;
    }
  }

  lemma {:induction false} ServedRun(s: State, es: seq<Event>)
    requires Inv(s) && Served(s) && Legal(s, es)
    ensures Inv(Exec(s, es)) && Served(Exec(s, es))
    decreases |es|
  {
    if es != [] {
      ServedStep(s, es[0]);
      StepKeeps(s, es[0]);
      ServedRun(Apply(s, es[0]), es[1..]);
    }
  }

  lemma {:induction false} WorkersStay(s: State, es: seq<Event>)
    requires Legal(s, es)
    ensures |Exec(s, es).workers| == |s.workers|
    decreases |es|
  {
    if es != [] { WorkersStay(Apply(s, es[0]), es[1..]); }
  }

  /** In every run of every pool of at least one thread: when the destructor begins while nobody waits, all
      pending tasks are run before the threads end, those that handlers still post included. */
  lemma DestructorAlwaysDrains(s0: State, es: seq<Event>)
    requires Init(s0) && |s0.workers| > 0 && Legal(s0, es) && Enabled(Exec(s0, es), Destroy)
    ensures DestructorDrains(Exec(s0, es))
  {
    assert s0.workers[0].InRun?;
    assert Served(s0);
    ServedRun(s0, es);
    WorkersStay(s0, es);
    DestructorDrainsIff(Exec(s0, es));
  }
}
