/** The thread pool: its workers, which run an io_service, `wait`, and the destructor. */
module ThreadPool {
  // The io_service is a bag of tasks, a count of outstanding work and a stopped flag; `run` returns when it is
  // stopped, and it stops when the work reaches zero.

  datatype Worker =
    | InRun          // inside run(), no handler
    | Busy(id: nat)  // inside a handler
    | OutRun         // run() has returned; the mutex is not taken yet
    | Notifying      // the mutex is released again; notify_all is to come
    | Exited         // saw toStop

  /** A thread that calls wait. */
  datatype Caller = Out | Asleep(awake: bool)

  datatype State = State(
    workers: seq<Worker>,
    queue: seq<nat>,
    work: bool,          // the work object exists and counts as outstanding work
    stopped: bool,
    toStop: bool,
    callers: seq<Caller>,
    posted: nat)         // tasks posted so far; task ids are 0, 1, ...

  datatype Event =
    | Post
    | Start(w: nat, i: nat)  // worker w takes the task at position i
    | Complete(w: nat)       // the handler returns
    | Leave(w: nat)          // run() returns
    | Lock(w: nat)           // the locked block of the worker loop
    | NotifyAll(w: nat)
    | WaitStart(k: nat)      // wait() up to the moment it sleeps on the condition
    | Wake(k: nat)           // a sleeper takes the mutex again and tests work
    | Destroy                // the destructor up to its joins

  // ---- steps ----

  ghost predicate Outstanding(s: State) {
    s.work || s.queue != [] || exists w :: 0 <= w < |s.workers| && s.workers[w].Busy?
  }

  ghost predicate AllOut(s: State) {
    forall k :: 0 <= k < |s.callers| ==> s.callers[k].Out?
  }

  /** Outside posts end with the destructor; handlers may always post. A sleeper may wake without
      a notification. */
  ghost predicate Enabled(s: State, e: Event) {
    match e
    case Post => s.toStop ==> exists w :: 0 <= w < |s.workers| && s.workers[w].Busy?
    case Start(w, i) => w < |s.workers| && i < |s.queue| && s.workers[w].InRun? && !s.stopped
    case Complete(w) => w < |s.workers| && s.workers[w].Busy?
    case Leave(w) => w < |s.workers| && s.workers[w].InRun? && s.stopped
    case Lock(w) => w < |s.workers| && s.workers[w].OutRun?
    case NotifyAll(w) => w < |s.workers| && s.workers[w].Notifying?
    case WaitStart(k) => k < |s.callers| && s.callers[k].Out? && !s.toStop
    case Wake(k) => k < |s.callers| && s.callers[k].Asleep?
    case Destroy => !s.toStop && AllOut(s)
  }

  function Become(s: State, w: nat, t: Worker): (r: State)
    requires w < |s.workers|
  {
    s.(workers := s.workers[w := t])
  }

  /** The service stops when no outstanding work is left. */
  ghost function Settle(s: State): State {
    if Outstanding(s) then s else s.(stopped := true)
  }

  function Notified(c: Caller): Caller {
    if c.Asleep? then Asleep(true) else c
  }

  ghost function Apply(s: State, e: Event): State
    requires Enabled(s, e)
  {
    match e
    case Post => s.(queue := s.queue + [s.posted], posted := s.posted + 1)
    case Start(w, i) => Become(s, w, Busy(s.queue[i])).(queue := s.queue[..i] + s.queue[i + 1..])
    case Complete(w) => Settle(Become(s, w, InRun))
    case Leave(w) => Become(s, w, OutRun)
    case Lock(w) =>
      if s.toStop then Become(s, w, Exited)
      else if s.work then Become(s, w, InRun)
      else Become(s, w, Notifying).(work := true, stopped := false)
    case NotifyAll(w) =>
      Become(s, w, InRun).(callers := seq(|s.callers|, k requires 0 <= k < |s.callers| => Notified(s.callers[k])))
    case WaitStart(k) => Settle(s.(work := false, callers := s.callers[k := Asleep(false)]))
    case Wake(k) => s.(callers := s.callers[k := if s.work then Out else Asleep(false)])
    case Destroy => Settle(s.(toStop := true, work := false))
  }

  ghost predicate Legal(s: State, es: seq<Event>)
    decreases |es|
  {
    es == [] || (Enabled(s, es[0]) && Legal(Apply(s, es[0]), es[1..]))
  }

  ghost function Exec(s: State, es: seq<Event>): State
    requires Legal(s, es)
    decreases |es|
  {
    if es == [] then s else Exec(Apply(s, es[0]), es[1..])
  }

  /** The constructor has run. */
  ghost predicate Init(s: State) {
    && (forall w :: 0 <= w < |s.workers| ==> s.workers[w].InRun?)
    && s.queue == [] && s.work && !s.stopped && !s.toStop && AllOut(s) && s.posted == 0
  }

  // ---- the invariant ----

  ghost predicate HasNotifier(s: State) {
    exists w :: 0 <= w < |s.workers| && s.workers[w].Notifying?
  }

  /** Every sleeper that the flag would release has been notified, or somebody is about to notify. */
  ghost predicate NoLostWakeUp(s: State) {
    s.work ==> HasNotifier(s) || forall k :: 0 <= k < |s.callers| && s.callers[k].Asleep? ==> s.callers[k].awake
  }

  ghost predicate Ids(s: State) {
    && (forall i :: 0 <= i < |s.queue| ==> s.queue[i] < s.posted)
    && (forall w :: 0 <= w < |s.workers| && s.workers[w].Busy? ==> s.workers[w].id < s.posted)
  }

  ghost predicate Inv(s: State) {
    && (s.work ==> !s.stopped)
    && (!s.stopped ==> Outstanding(s))
    && (s.stopped ==> forall w :: 0 <= w < |s.workers| ==> !s.workers[w].Busy?)
    && (s.toStop ==> AllOut(s) && !s.work)
    && (forall w :: 0 <= w < |s.workers| && s.workers[w].Exited? ==> s.toStop)
    && NoLostWakeUp(s)
    && Ids(s)
  }

  lemma SettleInv(s: State)
    requires NoLostWakeUp(s) && Ids(s) && (s.work ==> !s.stopped)
    requires s.stopped ==> forall w :: 0 <= w < |s.workers| ==> !s.workers[w].Busy?
    requires s.toStop ==> AllOut(s) && !s.work
    requires forall w :: 0 <= w < |s.workers| && s.workers[w].Exited? ==> s.toStop
    ensures Inv(Settle(s))
  {
    assert NoLostWakeUp(Settle(s));
  }

  lemma NotifierStays(s: State, w: nat, t: Worker)
    requires w < |s.workers| && NoLostWakeUp(s) && (s.workers[w].Notifying? ==> t.Notifying?)
    ensures NoLostWakeUp(Become(s, w, t))
  {
    if HasNotifier(s) {
      var v :| 0 <= v < |s.workers| && s.workers[v].Notifying?;
      assert Become(s, w, t).workers[v].Notifying?;
    }
  }

  lemma StillOutstanding(s: State, w: nat, t: Worker)
    requires w < |s.workers| && Outstanding(s) && (s.workers[w].Busy? ==> t.Busy?)
    ensures Outstanding(Become(s, w, t))
  {
    if !s.work && s.queue == [] {
      var v :| 0 <= v < |s.workers| && s.workers[v].Busy?;
      assert Become(s, w, t).workers[v].Busy?;
    }
  }

  lemma WorkerStepKeeps(s: State, e: Event)
    requires Inv(s) && Enabled(s, e) && (e.Start? || e.Leave? || e.Lock? || e.NotifyAll?)
    ensures Inv(Apply(s, e))
  {
    var w := e.w;
    var t := Apply(s, e);
    match e
    case Start(_, i) =>
      NotifierStays(s, w, t.workers[w]);
      assert t.workers[w].Busy?;
    case Leave(_) => NotifierStays(s, w, OutRun);
    case Lock(_) =>
      NotifierStays(s, w, t.workers[w]);
      assert t.workers[w].Notifying? ==> HasNotifier(t);
      if !s.stopped { StillOutstanding(s, w, t.workers[w]); }
    case NotifyAll(_) =>
      if !s.stopped { StillOutstanding(s, w, InRun); }
  }

  lemma StepKeeps(s: State, e: Event)
    requires Inv(s) && Enabled(s, e)
    ensures Inv(Apply(s, e))
  {
    match e
    case Post =>
    case Complete(w) =>
      NotifierStays(s, w, InRun);
      SettleInv(Become(s, w, InRun));
    case WaitStart(k) => SettleInv(s.(work := false, callers := s.callers[k := Asleep(false)]));
    case Wake(k) =>
    case Destroy => SettleInv(s.(toStop := true, work := false));
    case _ => WorkerStepKeeps(s, e);
  }

  lemma {:induction false} AlwaysInv(s: State, es: seq<Event>)
    requires Inv(s) && Legal(s, es)
    ensures Inv(Exec(s, es))
    decreases |es|
  {
    if es != [] {
      StepKeeps(s, es[0]);
      AlwaysInv(Apply(s, es[0]), es[1..]);
    }
  }

  // ---- when wait keeps its promise ----

  /** Every task with an id below n has completed. */
  ghost predicate DoneBefore(s: State, n: nat) {
    && (forall i :: 0 <= i < |s.queue| ==> s.queue[i] >= n)
    && (forall w :: 0 <= w < |s.workers| && s.workers[w].Busy? ==> s.workers[w].id >= n)
  }

  /** A worker is between its return from run() and the lock. */
  ghost predicate Stale(s: State) {
    exists w :: 0 <= w < |s.workers| && s.workers[w].OutRun?
  }

  /** In every run that begins with this call of wait, once the call has returned, every task posted
      before the call has completed. */
  ghost predicate WaitIsSound(s: State, k: nat)
    requires k < |s.callers|
  {
    forall es :: Legal(s, [WaitStart(k)] + es) && k < |Exec(s, [WaitStart(k)] + es).callers| &&
      Exec(s, [WaitStart(k)] + es).callers[k].Out?
      ==> DoneBefore(Exec(s, [WaitStart(k)] + es), s.posted)
  }

  /** While tasks from before the call are pending, the caller sleeps and nobody can renew the work. */
  ghost predicate Held(s: State, k: nat, n: nat) {
    && k < |s.callers| && n <= s.posted
    && (DoneBefore(s, n) || (s.callers[k].Asleep? && !s.work && !s.stopped && !Stale(s)))
  }

  lemma DoneStays(s: State, e: Event, n: nat)
    requires Enabled(s, e) && DoneBefore(s, n) && n <= s.posted
    ensures DoneBefore(Apply(s, e), n)
  {
  }

  lemma HeldStep(s: State, e: Event, k: nat, n: nat)
    requires Held(s, k, n) && Enabled(s, e)
    ensures Held(Apply(s, e), k, n)
  {
    var t := Apply(s, e);
    if DoneBefore(s, n) {
      DoneStays(s, e, n);
    } else if t.stopped {
      assert !Outstanding(t);
      assert DoneBefore(t, n);
    } else {
      assert forall w :: 0 <= w < |t.workers| ==> !s.workers[w].OutRun?;
    }
  }

  lemma {:induction false} HeldRun(s: State, es: seq<Event>, k: nat, n: nat)
    requires Held(s, k, n) && Legal(s, es)
    ensures Held(Exec(s, es), k, n)
    decreases |es|
  {
    if es != [] {
      HeldStep(s, es[0], k, n);
      HeldRun(Apply(s, es[0]), es[1..], k, n);
    }
  }

  lemma HeldFromStart(s: State, k: nat)
    requires Enabled(s, WaitStart(k)) && (DoneBefore(s, s.posted) || (!s.stopped && !Stale(s)))
    ensures Held(Apply(s, WaitStart(k)), k, s.posted)
  {
    var t := Apply(s, WaitStart(k));
    if !DoneBefore(s, s.posted) {
      assert t.workers == s.workers;
      assert Outstanding(t) by {
        if s.queue == [] {
          var w :| 0 <= w < |s.workers| && s.workers[w].Busy?;
          assert t.workers[w].Busy?;
        }
      }
      assert forall w :: 0 <= w < |t.workers| ==> !s.workers[w].OutRun?;
    }
  }

  /** The other direction: a run in which wait returns and no pending task has moved. */
  lemma EarlyReturn(s: State, k: nat) returns (es: seq<Event>)
    requires Inv(s) && Enabled(s, WaitStart(k)) && |s.workers| > 0
    requires !DoneBefore(s, s.posted) && (s.stopped || Stale(s))
    ensures Legal(s, [WaitStart(k)] + es)
    ensures var t := Exec(s, [WaitStart(k)] + es);
            k < |t.callers| && t.callers[k].Out? && !DoneBefore(t, s.posted)
    ensures forall i :: 0 <= i < |es| ==> !es[i].Post? && !es[i].Destroy? && !es[i].Complete?
  {
    var s1 := Apply(s, WaitStart(k));
    assert s1.workers == s.workers && s1.queue == s.queue;
    if Stale(s) {
      var w :| 0 <= w < |s.workers| && s.workers[w].OutRun?;
      es := [Lock(w), NotifyAll(w), Wake(k)];
      RenewAndReturn(s1, w, k, s.posted);
    } else {
      assert s1.stopped && !s.workers[0].Busy? && !s.workers[0].OutRun?;
      if s.workers[0].Notifying? {
        var s2 := Apply(s1, NotifyAll(0));
        es := [NotifyAll(0), Leave(0), Lock(0), NotifyAll(0), Wake(k)];
        LeaveAndReturn(s2, 0, k, s.posted);
        assert es[1..] == [Leave(0), Lock(0), NotifyAll(0), Wake(k)];
        UnfoldCons(s1, NotifyAll(0), es[1..]);
        assert [NotifyAll(0)] + es[1..] == es;
      } else {
        es := [Leave(0), Lock(0), NotifyAll(0), Wake(k)];
        LeaveAndReturn(s1, 0, k, s.posted);
      }
    }
    UnfoldCons(s, WaitStart(k), es);
  }

  lemma UnfoldCons(s: State, e: Event, es: seq<Event>)
    requires Enabled(s, e) && Legal(Apply(s, e), es)
    ensures Legal(s, [e] + es) && Exec(s, [e] + es) == Exec(Apply(s, e), es)
  {
    assert ([e] + es)[1..] == es;
  }

  lemma UnfoldNil(s: State, e: Event)
    requires Enabled(s, e)
    ensures Legal(s, [e]) && Exec(s, [e]) == Apply(s, e)
  {
    assert [e][1..] == [];
  }

  lemma RenewAndReturn(s: State, w: nat, k: nat, n: nat)
    requires w < |s.workers| && s.workers[w].OutRun? && !s.work && !s.toStop
    requires k < |s.callers| && s.callers[k].Asleep? && !DoneBefore(s, n)
    ensures Legal(s, [Lock(w), NotifyAll(w), Wake(k)])
    ensures var t := Exec(s, [Lock(w), NotifyAll(w), Wake(k)]);
            k < |t.callers| && t.callers[k].Out? && !DoneBefore(t, n)
  {
    var s1 := Apply(s, Lock(w));
    var s2 := Apply(s1, NotifyAll(w));
    UnfoldNil(s2, Wake(k));
    UnfoldCons(s1, NotifyAll(w), [Wake(k)]);
    assert [NotifyAll(w)] + [Wake(k)] == [NotifyAll(w), Wake(k)];
    UnfoldCons(s, Lock(w), [NotifyAll(w), Wake(k)]);
    assert [Lock(w)] + [NotifyAll(w), Wake(k)] == [Lock(w), NotifyAll(w), Wake(k)];
    NotDoneStays(s, s1, n);
    NotDoneStays(s1, s2, n);
    NotDoneStays(s2, Apply(s2, Wake(k)), n);
  }

  lemma NotDoneStays(s: State, t: State, n: nat)
    requires !DoneBefore(s, n) && t.queue == s.queue && |t.workers| == |s.workers|
    requires forall w :: 0 <= w < |s.workers| && s.workers[w].Busy? ==> t.workers[w] == s.workers[w]
    ensures !DoneBefore(t, n)
  {
    if DoneBefore(t, n) {
      forall w | 0 <= w < |s.workers| && s.workers[w].Busy? ensures s.workers[w].id >= n {
        assert t.workers[w] == s.workers[w];
      }
      assert DoneBefore(s, n);
    }
  }

  lemma LeaveAndReturn(s: State, w: nat, k: nat, n: nat)
    requires w < |s.workers| && s.workers[w].InRun? && s.stopped && !s.work && !s.toStop
    requires k < |s.callers| && s.callers[k].Asleep? && !DoneBefore(s, n)
    ensures Legal(s, [Leave(w), Lock(w), NotifyAll(w), Wake(k)])
    ensures var t := Exec(s, [Leave(w), Lock(w), NotifyAll(w), Wake(k)]);
            k < |t.callers| && t.callers[k].Out? && !DoneBefore(t, n)
  {
    var s1 := Apply(s, Leave(w));
    NotDoneStays(s, s1, n);
    RenewAndReturn(s1, w, k, n);
    UnfoldCons(s, Leave(w), [Lock(w), NotifyAll(w), Wake(k)]);
    assert [Leave(w)] + [Lock(w), NotifyAll(w), Wake(k)] == [Leave(w), Lock(w), NotifyAll(w), Wake(k)];
  }

  /** Exactly when wait keeps the documented promise: nothing is pending at the call, or the service is
      not stopped and no worker is between run() and the lock. */
  lemma WaitIsSoundIff(s: State, k: nat)
    requires Inv(s) && Enabled(s, WaitStart(k)) && |s.workers| > 0
    ensures WaitIsSound(s, k) <==> DoneBefore(s, s.posted) || (!s.stopped && !Stale(s))
  {
    if DoneBefore(s, s.posted) || (!s.stopped && !Stale(s)) {
      forall es | Legal(s, [WaitStart(k)] + es) && k < |Exec(s, [WaitStart(k)] + es).callers| &&
        Exec(s, [WaitStart(k)] + es).callers[k].Out?
        ensures DoneBefore(Exec(s, [WaitStart(k)] + es), s.posted)
      {
        assert ([WaitStart(k)] + es)[1..] == es;
        HeldFromStart(s, k);
        HeldRun(Apply(s, WaitStart(k)), es, k, s.posted);
      }
    } else {
      var es := EarlyReturn(s, k);
    }
  }

  // ---- the pool of one thread ----

  /** No call of wait begins while another sleeps. */
  ghost predicate Serial(s: State, es: seq<Event>)
    requires Legal(s, es)
    decreases |es|
  {
    es == [] || ((es[0].WaitStart? ==> AllOut(s)) && Serial(Apply(s, es[0]), es[1..]))
  }

  ghost predicate OneThread(s: State) {
    && |s.workers| == 1
    && (s.work ==> !Stale(s))
    && (!s.work && !s.toStop ==> !AllOut(s))
    && (forall j, k :: 0 <= j < k < |s.callers| ==> s.callers[j].Out? || s.callers[k].Out?)
  }

  lemma OneThreadStep(s: State, e: Event)
    requires Inv(s) && OneThread(s) && Enabled(s, e) && (e.WaitStart? ==> AllOut(s))
    ensures OneThread(Apply(s, e))
  {
    var t := Apply(s, e);
    if t.work {
      assert s.workers[0].OutRun? ==> !t.workers[0].OutRun?;
      assert !t.workers[0].OutRun?;
    }
    if !t.work && !t.toStop {
      match e
      case WaitStart(k) => assert t.callers[k].Asleep?;
      case Wake(k) => assert t.callers[k].Asleep?;
      case NotifyAll(_) => assert forall j :: 0 <= j < |s.callers| ==> (t.callers[j].Asleep? <==> s.callers[j].Asleep?);
      case _ =>
    }
  }

  lemma {:induction false} OneThreadRun(s: State, es: seq<Event>)
    requires Inv(s) && OneThread(s) && Legal(s, es) && Serial(s, es)
    ensures Inv(Exec(s, es)) && OneThread(Exec(s, es))
    decreases |es|
  {
    if es != [] {
      OneThreadStep(s, es[0]);
      StepKeeps(s, es[0]);
      OneThreadRun(Apply(s, es[0]), es[1..]);
    }
  }

  /** With one thread and one call of wait at a time, every call keeps the promise. */
  lemma OneThreadWaitIsSound(s: State, es: seq<Event>, k: nat)
    requires Init(s) && |s.workers| == 1 && Legal(s, es) && Serial(s, es)
    requires Enabled(Exec(s, es), WaitStart(k)) && AllOut(Exec(s, es))
    ensures WaitIsSound(Exec(s, es), k)
  {
    OneThreadRun(s, es);
    WaitIsSoundIff(Exec(s, es), k);
  }

  /** Two threads, all tasks done: the first call of wait returns and leaves a stale worker behind. */
  lemma FirstRound(s: State)
    requires s == State([InRun, InRun], [], true, false, false, [Out], s.posted)
    ensures var es := [WaitStart(0), Leave(0), Leave(1), Lock(0), NotifyAll(0), Wake(0)];
            Legal(s, es) && Exec(s, es) == s.(workers := [InRun, OutRun])
  {
    var s1 := Apply(s, WaitStart(0));
    assert s1 == State([InRun, InRun], [], false, true, false, [Asleep(false)], s.posted);
    var s2 := Apply(s1, Leave(0));
    var s3 := Apply(s2, Leave(1));
    assert s3 == s1.(workers := [OutRun, OutRun]);
    RenewRound(s3);
    UnfoldCons(s2, Leave(1), [Lock(0), NotifyAll(0), Wake(0)]);
    UnfoldCons(s1, Leave(0), [Leave(1)] + [Lock(0), NotifyAll(0), Wake(0)]);
    UnfoldCons(s, WaitStart(0), [Leave(0)] + ([Leave(1)] + [Lock(0), NotifyAll(0), Wake(0)]));
    assert [WaitStart(0)] + ([Leave(0)] + ([Leave(1)] + [Lock(0), NotifyAll(0), Wake(0)]))
        == [WaitStart(0), Leave(0), Leave(1), Lock(0), NotifyAll(0), Wake(0)];
  }

  lemma RenewRound(s: State)
    requires s == State([OutRun, OutRun], [], false, true, false, [Asleep(false)], s.posted)
    ensures var es := [Lock(0), NotifyAll(0), Wake(0)];
            Legal(s, es) && Exec(s, es) == State([InRun, OutRun], [], true, false, false, [Out], s.posted)
  {
    var s1 := Apply(s, Lock(0));
    assert s1 == State([Notifying, OutRun], [], true, false, false, [Asleep(false)], s.posted);
    var s2 := Apply(s1, NotifyAll(0));
    assert s2 == State([InRun, OutRun], [], true, false, false, [Asleep(true)], s.posted);
    UnfoldNil(s2, Wake(0));
    UnfoldCons(s1, NotifyAll(0), [Wake(0)]);
    UnfoldCons(s, Lock(0), [NotifyAll(0)] + [Wake(0)]);
    assert [Lock(0)] + ([NotifyAll(0)] + [Wake(0)]) == [Lock(0), NotifyAll(0), Wake(0)];
  }

  /** The stale worker ends the second call, although a task is queued. */
  lemma SecondRound(s: State)
    requires |s.queue| == 1 && s == State([InRun, OutRun], s.queue, true, false, false, [Out], s.posted)
    ensures var es := [WaitStart(0), Lock(1), NotifyAll(1), Wake(0)];
            Legal(s, es) && Exec(s, es) == s.(workers := [InRun, InRun])
  {
    var s1 := Apply(s, WaitStart(0));
    assert s1 == State([InRun, OutRun], s.queue, false, false, false, [Asleep(false)], s.posted);
    var s2 := Apply(s1, Lock(1));
    assert s2 == State([InRun, Notifying], s.queue, true, false, false, [Asleep(false)], s.posted);
    var s3 := Apply(s2, NotifyAll(1));
    assert s3 == State([InRun, InRun], s.queue, true, false, false, [Asleep(true)], s.posted);
    UnfoldNil(s3, Wake(0));
    UnfoldCons(s2, NotifyAll(1), [Wake(0)]);
    UnfoldCons(s1, Lock(1), [NotifyAll(1)] + [Wake(0)]);
    UnfoldCons(s, WaitStart(0), [Lock(1)] + ([NotifyAll(1)] + [Wake(0)]));
    assert [WaitStart(0)] + ([Lock(1)] + ([NotifyAll(1)] + [Wake(0)])) == [WaitStart(0), Lock(1), NotifyAll(1), Wake(0)];
  }

  /** Two threads are enough to break it: one of two workers that left run() renews the work for the
      first wait; the other one does so for the second, whose task has not even started. */
  lemma StaleWorker(s: State) returns (es: seq<Event>)
    requires Init(s) && s.workers == [InRun, InRun] && s.callers == [Out]
    ensures Legal(s, es) && Serial(s, es) && Enabled(Exec(s, es), WaitStart(0))
    ensures !WaitIsSound(Exec(s, es), 0)
  {
    FirstRound(s);
    var first := [WaitStart(0), Leave(0), Leave(1), Lock(0), NotifyAll(0), Wake(0)];
    var s1 := Exec(s, first);
    UnfoldNil(s1, Post);
    Append(s, first, [Post]);
    es := first + [Post];
    assert forall i :: 0 < i < |es| ==> !es[i].WaitStart?;
    OneWaitIsSerial(s, es);
    AlwaysInv(s, es);
    var s2 := Exec(s, es);
    assert s2.workers[1].OutRun? && s2.queue[0] == 0;
    WaitIsSoundIff(s2, 0);
  }

  lemma {:induction false} Append(s: State, es: seq<Event>, fs: seq<Event>)
    requires Legal(s, es) && Legal(Exec(s, es), fs)
    ensures Legal(s, es + fs) && Exec(s, es + fs) == Exec(Exec(s, es), fs)
    decreases |es|
  {
    if es == [] {
      assert es + fs == fs;
    } else {
      assert (es + fs)[1..] == es[1..] + fs;
      Append(Apply(s, es[0]), es[1..], fs);
    }
  }

  lemma OneWaitIsSerial(s: State, es: seq<Event>)
    requires Legal(s, es) && es != [] && AllOut(s) && forall i :: 0 < i < |es| ==> !es[i].WaitStart?
    ensures Serial(s, es)
  {
    NoWaitIsSerial(Apply(s, es[0]), es[1..]);
  }

  lemma {:induction false} NoWaitIsSerial(s: State, es: seq<Event>)
    requires Legal(s, es) && forall i :: 0 <= i < |es| ==> !es[i].WaitStart?
    ensures Serial(s, es)
    decreases |es|
  {
    if es != [] { NoWaitIsSerial(Apply(s, es[0]), es[1..]); }
  }
}
