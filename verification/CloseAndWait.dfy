/** closeAndWait on a pool whose tasks are the segments of a network's workers: the pool decides when a call
    of wait returns, the network what has happened by then. */
module CloseAndWait {
  import opened ChannelValue
  import P = ThreadPool
  import Q = PoolProgress
  import opened Network
  import opened NetworkSafety
  import Shutdown

  /** `task[w]` is the newest task posted for worker w of the network. */
  datatype System<V> = System(pool: P.State, net: State<V>, task: seq<nat>)

  datatype Event<V> =
    | Pool(e: P.Event)                        // a step of the pool alone
    | Work(v: nat, ne: Network.Event<V>)      // thread v runs a step of a worker of the network
    | Outside(ne: Network.Event<V>)           // a put or a close by another thread

  predicate Resting<V>(x: Worker<V>) {
    x == Parked || x == Ending([])
  }

  ghost predicate Pending(p: P.State, id: nat) {
    (exists i :: 0 <= i < |p.queue| && p.queue[i] == id) || exists v :: 0 <= v < |p.workers| && p.workers[v] == P.Busy(id)
  }

  /** A segment ends when its worker yields or ends. */
  ghost predicate SegmentOver<V>(s: System<V>, v: nat)
    requires v < |s.pool.workers| && s.pool.workers[v].Busy? && |s.task| == |s.net.work|
  {
    forall w :: 0 <= w < |s.task| && s.task[w] == s.pool.workers[v].id ==> Resting(s.net.work[w])
  }

  ghost predicate Enabled<V>(n: Shape, s: System<V>, e: Event<V>) {
    && Fits(n, s.net) && |s.task| == |s.net.work|
    && match e
       case Pool(pe) =>
         && P.Enabled(s.pool, pe) && !pe.Post? && !pe.Destroy?
         && (pe.Complete? ==> SegmentOver(s, pe.w))
       case Work(v, ne) =>
         && !FromOutside(ne) && Network.Enabled(n, s.net, ne)
         && v < |s.pool.workers| && s.pool.workers[v] == P.Busy(s.task[ne.w])
       case Outside(ne) => FromOutside(ne) && Network.Enabled(n, s.net, ne)
  }

  /** A reader that was waiting and is not any more. */
  ghost predicate Woken<V>(before: State<V>, after: State<V>, w: nat) {
    && w < |before.work| && w < |after.work|
    && before.work[w].Parked? && !after.work[w].Parked?
  }

  function Post(p: P.State): P.State {
    p.(queue := p.queue + [p.posted], posted := p.posted + 1)
  }

  /** proceed for each of the first m workers that were woken: a segment is posted. */
  ghost function WakeUp<V>(s: System<V>, after: State<V>, m: nat): System<V>
    requires m <= |s.task|
  {
    if m == 0 then s.(net := after) else
    var t := WakeUp(s, after, m - 1);
    if Woken(s.net, after, m - 1) && m <= |t.task|
    then t.(pool := Post(t.pool), task := t.task[m - 1 := t.pool.posted]) else t
  }

  ghost function Apply<V>(n: Shape, s: System<V>, e: Event<V>): System<V>
    requires Enabled(n, s, e)
  {
    match e
    case Pool(pe) => s.(pool := P.Apply(s.pool, pe))
    case _ => WakeUp(s, Network.Apply(n, s.net, e.ne), |s.task|)
  }

  ghost predicate Legal<V>(n: Shape, s: System<V>, es: seq<Event<V>>)
    decreases |es|
  {
    es == [] || (Enabled(n, s, es[0]) && Legal(n, Apply(n, s, es[0]), es[1..]))
  }

  ghost function Exec<V>(n: Shape, s: System<V>, es: seq<Event<V>>): System<V>
    requires Legal(n, s, es)
    decreases |es|
  {
    if es == [] then s else Exec(n, Apply(n, s, es[0]), es[1..])
  }

  // ---- the invariant ----

  /** Every worker that has something to do has a pending task. */
  ghost predicate Tied<V>(n: Shape, s: System<V>) {
    && P.Inv(s.pool) && Inv(n, s.net) && |s.task| == |s.net.work| && !s.pool.toStop
    && forall w :: 0 <= w < |s.task| && !Resting(s.net.work[w]) ==> Pending(s.pool, s.task[w])
  }

  lemma PostKeeps(p: P.State)
    requires P.Inv(p) && !p.toStop
    ensures P.Enabled(p, P.Post) && Post(p) == P.Apply(p, P.Post) && P.Inv(Post(p)) && !Post(p).toStop
    ensures Pending(Post(p), p.posted)
    ensures forall id :: Pending(p, id) ==> Pending(Post(p), id)
  {
    P.StepKeeps(p, P.Post);
    var q := Post(p);
    assert q.queue[|p.queue|] == p.posted;
    forall id | Pending(p, id) ensures Pending(q, id) {
      if i :| 0 <= i < |p.queue| && p.queue[i] == id {
        assert q.queue[i] == id;
      }
    }
  }

  /** Only the worker itself and waiting readers change in a step of the network. */
  lemma NetChanges<V>(n: Shape, s: State<V>, e: Network.Event<V>)
    requires Inv(n, s) && Network.Enabled(n, s, e)
    ensures |Network.Apply(n, s, e).work| == |s.work|
    ensures forall u :: 0 <= u < |s.work| && Network.Apply(n, s, e).work[u] != s.work[u] ==>
              s.work[u].Parked? || (!FromOutside(e) && u == e.w)
    ensures !FromOutside(e) ==> !Resting(s.work[e.w])
  {
    match e
    case External(c, _) => ReaderIsParked(n, s, c);
    case ExternalClose(c) => CloseWakes(n, s, c);
    case PutOut(w) =>
      assert s.work[w].todo[0].0 in n.dsts[w];
      ReaderIsParked(n, s, s.work[w].todo[0].0);
    case CloseNext(w) =>
      assert s.work[w].closes[0] in n.dsts[w];
      CloseWakes(n, s, s.work[w].closes[0]);
    case _ =>
  }

  lemma CloseWakes<V>(n: Shape, s: State<V>, c: Cid)
    requires Inv(n, s) && c < n.channels
    ensures forall u :: 0 <= u < |s.work| && u in s.chans[c].waiters ==> s.work[u].Parked?
  {
    forall u | 0 <= u < |s.work| && u in s.chans[c].waiters ensures s.work[u].Parked? {
      assert n.src[u] == c;
    }
  }

  /** After the first m workers. */
  lemma {:induction false} WakeUpKeeps<V>(s: System<V>, after: State<V>, m: nat)
    requires P.Inv(s.pool) && !s.pool.toStop && m <= |s.task| == |s.net.work| == |after.work|
    ensures var t := WakeUp(s, after, m);
      && P.Inv(t.pool) && !t.pool.toStop && |t.task| == |s.task| && t.net == after
      && t.pool == s.pool.(queue := t.pool.queue, posted := t.pool.posted)
      && (forall id :: Pending(s.pool, id) ==> Pending(t.pool, id))
      && (forall w :: 0 <= w < |s.task| && !(w < m && Woken(s.net, after, w)) ==> t.task[w] == s.task[w])
      && (forall w :: 0 <= w < m && Woken(s.net, after, w) ==> Pending(t.pool, t.task[w]))
    decreases m
  {
    if m > 0 {
      WakeUpKeeps(s, after, m - 1);
      PostKeeps(WakeUp(s, after, m - 1).pool);
    }
  }

  lemma NetStepTied<V>(n: Shape, s: System<V>, e: Event<V>)
    requires Tied(n, s) && Enabled(n, s, e) && !e.Pool?
    ensures Tied(n, Apply(n, s, e))
  {
    var after := Network.Apply(n, s.net, e.ne);
    NetworkSafety.StepKeeps(n, s.net, e.ne);
    NetChanges(n, s.net, e.ne);
    WakeUpKeeps(s, after, |s.task|);
    var t := Apply(n, s, e);
    forall w | 0 <= w < |t.task| && !Resting(t.net.work[w]) ensures Pending(t.pool, t.task[w]) {
      if !Woken(s.net, after, w) {
        assert !Resting(s.net.work[w]);
      }
    }
  }

  lemma PoolStepTied<V>(n: Shape, s: System<V>, e: P.Event)
    requires Tied(n, s) && Enabled(n, s, Pool(e))
    ensures Tied(n, Apply(n, s, Pool(e)))
  {
    P.StepKeeps(s.pool, e);
    var p := P.Apply(s.pool, e);
    forall w | 0 <= w < |s.task| && !Resting(s.net.work[w]) ensures Pending(p, s.task[w]) {
      StaysPending(s.pool, e, s.task[w]);
    }
  }

  lemma StaysPending(p: P.State, e: P.Event, id: nat)
    requires P.Enabled(p, e) && Pending(p, id) && !e.Post? && (e.Complete? ==> p.workers[e.w].id != id)
    ensures Pending(P.Apply(p, e), id)
  {
    var q := P.Apply(p, e);
    if i :| 0 <= i < |p.queue| && p.queue[i] == id {
      if e.Start? {
        if i < e.i { assert q.queue[i] == id; }
        else if i > e.i { assert q.queue[i - 1] == id; }
        else { assert q.workers[e.w] == P.Busy(id); }
      } else {
        assert q.queue[i] == id;
      }
    } else {
      var v :| 0 <= v < |p.workers| && p.workers[v] == P.Busy(id);
      assert q.workers[v] == P.Busy(id);
    }
  }

  lemma StepTied<V>(n: Shape, s: System<V>, e: Event<V>)
    requires Tied(n, s) && Enabled(n, s, e)
    ensures Tied(n, Apply(n, s, e))
  {
    if e.Pool? { PoolStepTied(n, s, e.e); } else { NetStepTied(n, s, e); }
  }

  lemma {:induction false} AlwaysTied<V>(n: Shape, s: System<V>, es: seq<Event<V>>)
    requires Tied(n, s) && Legal(n, s, es)
    ensures Tied(n, Exec(n, s, es))
    decreases |es|
  {
    if es != [] {
      StepTied(n, s, es[0]);
      AlwaysTied(n, Apply(n, s, es[0]), es[1..]);
    }
  }

  /** An idle pool means a network at rest. */
  lemma IdleIsQuiet<V>(n: Shape, s: System<V>)
    requires Tied(n, s) && Q.Idle(s.pool)
    ensures Quiet(s.net)
  {
    forall w | 0 <= w < |s.net.work| ensures Resting(s.net.work[w]) {
      assert !Pending(s.pool, s.task[w]);
    }
  }

  // ---- the two halves of a run ----

  /** Nothing comes from outside. */
  ghost predicate Inner<V>(es: seq<Event<V>>) {
    forall i :: 0 <= i < |es| ==> !es[i].Outside?
  }

  ghost predicate NoClose<V>(es: seq<Event<V>>) {
    forall i :: 0 <= i < |es| && es[i].Outside? ==> !es[i].ne.ExternalClose?
  }

  /** The network's part of a run. */
  lemma {:induction false} NetRun<V>(n: Shape, s: System<V>, es: seq<Event<V>>) returns (ns: seq<Network.Event<V>>)
    requires Tied(n, s) && Legal(n, s, es)
    ensures Shutdown.Legal(n, s.net, ns) && Shutdown.Exec(n, s.net, ns) == Exec(n, s, es).net
    ensures Inner(es) ==> Shutdown.Inside(ns)
    ensures NoClose(es) ==> Shutdown.NoClose(ns)
    decreases |es|
  {
    if es == [] {
      ns := [];
    } else {
      var s1 := Apply(n, s, es[0]);
      StepTied(n, s, es[0]);
      ns := NetRun(n, s1, es[1..]);
      TailFacts(es);
      NetPart(n, s, es[0]);
      if !es[0].Pool? {
        ns := Prepend(n, s.net, es[0].ne, ns);
      }
    }
  }

  lemma NetPart<V>(n: Shape, s: System<V>, e: Event<V>)
    requires Tied(n, s) && Enabled(n, s, e)
    ensures Apply(n, s, e).net == if e.Pool? then s.net else Network.Apply(n, s.net, e.ne)
  {
    if !e.Pool? {
      NetChanges(n, s.net, e.ne);
      WakeUpKeeps(s, Network.Apply(n, s.net, e.ne), |s.task|);
    }
  }

  lemma Prepend<V>(n: Shape, s: State<V>, e: Network.Event<V>, es: seq<Network.Event<V>>) returns (all: seq<Network.Event<V>>)
    requires Fits(n, s) && Network.Enabled(n, s, e) && Shutdown.Legal(n, Network.Apply(n, s, e), es)
    ensures Shutdown.Legal(n, s, all) && Shutdown.Exec(n, s, all) == Shutdown.Exec(n, Network.Apply(n, s, e), es)
    ensures all == [e] + es
  {
    all := [e] + es;
    assert all[1..] == es;
  }

  lemma TailFacts<V>(es: seq<Event<V>>)
    requires es != []
    ensures Inner(es) ==> Inner(es[1..]) && !es[0].Outside?
    ensures NoClose(es) ==> NoClose(es[1..]) && (es[0].Outside? ==> !es[0].ne.ExternalClose?)
  {
    assert forall i :: 0 <= i < |es[1..]| ==> es[1..][i] == es[i + 1];
  }

  /** The pool's part: once caller k is safe, it returns to an idle pool only. */
  lemma {:induction false} SettlingRun<V>(n: Shape, s: System<V>, es: seq<Event<V>>, k: nat)
    requires Tied(n, s) && Legal(n, s, es) && Inner(es) && Q.Settling(s.pool, k)
    ensures Q.Settling(Exec(n, s, es).pool, k)
    decreases |es|
  {
    if es != [] {
      TailFacts(es);
      StepTied(n, s, es[0]);
      if es[0].Pool? {
        Q.SettlingStep(s.pool, es[0].e, k);
      } else {
        NetChanges(n, s.net, es[0].ne);
        WakeUpKeeps(s, Network.Apply(n, s.net, es[0].ne), |s.task|);
      }
      SettlingRun(n, Apply(n, s, es[0]), es[1..], k);
    }
  }

  function Lift<V>(ps: seq<P.Event>): (es: seq<Event<V>>)
    ensures |es| == |ps| && forall i :: 0 <= i < |es| ==> es[i] == Pool(ps[i])
  {
    seq(|ps|, i requires 0 <= i < |ps| => Pool(ps[i]))
  }

  lemma {:induction false} PoolRun<V>(n: Shape, s: System<V>, ps: seq<P.Event>)
    requires Fits(n, s.net) && |s.task| == |s.net.work| && P.Legal(s.pool, ps)
    requires forall i :: 0 <= i < |ps| ==> !ps[i].Post? && !ps[i].Destroy? && !ps[i].Complete?
    ensures Legal(n, s, Lift(ps)) && Exec(n, s, Lift(ps)) == s.(pool := P.Exec(s.pool, ps))
    decreases |ps|
  {
    if ps != [] {
      assert Lift<V>(ps)[1..] == Lift(ps[1..]);
      PoolRun(n, s.(pool := P.Apply(s.pool, ps[0])), ps[1..]);
    }
  }

  /** A call of wait during which the network does nothing. */
  lemma WaitRun<V>(n: Shape, s: System<V>, k: nat, ps: seq<P.Event>)
    requires Fits(n, s.net) && |s.task| == |s.net.work| && P.Legal(s.pool, [P.WaitStart(k)] + ps)
    requires forall i :: 0 <= i < |ps| ==> !ps[i].Post? && !ps[i].Destroy? && !ps[i].Complete?
    ensures Legal(n, s, [Pool(P.WaitStart(k))] + Lift(ps)) && Inner(Lift<V>(ps))
    ensures Exec(n, s, [Pool(P.WaitStart(k))] + Lift(ps)) == s.(pool := P.Exec(s.pool, [P.WaitStart(k)] + ps))
  {
    var all := [P.WaitStart(k)] + ps;
    assert forall i :: 0 < i < |all| ==> all[i] == ps[i - 1];
    PoolRun(n, s, all);
    assert Lift<V>(all) == [Pool(P.WaitStart(k))] + Lift(ps);
  }

  /** The network is at rest already, or the pool is in order: the service is not stopped and no thread is
      between run() and the lock. */
  ghost predicate Safe<V>(s: System<V>) {
    Quiet(s.net) || (!s.pool.stopped && !P.Stale(s.pool))
  }

  ghost predicate Returned(p: P.State, k: nat) {
    k < |p.callers| && p.callers[k].Out?
  }

  lemma QuietStep<V>(n: Shape, s: System<V>, e: Event<V>)
    requires Tied(n, s) && Enabled(n, s, e) && !e.Outside? && Quiet(s.net)
    ensures Apply(n, s, e).net == s.net
  {
    if e.Work? { NetChanges(n, s.net, e.ne); }
    NetPart(n, s, e);
  }

  lemma {:induction false} QuietStays<V>(n: Shape, s: System<V>, es: seq<Event<V>>)
    requires Tied(n, s) && Legal(n, s, es) && Inner(es) && Quiet(s.net)
    ensures Exec(n, s, es).net == s.net
    decreases |es|
  {
    if es != [] {
      TailFacts(es);
      StepTied(n, s, es[0]);
      QuietStep(n, s, es[0]);
      QuietStays(n, Apply(n, s, es[0]), es[1..]);
    }
  }

  /** One call of wait: when it returns the network is at rest. */
  lemma WaitRests<V>(n: Shape, s: System<V>, k: nat, es: seq<Event<V>>)
    requires Tied(n, s) && Legal(n, s, [Pool(P.WaitStart(k))] + es) && Inner(es) && Safe(s)
    requires Returned(Exec(n, s, [Pool(P.WaitStart(k))] + es).pool, k)
    ensures Tied(n, Exec(n, s, [Pool(P.WaitStart(k))] + es))
    ensures Quiet(Exec(n, s, [Pool(P.WaitStart(k))] + es).net)
  {
    var e := Pool(P.WaitStart(k));
    assert ([e] + es)[1..] == es;
    AlwaysTied(n, s, [e] + es);
    StepTied(n, s, e);
    if Quiet(s.net) {
      QuietStays(n, Apply(n, s, e), es);
    } else {
      Q.WaitStartSettles(s.pool, k);
      SettlingRun(n, Apply(n, s, e), es, k);
      IdleIsQuiet(n, Exec(n, s, [e] + es));
    }
  }

  // ---- the calls of wait come to an end with the network ----

  /** A step of a worker of the network that is not at rest. */
  lemma WorkerSteps<V>(n: Shape, s: System<V>, v: nat, w: nat)
    requires Tied(n, s) && v < |s.pool.workers| && w < |s.task| && s.pool.workers[v] == P.Busy(s.task[w])
    requires !Resting(s.net.work[w])
    ensures exists ne :: Enabled(n, s, Work(v, ne)) && ne.w == w
  {
    var ne: Network.Event<V> :=
      match s.net.work[w]
      case Given(_) => Begin(w, [])
      case Busy(_, todo) => if todo == [] then Finish(w) else PutOut(w)
      case Ending(_) => CloseNext(w)
      case _ => Fetch(w);
    assert Enabled(n, s, Work(v, ne));
  }

  /** The step is neither outside activity nor a wake-up without a notification. */
  ghost predicate OwnStep<V>(n: Shape, s: System<V>, e: Event<V>) {
    Enabled(n, s, e) && !e.Outside? && (e.Pool? ==> Q.Quiet(s.pool, e.e))
  }

  /** While a caller sleeps in wait, the pool or a worker of the network can go on. */
  lemma SystemNeverStuck<V>(n: Shape, s: System<V>)
    requires Tied(n, s) && |s.pool.workers| > 0 && !P.AllOut(s.pool)
    ensures exists e :: OwnStep(n, s, e)
  {
    Q.NeverStuck(s.pool);
    var pe :| P.Enabled(s.pool, pe) && Q.Quiet(s.pool, pe);
    if pe.Complete? && !SegmentOver(s, pe.w) {
      var w :| 0 <= w < |s.task| && s.task[w] == s.pool.workers[pe.w].id && !Resting(s.net.work[w]);
      WorkerSteps(n, s, pe.w, w);
      var ne :| Enabled(n, s, Work(pe.w, ne)) && ne.w == w;
      assert OwnStep(n, s, Work(pe.w, ne));
    } else {
      assert OwnStep(n, s, Pool(pe));
    }
  }

  /** From outside anything may be put and closed at any moment; the pool may take any task and may be waited for. */
  lemma NobodyIsBarred<V>(n: Shape, s: System<V>, c: Cid, v: V, pe: P.Event)
    requires Tied(n, s) && c < n.channels
    ensures Enabled(n, s, Outside(External(c, v))) && Enabled<V>(n, s, Outside(ExternalClose(c)))
    ensures P.Enabled(s.pool, pe) && (pe.Start? || pe.WaitStart? || pe.Wake?) ==> Enabled(n, s, Pool(pe))
  {
  }

  /** A worker that has something to do has a task, and a thread that is given the task can let it go on. */
  lemma WorkerHasTask<V>(n: Shape, s: System<V>, w: nat)
    requires Tied(n, s) && w < |s.task| && !Resting(s.net.work[w])
    ensures Pending(s.pool, s.task[w])
    ensures forall v :: 0 <= v < |s.pool.workers| && s.pool.workers[v] == P.Busy(s.task[w]) ==>
              exists ne :: Enabled(n, s, Work(v, ne)) && ne.w == w
  {
    forall v | 0 <= v < |s.pool.workers| && s.pool.workers[v] == P.Busy(s.task[w])
      ensures exists ne :: Enabled(n, s, Work(v, ne)) && ne.w == w
    {
      WorkerSteps(n, s, v, w);
    }
  }

  /** In all runs, once the call has returned the network is at rest. */
  ghost predicate WaitAlwaysRests<V(!new)>(n: Shape, s: System<V>, k: nat) {
    forall es :: Legal(n, s, [Pool(P.WaitStart(k))] + es) && Inner(es)
      && Returned(Exec(n, s, [Pool(P.WaitStart(k))] + es).pool, k)
      ==> Quiet(Exec(n, s, [Pool(P.WaitStart(k))] + es).net)
  }

  /** Exactly when a call of wait returns to a network at rest only. */
  lemma WaitRestsIff<V(!new)>(n: Shape, s: System<V>, k: nat)
    requires Tied(n, s) && P.Enabled(s.pool, P.WaitStart(k)) && |s.pool.workers| > 0
    ensures WaitAlwaysRests(n, s, k) <==> Safe(s)
  {
    if Safe(s) {
      forall es | Legal(n, s, [Pool(P.WaitStart(k))] + es) && Inner(es)
        && Returned(Exec(n, s, [Pool(P.WaitStart(k))] + es).pool, k)
        ensures Quiet(Exec(n, s, [Pool(P.WaitStart(k))] + es).net)
      {
        WaitRests(n, s, k, es);
      }
    } else {
      Q.IdleIsDone(s.pool);
      assert !Q.Idle(s.pool) by {
        if Q.Idle(s.pool) { IdleIsQuiet(n, s); }
      }
      var ps := P.EarlyReturn(s.pool, k);
      WaitRun(n, s, k, ps);
      assert !Quiet(Exec(n, s, [Pool(P.WaitStart(k))] + Lift(ps)).net);
    }
  }

  // ---- the whole of closeAndWait ----

  /** The network has been set up, with a first task for each of its workers. */
  ghost predicate Start<V>(n: Shape, s: System<V>) {
    Tied(n, s) && Init(n, s.net)
  }

  /** The four parts of a run: what happens before, the first wait, the close, the second wait. */
  datatype Run<!V> = Run(before: seq<Event<V>>, first: seq<Event<V>>, a: Cid, second: seq<Event<V>>)

  ghost predicate IsRun<V>(n: Shape, s0: System<V>, k: nat, r: Run<V>) {
    && Legal(n, s0, r.before) && NoClose(r.before)
    && var s1 := Exec(n, s0, r.before);
    && Legal(n, s1, [Pool(P.WaitStart(k))] + r.first) && Inner(r.first)
    && var s2 := Exec(n, s1, [Pool(P.WaitStart(k))] + r.first);
    && Returned(s2.pool, k) && Enabled(n, s2, Outside(ExternalClose(r.a)))
    && var s3 := Apply(n, s2, Outside(ExternalClose(r.a)));
    && Legal(n, s3, [Pool(P.WaitStart(k))] + r.second) && Inner(r.second)
    && Returned(Exec(n, s3, [Pool(P.WaitStart(k))] + r.second).pool, k)
  }

  ghost function AfterFirst<V>(n: Shape, s0: System<V>, k: nat, r: Run<V>): System<V>
    requires IsRun(n, s0, k, r)
  {
    Exec(n, Exec(n, s0, r.before), [Pool(P.WaitStart(k))] + r.first)
  }

  ghost function AfterClose<V>(n: Shape, s0: System<V>, k: nat, r: Run<V>): System<V>
    requires IsRun(n, s0, k, r)
  {
    Apply(n, AfterFirst(n, s0, k, r), Outside(ExternalClose(r.a)))
  }

  ghost function AtEnd<V>(n: Shape, s0: System<V>, k: nat, r: Run<V>): System<V>
    requires IsRun(n, s0, k, r)
  {
    Exec(n, AfterClose(n, s0, k, r), [Pool(P.WaitStart(k))] + r.second)
  }

  /** What closeAndWait is for. */
  ghost predicate ShutDown<V>(n: Shape, before: State<V>, s: State<V>, a: Cid) {
    && Fits(n, s) && s.puts == before.puts && s.done == before.done
    && (forall c :: 0 <= c < n.channels ==> (s.chans[c].closed <==> Shutdown.Reaches(n, a, c)))
    && (forall w :: 0 <= w < |s.work| ==> if Shutdown.Reaches(n, a, n.src[w]) then s.work[w] == Ending([]) else s.work[w].Parked?)
    && (forall c :: 0 <= c < n.channels && Shutdown.Consumed(n, c) ==> Shutdown.AllDoneOnce(s, c))
  }

  /** If the pool is in order at both calls of wait: when closeAndWait returns, each item ever put into a
      consumed channel has been processed exactly once, all channels reachable from the closed one are
      closed, and the workers that read them have exited. */
  lemma CloseAndWaitTheorem<V>(n: Shape, s0: System<V>, k: nat, r: Run<V>)
    requires Start(n, s0) && IsRun(n, s0, k, r)
    requires Safe(Exec(n, s0, r.before)) && Safe(AfterClose(n, s0, k, r))
    ensures ShutDown(n, AfterFirst(n, s0, k, r).net, AtEnd(n, s0, k, r).net, r.a)
  {
    BothRest(n, s0, k, r);
    var ns, fs := NetPhases(n, s0, k, r);
    Shutdown.DrainAndClose(n, s0.net, ns, r.a, fs);
  }

  /** The network's part of the whole, up to the end of the first wait and from the close on. */
  lemma NetPhases<V>(n: Shape, s0: System<V>, k: nat, r: Run<V>) returns (ns: seq<Network.Event<V>>, fs: seq<Network.Event<V>>)
    requires Tied(n, s0) && IsRun(n, s0, k, r) && Tied(n, AfterFirst(n, s0, k, r)) && Tied(n, AfterClose(n, s0, k, r))
    ensures Shutdown.Legal(n, s0.net, ns) && Shutdown.NoClose(ns)
    ensures var net := Shutdown.Exec(n, s0.net, ns);
      && net == AfterFirst(n, s0, k, r).net
      && Shutdown.Legal(n, net, [ExternalClose(r.a)] + fs) && Shutdown.Inside(fs)
      && Shutdown.Exec(n, net, [ExternalClose(r.a)] + fs) == AtEnd(n, s0, k, r).net
  {
    ns := NetRunTwice(n, s0, r.before, [Pool(P.WaitStart(k))] + r.first);
    fs := NetRun(n, AfterClose(n, s0, k, r), [Pool(P.WaitStart(k))] + r.second);
    NetPart(n, AfterFirst(n, s0, k, r), Outside(ExternalClose(r.a)));
    var all := Prepend(n, AfterFirst(n, s0, k, r).net, ExternalClose(r.a), fs);
  }

  /** After each of the two waits the network is at rest. */
  lemma BothRest<V>(n: Shape, s0: System<V>, k: nat, r: Run<V>)
    requires Start(n, s0) && IsRun(n, s0, k, r)
    requires Safe(Exec(n, s0, r.before)) && Safe(AfterClose(n, s0, k, r))
    ensures Tied(n, AfterFirst(n, s0, k, r)) && Quiet(AfterFirst(n, s0, k, r).net)
    ensures Tied(n, AfterClose(n, s0, k, r))
    ensures Tied(n, AtEnd(n, s0, k, r)) && Quiet(AtEnd(n, s0, k, r).net)
  {
    AlwaysTied(n, s0, r.before);
    WaitRests(n, Exec(n, s0, r.before), k, r.first);
    StepTied(n, AfterFirst(n, s0, k, r), Outside(ExternalClose(r.a)));
    WaitRests(n, AfterClose(n, s0, k, r), k, r.second);
  }

  lemma NetRunTwice<V>(n: Shape, s: System<V>, es: seq<Event<V>>, fs: seq<Event<V>>) returns (ns: seq<Network.Event<V>>)
    requires Tied(n, s) && Legal(n, s, es) && Legal(n, Exec(n, s, es), fs) && NoClose(es) && NoClose(fs)
    ensures Shutdown.Legal(n, s.net, ns) && Shutdown.NoClose(ns)
    ensures Shutdown.Exec(n, s.net, ns) == Exec(n, Exec(n, s, es), fs).net
  {
    var a := NetRun(n, s, es);
    AlwaysTied(n, s, es);
    var b := NetRun(n, Exec(n, s, es), fs);
    NetAppend(n, s.net, a, b);
    ns := a + b;
  }

  lemma {:induction false} NetAppend<V>(n: Shape, s: State<V>, a: seq<Network.Event<V>>, b: seq<Network.Event<V>>)
    requires Shutdown.Legal(n, s, a) && Shutdown.Legal(n, Shutdown.Exec(n, s, a), b)
    ensures Shutdown.Legal(n, s, a + b) && Shutdown.Exec(n, s, a + b) == Shutdown.Exec(n, Shutdown.Exec(n, s, a), b)
    decreases |a|
  {
    if a == [] {
      assert a + b == b;
    } else {
      assert (a + b)[1..] == a[1..] + b;
      NetAppend(n, Network.Apply(n, s, a[0]), a[1..], b);
    }
  }

  // ---- a pool of one thread ----

  lemma {:induction false} OneThreadRun<V>(n: Shape, s: System<V>, es: seq<Event<V>>)
    requires Tied(n, s) && Legal(n, s, es) && P.OneThread(s.pool) && |s.pool.callers| == 1
    ensures P.OneThread(Exec(n, s, es).pool) && |Exec(n, s, es).pool.callers| == 1
    decreases |es|
  {
    if es != [] {
      StepTied(n, s, es[0]);
      if es[0].Pool? {
        P.OneThreadStep(s.pool, es[0].e);
      } else {
        NetChanges(n, s.net, es[0].ne);
        WakeUpKeeps(s, Network.Apply(n, s.net, es[0].ne), |s.task|);
      }
      OneThreadRun(n, Apply(n, s, es[0]), es[1..]);
    }
  }

  lemma OneThreadInOrder(p: P.State)
    requires P.Inv(p) && P.OneThread(p) && |p.callers| == 1 && Returned(p, 0) && !p.toStop
    ensures !p.stopped && !P.Stale(p)
  {
    assert P.AllOut(p);
  }

  /** With one thread closeAndWait needs no condition. */
  lemma OneThreadCloseAndWait<V>(n: Shape, s0: System<V>, r: Run<V>)
    requires Start(n, s0) && IsRun(n, s0, 0, r) && P.OneThread(s0.pool) && |s0.pool.callers| == 1
    ensures ShutDown(n, AfterFirst(n, s0, 0, r).net, AtEnd(n, s0, 0, r).net, r.a)
  {
    var s1 := Exec(n, s0, r.before);
    AlwaysTied(n, s0, r.before);
    OneThreadRun(n, s0, r.before);
    OneThreadInOrder(s1.pool);
    WaitRests(n, s1, 0, r.first);
    OneThreadRun(n, s1, [Pool(P.WaitStart(0))] + r.first);
    var s2 := AfterFirst(n, s0, 0, r);
    StepTied(n, s2, Outside(ExternalClose(r.a)));
    NetChanges(n, s2.net, ExternalClose(r.a));
    WakeUpKeeps(s2, Network.Apply(n, s2.net, ExternalClose(r.a)), |s2.task|);
    OneThreadInOrder(AfterClose(n, s0, 0, r).pool);
    CloseAndWaitTheorem(n, s0, 0, r);
  }

  // ---- the start is possible, and the condition is needed ----

  /** Some tasks posted to a pool that has just been made, one for each worker of the network. */
  function Prepared<V>(p: P.State, net: State<V>): System<V> {
    System(p.(queue := seq(|net.work|, w requires 0 <= w < |net.work| => w as nat), posted := |net.work|), net,
           seq(|net.work|, w requires 0 <= w < |net.work| => w as nat))
  }

  lemma PreparedStarts<V>(n: Shape, p: P.State, net: State<V>)
    requires P.Init(p) && Init(n, net)
    ensures Start(n, Prepared(p, net))
    ensures |p.workers| == 1 && |p.callers| == 1 ==> P.OneThread(Prepared(p, net).pool)
  {
    InitInv(n, net);
    var s := Prepared(p, net);
    forall w | 0 <= w < |s.task| ensures Pending(s.pool, s.task[w]) {
      assert s.pool.queue[w] == s.task[w];
    }
  }

  /** One worker that reads channel 0 and closes channel 1. */
  ghost const PIPE := Shape(2, [0], [[1]])

  const ROUND1 := [P.Leave(0), P.Leave(1), P.Lock(0), P.NotifyAll(0), P.Wake(0)]
  const ROUND2 := [P.Lock(1), P.NotifyAll(1), P.Wake(0)]

  lemma Cons<V>(n: Shape, s: System<V>, e: Event<V>, es: seq<Event<V>>)
    requires Enabled(n, s, e) && Legal(n, Apply(n, s, e), es)
    ensures Legal(n, s, [e] + es) && Exec(n, s, [e] + es) == Exec(n, Apply(n, s, e), es)
  {
    assert ([e] + es)[1..] == es;
  }

  ghost const NET0: State<int> := State([Chan([], [], false), Chan([], [], false)], [[], []], [[], []], [Fetching])
  ghost const NET1: State<int> := State([Chan([0], [], false), Chan([], [], false)], [[], []], [[], []], [Parked])
  ghost const NET2: State<int> := State([Chan([], [], true), Chan([], [], false)], [[], []], [[], []], [Ending([1])])

  lemma NetSteps()
    ensures Init(PIPE, NET0) && Network.Enabled(PIPE, NET0, Fetch(0)) && Network.Apply(PIPE, NET0, Fetch(0)) == NET1
    ensures Fits(PIPE, NET1) && Network.Enabled(PIPE, NET1, ExternalClose(0))
    ensures Network.Apply(PIPE, NET1, ExternalClose(0)) == NET2
  {
    assert NET0.chans[0].Park(0) == NET1.chans[0];
    assert NET0.chans[0 := NET1.chans[0]] == NET1.chans;
    assert NET0.work[0 := Parked] == NET1.work;
    var s := CloseChan(PIPE, NET1, 0);
    assert s.chans == NET2.chans;
    assert s.work[0] == Ending([1]);
  }

  ghost function Rested(queue: seq<nat>, posted: nat, second: P.Worker): P.State {
    P.State([P.InRun, second], queue, true, false, false, [P.Out], posted)
  }

  /** The worker's first segment: it finds nothing and waits. */
  lemma FirstSegment()
    ensures var s := System(Rested([0], 1, P.InRun), NET0, [0]);
            var es := [Pool(P.Start(0, 0)), Work(0, Fetch(0)), Pool(P.Complete(0))];
            Legal(PIPE, s, es) && NoClose(es) && Exec(PIPE, s, es) == System(Rested([], 1, P.InRun), NET1, [0])
  {
    NetSteps();
    var s := System(Rested([0], 1, P.InRun), NET0, [0]);
    var a, b, c := Pool(P.Start(0, 0)), Work(0, Fetch(0)), Pool(P.Complete(0));
    var s1 := Apply(PIPE, s, a);
    assert s1.pool == P.State([P.Busy(0), P.InRun], [], true, false, false, [P.Out], 1);
    assert WakeUp(s1, NET1, 0) == s1.(net := NET1);
    var s2 := Apply(PIPE, s1, b);
    assert s2 == s1.(net := NET1);
    var s3 := Apply(PIPE, s2, c);
    assert s3.pool == Rested([], 1, P.InRun);
    Cons(PIPE, s2, c, []);
    Cons(PIPE, s1, b, [c] + []);
    Cons(PIPE, s, a, [b] + ([c] + []));
    assert [a] + ([b] + ([c] + [])) == [a, b, c];
  }

  lemma FirstWait()
    ensures var s := System(Rested([], 1, P.InRun), NET1, [0]); var es := [Pool(P.WaitStart(0))] + Lift(ROUND1);
            Legal(PIPE, s, es) && Inner(Lift<int>(ROUND1)) && Exec(PIPE, s, es) == s.(pool := Rested([], 1, P.OutRun))
  {
    NetSteps();
    var s := System(Rested([], 1, P.InRun), NET1, [0]);
    P.FirstRound(s.pool);
    assert [P.WaitStart(0)] + ROUND1 == [P.WaitStart(0), P.Leave(0), P.Leave(1), P.Lock(0), P.NotifyAll(0), P.Wake(0)];
    WaitRun(PIPE, s, 0, ROUND1);
  }

  lemma CloseStep()
    ensures var s := System(Rested([], 1, P.OutRun), NET1, [0]); var e := Outside(ExternalClose(0));
            Enabled(PIPE, s, e) && Apply(PIPE, s, e) == System(Rested([1], 2, P.OutRun), NET2, [1])
  {
    NetSteps();
    var s := System(Rested([], 1, P.OutRun), NET1, [0]);
    assert WakeUp(s, NET2, 0) == s.(net := NET2);
    assert Woken(NET1, NET2, 0);
    assert WakeUp(s, NET2, 1).pool.queue == [1];
    assert WakeUp(s, NET2, 1).task == [1];
  }

  lemma SecondWait()
    ensures var s := System(Rested([1], 2, P.OutRun), NET2, [1]); var es := [Pool(P.WaitStart(0))] + Lift(ROUND2);
            Legal(PIPE, s, es) && Inner(Lift<int>(ROUND2)) && Exec(PIPE, s, es) == s.(pool := Rested([1], 2, P.InRun))
  {
    NetSteps();
    var s := System(Rested([1], 2, P.OutRun), NET2, [1]);
    P.SecondRound(s.pool);
    assert [P.WaitStart(0)] + ROUND2 == [P.WaitStart(0), P.Lock(1), P.NotifyAll(1), P.Wake(0)];
    assert Fits(PIPE, NET2);
    WaitRun(PIPE, s, 0, ROUND2);
  }

  ghost const SYSTEM0: System<int> := System(Rested([0], 1, P.InRun), NET0, [0])

  ghost const EARLY: Run<int> :=
    Run([Pool(P.Start(0, 0)), Work(0, Fetch(0)), Pool(P.Complete(0))], Lift(ROUND1), 0, Lift(ROUND2))

  lemma EarlyStarts()
    ensures Start(PIPE, SYSTEM0)
  {
    NetSteps();
    var p := P.State([P.InRun, P.InRun], [], true, false, false, [P.Out], 0);
    PreparedStarts(PIPE, p, NET0);
    assert Prepared(p, NET0).pool.queue == [0] && Prepared(p, NET0).task == [0];
  }

  lemma EarlyRuns()
    ensures IsRun(PIPE, SYSTEM0, 0, EARLY)
    ensures AtEnd(PIPE, SYSTEM0, 0, EARLY).net == NET2
  {
    FirstSegment();
    FirstWait();
    CloseStep();
    SecondWait();
  }

  lemma NotShutDown(before: State<int>)
    ensures !ShutDown(PIPE, before, NET2, 0)
  {
    NetSteps();
    assert Shutdown.Within(PIPE, 0, 0, 0);
    assert 1 in PIPE.dsts[0] && PIPE.src[0] == 0;
    assert Shutdown.Within(PIPE, 0, 1, 1);
    assert Shutdown.Reaches(PIPE, 0, 1);
    assert !NET2.chans[1].closed;
  }

  /** With two threads and no condition closeAndWait can return too early: a worker that was told to end has
      not yet closed what it has to close. */
  lemma TooEarly() returns (s0: System<int>, r: Run<int>)
    ensures Start(PIPE, s0) && IsRun(PIPE, s0, 0, r)
    ensures !ShutDown(PIPE, AfterFirst(PIPE, s0, 0, r).net, AtEnd(PIPE, s0, 0, r).net, r.a)
  {
    s0, r := SYSTEM0, EARLY;
    EarlyStarts();
    EarlyRuns();
    NotShutDown(AfterFirst(PIPE, s0, 0, r).net);
  }
}
