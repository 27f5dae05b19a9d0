/** Channels closed at any moment, with items on the way, workers busy and more items coming: what is closed in
    the end, who has exited, and which items were processed. */
module Closing {
  import opened Prelude
  import opened Network
  import opened NetworkSafety
  import opened Shutdown

  /** A worker that has left its loop did so because its source is closed, and each channel it has to close is
      closed or still to be closed by it. */
  ghost predicate EndsRight<V>(n: Shape, s: State<V>)
    requires Fits(n, s)
  {
    forall w :: 0 <= w < |s.work| && s.work[w].Ending? ==>
      s.chans[n.src[w]].closed && forall d :: d in n.dsts[w] ==> d in s.work[w].closes || s.chans[d].closed
  }

  /** The channels of A are closed, and all others that are closed are reachable from them. */
  ghost predicate ClosedFrom<V>(n: Shape, s: State<V>, A: set<Cid>)
    requires Fits(n, s)
  {
    && (forall a :: a in A ==> a < n.channels && s.chans[a].closed)
    && (forall c :: 0 <= c < n.channels && s.chans[c].closed ==> ReachesFrom(n, A, c))
  }

  ghost predicate ReachesFrom(n: Shape, A: set<Cid>, c: Cid)
    requires n.Valid()
  {
    exists a :: a in A && Reaches(n, a, c)
  }

  ghost predicate Closed<V>(n: Shape, s: State<V>, A: set<Cid>) {
    Inv(n, s) && EndsRight(n, s) && ClosedFrom(n, s, A)
  }

  /** The channel that a step closes. */
  ghost function Closes<V>(n: Shape, s: State<V>, e: Event<V>): Option<Cid>
    requires Fits(n, s) && Enabled(n, s, e)
  {
    match e
    case ExternalClose(c) => Some(c)
    case CloseNext(w) => Some(s.work[w].closes[0])
    case _ => None
  }

  lemma FlagStep<V>(n: Shape, s: State<V>, e: Event<V>)
    requires Inv(n, s) && Enabled(n, s, e) && Fits(n, Apply(n, s, e))
    ensures Closes(n, s, e).Some? ==> Closes(n, s, e).value < n.channels
    ensures forall d :: 0 <= d < n.channels ==>
              (Apply(n, s, e).chans[d].closed <==> s.chans[d].closed || Closes(n, s, e) == Some(d))
  {
    if e.CloseNext? { assert s.work[e.w].closes[0] in s.work[e.w].closes; }
    if e.PutOut? { assert s.work[e.w].todo[0].0 in n.dsts[e.w]; }
  }

  /** Who leaves the loop in a step, and how a worker that has left it goes on. */
  ghost predicate EndingStep<V>(n: Shape, s: State<V>, s': State<V>, e: Event<V>, u: Wid)
    requires Fits(n, s) && Fits(n, s') && u < |n.src|
  {
    && (s'.work[u].Ending? && !s.work[u].Ending? ==> s'.work[u].closes == n.dsts[u] && s'.chans[n.src[u]].closed)
    && (s.work[u].Ending? ==>
          s'.work[u].Ending?
          && s'.work[u].closes == if e.CloseNext? && e.w == u && s.work[u].closes != [] then s.work[u].closes[1..] else s.work[u].closes)
  }

  lemma PutEndsNobody<V>(n: Shape, s: State<V>, c: Cid, v: V, u: Wid)
    requires Fits(n, s) && Lists(n, s) && c < n.channels && u < |n.src| && Fits(n, PutTo(s, c, v))
    ensures PutTo(s, c, v).work[u] == s.work[u] || (s.work[u].Parked? && PutTo(s, c, v).work[u].Given?)
  {
    var ws := s.chans[c].waiters;
    if ws != [] {
      assert ws[0] in ws;
      assert n.src[ws[0]] == c;
    }
  }

  lemma WhoEnds<V>(n: Shape, s: State<V>, e: Event<V>, u: Wid)
    requires Inv(n, s) && Enabled(n, s, e) && Fits(n, Apply(n, s, e)) && u < |n.src|
    ensures EndingStep(n, s, Apply(n, s, e), e, u)
  {
    match e
    case External(c, v) => PutEndsNobody(n, s, c, v, u);
    case ExternalClose(c) => CloseEnds(n, s, c, u);
    case PutOut(w) => PutOutEndsNobody(n, s, w, u);
    case CloseNext(w) => CloserEnds(n, s, w, u);
    case _ =>
  }

  lemma CloserEnds<V>(n: Shape, s: State<V>, w: Wid, u: Wid)
    requires Inv(n, s) && Enabled(n, s, CloseNext(w)) && u < |n.src| && Fits(n, Apply(n, s, CloseNext(w)))
    ensures EndingStep(n, s, Apply(n, s, CloseNext(w)), CloseNext(w), u)
  {
    CloserEffect(n, s, w);
  }

  lemma CloseEnds<V>(n: Shape, s: State<V>, c: Cid, u: Wid)
    requires Inv(n, s) && c < n.channels && u < |n.src| && Fits(n, CloseChan(n, s, c))
    ensures EndingStep(n, s, CloseChan(n, s, c), ExternalClose(c), u)
  {
    if u in s.chans[c].waiters { assert n.src[u] == c && s.work[u].Parked?; }
  }

  lemma PutOutEndsNobody<V>(n: Shape, s: State<V>, w: Wid, u: Wid)
    requires Inv(n, s) && Enabled(n, s, PutOut(w)) && u < |n.src| && Fits(n, Apply(n, s, PutOut(w)))
    ensures EndingStep(n, s, Apply(n, s, PutOut(w)), PutOut(w), u)
    ensures Apply(n, s, PutOut(w)).work[u].Ending? ==> s.work[u].Ending?
  {
    var todo := s.work[w].todo;
    var s1 := SetWork(s, w, Busy(s.work[w].i, todo[1..]));
    assert todo[0].0 in n.dsts[w];
    var ws := s.chans[todo[0].0].waiters;
    if ws != [] {
      assert ws[0] in ws;
      assert n.src[ws[0]] == todo[0].0 && s.work[ws[0]].Parked?;
    }
  }

  lemma ClosedStep<V>(n: Shape, s: State<V>, e: Event<V>, A: set<Cid>)
    requires Closed(n, s, A) && Enabled(n, s, e)
    ensures Closed(n, Apply(n, s, e), A + ClosedBy(e))
  {
    StepKeeps(n, s, e);
    FlagStep(n, s, e);
    var s' := Apply(n, s, e);
    forall w | 0 <= w < |s'.work| && s'.work[w].Ending?
      ensures s'.chans[n.src[w]].closed && forall d :: d in n.dsts[w] ==> d in s'.work[w].closes || s'.chans[d].closed
    {
      WhoEnds(n, s, e, w);
      EndsRightStays(n, s, s', e, w);
    }
    ReachStep(n, s, e, A);
  }

  lemma EndsRightStays<V>(n: Shape, s: State<V>, s': State<V>, e: Event<V>, w: Wid)
    requires Fits(n, s) && Fits(n, s') && EndsRight(n, s) && Enabled(n, s, e) && w < |s'.work| && s'.work[w].Ending?
    requires EndingStep(n, s, s', e, w)
    requires forall d :: 0 <= d < n.channels ==> (s'.chans[d].closed <==> s.chans[d].closed || Closes(n, s, e) == Some(d))
    ensures s'.chans[n.src[w]].closed && forall d :: d in n.dsts[w] ==> d in s'.work[w].closes || s'.chans[d].closed
  {
    forall d | d in n.dsts[w] ensures d in s'.work[w].closes || s'.chans[d].closed {
      if s.work[w].Ending? && !s.chans[d].closed {
        var cs := s.work[w].closes;
        assert d in cs;
        if e.CloseNext? && e.w == w {
          assert cs == [cs[0]] + cs[1..];
        }
      }
    }
  }

  lemma ReachStep<V>(n: Shape, s: State<V>, e: Event<V>, A: set<Cid>)
    requires Closed(n, s, A) && Enabled(n, s, e) && Fits(n, Apply(n, s, e))
    ensures ClosedFrom(n, Apply(n, s, e), A + ClosedBy(e))
  {
    FlagStep(n, s, e);
    var s' := Apply(n, s, e);
    if Closes(n, s, e).Some? { NewlyReached(n, s, e, A); }
    forall c | 0 <= c < n.channels && s'.chans[c].closed ensures ReachesFrom(n, A + ClosedBy(e), c) {
      if s.chans[c].closed { StillReached(n, A, ClosedBy(e), c); }
    }
  }

  lemma StillReached(n: Shape, A: set<Cid>, B: set<Cid>, c: Cid)
    requires n.Valid() && ReachesFrom(n, A, c)
    ensures ReachesFrom(n, A + B, c)
  {
    var a :| a in A && Reaches(n, a, c);
    assert a in A + B;
  }

  /** A channel that is closed by a closer is reachable, since the closer's source is. */
  lemma NewlyReached<V>(n: Shape, s: State<V>, e: Event<V>, A: set<Cid>)
    requires Fits(n, s) && EndsRight(n, s) && ClosedFrom(n, s, A) && Enabled(n, s, e) && Closes(n, s, e).Some?
    ensures ReachesFrom(n, A + ClosedBy(e), Closes(n, s, e).value)
  {
    var c := Closes(n, s, e).value;
    if e.ExternalClose? {
      assert Within(n, c, c, 0);
      assert c in A + ClosedBy(e) && Reaches(n, c, c);
    } else {
      var a :| a in A && Reaches(n, a, n.src[e.w]);
      assert s.work[e.w].closes[0] in s.work[e.w].closes;
      ReachFurther(n, a, e.w, c);
      assert a in A + ClosedBy(e);
    }
  }

  /** The channels that a run closes from outside. */
  function ClosedOutside<V>(es: seq<Event<V>>): set<Cid> {
    if es == [] then {} else ClosedBy(es[0]) + ClosedOutside(es[1..])
  }

  function ClosedBy<V>(e: Event<V>): set<Cid> {
    if e.ExternalClose? then {e.c} else {}
  }

  lemma {:induction false} ClosedRun<V>(n: Shape, s: State<V>, es: seq<Event<V>>, A: set<Cid>)
    requires Closed(n, s, A) && Legal(n, s, es)
    ensures Closed(n, Exec(n, s, es), A + ClosedOutside(es))
    decreases |es|
  {
    if es == [] {
      assert A + ClosedOutside(es) == A;
    } else {
      ClosedStep(n, s, es[0], A);
      ClosedRun(n, Apply(n, s, es[0]), es[1..], A + ClosedBy(es[0]));
      Regroup(A, ClosedBy(es[0]), ClosedOutside(es[1..]));
    }
  }

  lemma Regroup(A: set<Cid>, B: set<Cid>, C: set<Cid>)
    ensures (A + B) + C == A + (B + C)
  {
  }

  // ---- at rest ----

  /** At rest the readers of a closed channel have closed what they have to close. */
  lemma PassedOn<V>(n: Shape, s: State<V>, w: Wid, c: Cid)
    requires Inv(n, s) && EndsRight(n, s) && Quiet(s) && w < |n.src| && c in n.dsts[w] && s.chans[n.src[w]].closed
    ensures s.chans[c].closed
  {
    ClosedHasNoReader(n, s, w);
    assert s.work[w] == Ending([]);
  }

  lemma {:induction false} ReachedClosed<V>(n: Shape, s: State<V>, a: Cid, c: Cid, k: nat)
    requires Inv(n, s) && EndsRight(n, s) && Quiet(s) && a < n.channels && s.chans[a].closed && c < n.channels
    requires Within(n, a, c, k)
    ensures s.chans[c].closed
    decreases k
  {
    if c != a {
      var w :| 0 <= w < |n.src| && c in n.dsts[w] && Within(n, a, n.src[w], k - 1);
      ReachedClosed(n, s, a, n.src[w], k - 1);
      PassedOn(n, s, w, c);
    }
  }

  // ---- what comes too late ----

  /** Every worker that reads c has left its loop. */
  ghost predicate AllLeft<V>(n: Shape, s: State<V>, c: Cid)
    requires Fits(n, s)
  {
    forall w :: 0 <= w < |n.src| && n.src[w] == c ==> s.work[w].Ending?
  }

  /** The step puts an item into c. */
  ghost predicate PutsInto<V>(s: State<V>, e: Event<V>, c: Cid) {
    (e.External? && e.c == c) || (e.PutOut? && e.w < |s.work| && s.work[e.w].Busy? && s.work[e.w].todo != [] && s.work[e.w].todo[0].0 == c)
  }

  /** How many items the run puts into c after its last reader has left. */
  ghost function LatePuts<V>(n: Shape, s: State<V>, es: seq<Event<V>>, c: Cid): nat
    requires Legal(n, s, es)
    decreases |es|
  {
    if es == [] then 0
    else (if PutsInto(s, es[0], c) && AllLeft(n, s, c) then 1 else 0) + LatePuts(n, Apply(n, s, es[0]), es[1..], c)
  }

  /** A reader leaves only when there is nothing to read. */
  lemma LeavesNothing<V>(n: Shape, s: State<V>, e: Event<V>, u: Wid)
    requires Inv(n, s) && Enabled(n, s, e) && Fits(n, Apply(n, s, e)) && u < |n.src|
    requires Apply(n, s, e).work[u].Ending? && !s.work[u].Ending?
    ensures Apply(n, s, e).chans[n.src[u]].queue == []
  {
    match e
    case External(c, v) => PutEndsNobody(n, s, c, v, u);
    case PutOut(w) => PutOutEndsNobody(n, s, w, u);
    case ExternalClose(c) => ParkedReadsNothing(n, s, u);
    case CloseNext(w) =>
      CloserEffect(n, s, w);
      ParkedReadsNothing(n, s, u);
    case _ =>
  }

  lemma ParkedReadsNothing<V>(n: Shape, s: State<V>, u: Wid)
    requires Fits(n, s) && Lists(n, s) && u < |n.src|
    ensures s.work[u].Parked? ==> s.chans[n.src[u]].queue == []
  {
  }

  /** Once its readers have left, a channel's queue grows by what is put, and never shrinks. */
  lemma OnlyGrows<V>(n: Shape, s: State<V>, e: Event<V>, c: Cid)
    requires Inv(n, s) && Enabled(n, s, e) && Fits(n, Apply(n, s, e)) && c < n.channels && AllLeft(n, s, c)
    ensures |Apply(n, s, e).chans[c].queue| == |s.chans[c].queue| + (if PutsInto(s, e, c) then 1 else 0)
  {
    if s.chans[c].waiters != [] {
      assert s.chans[c].waiters[0] in s.chans[c].waiters;
      assert n.src[s.chans[c].waiters[0]] == c;
    }
  }

  lemma StaysLeft<V>(n: Shape, s: State<V>, e: Event<V>, c: Cid)
    requires Inv(n, s) && Enabled(n, s, e) && Fits(n, Apply(n, s, e)) && AllLeft(n, s, c)
    ensures AllLeft(n, Apply(n, s, e), c)
  {
    forall w | 0 <= w < |n.src| && n.src[w] == c ensures Apply(n, s, e).work[w].Ending? {
      WhoEnds(n, s, e, w);
    }
  }

  lemma {:induction false} LateRun<V>(n: Shape, s: State<V>, es: seq<Event<V>>, c: Cid)
    requires Inv(n, s) && Legal(n, s, es) && c < n.channels
    ensures Inv(n, Exec(n, s, es))
    ensures AllLeft(n, s, c) || LatePuts(n, s, es, c) > 0 ==> AllLeft(n, Exec(n, s, es), c)
    ensures AllLeft(n, Exec(n, s, es), c) ==>
              |Exec(n, s, es).chans[c].queue| == (if AllLeft(n, s, c) then |s.chans[c].queue| else 0) + LatePuts(n, s, es, c)
    decreases |es|
  {
    if es != [] {
      var s1 := Apply(n, s, es[0]);
      StepKeeps(n, s, es[0]);
      LateRun(n, s1, es[1..], c);
      if AllLeft(n, s, c) {
        StaysLeft(n, s, es[0], c);
        OnlyGrows(n, s, es[0], c);
      } else if AllLeft(n, s1, c) {
        var u :| 0 <= u < |n.src| && n.src[u] == c && !s.work[u].Ending?;
        LeavesNothing(n, s, es[0], u);
      }
    }
  }

  /** At rest, as many items of a channel have not been processed as were put after its last reader had left. */
  lemma TooLate<V>(n: Shape, s0: State<V>, es: seq<Event<V>>, c: Cid)
    requires Init(n, s0) && Legal(n, s0, es) && Quiet(Exec(n, s0, es)) && c < n.channels && Consumed(n, c)
    ensures Fits(n, Exec(n, s0, es)) && |Exec(n, s0, es).chans[c].queue| == LatePuts(n, s0, es, c)
  {
    InitInv(n, s0);
    LateRun(n, s0, es, c);
    var s := Exec(n, s0, es);
    var w :| 0 <= w < |n.src| && n.src[w] == c;
    assert !AllLeft(n, s0, c) by { assert s0.work[w].Fetching?; }
    if !AllLeft(n, s, c) {
      var u :| 0 <= u < |n.src| && n.src[u] == c && !s.work[u].Ending?;
      ParkedReadsNothing(n, s, u);
    }
  }

  /** Item i of channel c has been processed, once. */
  ghost predicate DoneOnce<V>(s: State<V>, c: Cid, i: nat)
    requires c < |s.done|
  {
    exists k :: 0 <= k < |s.done[c]| && s.done[c][k] == i && forall m :: 0 <= m < |s.done[c]| && s.done[c][m] == i ==> m == k
  }

  lemma ProcessedOrQueued<V>(n: Shape, s: State<V>, c: Cid, i: nat)
    requires Inv(n, s) && Quiet(s) && c < n.channels && i < |s.puts[c]|
    ensures DoneOnce(s, c, i) <==> i !in s.chans[c].queue
  {
    assert ItemsOf(n, s, c);
    assert Somewhere(n, s, c, i);
    var p :| At(n, s, c, i, p);
    if p.DoneAt? {
      assert s.done[c][p.k] == i;
      forall m | 0 <= m < |s.done[c]| && s.done[c][m] == i ensures m == p.k {
        assert At(n, s, c, i, DoneAt(m));
      }
      assert !At(n, s, c, i, InQueue);
    } else {
      assert p == InQueue;
      forall k | 0 <= k < |s.done[c]| ensures s.done[c][k] != i {
        assert s.done[c][k] == i ==> At(n, s, c, i, DoneAt(k));
      }
    }
  }

  /** On any finite network, whatever is put and closed from outside at whatever moments, busy workers and all:
      when the network is at rest, the channels that are closed are those that were closed from outside and those
      reachable from them; the workers that read them have exited, and their closers have run, and the others
      wait. */
  lemma CloseAtAnyTime<V>(n: Shape, s0: State<V>, es: seq<Event<V>>)
    requires Init(n, s0) && Legal(n, s0, es) && Quiet(Exec(n, s0, es))
    ensures
      var s := Exec(n, s0, es); var A := ClosedOutside(es);
      && Fits(n, s)
      && (forall c :: 0 <= c < n.channels ==> (s.chans[c].closed <==> ReachesFrom(n, A, c)))
      && (forall w :: 0 <= w < |s.work| ==> if ReachesFrom(n, A, n.src[w]) then s.work[w] == Ending([]) else s.work[w].Parked?)
  {
    InitInv(n, s0);
    ClosedRun(n, s0, es, {});
    assert {} + ClosedOutside(es) == ClosedOutside(es);
    ClosedAtRest(n, Exec(n, s0, es), ClosedOutside(es));
  }

  lemma ClosedAtRest<V>(n: Shape, s: State<V>, A: set<Cid>)
    requires Closed(n, s, A) && Quiet(s)
    ensures forall c :: 0 <= c < n.channels ==> (s.chans[c].closed <==> ReachesFrom(n, A, c))
    ensures forall w :: 0 <= w < |s.work| ==> if ReachesFrom(n, A, n.src[w]) then s.work[w] == Ending([]) else s.work[w].Parked?
  {
    forall c | 0 <= c < n.channels ensures s.chans[c].closed <==> ReachesFrom(n, A, c) {
      if a :| a in A && Reaches(n, a, c) {
        var k: nat :| Within(n, a, c, k);
        ReachedClosed(n, s, a, c, k);
      }
    }
    forall w | 0 <= w < |s.work| ensures if ReachesFrom(n, A, n.src[w]) then s.work[w] == Ending([]) else s.work[w].Parked? {
      ClosedHasNoReader(n, s, w);
    }
  }

  /** And no item is lost by a close that comes early: at rest, each item ever put into a channel that is read
      was processed, exactly once, or is in the queue, and exactly as many are there as were put after the
      channel's last reader had left. */
  lemma ItemsAtAnyTime<V>(n: Shape, s0: State<V>, es: seq<Event<V>>, c: Cid)
    requires Init(n, s0) && Legal(n, s0, es) && Quiet(Exec(n, s0, es)) && c < n.channels && Consumed(n, c)
    ensures
      var s := Exec(n, s0, es);
      && Fits(n, s)
      && (forall i: nat :: i < |s.puts[c]| ==> (DoneOnce(s, c, i) <==> i !in s.chans[c].queue))
      && |s.chans[c].queue| == LatePuts(n, s0, es, c)
  {
    InitInv(n, s0);
    LateRun(n, s0, es, c);
    TooLate(n, s0, es, c);
    var s := Exec(n, s0, es);
    forall i: nat | i < |s.puts[c]| ensures DoneOnce(s, c, i) <==> i !in s.chans[c].queue {
      ProcessedOrQueued(n, s, c, i);
    }
  }
}
