/** Drain, close the first channel, wait again: nothing is lost and everything reachable ends. */
module Shutdown {
  import opened Prelude
  import opened Network
  import opened NetworkSafety

  ghost predicate Legal<V>(n: Shape, s: State<V>, es: seq<Event<V>>)
    decreases |es|
  {
    es == [] || (Fits(n, s) && Enabled(n, s, es[0]) && Legal(n, Apply(n, s, es[0]), es[1..]))
  }

  ghost function Exec<V>(n: Shape, s: State<V>, es: seq<Event<V>>): State<V>
    requires Legal(n, s, es)
    decreases |es|
  {
    if es == [] then s else Exec(n, Apply(n, s, es[0]), es[1..])
  }

  /** Before anything is closed. */
  ghost predicate Open<V>(n: Shape, s: State<V>) {
    && Inv(n, s)
    && (forall c :: 0 <= c < n.channels ==> !s.chans[c].closed)
    && (forall w :: 0 <= w < |s.work| ==> !s.work[w].Ending?)
  }

  ghost predicate NoClose<V>(es: seq<Event<V>>) {
    forall i :: 0 <= i < |es| ==> !es[i].ExternalClose?
  }

  ghost predicate Inside<V>(es: seq<Event<V>>) {
    forall i :: 0 <= i < |es| ==> !FromOutside(es[i])
  }

  lemma OpenStep<V>(n: Shape, s: State<V>, e: Event<V>)
    requires Open(n, s) && Enabled(n, s, e) && !e.ExternalClose?
    ensures Open(n, Apply(n, s, e))
  {
    StepKeeps(n, s, e);
    if e.Fetch? { assert !s.chans[n.src[e.w]].closed; }
  }

  lemma {:induction false} OpenRun<V>(n: Shape, s: State<V>, es: seq<Event<V>>)
    requires Open(n, s) && Legal(n, s, es) && NoClose(es)
    ensures Open(n, Exec(n, s, es))
    decreases |es|
  {
    if es != [] {
      OpenStep(n, s, es[0]);
      OpenRun(n, Apply(n, s, es[0]), es[1..]);
    }
  }

  /** Each item that was ever put into channel c has been processed, once. */
  ghost predicate AllDoneOnce<V>(s: State<V>, c: Cid)
    requires c < |s.done| == |s.puts|
  {
    && Distinct(s.done[c])
    && (forall i: nat :: i in s.done[c] <==> i < |s.puts[c]|)
  }

  ghost predicate Consumed(n: Shape, c: Cid) {
    exists w :: 0 <= w < |n.src| && n.src[w] == c
  }

  lemma QuietIsDrained<V>(n: Shape, s: State<V>, c: Cid)
    requires Inv(n, s) && Quiet(s) && c < n.channels && s.chans[c].queue == []
    ensures AllDoneOnce(s, c)
  {
    assert ItemsOf(n, s, c);
    forall i: nat | i < |s.puts[c]| ensures i in s.done[c] {
      assert Somewhere(n, s, c, i);
      var p :| At(n, s, c, i, p);
      assert p.DoneAt?;
    }
    forall i: nat | i in s.done[c] ensures i < |s.puts[c]| {
      var k :| 0 <= k < |s.done[c]| && s.done[c][k] == i;
      assert At(n, s, c, i, DoneAt(k));
    }
    forall i, k | 0 <= i < k < |s.done[c]| ensures s.done[c][i] != s.done[c][k] {
      assert At(n, s, c, s.done[c][i], DoneAt(i)) && At(n, s, c, s.done[c][k], DoneAt(k));
    }
  }

  /** At rest before the close: every worker is parked on an empty open source, and each item put into
      a consumed channel was processed exactly once. */
  lemma FirstRest<V>(n: Shape, s0: State<V>, es: seq<Event<V>>)
    requires Init(n, s0) && Legal(n, s0, es) && NoClose(es) && Quiet(Exec(n, s0, es))
    ensures Open(n, Exec(n, s0, es))
    ensures
      var s := Exec(n, s0, es);
      && (forall w :: 0 <= w < |s.work| ==> s.work[w].Parked? && s.chans[n.src[w]].queue == [] && !s.chans[n.src[w]].closed)
      && (forall c :: 0 <= c < n.channels && Consumed(n, c) ==> AllDoneOnce(s, c))
  {
    InitInv(n, s0);
    OpenRun(n, s0, es);
    var s := Exec(n, s0, es);
    forall w | 0 <= w < |s.work| ensures s.work[w].Parked? && s.chans[n.src[w]].queue == [] {
      assert w in s.chans[n.src[w]].waiters;
    }
    forall c | 0 <= c < n.channels && Consumed(n, c) ensures AllDoneOnce(s, c) {
      QuietIsDrained(n, s, c);
    }
  }

  // ---- the cascade ----

  /** Channel c is closed by a chain of at most k workers, each closing what the next one reads. */
  ghost predicate Within(n: Shape, a: Cid, c: Cid, k: nat)
    requires n.Valid()
    decreases k
  {
    c == a || (k > 0 && exists w :: 0 <= w < |n.src| && c in n.dsts[w] && Within(n, a, n.src[w], k - 1))
  }

  ghost predicate Reaches(n: Shape, a: Cid, c: Cid)
    requires n.Valid()
  {
    exists k: nat :: Within(n, a, c, k)
  }

  lemma ReachFurther(n: Shape, a: Cid, w: Wid, c: Cid)
    requires n.Valid() && w < |n.src| && Reaches(n, a, n.src[w]) && c in n.dsts[w]
    ensures Reaches(n, a, c)
  {
    var k: nat :| Within(n, a, n.src[w], k);
    assert Within(n, a, c, k + 1);
  }

  /** While the cascade that started from channel a runs; r is the state of rest before. */
  ghost predicate Cascade<V>(n: Shape, r: State<V>, s: State<V>, a: Cid) {
    && Inv(n, s) && a < n.channels
    && s.puts == r.puts && s.done == r.done
    && s.chans[a].closed
    && (forall w :: 0 <= w < |s.work| ==> s.work[w].Parked? || s.work[w].Ending?)
    && (forall c :: 0 <= c < n.channels && s.chans[c].closed ==> Reaches(n, a, c))
    && (forall w :: 0 <= w < |s.work| && s.work[w].Ending? ==>
          Reaches(n, a, n.src[w]) && forall d :: d in n.dsts[w] ==> d in s.work[w].closes || s.chans[d].closed)
  }

  lemma CloseStarts<V>(n: Shape, r: State<V>, a: Cid)
    requires Open(n, r) && Quiet(r) && a < n.channels
    ensures Cascade(n, r, CloseChan(n, r, a), a)
  {
    CloseKeeps(n, r, a);
    assert Within(n, a, a, 0);
    assert forall w :: w in r.chans[a].waiters ==> n.src[w] == a;
  }

  /** What one closer does. */
  lemma CloserEffect<V>(n: Shape, s: State<V>, w: Wid)
    requires Fits(n, s) && Lists(n, s) && Enabled(n, s, CloseNext(w))
    ensures
      var s' := Apply(n, s, CloseNext(w)); var cs := s.work[w].closes;
      && cs[0] in n.dsts[w] && |s'.work| == |s.work| && |s'.chans| == |s.chans| && s'.puts == s.puts && s'.done == s.done
      && (forall d :: 0 <= d < |s.chans| ==> (s'.chans[d].closed <==> s.chans[d].closed || d == cs[0]))
      && s'.work[w] == Ending(cs[1..])
      && (forall u :: 0 <= u < |s.work| && u != w ==>
            s'.work[u] == s.work[u] || (s.work[u].Parked? && n.src[u] == cs[0] && s'.work[u] == Ending(n.dsts[u])))
  {
    assert s.work[w].closes[0] in s.work[w].closes;
  }

  lemma CascadeStep<V>(n: Shape, r: State<V>, s: State<V>, a: Cid, e: Event<V>)
    requires Cascade(n, r, s, a) && Enabled(n, s, e) && !FromOutside(e)
    ensures e.CloseNext? && Cascade(n, r, Apply(n, s, e), a)
  {
    StepKeeps(n, s, e);
    CloserEffect(n, s, e.w);
    ReachFurther(n, a, e.w, s.work[e.w].closes[0]);
    CascadeAfter(n, r, s, Apply(n, s, e), a, e.w);
  }

  lemma CascadeAfter<V>(n: Shape, r: State<V>, s: State<V>, s': State<V>, a: Cid, w: Wid)
    requires Cascade(n, r, s, a) && w < |s.work| && s.work[w].Ending? && s.work[w].closes != []
    requires Inv(n, s') && s'.puts == s.puts && s'.done == s.done && Reaches(n, a, s.work[w].closes[0])
    requires forall d :: 0 <= d < |s.chans| ==> (s'.chans[d].closed <==> s.chans[d].closed || d == s.work[w].closes[0])
    requires s'.work[w] == Ending(s.work[w].closes[1..])
    requires forall u :: 0 <= u < |s.work| && u != w ==>
               s'.work[u] == s.work[u] || (s.work[u].Parked? && n.src[u] == s.work[w].closes[0] && s'.work[u] == Ending(n.dsts[u]))
    ensures Cascade(n, r, s', a)
  {
    var cs := s.work[w].closes;
    forall u | 0 <= u < |s'.work| && s'.work[u].Ending?
      ensures Reaches(n, a, n.src[u]) && forall d :: d in n.dsts[u] ==> d in s'.work[u].closes || s'.chans[d].closed
    {
      if u == w {
        assert forall d :: d in cs <==> d == cs[0] || d in cs[1..];
      }
    }
  }

  lemma {:induction false} CascadeRun<V>(n: Shape, r: State<V>, s: State<V>, a: Cid, es: seq<Event<V>>)
    requires Cascade(n, r, s, a) && Legal(n, s, es) && Inside(es)
    ensures Cascade(n, r, Exec(n, s, es), a) && forall i :: 0 <= i < |es| ==> es[i].CloseNext?
    decreases |es|
  {
    if es != [] {
      CascadeStep(n, r, s, a, es[0]);
      CascadeRun(n, r, Apply(n, s, es[0]), a, es[1..]);
    }
  }

  lemma {:induction false} ReachedIsClosed<V>(n: Shape, r: State<V>, s: State<V>, a: Cid, c: Cid, k: nat)
    requires Cascade(n, r, s, a) && Quiet(s) && c < n.channels && Within(n, a, c, k)
    ensures s.chans[c].closed
    decreases k
  {
    if c != a {
      var w :| 0 <= w < |n.src| && c in n.dsts[w] && Within(n, a, n.src[w], k - 1);
      ReachedIsClosed(n, r, s, a, n.src[w], k - 1);
      ClosedHasNoReader(n, s, w);
    }
  }

  lemma ClosedHasNoReader<V>(n: Shape, s: State<V>, w: Wid)
    requires Inv(n, s) && w < |s.work|
    ensures s.work[w].Parked? ==> !s.chans[n.src[w]].closed
  {
    assert s.work[w].Parked? ==> w in s.chans[n.src[w]].waiters;
  }

  /** The whole of closeAndWait on any finite network, cycles and several workers a stage included:
      after the close nothing is put and nothing more is processed; when the network is at rest again
      the channels reachable from the closed one, and they only, are closed, the workers that read
      them, and they only, have exited; and each item ever put into a consumed channel was processed
      exactly once. */
  lemma DrainAndClose<V>(n: Shape, s0: State<V>, es: seq<Event<V>>, a: Cid, fs: seq<Event<V>>)
    requires Init(n, s0) && Legal(n, s0, es) && NoClose(es) && Quiet(Exec(n, s0, es))
    requires Legal(n, Exec(n, s0, es), [ExternalClose(a)] + fs) && Inside(fs)
    ensures forall i :: 0 <= i < |fs| ==> fs[i].CloseNext?
    ensures
      var r := Exec(n, s0, es); var s := Exec(n, r, [ExternalClose(a)] + fs);
      s.puts == r.puts && s.done == r.done &&
      (Quiet(s) ==>
        && Fits(n, s)
        && (forall c :: 0 <= c < n.channels ==> (s.chans[c].closed <==> Reaches(n, a, c)))
        && (forall w :: 0 <= w < |s.work| ==> if Reaches(n, a, n.src[w]) then s.work[w] == Ending([]) else s.work[w].Parked?)
        && (forall c :: 0 <= c < n.channels && Consumed(n, c) ==> AllDoneOnce(s, c)))
  {
    FirstRest(n, s0, es);
    var r := Exec(n, s0, es);
    assert ([ExternalClose(a)] + fs)[1..] == fs;
    CloseStarts(n, r, a);
    var t := CloseChan(n, r, a);
    CascadeRun(n, r, t, a, fs);
    var s := Exec(n, t, fs);
    if Quiet(s) {
      forall c | 0 <= c < n.channels ensures s.chans[c].closed <==> Reaches(n, a, c) {
        if Reaches(n, a, c) {
          var k: nat :| Within(n, a, c, k);
          ReachedIsClosed(n, r, s, a, c, k);
        }
      }
      forall w | 0 <= w < |s.work| ensures if Reaches(n, a, n.src[w]) then s.work[w] == Ending([]) else s.work[w].Parked? {
        ClosedHasNoReader(n, s, w);
      }
    }
  }

  // ---- the cascade ends ----

  function Left<V>(n: Shape, work: seq<Worker<V>>): nat
    requires |work| <= |n.dsts|
  {
    if work == [] then 0
    else
      var w := |work| - 1;
      Left(n, work[..w]) + (match work[w] case Ending(cs) => |cs| case _ => |n.dsts[w]| + 1)
  }

  lemma {:induction false} LeftDrops<V>(n: Shape, work: seq<Worker<V>>, work': seq<Worker<V>>, w: Wid)
    requires |work| == |work'| <= |n.dsts|
    requires forall u :: 0 <= u < |work| && u != w ==> work'[u] == work[u] || (work[u].Parked? && work'[u] == Ending(n.dsts[u]))
    requires w < |work| ==> work[w].Ending? && work'[w].Ending? && |work'[w].closes| < |work[w].closes|
    ensures Left(n, work') <= Left(n, work) && (w < |work| ==> Left(n, work') < Left(n, work))
    decreases |work|
  {
    if work != [] {
      var m := |work| - 1;
      LeftDrops(n, work[..m], work'[..m], w);
    }
  }

  /** After the close the network comes to rest within a number of steps fixed by its shape. */
  lemma {:induction false} CascadeEnds<V>(n: Shape, r: State<V>, s: State<V>, a: Cid, es: seq<Event<V>>)
    requires Cascade(n, r, s, a) && Legal(n, s, es) && Inside(es)
    ensures |es| <= Left(n, s.work)
    decreases |es|
  {
    if es != [] {
      CascadeStep(n, r, s, a, es[0]);
      CloserEffect(n, s, es[0].w);
      var s1 := Apply(n, s, es[0]);
      LeftDrops(n, s.work, s1.work, es[0].w);
      CascadeEnds(n, r, s1, a, es[1..]);
    }
  }

  /** A network that is not at rest can step. */
  lemma RestOrStep<V>(n: Shape, s: State<V>)
    requires Fits(n, s)
    ensures Quiet(s) <==> forall e :: Enabled(n, s, e) ==> FromOutside(e)
    ensures forall c, v :: 0 <= c < n.channels ==> Enabled(n, s, External(c, v)) && Enabled<V>(n, s, ExternalClose(c))
  {
    forall w | 0 <= w < |s.work| && s.work[w] != Parked && s.work[w] != Ending([])
      ensures exists e :: Enabled(n, s, e) && !FromOutside(e)
    {
      var x := s.work[w];
      var e := if x.Fetching? then Fetch(w) else if x.Given? then Begin(w, [])
               else if x.Ending? then CloseNext(w) else if x.todo == [] then Finish(w) else PutOut(w);
      assert Enabled(n, s, e);
    }
  }
}
