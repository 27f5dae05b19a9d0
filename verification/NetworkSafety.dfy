/** Every step of a network keeps its invariant: each item that was ever put is at exactly one place, items
    are handed out in the order in which they were put, and the list of a channel holds exactly the readers
    that are parked on it. The lemmas go by the effect of a step on one channel at a time: an item appears
    (put), moves (a fetch, a hand-off, the end of its processing), or stays; a close moves no item, but
    turns the parked readers of one channel into workers whose closers are about to run. */
module NetworkSafety {
  import opened Network

  lemma InitInv<V>(n: Shape, s: State<V>)
    requires Init(n, s)
    ensures Inv(n, s)
  {
    forall c | 0 <= c < n.channels ensures ItemsOf(n, s, c) {
      forall i: nat, p ensures !At(n, s, c, i, p) {
      }
    }
  }

  /** The items of channel c are where they were. */
  lemma ItemsStay<V>(n: Shape, s: State<V>, s': State<V>, c: Cid)
    requires Fits(n, s) && Fits(n, s') && c < n.channels && ItemsOf(n, s, c)
    requires s'.chans[c].queue == s.chans[c].queue && s'.puts[c] == s.puts[c] && s'.done[c] == s.done[c]
    requires forall w, i: nat :: 0 <= w < |s.work| && n.src[w] == c ==> (Holds(s'.work[w], i) <==> Holds(s.work[w], i))
    ensures ItemsOf(n, s', c)
  {
    forall i: nat, p ensures At(n, s', c, i, p) <==> At(n, s, c, i, p) {
    }
    forall i: nat | i < |s'.puts[c]| ensures Somewhere(n, s', c, i) {
      assert Somewhere(n, s, c, i);
      var p :| At(n, s, c, i, p);
      assert At(n, s', c, i, p);
    }
  }

  /** Item i of channel c goes from place p to place r. */
  lemma ItemMoves<V>(n: Shape, s: State<V>, s': State<V>, c: Cid, i: nat, p: Place, r: Place)
    requires Fits(n, s) && Fits(n, s') && c < n.channels && ItemsOf(n, s, c) && s'.puts[c] == s.puts[c]
    requires At(n, s, c, i, p) && At(n, s', c, i, r)
    requires var q := s'.chans[c].queue; forall k :: 0 <= k < |q| ==> q[k] == |s'.puts[c]| - |q| + k
    requires forall j: nat, x {:trigger At(n, s', c, j, x)} {:trigger At(n, s, c, j, x)} :: j != i ==> (At(n, s', c, j, x) <==> At(n, s, c, j, x))
    requires forall x :: x != r ==> !At(n, s', c, i, x)
    ensures ItemsOf(n, s', c)
  {
    forall j: nat | j < |s'.puts[c]| ensures Somewhere(n, s', c, j) {
      if j == i {
        assert At(n, s', c, i, r);
      } else {
        assert Somewhere(n, s, c, j);
        var x :| At(n, s, c, j, x);
        assert At(n, s', c, j, x);
      }
    }
  }

  // ---- put ----

  /** The reader that a put would serve. */
  ghost predicate NextReaderIsParked<V>(n: Shape, s: State<V>, c: Cid)
    requires c < |s.chans|
  {
    s.chans[c].waiters != [] ==>
      var u := s.chans[c].waiters[0]; u < |s.work| == |n.src| && s.work[u].Parked? && n.src[u] == c
  }

  lemma ReaderIsParked<V>(n: Shape, s: State<V>, c: Cid)
    requires Fits(n, s) && Lists(n, s) && c < n.channels
    ensures NextReaderIsParked(n, s, c)
  {
    var ws := s.chans[c].waiters;
    if ws != [] {
      assert ws[0] in ws;
      assert n.src[ws[0]] == c;
    }
  }

  lemma PutFits<V>(n: Shape, s: State<V>, c: Cid, v: V)
    requires Fits(n, s) && c < n.channels
    ensures Fits(n, PutTo(s, c, v))
  {
    var s' := PutTo(s, c, v);
    if s.chans[c].waiters != [] { assert s.chans[c].waiters[0] in s.chans[c].waiters; }
    forall d, u | 0 <= d < n.channels && u in s'.chans[d].waiters ensures u < |n.src| {
      assert u in s.chans[d].waiters;
    }
  }

  lemma PutLists<V>(n: Shape, s: State<V>, c: Cid, v: V)
    requires Fits(n, s) && Lists(n, s) && c < n.channels
    ensures Fits(n, PutTo(s, c, v)) && Lists(n, PutTo(s, c, v))
  {
    PutFits(n, s, c, v);
    var ws := s.chans[c].waiters;
    if ws != [] {
      assert ws[0] in ws;
      assert forall w :: w in ws <==> w == ws[0] || w in ws[1..];
    }
  }

  lemma PutItems<V>(n: Shape, s: State<V>, c: Cid, v: V)
    requires Inv(n, s) && c < n.channels
    ensures Fits(n, PutTo(s, c, v)) && Items(n, PutTo(s, c, v))
  {
    PutFits(n, s, c, v);
    var s' := PutTo(s, c, v);
    forall d | 0 <= d < n.channels ensures ItemsOf(n, s', d) {
      if d != c {
        PutElsewhere(n, s, c, v, d);
      } else {
        PutHere(n, s, c, v);
      }
    }
  }

  lemma PutElsewhere<V>(n: Shape, s: State<V>, c: Cid, v: V, d: Cid)
    requires Inv(n, s) && c < n.channels && d < n.channels && d != c
    ensures Fits(n, PutTo(s, c, v)) && ItemsOf(n, PutTo(s, c, v), d)
  {
    PutFits(n, s, c, v);
    var ws := s.chans[c].waiters;
    if ws != [] { assert ws[0] in ws; }
    assert ItemsOf(n, s, d);
    ItemsStay(n, s, PutTo(s, c, v), d);
  }

  lemma PutHere<V>(n: Shape, s: State<V>, c: Cid, v: V)
    requires Inv(n, s) && c < n.channels
    ensures Fits(n, PutTo(s, c, v)) && ItemsOf(n, PutTo(s, c, v), c)
  {
    PutFits(n, s, c, v);
    var s' := PutTo(s, c, v);
    var i := |s.puts[c]|;
    var ws := s.chans[c].waiters;
    if ws != [] { assert ws[0] in ws; }
    var r := if ws == [] then InQueue else With(ws[0]);
    assert ItemsOf(n, s, c);
    forall j: nat, p ensures At(n, s', c, j, p) <==> if j == i then p == r else At(n, s, c, j, p) {
      assert !At(n, s, c, i, p);
    }
    forall j: nat | j < |s'.puts[c]| ensures Somewhere(n, s', c, j) {
      if j == i {
        assert At(n, s', c, i, r);
      } else {
        assert Somewhere(n, s, c, j);
        var x :| At(n, s, c, j, x);
        assert At(n, s', c, j, x);
      }
    }
  }

  // ---- the other steps ----

  lemma FetchFits<V>(n: Shape, s: State<V>, w: Wid)
    requires Fits(n, s) && w < |s.work| && s.work[w].Fetching?
    ensures Fits(n, ApplyFetch(n, s, w))
  {
    var s' := ApplyFetch(n, s, w);
    forall d, u | 0 <= d < n.channels && u in s'.chans[d].waiters ensures u < |n.src| {
      assert u != w ==> u in s.chans[d].waiters;
    }
  }

  lemma FetchLists<V>(n: Shape, s: State<V>, w: Wid)
    requires Fits(n, s) && Lists(n, s) && w < |s.work| && s.work[w].Fetching?
    ensures Fits(n, ApplyFetch(n, s, w)) && Lists(n, ApplyFetch(n, s, w))
  {
    FetchFits(n, s, w);
  }

  lemma FetchItems<V>(n: Shape, s: State<V>, w: Wid)
    requires Inv(n, s) && w < |s.work| && s.work[w].Fetching?
    ensures Fits(n, ApplyFetch(n, s, w)) && Items(n, ApplyFetch(n, s, w))
  {
    FetchFits(n, s, w);
    var s' := ApplyFetch(n, s, w);
    forall d | 0 <= d < n.channels ensures ItemsOf(n, s', d) {
      assert ItemsOf(n, s, d);
      if d == n.src[w] && s.chans[d].queue != [] {
        FetchHere(n, s, w);
      } else {
        ItemsStay(n, s, s', d);
      }
    }
  }

  lemma FetchHere<V>(n: Shape, s: State<V>, w: Wid)
    requires Fits(n, s) && w < |s.work| && s.work[w].Fetching? && ItemsOf(n, s, n.src[w]) && s.chans[n.src[w]].queue != []
    ensures Fits(n, ApplyFetch(n, s, w)) && ItemsOf(n, ApplyFetch(n, s, w), n.src[w])
  {
    FetchFits(n, s, w);
    var c := n.src[w];
    var s' := ApplyFetch(n, s, w);
    var q := s.chans[c].queue;
    assert At(n, s, c, q[0], InQueue);
    assert q[0] !in q[1..];
    forall j: nat, x | j != q[0] ensures At(n, s', c, j, x) <==> At(n, s, c, j, x) {
    }
    forall x | x != With(w) ensures !At(n, s', c, q[0], x) {
      assert x != InQueue ==> !At(n, s, c, q[0], x);
    }
    ItemMoves(n, s, s', c, q[0], InQueue, With(w));
  }

  lemma BeginKeeps<V>(n: Shape, s: State<V>, w: Wid, outs: seq<(Cid, V)>)
    requires Inv(n, s) && w < |s.work| && s.work[w].Given? && forall k :: 0 <= k < |outs| ==> outs[k].0 in n.dsts[w]
    ensures Inv(n, SetWork(s, w, Busy(s.work[w].i, outs)))
  {
    var s' := SetWork(s, w, Busy(s.work[w].i, outs));
    forall d | 0 <= d < n.channels ensures ItemsOf(n, s', d) {
      assert ItemsOf(n, s, d);
      ItemsStay(n, s, s', d);
    }
  }

  lemma PutOutKeeps<V>(n: Shape, s: State<V>, w: Wid)
    requires Inv(n, s) && Enabled(n, s, PutOut(w))
    ensures Inv(n, Apply(n, s, PutOut(w)))
  {
    var Busy(i, todo) := s.work[w];
    var s1 := SetWork(s, w, Busy(i, todo[1..]));
    forall d | 0 <= d < n.channels ensures ItemsOf(n, s1, d) {
      assert ItemsOf(n, s, d);
      ItemsStay(n, s, s1, d);
    }
    PutItems(n, s1, todo[0].0, todo[0].1);
    PutLists(n, s1, todo[0].0, todo[0].1);
  }

  lemma FinishKeeps<V>(n: Shape, s: State<V>, w: Wid)
    requires Inv(n, s) && Enabled(n, s, Finish(w))
    ensures Inv(n, Apply(n, s, Finish(w)))
  {
    var s' := Apply(n, s, Finish(w));
    var c, i := n.src[w], s.work[w].i;
    forall d | 0 <= d < n.channels ensures ItemsOf(n, s', d) {
      assert ItemsOf(n, s, d);
      if d != c {
        ItemsStay(n, s, s', d);
      } else {
        FinishHere(n, s, w);
      }
    }
  }

  lemma FinishHere<V>(n: Shape, s: State<V>, w: Wid)
    requires Fits(n, s) && Enabled(n, s, Finish(w)) && ItemsOf(n, s, n.src[w])
    ensures Fits(n, Apply(n, s, Finish(w))) && ItemsOf(n, Apply(n, s, Finish(w)), n.src[w])
  {
    var s' := Apply(n, s, Finish(w));
    var c, i := n.src[w], s.work[w].i;
    var k := |s.done[c]|;
    assert At(n, s, c, i, With(w));
    assert At(n, s', c, i, DoneAt(k));
    forall j: nat, x | j != i ensures At(n, s', c, j, x) <==> At(n, s, c, j, x) {
    }
    forall x | x != DoneAt(k) ensures !At(n, s', c, i, x) {
      assert x != With(w) ==> !At(n, s, c, i, x);
    }
    ItemMoves(n, s, s', c, i, With(w), DoneAt(k));
  }

  lemma CloseFits<V>(n: Shape, s: State<V>, c: Cid)
    requires Fits(n, s) && c < n.channels
    ensures Fits(n, CloseChan(n, s, c))
  {
    var s' := CloseChan(n, s, c);
    forall d, u | 0 <= d < n.channels && u in s'.chans[d].waiters ensures u < |n.src| {
      assert u in s.chans[d].waiters;
    }
  }

  lemma CloseKeeps<V>(n: Shape, s: State<V>, c: Cid)
    requires Inv(n, s) && c < n.channels
    ensures Inv(n, CloseChan(n, s, c))
  {
    CloseFits(n, s, c);
    var s' := CloseChan(n, s, c);
    if !s.chans[c].closed {
      forall d | 0 <= d < n.channels ensures ItemsOf(n, s', d) {
        assert ItemsOf(n, s, d);
        ItemsStay(n, s, s', d);
      }
    }
  }

  lemma CloseNextKeeps<V>(n: Shape, s: State<V>, w: Wid)
    requires Inv(n, s) && Enabled(n, s, CloseNext(w))
    ensures Inv(n, Apply(n, s, CloseNext(w)))
  {
    var cs := s.work[w].closes;
    var s1 := SetWork(s, w, Ending(cs[1..]));
    assert cs[0] in n.dsts[w];
    forall d | 0 <= d < n.channels ensures ItemsOf(n, s1, d) {
      assert ItemsOf(n, s, d);
      ItemsStay(n, s, s1, d);
    }
    CloseKeeps(n, s1, cs[0]);
  }

  lemma StepKeeps<V>(n: Shape, s: State<V>, e: Event<V>)
    requires Inv(n, s) && Enabled(n, s, e)
    ensures Inv(n, Apply(n, s, e))
  {
    match e
    case External(c, v) => PutItems(n, s, c, v); PutLists(n, s, c, v);
    case ExternalClose(c) => CloseKeeps(n, s, c);
    case Fetch(w) => FetchItems(n, s, w); FetchLists(n, s, w);
    case Begin(w, outs) => BeginKeeps(n, s, w, outs);
    case PutOut(w) => PutOutKeeps(n, s, w);
    case Finish(w) => FinishKeeps(n, s, w);
    case CloseNext(w) => CloseNextKeeps(n, s, w);
  }
}
