/** Networks whose processing is a function: a price list for steps gives every item a price, the cost of all
    the work that will follow from it, whatever the schedule. The total over the queues and the workers then
    goes down with each step by exactly what the step costs, and up with each item from outside by its price:
    so the steps of a whole run can be counted, and those that matter picked out by a list that charges for
    them only. */
module Potential {
  import opened Network
  import opened NetworkSafety
  import opened Shutdown

  /** What processing a value of a channel puts, and where. */
  type Function<!V> = (Cid, V) -> seq<(Cid, V)>

  /** Positions are positions of values. */
  ghost predicate InRange<V>(n: Shape, s: State<V>)
    requires Fits(n, s)
  {
    && (forall c, i :: 0 <= c < n.channels && 0 <= i < |s.chans[c].queue| ==> s.chans[c].queue[i] < |s.puts[c]|)
    && (forall w :: 0 <= w < |s.work| && (s.work[w].Given? || s.work[w].Busy?) ==> s.work[w].i < |s.puts[n.src[w]]|)
  }

  lemma InvInRange<V>(n: Shape, s: State<V>)
    requires Inv(n, s)
    ensures InRange(n, s)
  {
    forall c, i | 0 <= c < n.channels && 0 <= i < |s.chans[c].queue| ensures s.chans[c].queue[i] < |s.puts[c]| {
      assert ItemsOf(n, s, c) && At(n, s, c, s.chans[c].queue[i], InQueue);
    }
    forall w | 0 <= w < |s.work| && (s.work[w].Given? || s.work[w].Busy?) ensures s.work[w].i < |s.puts[n.src[w]]| {
      assert ItemsOf(n, s, n.src[w]) && At(n, s, n.src[w], s.work[w].i, With(w));
    }
  }

  /** Processing follows the function. */
  ghost predicate Follows<V>(n: Shape, F: Function<V>, s: State<V>, e: Event<V>)
    requires Fits(n, s) && InRange(n, s) && Enabled(n, s, e)
  {
    e.Begin? ==> e.outs == F(n.src[e.w], s.puts[n.src[e.w]][s.work[e.w].i])
  }

  /** The cost of steps: of a begin by the channel that is read, of a put by what is put where. */
  datatype Tariff<!V> = Tariff(fetch: nat, begin: Cid -> nat, put: (Cid, V) -> nat, finish: nat)

  ghost function Cost<V>(n: Shape, k: Tariff<V>, s: State<V>, e: Event<V>): nat
    requires Fits(n, s) && Enabled(n, s, e)
  {
    match e
    case External(_, _) => 0
    case ExternalClose(_) => 0
    case Fetch(_) => k.fetch
    case Begin(w, _) => k.begin(n.src[w])
    case PutOut(w) => k.put(s.work[w].todo[0].0, s.work[w].todo[0].1)
    case Finish(_) => k.finish
    case CloseNext(_) => 0
  }

  // ---- prices ----

  type Price<!V> = (Cid, V) -> nat

  function OutsPrice<V>(k: Tariff<V>, W: Price<V>, outs: seq<(Cid, V)>): nat {
    if outs == [] then 0 else k.put(outs[0].0, outs[0].1) + W(outs[0].0, outs[0].1) + OutsPrice(k, W, outs[1..])
  }

  /** The price of an item is the cost of its own processing and the price of what it makes. */
  ghost predicate Balanced<V(!new)>(F: Function<V>, k: Tariff<V>, W: Price<V>) {
    forall c, v :: W(c, v) == k.begin(c) + OutsPrice(k, W, F(c, v)) + k.finish + k.fetch
  }

  function Sum(xs: seq<nat>): nat {
    if xs == [] then 0 else Sum(xs[..|xs| - 1]) + xs[|xs| - 1]
  }

  lemma {:induction false} SumUpdate(xs: seq<nat>, i: nat, x: nat)
    requires i < |xs|
    ensures Sum(xs[i := x]) + xs[i] == Sum(xs) + x
  {
    var m := |xs| - 1;
    if i == m {
      assert xs[i := x][..m] == xs[..m];
    } else {
      assert xs[i := x][..m] == xs[..m][i := x];
      SumUpdate(xs[..m], i, x);
    }
  }

  function QueuePrice<V>(W: Price<V>, c: Cid, vals: seq<V>, q: seq<nat>): nat
    requires forall i :: 0 <= i < |q| ==> q[i] < |vals|
  {
    if q == [] then 0 else
      W(c, vals[q[0]]) + QueuePrice(W, c, vals, q[1..])
  }

  lemma {:induction false} QueuePutPrice<V>(W: Price<V>, c: Cid, vals: seq<V>, v: V, q: seq<nat>)
    requires forall i :: 0 <= i < |q| ==> q[i] < |vals|
    ensures QueuePrice(W, c, vals + [v], q) == QueuePrice(W, c, vals, q)
    ensures QueuePrice(W, c, vals + [v], q + [|vals|]) == QueuePrice(W, c, vals, q) + W(c, v)
    decreases |q|
  {
    if q == [] {
      assert (q + [|vals|])[1..] == [];
    } else {
      assert (q + [|vals|])[1..] == q[1..] + [|vals|];
      QueuePutPrice(W, c, vals, v, q[1..]);
    }
  }

  function Load<V>(k: Tariff<V>, W: Price<V>, c: Cid, vals: seq<V>, x: Worker<V>): nat
    requires x.Given? || x.Busy? ==> x.i < |vals|
  {
    match x
    case Fetching => k.fetch
    case Parked => 0
    case Given(i) => W(c, vals[i])
    case Busy(i, todo) => OutsPrice(k, W, todo) + k.finish + k.fetch
    case Ending(_) => 0
  }

  ghost function Queues<V>(n: Shape, W: Price<V>, s: State<V>): seq<nat>
    requires Fits(n, s) && InRange(n, s)
  {
    seq(n.channels, c requires 0 <= c < n.channels => QueuePrice(W, c, s.puts[c], s.chans[c].queue))
  }

  ghost function Loads<V>(n: Shape, k: Tariff<V>, W: Price<V>, s: State<V>): seq<nat>
    requires Fits(n, s) && InRange(n, s)
  {
    seq(|s.work|, w requires 0 <= w < |s.work| => Load(k, W, n.src[w], s.puts[n.src[w]], s.work[w]))
  }

  /** The cost of everything that is still to happen. */
  ghost function Total<V>(n: Shape, k: Tariff<V>, W: Price<V>, s: State<V>): nat
    requires Fits(n, s) && InRange(n, s)
  {
    Sum(Queues(n, W, s)) + Sum(Loads(n, k, W, s))
  }

  // ---- each step costs what it takes off ----

  lemma SetWorkTotal<V>(n: Shape, k: Tariff<V>, W: Price<V>, s: State<V>, s': State<V>, w: Wid)
    requires Fits(n, s) && InRange(n, s) && Fits(n, s') && InRange(n, s') && w < |s.work|
    requires s'.chans == s.chans && s'.puts == s.puts && s'.work == s.work[w := s'.work[w]]
    ensures Total(n, k, W, s') + Loads(n, k, W, s)[w] == Total(n, k, W, s) + Loads(n, k, W, s')[w]
  {
    assert Queues(n, W, s') == Queues(n, W, s);
    assert Loads(n, k, W, s') == Loads(n, k, W, s)[w := Loads(n, k, W, s')[w]];
    SumUpdate(Loads(n, k, W, s), w, Loads(n, k, W, s')[w]);
  }

  lemma PutQueues<V>(n: Shape, W: Price<V>, s: State<V>, c: Cid, v: V)
    requires Fits(n, s) && InRange(n, s) && c < n.channels
    requires Fits(n, PutTo(s, c, v)) && InRange(n, PutTo(s, c, v))
    ensures
      var qs := Queues(n, W, s);
      Queues(n, W, PutTo(s, c, v)) == if s.chans[c].waiters == [] then qs[c := qs[c] + W(c, v)] else qs
  {
    QueuePutPrice(W, c, s.puts[c], v, s.chans[c].queue);
  }

  lemma PutLoads<V>(n: Shape, k: Tariff<V>, W: Price<V>, s: State<V>, c: Cid, v: V)
    requires Fits(n, s) && InRange(n, s) && c < n.channels && NextReaderIsParked(n, s, c)
    requires Fits(n, PutTo(s, c, v)) && InRange(n, PutTo(s, c, v))
    ensures
      var ls := Loads(n, k, W, s); var ws := s.chans[c].waiters;
      && (ws != [] ==> ws[0] < |ls| && ls[ws[0]] == 0)
      && Loads(n, k, W, PutTo(s, c, v)) == if ws == [] then ls else ls[ws[0] := W(c, v)]
  {
  }

  lemma PutTotal<V>(n: Shape, k: Tariff<V>, W: Price<V>, s: State<V>, c: Cid, v: V)
    requires Fits(n, s) && c < n.channels && InRange(n, s) && NextReaderIsParked(n, s, c)
    requires Fits(n, PutTo(s, c, v)) && InRange(n, PutTo(s, c, v))
    ensures Total(n, k, W, PutTo(s, c, v)) == Total(n, k, W, s) + W(c, v)
  {
    var s' := PutTo(s, c, v);
    PutQueues(n, W, s, c, v);
    PutLoads(n, k, W, s, c, v);
    OneMore(Queues(n, W, s), Queues(n, W, s'), Loads(n, k, W, s), Loads(n, k, W, s'), c, s.chans[c].waiters, W(c, v));
  }

  lemma OneMore(qs: seq<nat>, qs': seq<nat>, ls: seq<nat>, ls': seq<nat>, c: Cid, ws: seq<Wid>, p: nat)
    requires c < |qs| && (ws != [] ==> ws[0] < |ls| && ls[ws[0]] == 0)
    requires qs' == (if ws == [] then qs[c := qs[c] + p] else qs) && ls' == if ws == [] then ls else ls[ws[0] := p]
    ensures Sum(qs') + Sum(ls') == Sum(qs) + Sum(ls) + p
  {
    if ws == [] {
      SumUpdate(qs, c, qs[c] + p);
    } else {
      SumUpdate(ls, ws[0], p);
    }
  }

  /** The price of the item that a fetch takes, if there is one. */
  ghost function FetchPrice<V>(n: Shape, W: Price<V>, s: State<V>, c: Cid): nat
    requires Fits(n, s) && InRange(n, s) && c < n.channels
  {
    if s.chans[c].queue == [] then 0 else W(c, s.puts[c][s.chans[c].queue[0]])
  }

  lemma FetchQueues<V>(n: Shape, W: Price<V>, s: State<V>, w: Wid)
    requires Fits(n, s) && InRange(n, s) && w < |s.work|
    requires Fits(n, ApplyFetch(n, s, w)) && InRange(n, ApplyFetch(n, s, w))
    ensures var c := n.src[w]; var qs := Queues(n, W, s);
            && FetchPrice(n, W, s, c) <= qs[c]
            && Queues(n, W, ApplyFetch(n, s, w)) == qs[c := qs[c] - FetchPrice(n, W, s, c)]
  {
  }

  lemma FetchLoads<V>(n: Shape, k: Tariff<V>, W: Price<V>, s: State<V>, w: Wid)
    requires Fits(n, s) && InRange(n, s) && w < |s.work|
    requires Fits(n, ApplyFetch(n, s, w)) && InRange(n, ApplyFetch(n, s, w))
    ensures Loads(n, k, W, ApplyFetch(n, s, w)) == Loads(n, k, W, s)[w := FetchPrice(n, W, s, n.src[w])]
  {
  }

  lemma FetchTotal<V>(n: Shape, k: Tariff<V>, W: Price<V>, s: State<V>, w: Wid)
    requires Fits(n, s) && InRange(n, s) && w < |s.work| && s.work[w].Fetching?
    requires Fits(n, ApplyFetch(n, s, w)) && InRange(n, ApplyFetch(n, s, w))
    ensures Total(n, k, W, ApplyFetch(n, s, w)) + k.fetch == Total(n, k, W, s)
  {
    FetchQueues(n, W, s, w);
    FetchLoads(n, k, W, s, w);
    Swap(Queues(n, W, s), Loads(n, k, W, s), n.src[w], w, FetchPrice(n, W, s, n.src[w]));
  }

  lemma Swap(qs: seq<nat>, ls: seq<nat>, c: Cid, w: Wid, p: nat)
    requires c < |qs| && w < |ls| && p <= qs[c]
    ensures Sum(qs[c := qs[c] - p]) + Sum(ls[w := p]) + ls[w] == Sum(qs) + Sum(ls)
  {
    SumUpdate(qs, c, qs[c] - p);
    SumUpdate(ls, w, p);
  }

  /** What a step brings in: an item from outside brings its price. */
  ghost function Brings<V>(W: Price<V>, e: Event<V>): nat {
    if e.External? then W(e.c, e.v) else 0
  }

  lemma StepTotal<V(!new)>(n: Shape, F: Function<V>, k: Tariff<V>, W: Price<V>, s: State<V>, e: Event<V>)
    requires Open(n, s) && InRange(n, s) && Enabled(n, s, e) && !e.ExternalClose? && Follows(n, F, s, e) && Balanced(F, k, W)
    ensures Inv(n, Apply(n, s, e)) && InRange(n, Apply(n, s, e))
    ensures Total(n, k, W, Apply(n, s, e)) + Cost(n, k, s, e) == Total(n, k, W, s) + Brings(W, e)
  {
    StepKeeps(n, s, e);
    var s' := Apply(n, s, e);
    InvInRange(n, s');
    match e
    case External(c, v) =>
      ReaderIsParked(n, s, c);
      PutTotal(n, k, W, s, c, v);
    case Fetch(w) => FetchTotal(n, k, W, s, w);
    case Begin(w, _) => SetWorkTotal(n, k, W, s, s', w);
    case PutOut(w) => PutOutTotal(n, k, W, s, w);
    case Finish(w) => SetWorkTotal(n, k, W, s, s', w);
    case CloseNext(w) =>
  }

  lemma PutOutTotal<V>(n: Shape, k: Tariff<V>, W: Price<V>, s: State<V>, w: Wid)
    requires Inv(n, s) && InRange(n, s) && Enabled(n, s, PutOut(w))
    requires Fits(n, Apply(n, s, PutOut(w))) && InRange(n, Apply(n, s, PutOut(w)))
    ensures Total(n, k, W, Apply(n, s, PutOut(w))) + Cost(n, k, s, PutOut(w)) == Total(n, k, W, s)
  {
    var Busy(i, todo) := s.work[w];
    var s1 := SetWork(s, w, Busy(i, todo[1..]));
    PutOutFirst(n, s, w);
    SetWorkTotal(n, k, W, s, s1, w);
    ReaderIsParked(n, s1, todo[0].0);
    PutTotal(n, k, W, s1, todo[0].0, todo[0].1);
  }

  /** Half a PutOut: the value has left the worker and has not reached the channel. */
  lemma PutOutFirst<V>(n: Shape, s: State<V>, w: Wid)
    requires Inv(n, s) && Enabled(n, s, PutOut(w))
    ensures var s1 := SetWork(s, w, Busy(s.work[w].i, s.work[w].todo[1..])); Inv(n, s1) && InRange(n, s1)
  {
    var s1 := SetWork(s, w, Busy(s.work[w].i, s.work[w].todo[1..]));
    forall d | 0 <= d < n.channels ensures ItemsOf(n, s1, d) {
      assert ItemsOf(n, s, d);
      ItemsStay(n, s, s1, d);
    }
    InvInRange(n, s1);
  }

  // ---- runs ----

  /** A run without a close that follows the function. */
  ghost predicate FollowsRun<V>(n: Shape, F: Function<V>, s: State<V>, es: seq<Event<V>>)
    requires Legal(n, s, es)
    decreases |es|
  {
    es != [] ==>
      && InRange(n, s) && !es[0].ExternalClose? && Follows(n, F, s, es[0])
      && FollowsRun(n, F, Apply(n, s, es[0]), es[1..])
  }

  ghost function CostOf<V>(n: Shape, k: Tariff<V>, s: State<V>, es: seq<Event<V>>): nat
    requires Legal(n, s, es)
    decreases |es|
  {
    if es == [] then 0 else Cost(n, k, s, es[0]) + CostOf(n, k, Apply(n, s, es[0]), es[1..])
  }

  ghost function BringsOf<V>(W: Price<V>, es: seq<Event<V>>): nat {
    if es == [] then 0 else Brings(W, es[0]) + BringsOf(W, es[1..])
  }

  /** However the steps are scheduled, and whenever items come from outside: what the steps cost and
      what is left is what there was and what came in. */
  lemma {:induction false} RunTotal<V(!new)>(n: Shape, F: Function<V>, k: Tariff<V>, W: Price<V>, s: State<V>, es: seq<Event<V>>)
    requires Open(n, s) && InRange(n, s) && Legal(n, s, es) && FollowsRun(n, F, s, es) && Balanced(F, k, W)
    ensures Open(n, Exec(n, s, es)) && InRange(n, Exec(n, s, es))
    ensures Total(n, k, W, Exec(n, s, es)) + CostOf(n, k, s, es) == Total(n, k, W, s) + BringsOf(W, es)
    decreases |es|
  {
    if es != [] {
      StepTotal(n, F, k, W, s, es[0]);
      OpenStep(n, s, es[0]);
      RunTotal(n, F, k, W, Apply(n, s, es[0]), es[1..]);
    }
  }

  /** The total of a network that has not begun: every worker is about to fetch. */
  lemma InitTotal<V>(n: Shape, k: Tariff<V>, W: Price<V>, s: State<V>)
    requires Init(n, s) && InRange(n, s)
    ensures Total(n, k, W, s) == |s.work| * k.fetch
  {
    Zeros(Queues(n, W, s));
    Constants(Loads(n, k, W, s), k.fetch);
  }

  lemma {:induction false} Constants(xs: seq<nat>, x: nat)
    requires forall i :: 0 <= i < |xs| ==> xs[i] == x
    ensures Sum(xs) == |xs| * x
    decreases |xs|
  {
    if xs != [] { Constants(xs[..|xs| - 1], x); }
  }

  /** At rest nothing is left, if the items of a channel that nobody reads are worth nothing. */
  lemma RestIsFree<V(!new)>(n: Shape, k: Tariff<V>, W: Price<V>, s: State<V>)
    requires Open(n, s) && InRange(n, s) && Quiet(s)
    requires forall c, v :: 0 <= c < n.channels && !Consumed(n, c) ==> W(c, v) == 0
    ensures Total(n, k, W, s) == 0
  {
    forall c | 0 <= c < n.channels ensures QueuePrice(W, c, s.puts[c], s.chans[c].queue) == 0 {
      if Consumed(n, c) {
        var w :| 0 <= w < |n.src| && n.src[w] == c;
        assert w in s.chans[c].waiters;
      } else {
        Worthless(W, c, s.puts[c], s.chans[c].queue);
      }
    }
    Zeros(Queues(n, W, s));
    Zeros(Loads(n, k, W, s));
  }

  lemma {:induction false} Worthless<V(!new)>(W: Price<V>, c: Cid, vals: seq<V>, q: seq<nat>)
    requires (forall i :: 0 <= i < |q| ==> q[i] < |vals|) && forall v :: W(c, v) == 0
    ensures QueuePrice(W, c, vals, q) == 0
    decreases |q|
  {
    if q != [] { Worthless(W, c, vals, q[1..]); }
  }

  lemma Zeros(xs: seq<nat>)
    requires forall i :: 0 <= i < |xs| ==> xs[i] == 0
    ensures Sum(xs) == 0
  {
    Constants(xs, 0);
  }

  /** A whole run: its steps cost no more than what the workers and the items from outside are worth,
      and exactly that when the network is at rest. */
  lemma WholeRun<V(!new)>(n: Shape, F: Function<V>, k: Tariff<V>, W: Price<V>, s0: State<V>, es: seq<Event<V>>)
    requires Init(n, s0) && Legal(n, s0, es) && FollowsRun(n, F, s0, es) && Balanced(F, k, W)
    requires forall c, v :: 0 <= c < n.channels && !Consumed(n, c) ==> W(c, v) == 0
    ensures Open(n, s0) && Open(n, Exec(n, s0, es))
    ensures CostOf(n, k, s0, es) <= |s0.work| * k.fetch + BringsOf(W, es)
    ensures Quiet(Exec(n, s0, es)) ==> CostOf(n, k, s0, es) == |s0.work| * k.fetch + BringsOf(W, es)
  {
    InitInv(n, s0);
    InvInRange(n, s0);
    InitTotal(n, k, W, s0);
    RunTotal(n, F, k, W, s0, es);
    if Quiet(Exec(n, s0, es)) {
      RestIsFree(n, k, W, Exec(n, s0, es));
    }
  }
}
