/** Chains of 1-to-1 and 1-to-0/1 stages: what reaches each channel does not depend on the schedule. */
module Chain {
  import opened Network
  import opened NetworkSafety
  import opened Shutdown
  import opened Potential

  /** What a stage's function did with a value. */
  datatype Result<V> = Value(u: V) | Throws

  datatype Stage<!V> =
    | OneToOne(f: V -> Result<V>)
    | OneToMaybe(f: V -> Result<V>, isEmpty: V -> bool) {

    /** The puts of one turn of the worker loop; a throwing item is skipped. */
    function Emit(v: V): (r: seq<V>)
      ensures |r| <= 1
    {
      match f(v)
      case Throws => []
      case Value(u) => if OneToMaybe? && isEmpty(u) then [] else [u]
    }

    /** All turns, in order. */
    function Map(vs: seq<V>): seq<V> {
      if vs == [] then [] else Map(vs[..|vs| - 1]) + Emit(vs[|vs| - 1])
    }
  }

  /** Stage c reads channel c and writes channel c + 1. */
  function Flow<V>(stages: seq<Stage<V>>): Function<V> {
    (c: Cid, v: V) => if c < |stages| then var r := stages[c].Emit(v); seq(|r|, i requires 0 <= i < |r| => (c + 1, r[i])) else []
  }

  /** The stages from channel c up to channel d, one after the other. */
  function Through<V>(stages: seq<Stage<V>>, c: Cid, d: Cid, vs: seq<V>): seq<V>
    decreases d - c
  {
    if c < d <= |stages| then Through(stages, c + 1, d, stages[c].Map(vs)) else vs
  }

  /** Any number of workers for each stage. */
  ghost predicate IsChain<V>(n: Shape, stages: seq<Stage<V>>) {
    && n.Valid() && n.channels == |stages| + 1
    && (forall w :: 0 <= w < |n.src| ==> n.src[w] < |stages| && n.dsts[w] == [n.src[w] + 1])
    && (forall c :: 0 <= c < |stages| ==> Consumed(n, c))
  }

  // ---- several workers: multisets ----

  lemma MapAdd<V>(st: Stage<V>, vs: seq<V>, v: V)
    ensures st.Map(vs + [v]) == st.Map(vs) + st.Emit(v)
  {
    assert (vs + [v])[..|vs|] == vs;
  }

  lemma {:induction false} MapConcat<V>(st: Stage<V>, a: seq<V>, b: seq<V>)
    ensures st.Map(a + b) == st.Map(a) + st.Map(b)
    decreases |b|
  {
    if b == [] {
      assert a + b == a;
    } else {
      var m := |b| - 1;
      assert a + b == (a + b[..m]) + [b[m]] && b == b[..m] + [b[m]];
      MapAdd(st, a + b[..m], b[m]);
      MapAdd(st, b[..m], b[m]);
      MapConcat(st, a, b[..m]);
    }
  }

  lemma {:induction false} ThroughConcat<V>(stages: seq<Stage<V>>, c: Cid, d: Cid, a: seq<V>, b: seq<V>)
    ensures Through(stages, c, d, a + b) == Through(stages, c, d, a) + Through(stages, c, d, b)
    decreases d - c
  {
    if c < d <= |stages| {
      MapConcat(stages[c], a, b);
      ThroughConcat(stages, c + 1, d, stages[c].Map(a), stages[c].Map(b));
    }
  }

  lemma {:induction false} ThroughNothing<V>(stages: seq<Stage<V>>, c: Cid, d: Cid)
    ensures Through(stages, c, d, []) == []
    decreases d - c
  {
    if c < d <= |stages| {
      ThroughNothing(stages, c + 1, d);
    }
  }

  /** How often x is put into channel d in consequence of an item. */
  function Copies<V(==)>(stages: seq<Stage<V>>, d: Cid, x: V): Price<V> {
    (c: Cid, v: V) => if c < d <= |stages| then multiset(Through(stages, c, d, [v]))[x] else 0
  }

  /** Puts of x into channel d cost one, all other steps nothing. */
  function Counting<V(==)>(d: Cid, x: V): Tariff<V> {
    Tariff(0, c => 0, (c: Cid, v: V) => if c == d && v == x then 1 else 0, 0)
  }

  lemma CopiesBalanced<V(!new)>(stages: seq<Stage<V>>, d: Cid, x: V)
    requires d <= |stages|
    ensures Balanced(Flow(stages), Counting(d, x), Copies(stages, d, x))
  {
    var k, W, F := Counting(d, x), Copies(stages, d, x), Flow(stages);
    forall c: Cid, v: V ensures W(c, v) == k.begin(c) + OutsPrice(k, W, F(c, v)) + k.finish + k.fetch {
      if c < |stages| {
        OneStage(stages, d, x, c, v);
      }
    }
  }

  lemma ThroughOne<V>(stages: seq<Stage<V>>, c: Cid, d: Cid, v: V)
    requires c < d <= |stages|
    ensures Through(stages, c, d, [v]) == Through(stages, c + 1, d, stages[c].Emit(v))
  {
    assert [v][..0] == [];
    assert stages[c].Map([v]) == [] + stages[c].Emit(v) == stages[c].Emit(v);
  }

  lemma OneOut<V>(k: Tariff<V>, W: Price<V>, c: Cid, v: V)
    ensures OutsPrice(k, W, [(c, v)]) == k.put(c, v) + W(c, v)
  {
    assert [(c, v)][1..] == [];
  }

  lemma OneStage<V>(stages: seq<Stage<V>>, d: Cid, x: V, c: Cid, v: V)
    requires c < |stages| && d <= |stages|
    ensures Copies(stages, d, x)(c, v) == OutsPrice(Counting(d, x), Copies(stages, d, x), Flow(stages)(c, v))
  {
    var r := stages[c].Emit(v);
    var k, W := Counting(d, x), Copies(stages, d, x);
    if c < d { ThroughOne(stages, c, d, v); }
    if r == [] {
      ThroughNothing(stages, c + 1, d);
      assert Flow(stages)(c, v) == [];
    } else {
      assert r == [r[0]];
      assert Flow(stages)(c, v) == [(c + 1, r[0])];
      OneOut(k, W, c + 1, r[0]);
      OneCopy(stages, d, x, c, r[0]);
    }
  }

  lemma OneCopy<V>(stages: seq<Stage<V>>, d: Cid, x: V, c: Cid, u: V)
    requires c < |stages| && d <= |stages|
    ensures (if c < d then multiset(Through(stages, c + 1, d, [u]))[x] else 0)
         == Counting(d, x).put(c + 1, u) + Copies(stages, d, x)(c + 1, u)
  {
  }

  /** The items that came from outside into channel c, in order. */
  function Fed<V>(es: seq<Event<V>>, c: Cid): seq<V> {
    if es == [] then [] else (if es[0].External? && es[0].c == c then [es[0].v] else []) + Fed(es[1..], c)
  }

  /** Items come from outside only at the head of the chain. */
  ghost predicate FedAtHead<V>(es: seq<Event<V>>) {
    forall i :: 0 <= i < |es| && es[i].External? ==> es[i].c == 0
  }

  lemma StepCounts<V>(n: Shape, s: State<V>, e: Event<V>, d: Cid, x: V)
    requires Fits(n, s) && Enabled(n, s, e) && d < n.channels && |Apply(n, s, e).puts| == n.channels
    ensures multiset(Apply(n, s, e).puts[d])[x] ==
            multiset(s.puts[d])[x] + Cost(n, Counting(d, x), s, e) + (if e.External? && e.c == d && e.v == x then 1 else 0)
  {
  }

  lemma {:induction false} RunCounts<V>(n: Shape, s: State<V>, es: seq<Event<V>>, d: Cid, x: V)
    requires Open(n, s) && Legal(n, s, es) && NoClose(es) && d < n.channels
    ensures Open(n, Exec(n, s, es))
    ensures multiset(Exec(n, s, es).puts[d])[x] ==
            multiset(s.puts[d])[x] + CostOf(n, Counting(d, x), s, es) + multiset(Fed(es, d))[x]
    decreases |es|
  {
    if es != [] {
      OpenStep(n, s, es[0]);
      StepCounts(n, s, es[0], d, x);
      RunCounts(n, Apply(n, s, es[0]), es[1..], d, x);
    }
  }

  lemma {:induction false} BringsCopies<V>(stages: seq<Stage<V>>, d: Cid, x: V, es: seq<Event<V>>)
    requires FedAtHead(es) && 0 < d <= |stages|
    ensures BringsOf(Copies(stages, d, x), es) == multiset(Through(stages, 0, d, Fed(es, 0)))[x]
    decreases |es|
  {
    if es == [] {
      ThroughNothing(stages, 0, d);
    } else {
      BringsCopies(stages, d, x, es[1..]);
      if es[0].External? {
        var one, rest := Through(stages, 0, d, [es[0].v]), Through(stages, 0, d, Fed(es[1..], 0));
        ThroughConcat(stages, 0, d, [es[0].v], Fed(es[1..], 0));
        assert multiset(one + rest) == multiset(one) + multiset(rest);
        assert Brings(Copies(stages, d, x), es[0]) == multiset(one)[x];
      } else {
        assert Fed(es, 0) == Fed(es[1..], 0);
      }
    }
  }

  lemma {:induction false} FedNowhereElse<V>(es: seq<Event<V>>, d: Cid)
    requires FedAtHead(es) && 0 < d
    ensures Fed(es, d) == []
    decreases |es|
  {
    if es != [] { FedNowhereElse(es[1..], d); }
  }

  lemma {:induction false} FollowsHasNoClose<V>(n: Shape, F: Function<V>, s: State<V>, es: seq<Event<V>>)
    requires Legal(n, s, es) && FollowsRun(n, F, s, es)
    ensures NoClose(es)
    decreases |es|
  {
    if es != [] {
      FollowsHasNoClose(n, F, Apply(n, s, es[0]), es[1..]);
      assert forall i :: 0 < i < |es| ==> es[i] == es[1..][i - 1];
    }
  }

  /** How often x was put into channel d, in a run that is at rest. */
  lemma CopiesAtRest<V(!new)>(n: Shape, stages: seq<Stage<V>>, s0: State<V>, es: seq<Event<V>>, d: Cid, x: V)
    requires IsChain(n, stages) && Init(n, s0) && Legal(n, s0, es) && FollowsRun(n, Flow(stages), s0, es) && FedAtHead(es)
    requires Quiet(Exec(n, s0, es)) && 0 < d <= |stages|
    ensures d < |Exec(n, s0, es).puts|
    ensures multiset(Exec(n, s0, es).puts[d])[x] == multiset(Through(stages, 0, d, Fed(es, 0)))[x]
  {
    CopiesBalanced(stages, d, x);
    ChainPrices(n, stages, d, x);
    WholeRun(n, Flow(stages), Counting(d, x), Copies(stages, d, x), s0, es);
    FollowsHasNoClose(n, Flow(stages), s0, es);
    RunCounts(n, s0, es, d, x);
    BringsCopies(stages, d, x, es);
    FedNowhereElse(es, d);
  }

  lemma ChainPrices<V(!new)>(n: Shape, stages: seq<Stage<V>>, d: Cid, x: V)
    requires IsChain(n, stages) && d <= |stages|
    ensures forall c, v :: 0 <= c < n.channels && !Consumed(n, c) ==> Copies(stages, d, x)(c, v) == 0
  {
  }

  /** With any number of workers for each stage and under any schedule: at rest, the values ever put
      into a channel are, as a multiset, the items of the head mapped through the stages. */
  lemma MultisetAtRest<V(!new)>(n: Shape, stages: seq<Stage<V>>, s0: State<V>, es: seq<Event<V>>, d: Cid)
    requires IsChain(n, stages) && Init(n, s0) && Legal(n, s0, es) && FollowsRun(n, Flow(stages), s0, es) && FedAtHead(es)
    requires Quiet(Exec(n, s0, es)) && 0 < d <= |stages|
    ensures d < |Exec(n, s0, es).puts|
    ensures multiset(Exec(n, s0, es).puts[d]) == multiset(Through(stages, 0, d, Fed(es, 0)))
  {
    InitInv(n, s0);
    FollowsHasNoClose(n, Flow(stages), s0, es);
    OpenRun(n, s0, es);
    forall x: V ensures multiset(Exec(n, s0, es).puts[d])[x] == multiset(Through(stages, 0, d, Fed(es, 0)))[x] {
      CopiesAtRest(n, stages, s0, es, d, x);
    }
  }

  // ---- one worker for each stage: sequences ----

  /** One worker a stage: worker c reads channel c. */
  ghost predicate IsLine<V>(n: Shape, stages: seq<Stage<V>>) {
    IsChain(n, stages) && |n.src| == |stages| && forall c :: 0 <= c < |stages| ==> n.src[c] == c
  }

  /** How many items of channel c have been turned into puts. */
  function Mapped<V>(s: State<V>, c: Cid): nat
    requires c < |s.work| && c < |s.done|
  {
    |s.done[c]| + (if s.work[c].Busy? && s.work[c].todo == [] then 1 else 0)
  }

  /** The worker of channel c handles its items in order. */
  ghost predicate InOrder<V>(n: Shape, stages: seq<Stage<V>>, s: State<V>, c: Cid)
    requires Fits(n, s) && IsLine(n, stages) && c < |stages|
  {
    var k, x := |s.done[c]|, s.work[c];
    && |s.puts[c]| == k + |s.chans[c].queue| + (if x.Given? || x.Busy? then 1 else 0)
    && (x.Given? || x.Busy? ==> x.i == k)
    && (x.Busy? ==> x.todo == [] || x.todo == Flow(stages)(c, s.puts[c][k]))
  }

  /** What it has put so far is what its stage makes of a prefix of them. */
  ghost predicate Matches<V>(n: Shape, stages: seq<Stage<V>>, s: State<V>, c: Cid)
    requires Fits(n, s) && IsLine(n, stages) && c < |stages|
  {
    Mapped(s, c) <= |s.puts[c]| && s.puts[c + 1] == stages[c].Map(s.puts[c][..Mapped(s, c)])
  }

  ghost predicate Line<V>(n: Shape, stages: seq<Stage<V>>, s: State<V>)
    requires IsLine(n, stages)
  {
    Open(n, s) && forall c :: 0 <= c < |stages| ==> InOrder(n, stages, s, c) && Matches(n, stages, s, c)
  }

  lemma LinePut<V>(n: Shape, stages: seq<Stage<V>>, s: State<V>, c: Cid, v: V, d: Cid)
    requires Inv(n, s) && IsLine(n, stages) && c < n.channels && d < |stages| && InOrder(n, stages, s, d)
    requires Fits(n, PutTo(s, c, v))
    ensures InOrder(n, stages, PutTo(s, c, v), d)
    ensures Matches(n, stages, s, d) && c != d + 1 ==> Matches(n, stages, PutTo(s, c, v), d)
  {
    var s' := PutTo(s, c, v);
    var ws := s.chans[c].waiters;
    if ws != [] {
      assert ws[0] in ws;
      assert n.src[ws[0]] == c && n.src[ws[0]] == ws[0];
    }
    if Matches(n, stages, s, d) {
      assert Mapped(s', d) == Mapped(s, d);
      assert s'.puts[d][..Mapped(s, d)] == s.puts[d][..Mapped(s, d)];
    }
  }

  lemma LineExternal<V>(n: Shape, stages: seq<Stage<V>>, s: State<V>, v: V)
    requires IsLine(n, stages) && Line(n, stages, s)
    ensures Line(n, stages, PutTo(s, 0, v))
  {
    OpenStep(n, s, External(0, v));
    forall d | 0 <= d < |stages| ensures InOrder(n, stages, PutTo(s, 0, v), d) && Matches(n, stages, PutTo(s, 0, v), d) {
      LinePut(n, stages, s, 0, v, d);
    }
  }

  lemma LineFetch<V>(n: Shape, stages: seq<Stage<V>>, s: State<V>, w: Wid)
    requires IsLine(n, stages) && Line(n, stages, s) && Enabled(n, s, Fetch(w))
    ensures Line(n, stages, Apply(n, s, Fetch(w)))
  {
    OpenStep(n, s, Fetch(w));
    var s' := ApplyFetch(n, s, w);
    assert ItemsOf(n, s, w);
    forall d | 0 <= d < |stages| ensures InOrder(n, stages, s', d) && Matches(n, stages, s', d) {
      assert InOrder(n, stages, s, d) && Matches(n, stages, s, d);
      assert Mapped(s', d) == Mapped(s, d);
    }
  }

  lemma MapSnoc<V>(st: Stage<V>, vs: seq<V>, k: nat)
    requires k < |vs|
    ensures st.Map(vs[..k + 1]) == st.Map(vs[..k]) + st.Emit(vs[k])
  {
    assert vs[..k + 1][..k] == vs[..k];
  }

  lemma LineBegin<V>(n: Shape, stages: seq<Stage<V>>, s: State<V>, w: Wid, outs: seq<(Cid, V)>)
    requires IsLine(n, stages) && Line(n, stages, s) && InRange(n, s) && Enabled(n, s, Begin(w, outs))
    requires Follows(n, Flow(stages), s, Begin(w, outs))
    ensures Line(n, stages, Apply(n, s, Begin(w, outs)))
  {
    OpenStep(n, s, Begin(w, outs));
    var s' := Apply(n, s, Begin(w, outs));
    forall d | 0 <= d < |stages| ensures InOrder(n, stages, s', d) && Matches(n, stages, s', d) {
      assert InOrder(n, stages, s, d) && Matches(n, stages, s, d);
      if d == w {
        MapSnoc(stages[w], s.puts[w], |s.done[w]|);
        assert outs == Flow(stages)(w, s.puts[w][|s.done[w]|]);
      }
    }
  }

  /** A stage has at most one put to make for an item. */
  lemma OnePut<V>(n: Shape, stages: seq<Stage<V>>, s: State<V>, w: Wid)
    requires IsLine(n, stages) && Fits(n, s) && w < |stages| && InOrder(n, stages, s, w) && Mapped(s, w) < |s.puts[w]|
    requires s.work[w].Busy? && s.work[w].todo != []
    ensures var k := |s.done[w]|; k < |s.puts[w]| && var r := stages[w].Emit(s.puts[w][k]);
            |r| == 1 && s.work[w] == Busy(k, [(w + 1, r[0])]) && s.work[w].todo[1..] == []
            && stages[w].Map(s.puts[w][..k + 1]) == stages[w].Map(s.puts[w][..k]) + [r[0]]
  {
    var k := |s.done[w]|;
    var r := stages[w].Emit(s.puts[w][k]);
    assert s.work[w].todo == [(w + 1, r[0])];
    assert r == [r[0]];
    MapSnoc(stages[w], s.puts[w], k);
  }

  lemma OwnWorkStays<V>(n: Shape, stages: seq<Stage<V>>, s: State<V>, w: Wid, u: V)
    requires IsLine(n, stages) && Inv(n, s) && w < |stages|
    ensures var s' := PutTo(s, w + 1, u); w < |s'.work| && s'.work[w] == s.work[w]
  {
    var ws := s.chans[w + 1].waiters;
    if ws != [] {
      assert ws[0] in ws;
      assert n.src[ws[0]] == w + 1 && n.src[w] == w;
    }
  }

  /** The put seen by the stage that makes it. */
  lemma LinePutOutHere<V>(n: Shape, stages: seq<Stage<V>>, s: State<V>, s1: State<V>, w: Wid, u: V)
    requires IsLine(n, stages) && Inv(n, s1) && Fits(n, s) && w < |stages|
    requires InOrder(n, stages, s, w) && Matches(n, stages, s, w)
    requires s.work[w].Busy? && s.work[w].todo != [] && s1 == SetWork(s, w, Busy(s.work[w].i, []))
    requires |s.done[w]| < |s.puts[w]| && stages[w].Map(s.puts[w][..|s.done[w]| + 1]) == stages[w].Map(s.puts[w][..|s.done[w]|]) + [u]
    requires Fits(n, PutTo(s1, w + 1, u))
    ensures InOrder(n, stages, PutTo(s1, w + 1, u), w) && Matches(n, stages, PutTo(s1, w + 1, u), w)
  {
    var s' := PutTo(s1, w + 1, u);
    assert InOrder(n, stages, s1, w);
    LinePut(n, stages, s1, w + 1, u, w);
    OwnWorkStays(n, stages, s1, w, u);
    assert Mapped(s', w) == |s.done[w]| + 1;
    assert s'.puts[w] == s.puts[w];
  }

  /** The put seen by another stage. */
  lemma LinePutOutThere<V>(n: Shape, stages: seq<Stage<V>>, s: State<V>, s1: State<V>, w: Wid, u: V, d: Cid)
    requires IsLine(n, stages) && Inv(n, s1) && Fits(n, s) && w < |stages| && d < |stages| && d != w
    requires InOrder(n, stages, s, d) && Matches(n, stages, s, d)
    requires s.work[w].Busy? && s1 == SetWork(s, w, Busy(s.work[w].i, []))
    requires Fits(n, PutTo(s1, w + 1, u))
    ensures InOrder(n, stages, PutTo(s1, w + 1, u), d) && Matches(n, stages, PutTo(s1, w + 1, u), d)
  {
    assert InOrder(n, stages, s1, d) && Matches(n, stages, s1, d);
    LinePut(n, stages, s1, w + 1, u, d);
  }

  lemma LinePutOutAll<V>(n: Shape, stages: seq<Stage<V>>, s: State<V>, s1: State<V>, s': State<V>, w: Wid, u: V)
    requires IsLine(n, stages) && Inv(n, s1) && Fits(n, s) && w < |stages|
    requires forall d :: 0 <= d < |stages| ==> InOrder(n, stages, s, d) && Matches(n, stages, s, d)
    requires s.work[w].Busy? && s.work[w].todo != [] && s1 == SetWork(s, w, Busy(s.work[w].i, []))
    requires |s.done[w]| < |s.puts[w]| && stages[w].Map(s.puts[w][..|s.done[w]| + 1]) == stages[w].Map(s.puts[w][..|s.done[w]|]) + [u]
    requires s' == PutTo(s1, w + 1, u) && Fits(n, s')
    ensures forall d :: 0 <= d < |stages| ==> InOrder(n, stages, s', d) && Matches(n, stages, s', d)
  {
    forall d | 0 <= d < |stages| ensures InOrder(n, stages, s', d) && Matches(n, stages, s', d) {
      if d == w {
        LinePutOutHere(n, stages, s, s1, w, u);
      } else {
        LinePutOutThere(n, stages, s, s1, w, u, d);
      }
    }
  }

  lemma LinePutOut<V>(n: Shape, stages: seq<Stage<V>>, s: State<V>, w: Wid)
    requires IsLine(n, stages) && Line(n, stages, s) && Enabled(n, s, PutOut(w))
    ensures Line(n, stages, Apply(n, s, PutOut(w)))
  {
    OpenStep(n, s, PutOut(w));
    assert InOrder(n, stages, s, w) && Matches(n, stages, s, w);
    OnePut(n, stages, s, w);
    PutOutFirst(n, s, w);
    LinePutOutAll(n, stages, s, SetWork(s, w, Busy(s.work[w].i, [])), Apply(n, s, PutOut(w)), w, s.work[w].todo[0].1);
  }

  lemma LineFinish<V>(n: Shape, stages: seq<Stage<V>>, s: State<V>, w: Wid)
    requires IsLine(n, stages) && Line(n, stages, s) && Enabled(n, s, Finish(w))
    ensures Line(n, stages, Apply(n, s, Finish(w)))
  {
    OpenStep(n, s, Finish(w));
    var s' := Apply(n, s, Finish(w));
    forall d | 0 <= d < |stages| ensures InOrder(n, stages, s', d) && Matches(n, stages, s', d) {
      assert InOrder(n, stages, s, d) && Matches(n, stages, s, d);
      assert Mapped(s', d) == Mapped(s, d);
    }
  }

  lemma LineStep<V>(n: Shape, stages: seq<Stage<V>>, s: State<V>, e: Event<V>)
    requires IsLine(n, stages) && Line(n, stages, s) && InRange(n, s) && Enabled(n, s, e)
    requires Follows(n, Flow(stages), s, e) && !e.ExternalClose? && (e.External? ==> e.c == 0)
    ensures Line(n, stages, Apply(n, s, e))
  {
    match e
    case External(_, v) => LineExternal(n, stages, s, v);
    case Fetch(w) => LineFetch(n, stages, s, w);
    case Begin(w, outs) => LineBegin(n, stages, s, w, outs);
    case PutOut(w) => LinePutOut(n, stages, s, w);
    case Finish(w) => LineFinish(n, stages, s, w);
    case CloseNext(w) =>
  }

  lemma {:induction false} LineRun<V>(n: Shape, stages: seq<Stage<V>>, s: State<V>, es: seq<Event<V>>)
    requires IsLine(n, stages) && Line(n, stages, s) && Legal(n, s, es) && FollowsRun(n, Flow(stages), s, es) && FedAtHead(es)
    ensures Line(n, stages, Exec(n, s, es)) && Exec(n, s, es).puts[0] == s.puts[0] + Fed(es, 0)
    decreases |es|
  {
    if es != [] {
      LineStep(n, stages, s, es[0]);
      HeadStep(n, stages, s, es[0]);
      LineRun(n, stages, Apply(n, s, es[0]), es[1..]);
    }
  }

  /** Only items from outside reach the head. */
  lemma HeadStep<V>(n: Shape, stages: seq<Stage<V>>, s: State<V>, e: Event<V>)
    requires IsLine(n, stages) && Open(n, s) && Enabled(n, s, e) && !e.ExternalClose? && (e.External? ==> e.c == 0)
    ensures |Apply(n, s, e).puts| > 0
    ensures Apply(n, s, e).puts[0] == s.puts[0] + (if e.External? then [e.v] else [])
  {
    if e.PutOut? { assert s.work[e.w].todo[0].0 in n.dsts[e.w]; }
  }

  /** With one worker a stage, under every schedule and at every moment: what a stage has put is a
      prefix of what it makes of all its items, throwing and empty ones skipped; and when the chain is
      at rest, every channel has got the items of the head mapped through the stages before it. */
  lemma SequenceAlways<V>(n: Shape, stages: seq<Stage<V>>, s0: State<V>, es: seq<Event<V>>)
    requires IsLine(n, stages) && Init(n, s0) && Legal(n, s0, es) && FollowsRun(n, Flow(stages), s0, es) && FedAtHead(es)
    ensures
      var s := Exec(n, s0, es);
      && |s.puts| == |stages| + 1 && s.puts[0] == Fed(es, 0)
      && (forall c :: 0 <= c < |stages| ==> s.puts[c + 1] <= stages[c].Map(s.puts[c]))
      && (Quiet(s) ==> forall d :: 0 <= d <= |stages| ==> s.puts[d] == Through(stages, 0, d, Fed(es, 0)))
  {
    InitInv(n, s0);
    LineRun(n, stages, s0, es);
    LinePrefixes(n, stages, Exec(n, s0, es));
    if Quiet(Exec(n, s0, es)) {
      LineMapped(n, stages, Exec(n, s0, es));
    }
  }

  lemma LinePrefixes<V>(n: Shape, stages: seq<Stage<V>>, s: State<V>)
    requires IsLine(n, stages) && Line(n, stages, s)
    ensures |s.puts| == |stages| + 1
    ensures forall c :: 0 <= c < |stages| ==> s.puts[c + 1] <= stages[c].Map(s.puts[c])
  {
    forall c | 0 <= c < |stages| ensures s.puts[c + 1] <= stages[c].Map(s.puts[c]) {
      assert Matches(n, stages, s, c);
      MapPrefix(stages[c], s.puts[c], Mapped(s, c));
    }
  }

  lemma LineMapped<V>(n: Shape, stages: seq<Stage<V>>, s: State<V>)
    requires IsLine(n, stages) && Line(n, stages, s) && Quiet(s)
    ensures |s.puts| == |stages| + 1
    ensures forall d :: 0 <= d <= |stages| ==> s.puts[d] == Through(stages, 0, d, s.puts[0])
  {
    forall d | 0 <= d <= |stages| ensures s.puts[d] == Through(stages, 0, d, s.puts[0]) {
      LineAtRest(n, stages, s, 0, d);
    }
  }

  lemma MapPrefix<V>(st: Stage<V>, vs: seq<V>, p: nat)
    requires p <= |vs|
    ensures st.Map(vs[..p]) <= st.Map(vs)
  {
    assert vs == vs[..p] + vs[p..];
    MapConcat(st, vs[..p], vs[p..]);
  }

  lemma StageAtRest<V>(n: Shape, stages: seq<Stage<V>>, s: State<V>, c: Cid)
    requires IsLine(n, stages) && Line(n, stages, s) && Quiet(s) && c < |stages|
    ensures s.puts[c + 1] == stages[c].Map(s.puts[c])
  {
    assert InOrder(n, stages, s, c) && Matches(n, stages, s, c);
    assert s.work[c].Parked? && c in s.chans[c].waiters;
    assert s.puts[c][..|s.puts[c]|] == s.puts[c];
  }

  lemma {:induction false} LineAtRest<V>(n: Shape, stages: seq<Stage<V>>, s: State<V>, c: Cid, d: Cid)
    requires IsLine(n, stages) && Line(n, stages, s) && Quiet(s) && c <= d <= |stages|
    ensures s.puts[d] == Through(stages, c, d, s.puts[c])
    decreases d - c
  {
    if c < d {
      StageAtRest(n, stages, s, c);
      LineAtRest(n, stages, s, c + 1, d);
    }
  }
}
