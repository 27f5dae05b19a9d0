/** What a stage makes of its items, said of its function and its test for empty results alone. */
module Stages {
  import opened Network
  import opened NetworkSafety
  import opened Shutdown
  import opened Potential
  import opened Chain

  /** The function gives a value for v that the stage may not drop. */
  predicate Passes<V>(st: Stage<V>, v: V) {
    match st
    case OneToOne(f) => f(v).Value?
    case OneToMaybe(f, isEmpty) => f(v).Value? && !isEmpty(f(v).u)
  }

  /** The items that pass, in order. */
  function Passing<V>(st: Stage<V>, vs: seq<V>): seq<V> {
    if vs == [] then []
    else Passing(st, vs[..|vs| - 1]) + if Passes(st, vs[|vs| - 1]) then [vs[|vs| - 1]] else []
  }

  /** One item: its value is put if it passes, and nothing otherwise. */
  lemma EmitsIffPasses<V>(st: Stage<V>, v: V)
    ensures st.Emit(v) == if Passes(st, v) then [st.f(v).u] else []
  {
  }

  /** The output is the value of each passing item, once for each, in order. */
  lemma {:induction false} MapIsPassing<V>(st: Stage<V>, vs: seq<V>)
    ensures |st.Map(vs)| == |Passing(st, vs)|
    ensures forall i :: 0 <= i < |Passing(st, vs)| ==> st.f(Passing(st, vs)[i]) == Value(st.Map(vs)[i])
    decreases |vs|
  {
    if vs != [] {
      MapIsPassing(st, vs[..|vs| - 1]);
      EmitsIffPasses(st, vs[|vs| - 1]);
    }
  }

  lemma {:induction false} PassingMembers<V>(st: Stage<V>, vs: seq<V>, v: V)
    ensures v in Passing(st, vs) <==> v in vs && Passes(st, v)
    decreases |vs|
  {
    if vs != [] {
      var m := |vs| - 1;
      PassingMembers(st, vs[..m], v);
      assert vs == vs[..m] + [vs[m]];
    }
  }

  /** Which values come out, and that none of them is empty behind a 1-to-0/1 stage. */
  lemma MapMembers<V>(st: Stage<V>, vs: seq<V>, u: V)
    ensures u in st.Map(vs) <==> exists v :: v in vs && Passes(st, v) && st.f(v) == Value(u)
    ensures u in st.Map(vs) && st.OneToMaybe? ==> !st.isEmpty(u)
  {
    MapIsPassing(st, vs);
    var ps := Passing(st, vs);
    if u in st.Map(vs) {
      var i :| 0 <= i < |ps| && st.Map(vs)[i] == u;
      PassingMembers(st, vs, ps[i]);
      assert ps[i] in ps;
    }
    if v :| v in vs && Passes(st, v) && st.f(v) == Value(u) {
      PassingMembers(st, vs, v);
      var i :| 0 <= i < |ps| && ps[i] == v;
      assert st.Map(vs)[i] == u;
    }
  }

  /** A stage all of whose items pass loses none. */
  lemma {:induction false} LosslessMap<V>(st: Stage<V>, vs: seq<V>)
    requires forall v :: v in vs ==> Passes(st, v)
    ensures |st.Map(vs)| == |vs| && forall i :: 0 <= i < |vs| ==> st.f(vs[i]) == Value(st.Map(vs)[i])
    decreases |vs|
  {
    if vs != [] {
      var m := |vs| - 1;
      LosslessMap(st, vs[..m]);
      EmitsIffPasses(st, vs[m]);
      forall i | 0 <= i < |vs| ensures st.f(vs[i]) == Value(st.Map(vs)[i]) {
        if i < m { assert vs[..m][i] == vs[i]; }
      }
    }
  }

  // ---- in a chain ----

  lemma {:induction false} ThroughLast<V>(stages: seq<Stage<V>>, c: Cid, d: Cid, vs: seq<V>)
    requires c <= d < |stages|
    ensures Through(stages, c, d + 1, vs) == stages[d].Map(Through(stages, c, d, vs))
    decreases d - c
  {
    if c < d { ThroughLast(stages, c + 1, d, stages[c].Map(vs)); }
  }

  /** Each stage passes whatever it is given. */
  ghost predicate Lossless<V(!new)>(stages: seq<Stage<V>>, d: Cid)
    requires d <= |stages|
  {
    forall c, v :: 0 <= c < d ==> Passes(stages[c], v)
  }

  lemma {:induction false} LosslessThrough<V(!new)>(stages: seq<Stage<V>>, d: Cid, vs: seq<V>)
    requires d <= |stages| && Lossless(stages, d)
    ensures |Through(stages, 0, d, vs)| == |vs|
    decreases d
  {
    if d > 0 {
      LosslessThrough(stages, d - 1, vs);
      ThroughLast(stages, 0, d - 1, vs);
      LosslessMap(stages[d - 1], Through(stages, 0, d - 1, vs));
    }
  }

  /** What reaches a channel of a chain that is at rest, with any number of workers and under any schedule,
      written out for the stage before it: a value is there exactly if some item of the stage passes with that
      value; no value behind a 1-to-0/1 stage is empty; and if every stage passes everything, as many values
      arrive as came in. */
  lemma OutputsAtRest<V(!new)>(n: Shape, stages: seq<Stage<V>>, s0: State<V>, es: seq<Event<V>>, d: Cid)
    requires IsChain(n, stages) && Init(n, s0) && Legal(n, s0, es) && FollowsRun(n, Flow(stages), s0, es) && FedAtHead(es)
    requires Quiet(Exec(n, s0, es)) && d < |stages|
    ensures
      var s := Exec(n, s0, es); var st := stages[d]; var items := Through(stages, 0, d, Fed(es, 0));
      && d + 1 < |s.puts|
      && (forall u :: u in s.puts[d + 1] <==> exists v :: v in items && Passes(st, v) && st.f(v) == Value(u))
      && (st.OneToMaybe? ==> forall u :: u in s.puts[d + 1] ==> !st.isEmpty(u))
      && |s.puts[d + 1]| == |Passing(st, items)|
      && (d > 0 ==> multiset(s.puts[d]) == multiset(items))
      && (Lossless(stages, d + 1) ==> |s.puts[d + 1]| == |Fed(es, 0)|)
  {
    var s := Exec(n, s0, es);
    var items := Through(stages, 0, d, Fed(es, 0));
    MultisetAtRest(n, stages, s0, es, d + 1);
    if d > 0 { MultisetAtRest(n, stages, s0, es, d); }
    ThroughLast(stages, 0, d, Fed(es, 0));
    SameMultiset(s.puts[d + 1], stages[d].Map(items));
    MapIsPassing(stages[d], items);
    forall u ensures u in s.puts[d + 1] <==> exists v :: v in items && Passes(stages[d], v) && stages[d].f(v) == Value(u) {
      MapMembers(stages[d], items, u);
    }
    forall u | u in s.puts[d + 1] && stages[d].OneToMaybe? ensures !stages[d].isEmpty(u) {
      MapMembers(stages[d], items, u);
    }
    if Lossless(stages, d + 1) { LosslessThrough(stages, d + 1, Fed(es, 0)); }
  }

  lemma SameMultiset<V>(a: seq<V>, b: seq<V>)
    requires multiset(a) == multiset(b)
    ensures |a| == |b| && forall u :: u in a <==> u in b
  {
    assert |multiset(a)| == |a| && |multiset(b)| == |b|;
    forall u ensures u in a <==> u in b {
      assert u in multiset(a) <==> u in multiset(b);
    }
  }

  /** The same at every moment, with one worker a stage: each channel holds the values of the first passing
      items of the channel before it, in order. */
  lemma OutputsAlways<V(!new)>(n: Shape, stages: seq<Stage<V>>, s0: State<V>, es: seq<Event<V>>, c: Cid)
    requires IsLine(n, stages) && Init(n, s0) && Legal(n, s0, es) && FollowsRun(n, Flow(stages), s0, es) && FedAtHead(es)
    requires c < |stages|
    ensures
      var s := Exec(n, s0, es); var st := stages[c];
      && c + 1 < |s.puts| && |s.puts[c + 1]| <= |Passing(st, s.puts[c])|
      && (forall i :: 0 <= i < |s.puts[c + 1]| ==> st.f(Passing(st, s.puts[c])[i]) == Value(s.puts[c + 1][i]))
      && (st.OneToMaybe? ==> forall u :: u in s.puts[c + 1] ==> !st.isEmpty(u))
  {
    var s := Exec(n, s0, es);
    SequenceAlways(n, stages, s0, es);
    MapIsPassing(stages[c], s.puts[c]);
    forall u | u in s.puts[c + 1] && stages[c].OneToMaybe? ensures !stages[c].isEmpty(u) {
      MapMembers(stages[c], s.puts[c], u);
    }
  }
}
