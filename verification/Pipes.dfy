/** The worker loops of the data stages on channel objects: one stretch of a worker, from the moment it
    gets control to the moment it has to wait or its loop ends. */
module Pipes {
  import opened ChannelValue
  import opened ChannelHeap
  import opened Chain

  /** One put after the other. */
  function PutAll<W, T>(c: Chan<W, T>, vs: seq<T>): Chan<W, T> {
    if vs == [] then c else PutAll(c, vs[..|vs| - 1]).Put(vs[|vs| - 1])
  }

  /** The first values go to the waiting readers, newest reader first; the others are queued in order. */
  lemma {:induction false} PutAllServesThenQueues<W, T>(c: Chan<W, T>, vs: seq<T>)
    ensures var k := if |vs| < |c.waiters| then |vs| else |c.waiters|;
            PutAll(c, vs) == Chan(c.waiters[k..], c.queue + vs[k..], c.closed)
    decreases |vs|
  {
    if vs != [] {
      var m := |vs| - 1;
      PutAllServesThenQueues(c, vs[..m]);
      if m >= |c.waiters| {
        assert vs[..m][|c.waiters|..] + [vs[m]] == vs[|c.waiters|..];
        assert c.queue + vs[|c.waiters|..] == c.queue + vs[..m][|c.waiters|..] + [vs[m]];
      }
    }
  }

  lemma {:induction false} PutAllConcat<W, T>(c: Chan<W, T>, a: seq<T>, b: seq<T>)
    ensures PutAll(c, a + b) == PutAll(PutAll(c, a), b)
    decreases |b|
  {
    if b == [] {
      assert a + b == a;
    } else {
      assert (a + b)[..|a + b| - 1] == a + b[..|b| - 1];
      PutAllConcat(c, a, b[..|b| - 1]);
    }
  }

  lemma TurnOf<V>(st: Stage<V>, c: Chan<Waiter<V>, V>, vs: seq<V>, i: nat)
    requires i < |vs|
    ensures PutAll(c, st.Map(vs[..i + 1])) == PutAll(PutAll(c, st.Map(vs[..i])), st.Emit(vs[i]))
  {
    assert vs[..i + 1][..i] == vs[..i];
    PutAllConcat(c, st.Map(vs[..i]), st.Emit(vs[i]));
  }

  lemma PutOne<W, T>(c: Chan<W, T>, v: T)
    ensures PutAll(c, [v]) == c.Put(v)
  {
    assert [v][..0] == [];
  }

  /** One turn of the loop: an item that throws, or an empty result, puts nothing. */
  method Turn<V>(dst: Channel<V>, st: Stage<V>, v: V, ghost ws: set<Waiter<V>>)
    requires dst.Valid() && !dst.locked && forall w :: w in dst.waiters.spine ==> w in ws
    modifies dst, dst.waiters, ws
    ensures dst.Valid() && !dst.locked && dst.Contents() == PutAll(old(dst.Contents()), st.Emit(v))
    ensures st.f(v).Throws? ==> dst.Contents() == old(dst.Contents())
    ensures st.f(v).Value? && st.OneToMaybe? && st.isEmpty(st.f(v).u) ==> dst.Contents() == old(dst.Contents())
    ensures st.f(v).Value? && (st.OneToOne? || !st.isEmpty(st.f(v).u)) ==> dst.Contents() == old(dst.Contents()).Put(st.f(v).u)
    ensures forall w :: w in dst.waiters.spine ==> w in ws
  {
    match st.f(v) {
      case Throws =>
      case Value(u) =>
        if !(st.OneToMaybe? && st.isEmpty(u)) {
          PutOne(dst.Contents(), u);
          PutAllServesThenQueues(dst.Contents(), [u]);
          dst.Put(u);
        }
    }
  }

  /** The source after i of the values vs have been processed and the next call of get has come back. */
  ghost predicate Taken<V>(src: Channel<V>, last: Outcome<V>, vs: seq<V>, i: nat, spine: seq<Waiter<V>>, closed: bool)
    reads src, src.waiters, src.waiters.spine
  {
    && src.Valid() && src.closed == closed && i <= |vs|
    && match last
       case Value(v) => i < |vs| && v == vs[i] && src.queue == vs[i + 1..] && !src.locked && src.waiters.spine == spine
       case End => i == |vs| && src.queue == [] && closed && !src.locked && src.waiters.spine == spine
       case Waits(w) => i == |vs| && src.queue == [] && !closed && src.locked && src.waiters.spine == [w] + spine
  }

  method Next<V>(src: Channel<V>, blank: V, ghost vs: seq<V>, ghost i: nat) returns (last: Outcome<V>)
    requires src.Valid() && !src.locked && i <= |vs| && src.queue == vs[i..]
    modifies src, src.waiters
    ensures Taken(src, last, vs, i, old(src.waiters.spine), old(src.closed))
    ensures last.Waits? ==> fresh(last.w)
  {
    last := src.Get(blank);
  }

  /** The body of the loop and the step to the next item. While there are items nobody waits for them. */
  method TurnThenNext<V>(src: Channel<V>, dst: Channel<V>, st: Stage<V>, blank: V, v: V,
                         ghost vs: seq<V>, ghost i: nat, ghost ws: set<Waiter<V>>) returns (last: Outcome<V>)
    requires src != dst && src.waiters != dst.waiters
    requires Taken(src, Outcome.Value(v), vs, i, [], src.closed)
    requires dst.Valid() && !dst.locked && forall w :: w in dst.waiters.spine ==> w in ws
    modifies src, src.waiters, dst, dst.waiters, ws
    ensures Taken(src, last, vs, i + 1, [], old(src.closed))
    ensures last.Waits? ==> fresh(last.w)
    ensures dst.Valid() && !dst.locked && dst.Contents() == PutAll(old(dst.Contents()), st.Emit(v))
    ensures forall w :: w in dst.waiters.spine ==> w in ws
  {
    Turn(dst, st, v, ws);
    last := Next(src, blank, vs, i + 1);
  }

  /** The loop, entered with what the first call of get has brought. */
  method Loop<V>(src: Channel<V>, dst: Channel<V>, st: Stage<V>, blank: V, first: Outcome<V>,
                 ghost vs: seq<V>, ghost ws: set<Waiter<V>>) returns (last: Outcome<V>)
    requires src != dst && src.waiters != dst.waiters
    requires first.Value? && Taken(src, first, vs, 0, [], src.closed)
    requires dst.Valid() && !dst.locked && forall w :: w in dst.waiters.spine ==> w in ws
    modifies src, src.waiters, dst, dst.waiters, ws
    ensures !last.Value? && Taken(src, last, vs, |vs|, [], old(src.closed))
    ensures last.Waits? ==> fresh(last.w)
    ensures dst.Valid() && !dst.locked && dst.Contents() == PutAll(old(dst.Contents()), st.Map(vs))
    ensures forall w :: w in dst.waiters.spine ==> w in ws
  {
    ghost var d0 := dst.Contents();
    ghost var i := 0;
    last := first;
    while last.Value?
      invariant Taken(src, last, vs, i, [], old(src.closed))
      invariant dst.Valid() && !dst.locked && dst.Contents() == PutAll(d0, st.Map(vs[..i]))
      invariant forall w :: w in dst.waiters.spine ==> w in ws
      invariant last.Waits? ==> fresh(last.w)
      decreases |vs| - i, last.Value?
    {
      last := TurnThenNext(src, dst, st, blank, last.v, vs, i, ws);
      TurnOf(st, d0, vs, i);
      i := i + 1;
    }
    assert vs[..|vs|] == vs;
  }

  /** The first get and the loop. */
  method Drain<V>(src: Channel<V>, dst: Channel<V>, st: Stage<V>, blank: V, ghost ws: set<Waiter<V>>) returns (last: Outcome<V>)
    requires src != dst && src.waiters != dst.waiters
    requires src.Valid() && !src.locked && dst.Valid() && !dst.locked
    requires (forall w :: w in dst.waiters.spine ==> w in ws) && forall w :: w in src.waiters.spine ==> w !in ws
    modifies src, src.waiters, dst, dst.waiters, ws
    ensures Taken(src, last, old(src.queue), |old(src.queue)|, old(src.waiters.spine), old(src.closed))
    ensures last.Waits? ==> fresh(last.w)
    ensures dst.Valid() && !dst.locked && dst.Contents() == PutAll(old(dst.Contents()), st.Map(old(src.queue)))
    ensures forall w :: w in dst.waiters.spine ==> w in ws
  {
    ghost var vs := src.queue;
    last := Next(src, blank, vs, 0);
    if last.Value? {
      last := Loop(src, dst, st, blank, last, vs, ws);
    }
  }

  /** piping1to1 and piping1to01 with the closer of the destination. Everything that the source holds goes
      through the stage's function, in order, throwing and empty results left out, and is put into the
      destination; then the worker waits in the list of an open source, its mutex locked, or closes the
      destination of a closed one. */
  method Stretch<V>(src: Channel<V>, dst: Channel<V>, st: Stage<V>, blank: V) returns (last: Outcome<V>)
    requires src != dst && src.waiters != dst.waiters
    requires src.Valid() && !src.locked && dst.Valid() && !dst.locked
    requires forall w :: w in src.waiters.spine ==> w !in dst.waiters.spine
    modifies src, src.waiters, dst, dst.waiters, set w | w in dst.waiters.spine
    ensures Taken(src, last, old(src.queue), |old(src.queue)|, old(src.waiters.spine), old(src.closed))
    ensures dst.Valid() && !dst.locked
    ensures var d := PutAll(old(dst.Contents()), st.Map(old(src.queue)));
            dst.Contents() == if last == End then d.Close() else d
  {
    ghost var ws := set w | w in dst.waiters.spine;
    last := Drain(src, dst, st, blank, ws);
    if last == End {
      assert src.waiters.spine == [];
      dst.Close();
    }
  }
}
