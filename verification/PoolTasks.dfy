/** What happens to the tasks of a pool: none is lost, and none runs twice. */
module PoolTasks {
  import opened Prelude
  import opened ThreadPool

  /** The tasks that the handlers of the run were given, in the order in which they began. */
  ghost function Begun(s: State, es: seq<Event>): seq<nat>
    requires Legal(s, es)
    decreases |es|
  {
    if es == [] then []
    else (if es[0].Start? then [s.queue[es[0].i]] else []) + Begun(Apply(s, es[0]), es[1..])
  }

  /** How many handlers the run has posted, and how many have returned. */
  function Posts(es: seq<Event>): nat {
    if es == [] then 0 else (if es[0].Post? then 1 else 0) + Posts(es[1..])
  }

  function Returned(es: seq<Event>): nat {
    if es == [] then 0 else (if es[0].Complete? then 1 else 0) + Returned(es[1..])
  }

  function BusyOf(w: Worker): nat {
    if w.Busy? then 1 else 0
  }


  /** How often a task is in the queue. */
  function Queued(s: State, id: nat): nat {
    multiset(s.queue)[id]
  }

  function BeginsOf(s: State, e: Event, id: nat): nat
    requires e.Start? ==> e.i < |s.queue|
  {
    if e.Start? && s.queue[e.i] == id then 1 else 0
  }

  /** One step: what was queued or is new is queued or begins. */
  lemma TaskStep(s: State, e: Event, id: nat)
    requires Enabled(s, e)
    ensures Apply(s, e).posted == s.posted + (if e.Post? then 1 else 0)
    ensures Queued(Apply(s, e), id) + BeginsOf(s, e, id) == Queued(s, id) + (if e.Post? && s.posted == id then 1 else 0)
  {
    if e.Start? {
      assert s.queue == s.queue[..e.i] + [s.queue[e.i]] + s.queue[e.i + 1..];
    }
  }

  lemma BusyStep(s: State, e: Event)
    requires Enabled(s, e)
    ensures Weight(Apply(s, e).workers, BusyOf) + (if e.Complete? then 1 else 0)
         == Weight(s.workers, BusyOf) + (if e.Start? then 1 else 0)
    ensures e.Start? ==> Apply(s, e).workers[e.w] == Busy(s.queue[e.i])
  {
    if e.Start? || e.Complete? || e.Leave? || e.Lock? || e.NotifyAll? {
      WeightUpdate(s.workers, e.w, Apply(s, e).workers[e.w], BusyOf);
    }
  }

  lemma BegunParts(s: State, es: seq<Event>, id: nat)
    requires Legal(s, es) && es != []
    ensures multiset(Begun(s, es))[id] == BeginsOf(s, es[0], id) + multiset(Begun(Apply(s, es[0]), es[1..]))[id]
    ensures |Begun(s, es)| == (if es[0].Start? then 1 else 0) + |Begun(Apply(s, es[0]), es[1..])|
  {
    var later := Begun(Apply(s, es[0]), es[1..]);
    if es[0].Start? {
      assert multiset([s.queue[es[0].i]] + later) == multiset([s.queue[es[0].i]]) + multiset(later);
    } else {
      assert [] + later == later;
    }
  }

  lemma {:induction false} TaskRun(s: State, es: seq<Event>, id: nat)
    requires Legal(s, es)
    ensures Exec(s, es).posted == s.posted + Posts(es)
    ensures Queued(Exec(s, es), id) + multiset(Begun(s, es))[id]
         == Queued(s, id) + (if s.posted <= id < s.posted + Posts(es) then 1 else 0)
    decreases |es|
  {
    if es != [] {
      var s1 := Apply(s, es[0]);
      TaskStep(s, es[0], id);
      BegunParts(s, es, id);
      TaskRun(s1, es[1..], id);
    }
  }

  lemma {:induction false} BusyRun(s: State, es: seq<Event>)
    requires Legal(s, es)
    ensures Weight(Exec(s, es).workers, BusyOf) + Returned(es) == Weight(s.workers, BusyOf) + |Begun(s, es)|
    decreases |es|
  {
    if es != [] {
      BusyStep(s, es[0]);
      BegunParts(s, es, 0);
      BusyRun(Apply(s, es[0]), es[1..]);
    }
  }

  /** In every run of every pool: each task that was posted is in the queue or was given to a handler, once; a
      task that was never posted is in neither place; and a handler that was given a task either is still at
      it or has returned. */
  lemma EveryTaskOnce(s0: State, es: seq<Event>)
    requires Init(s0) && Legal(s0, es)
    ensures
      var s := Exec(s0, es);
      && s.posted == Posts(es)
      && (forall id: nat :: multiset(s.queue)[id] + multiset(Begun(s0, es))[id] == if id < Posts(es) then 1 else 0)
      && |Begun(s0, es)| == Weight(s.workers, BusyOf) + Returned(es)
  {
    BusyRun(s0, es);
    WeightZero(s0.workers, BusyOf);
    TaskRun(s0, es, 0);
    forall id: nat ensures multiset(Exec(s0, es).queue)[id] + multiset(Begun(s0, es))[id] == if id < Posts(es) then 1 else 0 {
      TaskRun(s0, es, id);
    }
  }
}
