/** Any number of joins on top of the journey runtime. */
module JoinRuntime {
  // The proceed handler that a join stores is the stored right of its caller; spawning a child is creating a
  // journey; a child's steps are taken by its body.

  import opened Prelude
  import R = Runtime
  import opened Tokens
  import Lifecycle
  import opened Joins
  import JoinTheorems

  type Jid = R.Jid
  type Tid = R.Tid

  /** One call of goWait, goAnyWait or goAnyResult whose deferred handler has begun. */
  datatype JoinCall<T> = JoinCall(caller: Jid, spawner: Tid, join: Join<T>, js: Joins.State<T>, kids: seq<Option<Jid>>)

  datatype State<T> = State(rt: R.State, calls: seq<JoinCall<T>>, fault: bool)

  datatype Event<T> =
    | Rt(e: R.Event)                                // a step that belongs to no join
    | Enter(t: Tid, join: Join<T>)                  // the deferred handler has got proceed
    | Step(c: nat, je: Joins.Event, t: Tid, sched: R.Sched)

  /** Whether the step calls proceed. */
  predicate Proceeds<T>(c: JoinCall<T>, e: Joins.Event) {
    e.Call? || (e.Destroy? && (c.js.destructor.CallingLast? || (c.js.destructor.Entered? && c.join.mode.GoWait?)))
  }

  /** Whether it writes the caller's variable. */
  predicate Writes<T>(c: JoinCall<T>, e: Joins.Event) {
    e.Write? || (e.Destroy? && c.js.destructor.Writing?)
  }

  ghost predicate JoinEnabled<T>(c: JoinCall<T>, e: Joins.Event) {
    c.join.Fits(c.js) && c.join.Enabled(c.js, e) && ((e.DropLocal? || e.Release?) ==> c.js.refs > 0)
  }

  ghost predicate InHandler<T>(rt: R.State, c: JoinCall<T>, t: Tid) {
    t in rt.threads && rt.threads[t].Handling? && rt.threads[t].j == c.caller && R.MaySpawn(rt.threads[t])
  }

  /** The spawning thread runs the deferred handler; a child's handler runs in the child's body. The last
      copy of the shared object may be destroyed by any thread. */
  ghost predicate RightThread<T>(rt: R.State, c: JoinCall<T>, e: Joins.Event, t: Tid) {
    match e
    case Spawn(i) => t == c.spawner && i < |c.kids| && InHandler(rt, c, t)
    case DropLocal => t == c.spawner && InHandler(rt, c, t)
    case Release(_) => true
    case Destroy => true
    case _ => e.i < |c.kids| && c.kids[e.i].Some? && R.RunsBody(rt, t) && rt.threads[t].j == c.kids[e.i].value
  }

  /** Nobody else has the proceed handler that a join still holds. */
  ghost predicate Foreign<T>(s: State<T>, r: R.Event) {
    r.Proceed? && r.caller.Holder? ==>
      forall c :: 0 <= c < |s.calls| && s.calls[c].js.resumed == 0 ==> s.calls[c].caller != r.target
  }

  ghost predicate Enabled<T>(s: State<T>, e: Event<T>) {
    !s.fault && s.rt.fault.None? &&
    match e
    case Rt(r) => R.Enabled(s.rt, r) && R.Disciplined(r) && Foreign(s, r)
    case Enter(t, _) => R.Enabled(s.rt, R.Publish(t))
    case Step(c, je, t, _) => c < |s.calls| && JoinEnabled(s.calls[c], je) && RightThread(s.rt, s.calls[c], je, t)
  }

  function Begin<T>(join: Join<T>): Joins.State<T> {
    Joins.State.State(seq(|join.outcomes|, i => Unspawned), true, 1, 0, Nobody, Idle, Unset, 0, false)
  }

  /** The runtime's share of a join's step. */
  ghost function RtPart<T>(s: State<T>, c: JoinCall<T>, e: Joins.Event, t: Tid, sched: R.Sched): Option<R.Event> {
    if e.Spawn? then Some(R.Go(Some(t), sched))
    else if Proceeds(c, e) then Some(R.Proceed(R.Holder, c.caller))
    else None
  }

  ghost function ApplyStep<T>(s: State<T>, i: nat, e: Joins.Event, t: Tid, sched: R.Sched): State<T>
    requires i < |s.calls| && JoinEnabled(s.calls[i], e)
  {
    var c := s.calls[i];
    var r := RtPart(s, c, e, t, sched);
    var kids := if e.Spawn? && e.i < |c.kids| then c.kids[e.i := Some(s.rt.created + 1)] else c.kids;
    var s1 := s.(calls := s.calls[i := c.(js := c.join.Apply(c.js, e), kids := kids)]);
    if r.None? then s1
    else if !R.Enabled(s.rt, r.value) then s1.(fault := true)
    else s1.(rt := R.Apply(s.rt, r.value))
  }

  ghost function Apply<T>(s: State<T>, e: Event<T>): State<T>
    requires Enabled(s, e)
  {
    match e
    case Rt(r) => s.(rt := R.Apply(s.rt, r))
    case Enter(t, join) =>
      s.(rt := R.Apply(s.rt, R.Publish(t)),
         calls := s.calls + [JoinCall(s.rt.threads[t].j, t, join, Begin(join), seq(|join.outcomes|, i => None))])
    case Step(c, je, t, sched) => ApplyStep(s, c, je, t, sched)
  }

  ghost predicate Legal<T>(s: State<T>, es: seq<Event<T>>)
    decreases |es|
  {
    es == [] || (Enabled(s, es[0]) && Legal(Apply(s, es[0]), es[1..]))
  }

  ghost function Exec<T>(s: State<T>, es: seq<Event<T>>): State<T>
    requires Legal(s, es)
    decreases |es|
  {
    if es == [] then s else Exec(Apply(s, es[0]), es[1..])
  }

  ghost predicate Init<T>(s: State<T>) {
    R.Init(s.rt) && s.calls == [] && !s.fault
  }

  // ---- the invariant ----

  /** A join that has not proceeded holds its caller's right. */
  ghost predicate HoldsRight<T>(rt: R.State, c: JoinCall<T>) {
    c.join.Inv(c.js) && (c.js.resumed == 0 ==> c.caller in rt.held)
  }

  ghost predicate Right<T>(s: State<T>) {
    && !s.fault && Inv(s.rt)
    && (forall c :: 0 <= c < |s.calls| ==> HoldsRight(s.rt, s.calls[c]))
    && (forall c, d :: 0 <= c < d < |s.calls| && s.calls[c].js.resumed == 0 && s.calls[d].js.resumed == 0 ==>
          s.calls[c].caller != s.calls[d].caller)
  }

  /** A join that calls proceed has not done so before. */
  lemma ProceedsOnce<T>(c: JoinCall<T>, e: Joins.Event)
    requires c.join.Inv(c.js) && JoinEnabled(c, e)
    ensures Proceeds(c, e) || Writes(c, e) ==> c.js.resumed == 0
    ensures c.join.Inv(c.join.Apply(c.js, e))
    ensures c.join.Apply(c.js, e).resumed == c.js.resumed + (if Proceeds(c, e) then 1 else 0)
  {
    JoinTheorems.StepKeeps(c.join, c.js, e);
  }

  lemma RtKeeps<T>(s: State<T>, r: R.Event)
    requires Right(s) && Enabled(s, Rt(r))
    ensures Right(Apply(s, Rt(r)))
  {
    StepKeeps(s.rt, r);
    forall c | 0 <= c < |s.calls| && s.calls[c].js.resumed == 0 ensures s.calls[c].caller in R.Apply(s.rt, r).held {
      Lifecycle.HeldStays(s.rt, r, s.calls[c].caller);
    }
  }

  lemma EnterKeeps<T>(s: State<T>, t: Tid, join: Join<T>)
    requires Right(s) && Enabled(s, Enter(t, join))
    ensures Right(Apply(s, Enter(t, join)))
  {
    PublishHolds(s.rt, t);
    JoinTheorems.InitInv(join, Begin(join));
    var s' := Apply(s, Enter(t, join));
    forall c | 0 <= c < |s.calls| ensures HoldsRight(s'.rt, s'.calls[c]) {
      assert HoldsRight(s.rt, s.calls[c]);
    }
  }

  lemma PublishHolds(rt: R.State, t: Tid)
    requires Inv(rt) && R.Enabled(rt, R.Publish(t))
    ensures var rt' := R.Apply(rt, R.Publish(t)); var j := rt.threads[t].j;
            Inv(rt') && j !in rt.held && rt'.held == rt.held + {j}
  {
    StepKeeps(rt, R.Publish(t));
    assert At(rt, rt.threads[t].j, ByThread(t));
    assert !At(rt, rt.threads[t].j, ByHolder);
  }

  /** Join i goes on; its right is used just when it proceeds. */
  lemma CallGoesOn<T>(s: State<T>, s': State<T>, i: nat, proceeds: bool)
    requires Right(s) && i < |s.calls| && !s'.fault && Inv(s'.rt)
    requires |s'.calls| == |s.calls| && s'.calls == s.calls[i := s'.calls[i]] && s'.calls[i].caller == s.calls[i].caller
    requires s'.calls[i].join.Inv(s'.calls[i].js)
    requires s'.calls[i].js.resumed == s.calls[i].js.resumed + (if proceeds then 1 else 0)
    requires proceeds ==> s.calls[i].js.resumed == 0
    requires s'.rt.held == if proceeds then s.rt.held - {s.calls[i].caller} else s.rt.held
    ensures Right(s')
  {
    forall c | 0 <= c < |s'.calls| ensures HoldsRight(s'.rt, s'.calls[c]) {
      assert HoldsRight(s.rt, s.calls[c]) && HoldsRight(s.rt, s.calls[i]);
    }
  }

  /** What a join's step does to the runtime. */
  lemma RtPartKeeps<T>(s: State<T>, i: nat, e: Joins.Event, t: Tid, sched: R.Sched)
    requires Right(s) && Enabled(s, Step(i, e, t, sched))
    ensures
      var c := s.calls[i]; var r := RtPart(s, c, e, t, sched); var s' := ApplyStep(s, i, e, t, sched);
      && (r.Some? ==> R.Enabled(s.rt, r.value) && R.Disciplined(r.value))
      && Inv(s'.rt) && !s'.fault
      && s'.rt.held == (if Proceeds(c, e) then s.rt.held - {c.caller} else s.rt.held)
  {
    var c := s.calls[i];
    assert HoldsRight(s.rt, c);
    ProceedsOnce(c, e);
    if e.Spawn? {
      SpawnHolds(s.rt, t, sched);
    } else if Proceeds(c, e) {
      ProceedHolds(s.rt, c.caller);
    }
  }

  lemma SpawnHolds(rt: R.State, t: Tid, sched: R.Sched)
    requires Inv(rt) && t in rt.threads && R.MaySpawn(rt.threads[t])
    ensures R.Enabled(rt, R.Go(Some(t), sched))
    ensures var rt' := R.Apply(rt, R.Go(Some(t), sched)); Inv(rt') && rt'.held == rt.held
  {
    StepKeeps(rt, R.Go(Some(t), sched));
  }

  lemma ProceedHolds(rt: R.State, j: Jid)
    requires Inv(rt) && j in rt.held
    ensures R.Enabled(rt, R.Proceed(R.Holder, j))
    ensures var rt' := R.Apply(rt, R.Proceed(R.Holder, j)); Inv(rt') && rt'.held == rt.held - {j}
  {
    assert At(rt, j, ByHolder);
    StepKeeps(rt, R.Proceed(R.Holder, j));
  }

  /** A spawn creates the child's journey, on the scheduler that was given. */
  lemma SpawnCreates<T>(s: State<T>, i: nat, e: Joins.Event, t: Tid, sched: R.Sched)
    requires Right(s) && Enabled(s, Step(i, e, t, sched)) && e.Spawn?
    ensures
      var s' := ApplyStep(s, i, e, t, sched); var j := s.rt.created + 1;
      && e.i < |s.calls[i].kids| && s'.calls[i].kids == s.calls[i].kids[e.i := Some(j)]
      && s'.rt.tasks == s.rt.tasks[s.rt.next := R.Task(j, sched, true)]
      && j !in s.rt.live && j in s'.rt.live
  {
    RtPartKeeps(s, i, e, t, sched);
  }

  /** The step after which the caller counts as resumed posts the rest of the caller's journey to the scheduler
      it is on; steps that neither spawn nor proceed leave the runtime alone. */
  lemma ProceedPosts<T>(s: State<T>, i: nat, e: Joins.Event, t: Tid, sched: R.Sched)
    requires Right(s) && Enabled(s, Step(i, e, t, sched)) && !e.Spawn?
    ensures
      var s' := ApplyStep(s, i, e, t, sched); var c := s.calls[i];
      && s'.calls[i].kids == c.kids
      && (s'.calls[i].js.resumed == c.js.resumed ==> s'.rt == s.rt)
      && (s'.calls[i].js.resumed != c.js.resumed ==>
            c.caller in s.rt.live && s'.rt.tasks == s.rt.tasks[s.rt.next := R.Task(c.caller, s.rt.live[c.caller].sched, false)])
  {
    var c := s.calls[i];
    assert HoldsRight(s.rt, c);
    RtPartKeeps(s, i, e, t, sched);
    ProceedsOnce(c, e);
    if Proceeds(c, e) { PostsCaller(s.rt, c.caller); }
  }

  lemma PostsCaller(rt: R.State, j: Jid)
    requires Inv(rt) && j in rt.held && R.Enabled(rt, R.Proceed(R.Holder, j))
    ensures j in rt.live && R.Apply(rt, R.Proceed(R.Holder, j)).tasks == rt.tasks[rt.next := R.Task(j, rt.live[j].sched, false)]
  {
    assert At(rt, j, ByHolder);
  }

  /** The journeys of a join are free to take its steps: the thread in the deferred handler spawns and drops its
      copy, a child's body ends its handler, increments, writes and proceeds, and anybody's copy may be the one
      that goes. */
  lemma ParticipantsCanStep<T>(s: State<T>, i: nat, e: Joins.Event, t: Tid, sched: R.Sched)
    requires Right(s) && i < |s.calls| && JoinEnabled(s.calls[i], e) && |s.calls[i].kids| == |s.calls[i].js.children|
    requires
      var c := s.calls[i];
      if e.Spawn? || e.DropLocal? then
        t == c.spawner && t in s.rt.threads && s.rt.threads[t].Handling? && s.rt.threads[t].j == c.caller && s.rt.threads[t].code.Program?
      else if e.Release? || e.Destroy? then true
      else e.i < |c.kids| && R.RunsBody(s.rt, t) && c.kids[e.i] == Some(s.rt.threads[t].j)
    ensures Enabled(s, Step(i, e, t, sched))
  {
  }

  /** Any deferred handler that has the right may begin any join, and the joins stand in nobody else's way: all
      that others may not do is to use a right that a join still holds. */
  lemma OthersAreFree<T>(s: State<T>, r: R.Event)
    requires Right(s) && R.Enabled(s.rt, r) && R.Disciplined(r)
    ensures r.Publish? ==> forall join: Join<T> :: Enabled(s, Enter(r.t, join))
    ensures Enabled(s, Rt(r)) ||
      (r == R.Proceed(R.Holder, r.target) && exists c :: 0 <= c < |s.calls| && s.calls[c].js.resumed == 0 && s.calls[c].caller == r.target)
  {
  }

  lemma StepKeepsRight<T>(s: State<T>, i: nat, e: Joins.Event, t: Tid, sched: R.Sched)
    requires Right(s) && Enabled(s, Step(i, e, t, sched))
    ensures Right(ApplyStep(s, i, e, t, sched))
  {
    RtPartKeeps(s, i, e, t, sched);
    ProceedsOnce(s.calls[i], e);
    CallGoesOn(s, ApplyStep(s, i, e, t, sched), i, Proceeds(s.calls[i], e));
  }

  lemma RightStep<T>(s: State<T>, e: Event<T>)
    requires Right(s) && Enabled(s, e)
    ensures Right(Apply(s, e))
  {
    match e
    case Rt(r) => RtKeeps(s, r);
    case Enter(t, join) => EnterKeeps(s, t, join);
    case Step(c, je, t, sched) => StepKeepsRight(s, c, je, t, sched);
  }

  lemma {:induction false} AlwaysRight<T>(s: State<T>, es: seq<Event<T>>)
    requires Right(s) && Legal(s, es)
    ensures Right(Exec(s, es))
    decreases |es|
  {
    if es != [] {
      RightStep(s, es[0]);
      AlwaysRight(Apply(s, es[0]), es[1..]);
    }
  }

  // ---- every run ----

  /** In every run of any number of joins of all kinds, amid anything else that journeys do: whenever a join
      calls proceed the right of its caller is stored, and it is stored for this join alone; whenever it
      writes the caller's variable, or calls proceed, the caller lives and is suspended; and no check of
      the runtime fails. */
  lemma JoinsKeepTheRight<T>(s0: State<T>, es: seq<Event<T>>, c: nat, e: Joins.Event)
    requires Init(s0) && Legal(s0, es)
    ensures
      var s := Exec(s0, es);
      && !s.fault && s.rt.fault.None?
      && (c < |s.calls| && JoinEnabled(s.calls[c], e) && (Proceeds(s.calls[c], e) || Writes(s.calls[c], e)) ==>
            var j := s.calls[c].caller;
            && R.Enabled(s.rt, R.Proceed(R.Holder, j))
            && j in s.rt.live && s.rt.live[j].started && !s.rt.live[j].running
            && forall d :: 0 <= d < |s.calls| && d != c && s.calls[d].js.resumed == 0 ==> s.calls[d].caller != j)
  {
    Lifecycle.InitInv(s0.rt);
    AlwaysRight(s0, es);
    var s := Exec(s0, es);
    if c < |s.calls| && JoinEnabled(s.calls[c], e) && (Proceeds(s.calls[c], e) || Writes(s.calls[c], e)) {
      assert HoldsRight(s.rt, s.calls[c]);
      ProceedsOnce(s.calls[c], e);
      assert At(s.rt, s.calls[c].caller, ByHolder);
    }
  }

  /** The runtime's part of such a run is a run of the runtime in which nobody uses a right twice: what the
      lifecycle theorems assume holds for the joins. */
  lemma JoinsAreDisciplined<T>(s0: State<T>, es: seq<Event<T>>) returns (rs: seq<R.Event>)
    requires Init(s0) && Legal(s0, es)
    ensures R.Init(s0.rt) && R.Legal(s0.rt, rs) && R.DisciplinedRun(rs) && R.Exec(s0.rt, rs) == Exec(s0, es).rt
  {
    Lifecycle.InitInv(s0.rt);
    rs := RuntimeRun(s0, es);
  }

  lemma {:induction false} RuntimeRun<T>(s: State<T>, es: seq<Event<T>>) returns (rs: seq<R.Event>)
    requires Right(s) && Legal(s, es)
    ensures R.Legal(s.rt, rs) && R.DisciplinedRun(rs) && R.Exec(s.rt, rs) == Exec(s, es).rt
    decreases |es|
  {
    if es == [] {
      rs := [];
    } else {
      RightStep(s, es[0]);
      rs := RuntimeRun(Apply(s, es[0]), es[1..]);
      var r := RtEvent(s, es[0]);
      if r.Some? {
        RtEventIs(s, es[0]);
        rs := Lifecycle.Prepend(s.rt, r.value, rs);
      } else {
        assert Apply(s, es[0]).rt == s.rt;
      }
    }
  }

  ghost function RtEvent<T>(s: State<T>, e: Event<T>): Option<R.Event>
    requires Enabled(s, e)
  {
    match e
    case Rt(r) => Some(r)
    case Enter(t, _) => Some(R.Publish(t))
    case Step(c, je, t, sched) => RtPart(s, s.calls[c], je, t, sched)
  }

  lemma RtEventIs<T>(s: State<T>, e: Event<T>)
    requires Right(s) && Enabled(s, e) && RtEvent(s, e).Some?
    ensures var r := RtEvent(s, e).value;
            R.Enabled(s.rt, r) && R.Disciplined(r) && Apply(s, e).rt == R.Apply(s.rt, r)
  {
    if e.Step? {
      RtPartKeeps(s, e.c, e.je, e.t, e.sched);
    }
  }
}
