/** Scheduler affinity, and the exclusion that an Alone gives without blocking any thread. */
module Affinity {
  import opened Prelude
  import opened Runtime
  import opened Tokens
  import opened Lifecycle

  /** Bodies run on the journey's scheduler, and continuations are queued there. */
  ghost predicate Affine(s: State) {
    && (forall t :: t in s.threads && (s.threads[t].InCoro? || s.threads[t].Entered?) ==>
          s.threads[t].j in s.live && s.threads[t].on == s.live[s.threads[t].j].sched)
    && (forall id :: id in s.tasks ==> s.tasks[id].j in s.live && s.tasks[id].sched == s.live[s.tasks[id].j].sched)
  }

  /** No event is thrown between the two halves of a teleport. */
  ghost predicate Calm(s: State, e: Event) {
    e.Teleport? && RunsBody(s, e.t) && s.threads[e.t].j in s.live && s.threads[e.t].j in s.goer ==>
      var j := s.threads[e.t].j;
      e.to == s.live[j].sched || !Deliverable(s.live[j], s.goer[j], e.unwinding)
  }

  ghost predicate CalmRun(s: State, es: seq<Event>)
    requires Legal(s, es)
    decreases |es|
  {
    es != [] ==> Calm(s, es[0]) && CalmRun(Apply(s, es[0]), es[1..])
  }

  /** A step keeps affinity exactly if no event interrupts a teleport. */
  lemma AffinityStep(s: State, e: Event)
    requires Inv(s) && Affine(s) && Enabled(s, e) && Disciplined(e)
    ensures Affine(Apply(s, e)) <==> Calm(s, e)
  {
    match e
    case Go(_, sched) => GoAffinity(s, sched);
    case Take(_, _) => HandlerAffinity(s, e);
    case Raise(_, _) => HandlerAffinity(s, e);
    case Publish(_) => HandlerAffinity(s, e);
    case Proceed(_, _) => ProceedAffinity(s, e);
    case Leave(_) => HandlerAffinity(s, e);
    case Jump(t) => OnlyOwner(s, t); JumpAffinity(s, t);
    case Return(t) => OnlyOwner(s, t); BackAffinity(s, t);
    case Exit(t) => OnlyOwner(s, t); BackAffinity(s, t);
    case _ => OnlyOwner(s, e.t); BodyAffinity(s, e);
  }

  /** A run in which one does: the first journey is cancelled and then teleports. Its body goes on on the
      scheduler it meant to leave. */
  lemma EventBreaksAffinity(s0: State, t: Tid) returns (es: seq<Event>)
    requires Init(s0) && t in s0.threads
    ensures Legal(s0, es) && DisciplinedRun(es) && !Affine(Exec(s0, es))
  {
    BeginRun(s0, t);
    var begin := [Go(None, Pool(t.pool)), Take(t, s0.next), Jump(t)];
    var e, f := Raise(1, Cancelled), Teleport(t, Pool(t.pool + 1), false);
    var s1 := Exec(s0, begin);
    Two(s1, e, f);
    Append(s0, begin, [e, f]);
    es := begin + [e, f];
    var s2 := Apply(Apply(s1, e), f);
    assert s2.threads[t] == InCoro(1, Pool(t.pool)) && s2.live[1].sched == Pool(t.pool + 1);
  }

  /** No other thread and no task belongs to the journey of thread t. */
  ghost predicate Sole(s: State, t: Tid) {
    t in s.threads && !s.threads[t].Idle? &&
    var j := s.threads[t].j;
    && j in s.live && j in s.goer
    && (forall id :: id in s.tasks ==> s.tasks[id].j != j)
    && (forall u :: u in s.threads && u != t && !OwnsNobody(s.threads[u]) ==> s.threads[u].j != j)
  }

  lemma OnlyOwner(s: State, t: Tid)
    requires Inv(s) && t in s.threads && !OwnsNobody(s.threads[t])
    ensures Sole(s, t)
  {
    var j := s.threads[t].j;
    assert At(s, j, ByThread(t));
    forall id | id in s.tasks ensures s.tasks[id].j != j {
      assert s.tasks[id].j == j ==> At(s, j, ByTask(id));
    }
    forall u | u in s.threads && u != t && !OwnsNobody(s.threads[u]) ensures s.threads[u].j != j {
      assert s.threads[u].j == j ==> At(s, j, ByThread(u));
    }
  }

  lemma BodyAffinity(s: State, e: Event)
    requires BodyEvent(e) && Sole(s, e.t) && Affine(s) && RunsBody(s, e.t)
    ensures Affine(ApplyBody(s, e.t, e)) <==> Calm(s, e)
  {
    var s' := ApplyBody(s, e.t, e);
    if !Calm(s, e) {
      assert s'.threads[e.t].InCoro? && s'.threads[e.t].on != s'.live[s'.threads[e.t].j].sched;
    }
  }

  lemma JumpAffinity(s: State, t: Tid)
    requires Sole(s, t) && Affine(s) && s.threads[t].Entered?
    ensures Affine(ApplyJump(s, t))
  {
  }

  lemma BackAffinity(s: State, t: Tid)
    requires Sole(s, t) && Affine(s)
    ensures s.threads[t].SwitchedBack? ==> Affine(ApplyReturn(s, t))
    ensures s.threads[t].Exiting? ==> Affine(ApplyExit(s, t))
  {
  }

  lemma GoAffinity(s: State, sched: Sched)
    requires Numbered(s) && Affine(s)
    ensures Affine(ApplyGo(s, sched))
  {
  }

  lemma ProceedAffinity(s: State, e: Event)
    requires Numbered(s) && Affine(s) && Enabled(s, e) && e.Proceed?
    ensures Affine(Apply(s, e))
  {
  }

  lemma HandlerAffinity(s: State, e: Event)
    requires Affine(s) && Enabled(s, e) && (e.Take? || e.Raise? || e.Publish? || e.Leave?)
    ensures Affine(Apply(s, e))
  {
  }

  lemma {:induction false} AffineRun(s: State, es: seq<Event>)
    requires Inv(s) && Affine(s) && Legal(s, es) && DisciplinedRun(es) && CalmRun(s, es)
    ensures Affine(Exec(s, es))
    decreases |es|
  {
    if es != [] {
      assert Disciplined(es[0]);
      AffinityStep(s, es[0]);
      StepKeeps(s, es[0]);
      AffineRun(Apply(s, es[0]), es[1..]);
    }
  }

  // ---- strands ----

  /** A busy thread works for its own pool, and a strand has one thread at most. */
  ghost predicate Stranded(s: State) {
    && (forall t :: t in s.threads && !s.threads[t].Idle? ==> s.threads[t].on.pool == t.pool)
    && (forall t, u :: t in s.threads && u in s.threads && t != u && !s.threads[t].Idle? && !s.threads[u].Idle? ==>
          s.threads[t].on.Pool? || s.threads[t].on != s.threads[u].on)
  }

  lemma StrandStep(s: State, e: Event)
    requires Stranded(s) && Enabled(s, e)
    ensures Stranded(Apply(s, e))
  {
    if e.Take? {
    } else {
      OnStays(s, e);
    }
  }

  /** A step changes no thread but its own, and outside Take a thread keeps its scheduler. */
  lemma OnStays(s: State, e: Event)
    requires Enabled(s, e) && !e.Take?
    ensures Apply(s, e).threads.Keys == s.threads.Keys
    ensures forall t :: t in s.threads && ThreadOf(e) != Some(t) ==> Apply(s, e).threads[t] == s.threads[t]
    ensures forall t :: t in s.threads && !Apply(s, e).threads[t].Idle? ==>
              !s.threads[t].Idle? && Apply(s, e).threads[t].on == s.threads[t].on
  {
    if BodyEvent(e) {
      BodyStays(s, e);
    } else if e.Jump? || e.Exit? || e.Return? {
      CoroStays(s, e.t);
    }
  }

  lemma BodyStays(s: State, e: Event)
    requires BodyEvent(e) && RunsBody(s, e.t)
    ensures var s' := ApplyBody(s, e.t, e); e.t in s'.threads && s'.threads == s.threads[e.t := s'.threads[e.t]]
    ensures var s' := ApplyBody(s, e.t, e); !s'.threads[e.t].Idle? && s'.threads[e.t].on == s.threads[e.t].on
  {
  }

  lemma CoroStays(s: State, t: Tid)
    requires t in s.threads
    ensures s.threads[t].Entered? ==> OneThread(s, ApplyJump(s, t), t)
    ensures s.threads[t].SwitchedBack? ==> OneThread(s, ApplyReturn(s, t), t)
    ensures s.threads[t].Exiting? ==> OneThread(s, ApplyExit(s, t), t)
  {
  }

  ghost predicate OneThread(s: State, s': State, t: Tid)
    requires t in s.threads && !s.threads[t].Idle?
  {
    && t in s'.threads && s'.threads == s.threads[t := s'.threads[t]]
    && (s'.threads[t].Idle? || s'.threads[t].on == s.threads[t].on)
  }

  lemma {:induction false} StrandedRun(s: State, es: seq<Event>)
    requires Stranded(s) && Legal(s, es)
    ensures Stranded(Exec(s, es))
    decreases |es|
  {
    if es != [] {
      StrandStep(s, es[0]);
      StrandedRun(Apply(s, es[0]), es[1..]);
    }
  }

  /** User code runs on the journey's current scheduler, and two journeys whose current scheduler
      is the same Alone never run their bodies at once. */
  lemma BodiesExcludeEachOther(s0: State, es: seq<Event>)
    requires Init(s0) && Legal(s0, es) && DisciplinedRun(es) && CalmRun(s0, es)
    ensures
      var s := Exec(s0, es);
      && (forall t :: RunsBody(s, t) ==> s.threads[t].j in s.live && s.threads[t].on == s.live[s.threads[t].j].sched)
      && (forall t, u :: RunsBody(s, t) && RunsBody(s, u) && t != u ==>
            s.threads[t].j in s.live && s.threads[u].j in s.live
            && (s.live[s.threads[t].j].sched.Pool? || s.live[s.threads[t].j].sched != s.live[s.threads[u].j].sched))
  {
    InitInv(s0);
    AffineRun(s0, es);
    StrandedRun(s0, es);
  }

  // ---- a yield gives the strand back ----

  /** Steps that separate the thread from the moment it is free again. */
  function ToFree(th: Thread): nat {
    match th
    case Idle => 0
    case Handling(_, _, _, right) => if right then 2 else 1
    case Exiting(_, _) => 3
    case SwitchedBack(_, _) => 4
    case _ => 5
  }

  /** After a yield, each further step of the thread brings it nearer to being free, unless it
      spawns; the next one is always possible; and no step of anybody else interferes. */
  lemma YieldReleases(s: State, t: Tid, e: Event)
    requires Inv(s) && t in s.threads && 0 < ToFree(s.threads[t]) < 5
    requires Enabled(s, e) && Disciplined(e) && !e.Go?
    ensures t in Apply(s, e).threads
    ensures ThreadOf(e) == Some(t) ==> ToFree(Apply(s, e).threads[t]) < ToFree(s.threads[t])
    ensures ThreadOf(e) != Some(t) ==> Apply(s, e).threads[t] == s.threads[t]
    ensures Enabled(s, NextOf(s, t)) && Disciplined(NextOf(s, t)) && ThreadOf(NextOf(s, t)) == Some(t) && !NextOf(s, t).Go?
  {
    BusyCanStep(s, t);
    if ThreadOf(e) == Some(t) {
      OwnStepFrees(s, e);
    } else if !e.Take? {
      OnStays(s, e);
    }
  }

  lemma BusyCanStep(s: State, t: Tid)
    requires s.fault.None? && t in s.threads && !s.threads[t].Idle?
    ensures Enabled(s, NextOf(s, t)) && Disciplined(NextOf(s, t)) && ThreadOf(NextOf(s, t)) == Some(t) && !NextOf(s, t).Go?
  {
  }

  /** A step that a busy thread can take. */
  ghost function NextOf(s: State, t: Tid): Event
    requires t in s.threads && !s.threads[t].Idle?
  {
    match s.threads[t]
    case Entered(_, _, _) => Jump(t)
    case InCoro(_, _) => Finish(t)
    case SwitchedBack(_, _) => Return(t)
    case Exiting(_, _) => Exit(t)
    case Handling(j, _, _, right) => if right then Proceed(Handler(t), j) else Leave(t)
  }

  lemma OwnStepFrees(s: State, e: Event)
    requires Inv(s) && Enabled(s, e) && Disciplined(e) && !e.Go? && ThreadOf(e).Some?
    requires 0 < ToFree(s.threads[ThreadOf(e).value]) < 5
    ensures ToFree(Apply(s, e).threads[ThreadOf(e).value]) < ToFree(s.threads[ThreadOf(e).value])
  {
    var t := ThreadOf(e).value;
    if !OwnsNobody(s.threads[t]) { assert At(s, s.threads[t].j, ByThread(t)); }
  }

  /** While a thread is on its way to being free after a yield, its own steps alone free it. They leave
      the other threads and all queued tasks alone. */
  lemma {:induction false} FreesItself(s: State, u: Tid) returns (es: seq<Event>)
    requires Inv(s) && u in s.threads && ToFree(s.threads[u]) < 5
    ensures Legal(s, es) && DisciplinedRun(es) && |es| <= ToFree(s.threads[u])
    ensures forall i :: 0 <= i < |es| ==> ThreadOf(es[i]) == Some(u) && !es[i].Go?
    ensures OwnFrame(s, Exec(s, es), u) && Exec(s, es).threads[u].Idle?
    decreases ToFree(s.threads[u])
  {
    if s.threads[u].Idle? {
      es := [];
    } else {
      var e := NextOf(s, u);
      OwnStep(s, u);
      var s1 := Apply(s, e);
      es := FreesItself(s1, u);
      FramesCompose(s, s1, Exec(s1, es), u);
      assert ([e] + es)[1..] == es;
      es := [e] + es;
    }
  }

  lemma OwnStep(s: State, u: Tid)
    requires Inv(s) && u in s.threads && 0 < ToFree(s.threads[u]) < 5
    ensures Enabled(s, NextOf(s, u)) && Disciplined(NextOf(s, u)) && ThreadOf(NextOf(s, u)) == Some(u) && !NextOf(s, u).Go?
    ensures var s1 := Apply(s, NextOf(s, u)); Inv(s1) && u in s1.threads && ToFree(s1.threads[u]) < ToFree(s.threads[u])
    ensures var s1 := Apply(s, NextOf(s, u)); OwnFrame(s, s1, u)
  {
    BusyCanStep(s, u);
    OwnStepFrees(s, NextOf(s, u));
    StepKeeps(s, NextOf(s, u));
    OwnStepFrame(s, u);
  }

  /** Only thread u changes, and tasks are only added. */
  ghost predicate OwnFrame(s: State, s1: State, u: Tid) {
    && u in s1.threads && s1.threads == s.threads[u := s1.threads[u]] && s.next <= s1.next
    && (forall k :: k in s.tasks ==> k in s1.tasks && s1.tasks[k] == s.tasks[k])
    && (forall k :: k in s1.tasks && k !in s.tasks ==> s.next <= k)
  }

  lemma FramesCompose(s: State, s1: State, s2: State, u: Tid)
    requires OwnFrame(s, s1, u) && OwnFrame(s1, s2, u)
    ensures OwnFrame(s, s2, u)
  {
  }

  lemma OwnStepFrame(s: State, u: Tid)
    requires Inv(s) && u in s.threads && 0 < ToFree(s.threads[u]) < 5
    ensures Enabled(s, NextOf(s, u)) && OwnFrame(s, Apply(s, NextOf(s, u)), u)
  {
    if !OwnsNobody(s.threads[u]) { assert At(s, s.threads[u].j, ByThread(u)); }
  }

  /** The thread that occupies the strand. */
  ghost predicate Occupies(s: State, u: Tid, a: Sched) {
    u in s.threads && !s.threads[u].Idle? && s.threads[u].on == a
  }

  /** At most four steps of thread u alone, none of them a spawn, and thread t can take task k. */
  ghost predicate LetsTake(s: State, u: Tid, t: Tid, k: nat) {
    exists es: seq<Event> :: Legal(s, es) && DisciplinedRun(es) && |es| <= 4
      && (forall i :: 0 <= i < |es| ==> ThreadOf(es[i]) == Some(u) && !es[i].Go?)
      && Enabled(Exec(s, es), Take(t, k))
  }

  lemma OccupantLetsTake(s: State, u: Tid, t: Tid, k: nat)
    requires Inv(s) && Stranded(s) && k in s.tasks && s.tasks[k].sched.Alone?
    requires forall i :: i in s.tasks && s.tasks[i].sched == s.tasks[k].sched ==> k <= i
    requires t in s.threads && s.threads[t].Idle? && t.pool == s.tasks[k].sched.pool
    requires Occupies(s, u, s.tasks[k].sched) && ToFree(s.threads[u]) < 5
    ensures LetsTake(s, u, t, k)
  {
    var es := FreesItself(s, u);
    AlwaysInv(s, es);
    FreeStrand(s, Exec(s, es), u, k);
  }

  lemma FreeStrand(s: State, s1: State, u: Tid, k: nat)
    requires Stranded(s) && Numbered(s) && OwnFrame(s, s1, u) && s1.threads[u].Idle?
    requires k in s.tasks && s.tasks[k].sched.Alone? && Occupies(s, u, s.tasks[k].sched)
    requires forall i :: i in s.tasks && s.tasks[i].sched == s.tasks[k].sched ==> k <= i
    ensures k in s1.tasks && s1.tasks[k] == s.tasks[k] && StrandReady(s1, k)
  {
    forall i | i in s1.tasks && s1.tasks[i].sched == s.tasks[k].sched ensures k <= i {
      assert i in s.tasks || s.next <= i;
    }
  }

  /** The oldest task of the strand on which a task waits. */
  ghost predicate StrandMoves(s: State, a: Sched, t: Tid, k: nat) {
    && k in s.tasks && s.tasks[k].sched == a
    && ((forall u :: !Occupies(s, u, a)) ==> Enabled(s, Take(t, k)))
    && (forall u :: Occupies(s, u, a) ==> Enabled(s, NextOf(s, u)) && ThreadOf(NextOf(s, u)) == Some(u))
    && (forall u :: Occupies(s, u, a) && ToFree(s.threads[u]) < 5 ==> LetsTake(s, u, t, k))
  }

  lemma OldestMoves(s: State, id: nat, t: Tid) returns (k: nat)
    requires Inv(s) && Stranded(s) && id in s.tasks && s.tasks[id].sched.Alone?
    requires t in s.threads && s.threads[t].Idle? && t.pool == s.tasks[id].sched.pool
    ensures StrandMoves(s, s.tasks[id].sched, t, k)
  {
    var a := s.tasks[id].sched;
    k := Oldest(s, id);
    if forall u :: !Occupies(s, u, a) {
      assert forall v :: v in s.threads && !s.threads[v].Idle? ==> !Occupies(s, v, a);
      assert StrandReady(s, k);
    }
    forall u | Occupies(s, u, a) ensures Enabled(s, NextOf(s, u)) && ThreadOf(NextOf(s, u)) == Some(u) {
      BusyCanStep(s, u);
    }
    forall u | Occupies(s, u, a) && ToFree(s.threads[u]) < 5 ensures LetsTake(s, u, t, k) {
      OccupantLetsTake(s, u, t, k);
    }
  }

  /** No deadlock among Alones, in any run. A task queued for a pool can be taken by any free thread of the
      pool. A task queued for an Alone: if nobody occupies the strand, its oldest task can be taken; the
      occupant can always step; and once it has yielded, at most four steps of its own lead to a state in
      which the oldest task can be taken. */
  lemma QueuedTaskNeverStuck(s0: State, es: seq<Event>, id: nat, t: Tid)
    requires Init(s0) && Legal(s0, es) && DisciplinedRun(es)
    requires var s := Exec(s0, es);
             id in s.tasks && t in s.threads && s.threads[t].Idle? && t.pool == s.tasks[id].sched.pool
    ensures
      var s := Exec(s0, es); var a := s.tasks[id].sched;
      if a.Pool? then Enabled(s, Take(t, id)) else exists k :: StrandMoves(s, a, t, k)
  {
    InitInv(s0);
    AlwaysInv(s0, es);
    StrandedRun(s0, es);
    var s := Exec(s0, es);
    if s.tasks[id].sched.Alone? {
      var k := OldestMoves(s, id, t);
    }
  }

  /** The task that was posted first among those of the same scheduler. */
  lemma Oldest(s: State, id: nat) returns (k: nat)
    requires id in s.tasks
    ensures k in s.tasks && s.tasks[k].sched == s.tasks[id].sched
    ensures forall i :: i in s.tasks && s.tasks[i].sched == s.tasks[id].sched ==> k <= i
    decreases id
  {
    if i :| i in s.tasks && s.tasks[i].sched == s.tasks[id].sched && i < id {
      k := Oldest(s, i);
    } else {
      k := id;
    }
  }

  // ---- an Alone runs its handlers in posting order ----

  /** The tasks taken from scheduler a during the run, in order; tasks are numbered as they are posted. */
  ghost function TakenFrom(s: State, es: seq<Event>, a: Sched): seq<nat>
    requires Legal(s, es)
    decreases |es|
  {
    if es == [] then []
    else (if es[0].Take? && s.tasks[es[0].task].sched == a then [es[0].task] else []) + TakenFrom(Apply(s, es[0]), es[1..], a)
  }

  /** No task of a is older than b, and none will be. */
  ghost predicate NoneBefore(s: State, a: Sched, b: nat) {
    && (forall id :: id in s.tasks ==> id < s.next)
    && b <= s.next && forall id :: id in s.tasks && s.tasks[id].sched == a ==> b <= id
  }

  lemma TasksStep(s: State, e: Event, a: Sched, b: nat)
    requires Enabled(s, e) && NoneBefore(s, a, b)
    ensures NoneBefore(Apply(s, e), a, b)
    ensures e.Take? && s.tasks[e.task].sched == a && a.Alone? ==> b <= e.task && NoneBefore(Apply(s, e), a, e.task + 1)
  {
    if BodyEvent(e) {
      BodyTasks(s, e);
    } else if e.Take? {
    } else if e.Jump? || e.Return? || e.Exit? {
      CoroTasks(s, e.t);
    } else {
      NewTasks(s, e);
    }
  }

  /** Other steps queue one task, as the newest, or none. */
  lemma NewTasks(s: State, e: Event)
    requires Enabled(s, e) && !BodyEvent(e) && !e.Take? && !e.Jump? && !e.Return? && !e.Exit?
    ensures Queues(s, Apply(s, e))
  {
    match e
    case Go(_, sched) => assert Queues(s, ApplyGo(s, sched));
    case Proceed(caller, j) => SpendQueues(s, caller, j);
    case _ =>
  }

  ghost predicate Queues(s: State, s': State) {
    && s.next <= s'.next <= s.next + 1
    && (s'.next == s.next ==> s'.tasks == s.tasks)
    && (s'.next > s.next ==> s.next in s'.tasks && s'.tasks == s.tasks[s.next := s'.tasks[s.next]])
  }

  lemma SpendQueues(s: State, caller: Caller, j: Jid)
    requires caller.Handler? ==> caller.t in s.threads && s.threads[caller.t].Handling?
    ensures Queues(s, ApplyProceed(Spend(s, caller, j), j))
  {
  }

  lemma CoroTasks(s: State, t: Tid)
    requires t in s.threads
    ensures s.threads[t].Entered? ==> ApplyJump(s, t).tasks == s.tasks && ApplyJump(s, t).next == s.next
    ensures s.threads[t].SwitchedBack? ==> ApplyReturn(s, t).tasks == s.tasks && ApplyReturn(s, t).next == s.next
    ensures s.threads[t].Exiting? ==> ApplyExit(s, t).tasks == s.tasks && ApplyExit(s, t).next == s.next
  {
  }

  lemma BodyTasks(s: State, e: Event)
    requires BodyEvent(e) && RunsBody(s, e.t)
    ensures ApplyBody(s, e.t, e).tasks == s.tasks && ApplyBody(s, e.t, e).next == s.next
  {
  }

  /** The ids are at least b, and grow. */
  predicate GrowFrom(ids: seq<nat>, b: nat) {
    (forall i :: 0 <= i < |ids| ==> b <= ids[i]) && forall i, k :: 0 <= i < k < |ids| ==> ids[i] < ids[k]
  }

  lemma {:induction false} GrowingRun(s: State, es: seq<Event>, a: Sched, b: nat)
    requires Legal(s, es) && a.Alone? && NoneBefore(s, a, b)
    ensures GrowFrom(TakenFrom(s, es, a), b)
    decreases |es|
  {
    if es != [] {
      var takes := es[0].Take? && s.tasks[es[0].task].sched == a;
      var c := if takes then es[0].task + 1 else b;
      TasksStep(s, es[0], a, b);
      GrowingRun(Apply(s, es[0]), es[1..], a, c);
      var later := TakenFrom(Apply(s, es[0]), es[1..], a);
      assert TakenFrom(s, es, a) == (if takes then [es[0].task] else []) + later;
    }
  }

  /** In every run, the handlers of an Alone run in the order in which they were posted. */
  lemma PostingOrder(s0: State, es: seq<Event>, a: Sched)
    requires Init(s0) && Legal(s0, es) && a.Alone?
    ensures GrowFrom(TakenFrom(s0, es, a), 0)
  {
    GrowingRun(s0, es, a, 0);
  }
}
