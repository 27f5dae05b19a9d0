/** waitForAll compares two counters that it reads one after the other. */
module WaitForAll {
  import opened Prelude
  import opened Runtime
  import opened Tokens
  import opened Lifecycle

  lemma CountersGrow(s: State, e: Event)
    requires Enabled(s, e)
    ensures s.created <= Apply(s, e).created && s.destroyed <= Apply(s, e).destroyed
  {
    if BodyEvent(e) { BodyCounters(s, e); }
  }

  lemma BodyCounters(s: State, e: Event)
    requires BodyEvent(e) && RunsBody(s, e.t)
    ensures ApplyBody(s, e.t, e).created == s.created && ApplyBody(s, e.t, e).destroyed == s.destroyed
  {
  }

  lemma {:induction false} CountersGrowOverRuns(s: State, es: seq<Event>)
    requires Legal(s, es)
    ensures s.created <= Exec(s, es).created && s.destroyed <= Exec(s, es).destroyed
    decreases |es|
  {
    if es != [] {
      CountersGrow(s, es[0]);
      CountersGrowOverRuns(Apply(s, es[0]), es[1..]);
    }
  }

  /** In every state the counters differ by the number of journeys alive. */
  lemma CountersCountLive(s0: State, es: seq<Event>)
    requires Init(s0) && Legal(s0, es) && DisciplinedRun(es)
    ensures Exec(s0, es).created - Exec(s0, es).destroyed == |Exec(s0, es).live|
  {
    InitInv(s0);
    AlwaysInv(s0, es);
  }

  /** The counter of destroyed journeys is read first, in state s1, the counter of created journeys
      later, in state s2: if they are equal no journey is alive at either moment, and no journey
      was created in between. */
  lemma DetectsQuiescence(s0: State, es: seq<Event>, fs: seq<Event>)
    requires Init(s0) && Legal(s0, es + fs) && DisciplinedRun(es + fs) && Legal(s0, es)
    requires Exec(s0, es).destroyed == Exec(s0, es + fs).created
    ensures Exec(s0, es).live == map[] && Exec(s0, es + fs).live == map[]
    ensures Exec(s0, es).created == Exec(s0, es + fs).created
  {
    Append(s0, es, fs);
    InitInv(s0);
    assert forall i :: 0 <= i < |es| ==> es[i] == (es + fs)[i];
    AlwaysInv(s0, es);
    AlwaysInv(s0, es + fs);
    CountersGrowOverRuns(Exec(s0, es), fs);
    Empty(Exec(s0, es));
    Empty(Exec(s0, es + fs));
  }

  lemma Empty(s: State)
    requires Numbered(s) && s.created <= s.destroyed
    ensures s.live == map[]
  {
    assert |s.live| == 0;
  }

  ghost predicate Spawns(e: Event) {
    e.Go? && e.from.None?
  }

  ghost predicate NoOutsideGo(es: seq<Event>) {
    forall i :: 0 <= i < |es| ==> !Spawns(es[i])
  }

  /** No deferred handler is at work that may still spawn. */
  ghost predicate NoSpawner(s: State) {
    forall t :: t in s.threads ==> !(s.threads[t].Handling? && s.threads[t].code.Program?)
  }

  /** However the run goes on, without go from outside no journey appears. */
  ghost predicate StaysEmpty(s: State) {
    forall es :: Legal(s, es) && DisciplinedRun(es) && NoOutsideGo(es) ==> Exec(s, es).live == map[]
  }

  lemma {:induction false} NothingAppears(s: State, es: seq<Event>)
    requires Inv(s) && s.live == map[] && NoSpawner(s)
    requires Legal(s, es) && DisciplinedRun(es) && NoOutsideGo(es)
    ensures Exec(s, es).live == map[] && Exec(s, es).created == s.created
    decreases |es|
  {
    if es != [] {
      AllLeaving(s);
      assert Disciplined(es[0]) && !Spawns(es[0]);
      NothingHappens(s, es[0]);
      StepKeeps(s, es[0]);
      NothingAppears(Apply(s, es[0]), es[1..]);
    }
  }

  ghost predicate Leaving(th: Thread) {
    th.Idle? || (th.Handling? && th.code.Reschedule? && !th.right)
  }

  lemma AllLeaving(s: State)
    requires Inv(s) && s.live == map[] && NoSpawner(s)
    ensures forall t :: t in s.threads ==> Leaving(s.threads[t])
    ensures s.tasks == map[] && s.held == {}
  {
    forall t | t in s.threads ensures Leaving(s.threads[t]) {
      assert !OwnsNobody(s.threads[t]) ==> At(s, s.threads[t].j, ByThread(t));
    }
    forall id | id in s.tasks ensures false { assert At(s, s.tasks[id].j, ByTask(id)); }
    forall j | j in s.held ensures false { assert At(s, j, ByHolder); }
  }

  lemma NothingHappens(s: State, e: Event)
    requires Enabled(s, e) && Disciplined(e) && !Spawns(e)
    requires (forall t :: t in s.threads ==> Leaving(s.threads[t])) && s.tasks == map[] && s.held == {}
    ensures e.Raise? || e.Leave?
  {
  }

  /** With no journey alive, none appears later without go from outside if and only if no deferred
      handler that may spawn is still at work. */
  lemma StaysEmptyIff(s: State)
    requires Inv(s) && s.live == map[]
    ensures StaysEmpty(s) <==> NoSpawner(s)
  {
    if NoSpawner(s) {
      forall es | Legal(s, es) && DisciplinedRun(es) && NoOutsideGo(es) ensures Exec(s, es).live == map[] {
        NothingAppears(s, es);
      }
    } else {
      var t :| t in s.threads && s.threads[t].Handling? && s.threads[t].code.Program?;
      var e := Go(Some(t), Pool(0));
      Extend(s, [], e);
      assert [] + [e] == [e];
      assert s.created + 1 in Exec(s, [e]).live;
    }
  }

  /** The journey suspends itself, its handler hands the right on, and the right is used. */
  lemma HandOnRun(s: State, t: Tid) returns (es: seq<Event>)
    requires Inv(s) && RunsBody(s, t) && s.threads[t].j in s.live
    requires !Deliverable(s.live[s.threads[t].j], s.goer[s.threads[t].j], false)
    ensures Legal(s, es) && DisciplinedRun(es)
    ensures
      var j := s.threads[t].j;
      Exec(s, es) == s.(live := s.live[j := s.live[j].(running := false)],
                        threads := s.threads[t := Handling(j, s.threads[t].on, Program(0), false)],
                        tasks := s.tasks[s.next := Task(j, s.live[j].sched, false)], next := s.next + 1)
  {
    var j := s.threads[t].j;
    assert At(s, j, ByThread(t));
    assert !At(s, j, ByHolder);
    SuspendRun(s, t, Program(0));
    var es1 := [Defer(t, Program(0), false), Return(t), Exit(t)];
    var s1 := Exec(s, es1);
    Two(s1, Publish(t), Proceed(Holder, j));
    Append(s, es1, [Publish(t), Proceed(Holder, j)]);
    es := es1 + [Publish(t), Proceed(Holder, j)];
    assert s.held + {j} - {j} == s.held;
    var on := s.threads[t].on;
    assert s.threads[t := Handling(j, on, Program(0), true)][t := Handling(j, on, Program(0), false)]
        == s.threads[t := Handling(j, on, Program(0), false)];
  }

  /** A free thread resumes a queued journey, which ends. */
  lemma ResumeToEndRun(s: State, u: Tid, id: nat) returns (es: seq<Event>)
    requires s.fault.None? && u in s.threads && s.threads[u].Idle?
    requires id in s.tasks && s.tasks[id].sched == Pool(u.pool) && !s.tasks[id].first
    requires s.tasks[id].j in s.live && s.tasks[id].j in s.goer
    requires var jn := s.live[s.tasks[id].j]; jn.started && !jn.running && jn.deferHandler.None?
    ensures Legal(s, es) && DisciplinedRun(es)
    ensures var s' := Exec(s, es);
      && s'.fault.None? && s'.created == s.created && s'.destroyed == s.destroyed + 1
      && s'.threads == s.threads[u := Idle]
  {
    TakeAndJump(s, u, id);
    var es3 := [Take(u, id), Jump(u)];
    var s3 := Exec(s, es3);
    FinishRun(s3, u);
    var es4 := [Finish(u), Return(u), Exit(u)];
    Append(s, es3, es4);
    es := es3 + es4;
    var j, on := s3.threads[u].j, s3.threads[u].on;
    assert s.threads[u := InCoro(j, on)][u := Idle] == s.threads[u := Idle];
  }

  /** A journey suspends itself with a handler that hands the right on and has more journeys to spawn;
      another thread resumes the journey and it ends: both counters agree, and then the handler spawns. */
  lemma SpawnAfterAgreement(s: State, t: Tid, u: Tid) returns (es: seq<Event>, e: Event)
    requires Inv(s) && RunsBody(s, t) && s.threads[t].j in s.live && s.created == s.destroyed + 1
    requires !Deliverable(s.live[s.threads[t].j], s.goer[s.threads[t].j], false)
    requires s.live[s.threads[t].j].sched == Pool(u.pool) && u in s.threads && s.threads[u].Idle?
    ensures Legal(s, es) && DisciplinedRun(es) && Exec(s, es).created == Exec(s, es).destroyed
    ensures Legal(s, es + [e]) && !Spawns(e) && Disciplined(e) && Exec(s, es + [e]).live != map[]
  {
    var j := s.threads[t].j;
    assert At(s, j, ByThread(t));
    var es1 := HandOnRun(s, t);
    var s1 := Exec(s, es1);
    var es2 := ResumeToEndRun(s1, u, s.next);
    Append(s, es1, es2);
    es := es1 + es2;
    e := Go(Some(t), Pool(0));
    Extend(s, es, e);
    assert s.created + 1 in Exec(s, es + [e]).live;
  }

  /** The same from the very start: a run after which no journey is alive and yet one appears. */
  lemma LateSpawn(s0: State, t: Tid, u: Tid) returns (es: seq<Event>)
    requires Init(s0) && t in s0.threads && u in s0.threads && t != u && t.pool == u.pool
    ensures Legal(s0, es) && DisciplinedRun(es)
    ensures Exec(s0, es).created == Exec(s0, es).destroyed && !StaysEmpty(Exec(s0, es))
  {
    BeginRun(s0, t);
    var begin := [Go(None, Pool(t.pool)), Take(t, s0.next), Jump(t)];
    InitInv(s0);
    AlwaysInv(s0, begin);
    var fs, e := SpawnAfterAgreement(Exec(s0, begin), t, u);
    Append(s0, begin, fs);
    es := begin + fs;
    var s := Exec(s0, es);
    AlwaysInv(s0, es);
    Empty(s);
    Append(Exec(s0, begin), fs, [e]);
    assert NoOutsideGo([e]) && DisciplinedRun([e]) && Legal(s, [e]) && Exec(s, [e]).live != map[];
  }

  // ---- the other order ----

  /** The counter of created journeys is read first, the counter of destroyed journeys later, and they are
      equal: no journey is alive at the second moment if and only if none was created in between. */
  lemma OtherOrderIff(s0: State, es: seq<Event>, fs: seq<Event>)
    requires Init(s0) && Legal(s0, es + fs) && DisciplinedRun(es + fs) && Legal(s0, es)
    requires Exec(s0, es).created == Exec(s0, es + fs).destroyed
    ensures Exec(s0, es + fs).live == map[] <==> Exec(s0, es + fs).created == Exec(s0, es).created
  {
    InitInv(s0);
    AlwaysInv(s0, es + fs);
    if Exec(s0, es + fs).created == Exec(s0, es).created {
      Empty(Exec(s0, es + fs));
    }
  }

  /** A run in which it goes wrong: the only journey spawns another one and ends between the two reads. */
  lemma WrongOrder(s0: State, t: Tid) returns (es: seq<Event>, fs: seq<Event>)
    requires Init(s0) && t in s0.threads
    ensures Legal(s0, es + fs) && DisciplinedRun(es + fs) && Legal(s0, es)
    ensures Exec(s0, es).created == Exec(s0, es + fs).destroyed && Exec(s0, es + fs).live != map[]
  {
    BeginRun(s0, t);
    es := [Go(None, Pool(t.pool)), Take(t, s0.next), Jump(t)];
    InitInv(s0);
    AlwaysInv(s0, es);
    fs := SpawnThenEnd(Exec(s0, es), t);
    Append(s0, es, fs);
  }

  lemma SpawnThenEnd(s: State, t: Tid) returns (es: seq<Event>)
    requires Inv(s) && RunsBody(s, t) && s.created == s.destroyed + 1
    ensures Legal(s, es) && DisciplinedRun(es)
    ensures s.created == Exec(s, es).destroyed && Exec(s, es).live != map[]
  {
    var j := s.threads[t].j;
    var e := Go(Some(t), s.threads[t].on);
    assert At(s, j, ByThread(t));
    var s1 := Apply(s, e);
    Extend(s, [], e);
    FinishRun(s1, t);
    es := [Finish(t), Return(t), Exit(t)];
    Append(s, [] + [e], es);
    es := [] + [e] + es;
    assert s.created + 1 in Exec(s, es).live;
  }
}
