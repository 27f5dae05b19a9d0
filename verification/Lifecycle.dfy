/** What the single right gives: no failing check, no access without the right, exact deletion. */
module Lifecycle {
  import opened Prelude
  import opened Runtime
  import opened Tokens

  lemma InitInv(s: State)
    requires Init(s)
    ensures Inv(s)
  {
    assert forall j, p {:trigger At(s, j, p)} :: !At(s, j, p);
  }

  /** A journey that is suspended for good or for now, has finished, or is about to be resumed has
      its right in exactly one place, and no check of the runtime ever fails. */
  lemma SingleRight(s0: State, es: seq<Event>)
    requires Init(s0) && Legal(s0, es) && DisciplinedRun(es)
    ensures
      var s := Exec(s0, es);
      && s.fault.None?
      && (forall j :: j in s.live ==> exists p :: At(s, j, p) && forall q :: At(s, j, q) ==> q == p)
      && (forall j, p :: At(s, j, p) ==> j in s.live)
  {
    InitInv(s0);
    AlwaysInv(s0, es);
    var s := Exec(s0, es);
    forall j | j in s.live ensures exists p :: At(s, j, p) && forall q :: At(s, j, q) ==> q == p {
      var p :| At(s, j, p);
      assert forall q :: At(s, j, q) ==> q == p;
    }
  }

  // ---- access ----

  /** The place of the right that the step uses; None for steps that use no right. */
  ghost function Actor(e: Event): Option<Place> {
    match e
    case Go(_, _) => None
    case Take(_, _) => None
    case Raise(_, _) => None
    case Proceed(Handler(t), _) => Some(ByThread(t))
    case Proceed(Holder, _) => Some(ByHolder)
    case Proceed(Stray, _) => None
    case _ => Some(ByThread(e.t))
  }

  /** Equal except that journey j may have other fields, or be deleted, in one of them. */
  ghost predicate AgreeOff(s: State, s': State, j: Jid) {
    && s' == s.(live := s'.live)
    && (forall k :: k != j ==> (k in s.live <==> k in s'.live))
    && (forall k :: k != j && k in s.live && k in s'.live ==> s.live[k] == s'.live[k])
  }

  ghost predicate Keeps(s: State, s': State, j: Jid) {
    (j in s.live <==> j in s'.live) && (j in s.live && j in s'.live ==> s.live[j] == s'.live[j])
  }

  /** The step neither reads nor writes the fields of j: it does the same to the rest whatever the
      fields are, even with j deleted, and leaves them as they are. */
  ghost predicate Untouched(s: State, e: Event, j: Jid)
    requires Enabled(s, e)
  {
    forall s2 :: AgreeOff(s, s2, j) ==>
      Enabled(s2, e) && AgreeOff(Apply(s, e), Apply(s2, e), j) && Keeps(s2, Apply(s2, e), j)
  }

  ghost predicate HasRight(s: State, e: Event, j: Jid) {
    Actor(e).Some? && At(s, j, Actor(e).value)
  }

  /** The journey the step works for. */
  ghost function Target(s: State, e: Event): Option<Jid>
    requires Enabled(s, e)
  {
    match e
    case Go(_, _) => Some(s.created + 1)
    case Take(_, _) => None
    case Raise(_, _) => None
    case Proceed(_, j) => Some(j)
    case Publish(_) => None
    case Leave(_) => None
    case _ => Some(s.threads[e.t].j)
  }

  lemma TargetHasRight(s: State, e: Event, j: Jid)
    requires Inv(s) && Enabled(s, e) && Disciplined(e) && j in s.live && !HasRight(s, e, j)
    ensures Target(s, e) != Some(j)
  {
  }

  lemma OthersEnabled(s: State, s2: State, e: Event, j: Jid)
    requires Enabled(s, e) && AgreeOff(s, s2, j)
    ensures Enabled(s2, e)
  {
  }

  lemma OthersStep(s: State, s2: State, e: Event, j: Jid)
    requires Enabled(s, e) && Target(s, e) != Some(j) && AgreeOff(s, s2, j)
    ensures Enabled(s2, e) && AgreeOff(Apply(s, e), Apply(s2, e), j) && Keeps(s2, Apply(s2, e), j)
  {
    OthersEnabled(s, s2, e, j);
    match e
    case Go(_, sched) => OthersGo(s, s2, sched, j);
    case Jump(t) => OthersJump(s, s2, t, j);
    case Return(t) => OthersReturn(s, s2, t, j);
    case Exit(t) => OthersExit(s, s2, t, j);
    case Proceed(caller, k) => OthersProceed(s, s2, caller, k, j);
    case Take(_, _) => OthersPassive(s, s2, e, j);
    case Raise(_, _) => OthersPassive(s, s2, e, j);
    case Publish(_) => OthersPassive(s, s2, e, j);
    case Leave(_) => OthersPassive(s, s2, e, j);
    case Defer(_, _, _) => OthersYield(s, s2, e, j);
    case Teleport(_, _, _) => OthersYield(s, s2, e, j);
    case _ => OthersBody(s, s2, e, j);
  }

  lemma OthersProceed(s: State, s2: State, caller: Caller, k: Jid, j: Jid)
    requires AgreeOff(s, s2, j) && k != j
    requires caller.Handler? ==> caller.t in s.threads && s.threads[caller.t].Handling?
    ensures AgreeOff(ApplyProceed(Spend(s, caller, k), k), ApplyProceed(Spend(s2, caller, k), k), j)
    ensures Keeps(s2, ApplyProceed(Spend(s2, caller, k), k), j)
  {
  }

  lemma OthersPassive(s: State, s2: State, e: Event, j: Jid)
    requires AgreeOff(s, s2, j) && (e.Take? || e.Raise? || e.Publish? || e.Leave?) && Enabled(s, e) && Enabled(s2, e)
    ensures AgreeOff(Apply(s, e), Apply(s2, e), j) && Keeps(s2, Apply(s2, e), j)
  {
  }

  lemma OthersGo(s: State, s2: State, sched: Sched, j: Jid)
    requires AgreeOff(s, s2, j) && j != s.created + 1
    ensures AgreeOff(ApplyGo(s, sched), ApplyGo(s2, sched), j) && Keeps(s2, ApplyGo(s2, sched), j)
  {
  }

  lemma OthersJump(s: State, s2: State, t: Tid, j: Jid)
    requires AgreeOff(s, s2, j) && t in s.threads && s.threads[t].Entered? && s.threads[t].j != j
    ensures AgreeOff(ApplyJump(s, t), ApplyJump(s2, t), j) && Keeps(s2, ApplyJump(s2, t), j)
  {
  }

  lemma OthersReturn(s: State, s2: State, t: Tid, j: Jid)
    requires AgreeOff(s, s2, j) && t in s.threads && s.threads[t].SwitchedBack? && s.threads[t].j != j
    ensures AgreeOff(ApplyReturn(s, t), ApplyReturn(s2, t), j) && Keeps(s2, ApplyReturn(s2, t), j)
  {
  }

  lemma OthersExit(s: State, s2: State, t: Tid, j: Jid)
    requires AgreeOff(s, s2, j) && t in s.threads && s.threads[t].Exiting? && s.threads[t].j != j
    ensures AgreeOff(ApplyExit(s, t), ApplyExit(s2, t), j) && Keeps(s2, ApplyExit(s2, t), j)
  {
  }

  lemma OthersYield(s: State, s2: State, e: Event, j: Jid)
    requires (e.Teleport? || e.Defer?) && RunsBody(s, e.t) && s.threads[e.t].j != j && AgreeOff(s, s2, j)
    ensures AgreeOff(ApplyBody(s, e.t, e), ApplyBody(s2, e.t, e), j) && Keeps(s2, ApplyBody(s2, e.t, e), j)
  {
  }

  lemma OthersBody(s: State, s2: State, e: Event, j: Jid)
    requires BodyEvent(e) && !e.Teleport? && !e.Defer? && RunsBody(s, e.t) && s.threads[e.t].j != j && AgreeOff(s, s2, j)
    ensures AgreeOff(ApplyBody(s, e.t, e), ApplyBody(s2, e.t, e), j) && Keeps(s2, ApplyBody(s2, e.t, e), j)
  {
  }

  /** A step touches a live journey only with that journey's right in hand. */
  lemma TouchNeedsRight(s: State, e: Event, j: Jid)
    requires Inv(s) && Enabled(s, e) && Disciplined(e) && j in s.live
    ensures Untouched(s, e, j) || HasRight(s, e, j)
  {
    if !HasRight(s, e, j) {
      TargetHasRight(s, e, j);
      forall s2 | AgreeOff(s, s2, j)
        ensures Enabled(s2, e) && AgreeOff(Apply(s, e), Apply(s2, e), j) && Keeps(s2, Apply(s2, e), j)
      {
        OthersStep(s, s2, e, j);
      }
    }
  }

  /** Two steps that both touch a journey are steps of the same actor: there is no data race. */
  lemma NoRace(s: State, e1: Event, e2: Event, j: Jid)
    requires Inv(s) && Enabled(s, e1) && Enabled(s, e2) && Disciplined(e1) && Disciplined(e2) && j in s.live
    ensures Untouched(s, e1, j) || Untouched(s, e2, j) || Actor(e1) == Actor(e2)
  {
    TouchNeedsRight(s, e1, j);
    TouchNeedsRight(s, e2, j);
  }

  /** The thread that executes the step, for the steps a pool thread executes. */
  function ThreadOf(e: Event): Option<Tid> {
    match e
    case Go(from, _) => from
    case Raise(_, _) => None
    case Proceed(Handler(t), _) => Some(t)
    case Proceed(_, _) => None
    case _ => Some(e.t)
  }

  /** Once the deferred handler has handed the right on, its thread does not touch the journey
      any more, which may run elsewhere or be deleted at any moment. */
  lemma NoTouchAfterHandOff(s: State, t: Tid, e: Event)
    requires Inv(s) && t in s.threads && s.threads[t].Handling? && !s.threads[t].right && s.threads[t].j in s.live
    requires Enabled(s, e) && ThreadOf(e) == Some(t)
    ensures Untouched(s, e, s.threads[t].j)
    ensures e.Go? || e == Leave(t)
  {
    TouchNeedsRight(s, e, s.threads[t].j);
  }

  /** A journey disappears exactly when its thread reaches onExit0 after the body has ended. */
  lemma DeletedIffFinished(s: State, e: Event, j: Jid)
    requires Inv(s) && Enabled(s, e) && Disciplined(e) && j in s.live
    ensures j !in Apply(s, e).live <==>
            e.Exit? && s.threads[e.t].j == j && !s.live[j].started
  {
    if e.Exit? {
      assert At(s, s.threads[e.t].j, ByThread(e.t));
    } else if BodyEvent(e) {
      assert At(s, s.threads[e.t].j, ByThread(e.t));
      BodyStaysOwner(s, e);
    } else {
      StepKeeps(s, e);
    }
  }

  // ---- the right can always be used ----

  /** A new journey begins on the scheduler it was given, once. */
  lemma GoBegins(s: State, from: Option<Tid>, sched: Sched)
    requires Inv(s) && Enabled(s, Go(from, sched))
    ensures
      var s' := Apply(s, Go(from, sched)); var j := s.created + 1;
      && j !in s.live && s.next !in s.tasks
      && s'.live == s.live[j := Journey.Journey(sched, false, false, None, true)] && s'.goer == s.goer[j := Normal]
      && s'.tasks == s.tasks[s.next := Task(j, sched, true)] && s'.threads == s.threads
  {
  }

  /** The step that takes the right at place p on, for a task by the idle thread t. */
  function Onward(s: State, j: Jid, p: Place, t: Tid): Event
    requires p.ByThread? ==> p.t in s.threads
  {
    match p
    case ByTask(id) => Take(t, id)
    case ByThread(u) => (
      match s.threads[u]
      case Entered(_, _, _) => Jump(u)
      case SwitchedBack(_, _) => Return(u)
      case Exiting(_, _) => Exit(u)
      case Handling(_, _, _, _) => Proceed(Handler(u), j)
      case _ => Finish(u)
      )
    case _ => Proceed(Holder, j)
  }

  /** Wherever the right is, it can be used: a queued segment is taken by any free thread that may, and runs
      the body; a thread that works for the journey can go on; a deferred handler that has the right can use it
      or, unless it is the journey's own proceed handler, store it or drop it; a stored right can be used. Using
      it posts the rest of the journey to the scheduler the journey is on. */
  lemma RightCanBeUsed(s: State, j: Jid, p: Place, t: Tid)
    requires Inv(s) && j in s.live && At(s, j, p) && !p.ByNobody?
    requires p.ByTask? ==> t in s.threads && s.threads[t].Idle? && t.pool == s.tasks[p.id].sched.pool
                           && (s.tasks[p.id].sched.Alone? ==> StrandReady(s, p.id))
    ensures
      var e := Onward(s, j, p, t);
      && Enabled(s, e) && Disciplined(e)
      && (p.ByTask? ==> t in Apply(s, e).threads && Apply(s, e).threads[t] == Entered(j, s.tasks[p.id].sched, s.tasks[p.id].first))
      && (e.Jump? ==> RunsBody(Apply(s, e), p.t) && Apply(s, e).threads[p.t].j == j)
      && (e.Proceed? ==> s.next !in s.tasks && Apply(s, e).tasks == s.tasks[s.next := Task(j, s.live[j].sched, false)])
      && (p.ByThread? && s.threads[p.t].Handling? && s.threads[p.t].code.Program? ==>
            Enabled(s, Publish(p.t)) && j in Apply(s, Publish(p.t)).held
            && Enabled(s, Leave(p.t)) && j in Apply(s, Leave(p.t)).lost)
  {
  }

  /** A stored right stays stored unless its holder uses it. */
  lemma HeldStays(rt: State, e: Event, j: Jid)
    requires Enabled(rt, e) && Disciplined(e) && j in rt.held
    requires e.Proceed? && e.caller.Holder? ==> e.target != j
    ensures j in Apply(rt, e).held
  {
    if BodyEvent(e) { BodyHolds(rt, e); }
  }

  lemma BodyHolds(rt: State, e: Event)
    requires BodyEvent(e) && RunsBody(rt, e.t)
    ensures ApplyBody(rt, e.t, e).held == rt.held
  {
  }

  // ---- discipline is needed ----

  /** A run in two parts. */
  lemma {:induction false} Append(s: State, es: seq<Event>, fs: seq<Event>)
    requires Legal(s, es)
    ensures Legal(s, es + fs) <==> Legal(Exec(s, es), fs)
    ensures Legal(s, es + fs) ==> Exec(s, es + fs) == Exec(Exec(s, es), fs)
    decreases |es|
  {
    if es == [] {
      assert es + fs == fs;
    } else {
      assert (es + fs)[1..] == es[1..] + fs;
      Append(Apply(s, es[0]), es[1..], fs);
    }
  }

  lemma Extend(s: State, es: seq<Event>, e: Event)
    requires Legal(s, es) && Enabled(Exec(s, es), e)
    ensures Legal(s, es + [e]) && Exec(s, es + [e]) == Apply(Exec(s, es), e)
  {
    assert [e][1..] == [];
    Append(s, es, [e]);
  }

  lemma Prepend(s: State, e: Event, es: seq<Event>) returns (all: seq<Event>)
    requires Enabled(s, e) && Disciplined(e) && Legal(Apply(s, e), es) && DisciplinedRun(es)
    ensures Legal(s, all) && DisciplinedRun(all) && Exec(s, all) == Exec(Apply(s, e), es)
  {
    all := [e] + es;
    assert all[1..] == es;
  }

  lemma Two(s: State, e: Event, f: Event)
    requires Enabled(s, e) && Enabled(Apply(s, e), f)
    ensures Legal(s, [e, f]) && Exec(s, [e, f]) == Apply(Apply(s, e), f)
  {
    Extend(s, [], e);
    Extend(s, [e], f);
    assert [] + [e] == [e] && [e] + [f] == [e, f];
  }

  /** The first journey: it is created from outside, and a thread of its pool begins to run its body. */
  lemma BeginRun(s0: State, t: Tid)
    requires Init(s0) && t in s0.threads
    ensures
      var es := [Go(None, Pool(t.pool)), Take(t, s0.next), Jump(t)]; var j := 1;
      && Legal(s0, es) && DisciplinedRun(es)
      && Exec(s0, es) == s0.(live := map[j := NewJourney(Pool(t.pool)).(started := true, running := true)],
                             goer := map[j := Normal], threads := s0.threads[t := InCoro(j, Pool(t.pool))],
                             next := s0.next + 1, created := 1)
  {
    var on := Pool(t.pool);
    FirstTaken(s0, t);
    var s2 := Exec(s0, [Go(None, on), Take(t, s0.next)]);
    Extend(s0, [Go(None, on), Take(t, s0.next)], Jump(t));
    assert [Go(None, on), Take(t, s0.next)] + [Jump(t)] == [Go(None, on), Take(t, s0.next), Jump(t)];
    assert s2.threads[t := InCoro(1, on)] == s0.threads[t := InCoro(1, on)];
  }

  lemma FirstTaken(s0: State, t: Tid)
    requires Init(s0) && t in s0.threads
    ensures
      var on := Pool(t.pool); var es := [Go(None, on), Take(t, s0.next)]; var j := 1;
      && Legal(s0, es)
      && Exec(s0, es) == s0.(live := map[j := NewJourney(on)], goer := map[j := Normal],
                             threads := s0.threads[t := Entered(j, on, true)], next := s0.next + 1, created := 1)
  {
    Two(s0, Go(None, Pool(t.pool)), Take(t, s0.next));
    assert Apply(s0, Go(None, Pool(t.pool))).tasks - {s0.next} == map[];
  }

  /** From the body to the deferred handler: the only steps of a thread that suspends its journey. */
  lemma SuspendRun(s: State, t: Tid, code: Code)
    requires Inv(s) && RunsBody(s, t) && s.threads[t].j in s.live
    requires !Deliverable(s.live[s.threads[t].j], s.goer[s.threads[t].j], false)
    ensures
      var j := s.threads[t].j; var es := [Defer(t, code, false), Return(t), Exit(t)];
      && Legal(s, es)
      && Exec(s, es) == s.(live := s.live[j := s.live[j].(running := false)],
                           threads := s.threads[t := Handling(j, s.threads[t].on, code, true)])
  {
    var j := s.threads[t].j;
    var jn, on := s.live[j], s.threads[t].on;
    assert At(s, j, ByThread(t));
    SwitchRun(s, t, code);
    var s2 := Exec(s, [Defer(t, code, false), Return(t)]);
    Extend(s, [Defer(t, code, false), Return(t)], Exit(t));
    assert [Defer(t, code, false), Return(t)] + [Exit(t)] == [Defer(t, code, false), Return(t), Exit(t)];
    assert s2.live[j := jn.(running := false)] == s.live[j := jn.(running := false)];
    assert s2.threads[t := Handling(j, on, code, true)] == s.threads[t := Handling(j, on, code, true)];
  }

  /** From the body to the end of jump0. */
  lemma SwitchRun(s: State, t: Tid, code: Code)
    requires s.fault.None? && RunsBody(s, t) && s.threads[t].j in s.live && s.threads[t].j in s.goer
    requires !Deliverable(s.live[s.threads[t].j], s.goer[s.threads[t].j], false)
    ensures
      var j := s.threads[t].j; var es := [Defer(t, code, false), Return(t)];
      && Legal(s, es)
      && Exec(s, es) == s.(live := s.live[j := s.live[j].(running := false, deferHandler := Some(code))],
                           threads := s.threads[t := Exiting(j, s.threads[t].on)])
  {
    var j := s.threads[t].j;
    var jn, on := s.live[j], s.threads[t].on;
    var waiting := jn.(deferHandler := Some(code));
    Two(s, Defer(t, code, false), Return(t));
    assert s.live[j := waiting][j := waiting.(running := false)] == s.live[j := waiting.(running := false)];
    assert s.threads[t := SwitchedBack(j, on)][t := Exiting(j, on)] == s.threads[t := Exiting(j, on)];
  }

  /** From the end of the body to the deletion. */
  lemma FinishRun(s: State, t: Tid)
    requires s.fault.None? && RunsBody(s, t) && s.threads[t].j in s.live && s.threads[t].j in s.goer
    requires s.live[s.threads[t].j].deferHandler.None?
    ensures
      var es := [Finish(t), Return(t), Exit(t)];
      && Legal(s, es)
      && Exec(s, es) == s.(live := s.live - {s.threads[t].j}, threads := s.threads[t := Idle], destroyed := s.destroyed + 1)
  {
    var j := s.threads[t].j;
    var on := s.threads[t].on;
    var jn := s.live[j];
    Two(s, Finish(t), Return(t));
    Extend(s, [Finish(t), Return(t)], Exit(t));
    assert [Finish(t), Return(t)] + [Exit(t)] == [Finish(t), Return(t), Exit(t)];
    assert s.live[j := jn.(started := false)][j := jn.(started := false, running := false)] - {j} == s.live - {j};
    assert s.threads[t := SwitchedBack(j, on)][t := Exiting(j, on)][t := Idle] == s.threads[t := Idle];
  }

  /** A free thread takes a queued continuation and resumes it. */
  lemma TakeAndJump(s: State, t: Tid, id: nat)
    requires s.fault.None? && t in s.threads && s.threads[t].Idle? && id in s.tasks
    requires s.tasks[id].sched.Pool? && t.pool == s.tasks[id].sched.pool && !s.tasks[id].first
    requires s.tasks[id].j in s.live && s.live[s.tasks[id].j].started
    ensures
      var es := [Take(t, id), Jump(t)]; var j := s.tasks[id].j; var jn := s.live[j];
      && Legal(s, es)
      && (jn.running ==> Exec(s, es).fault == Some(ResumeRunning))
      && (!jn.running ==> Exec(s, es) == s.(tasks := s.tasks - {id}, live := s.live[j := jn.(running := true)],
                                            threads := s.threads[t := InCoro(j, s.tasks[id].sched)]))
  {
    Two(s, Take(t, id), Jump(t));
    assert s.threads[t := Entered(s.tasks[id].j, s.tasks[id].sched, false)][t := InCoro(s.tasks[id].j, s.tasks[id].sched)]
        == s.threads[t := InCoro(s.tasks[id].j, s.tasks[id].sched)];
  }

  /** Whenever a right is stored and two threads of the journey's pool are free, calling the
      proceed handler once more than allowed can make resume meet a running coroutine. */
  lemma SecondProceedFaults(s: State, j: Jid, t: Tid, u: Tid) returns (es: seq<Event>)
    requires Inv(s) && j in s.held && j in s.live && s.live[j].sched.Pool?
    requires t != u && t in s.threads && s.threads[t].Idle? && u in s.threads && s.threads[u].Idle?
    requires t.pool == s.live[j].sched.pool == u.pool
    ensures Legal(s, es) && |es| == 6 && es[1] == Proceed(Stray, j) && (forall i :: 0 <= i < 6 && i != 1 ==> Disciplined(es[i]))
    ensures Exec(s, es).fault == Some(ResumeRunning)
  {
    assert At(s, j, ByHolder);
    var a, b := s.next, s.next + 1;
    Two(s, Proceed(Holder, j), Proceed(Stray, j));
    var es1 := [Proceed(Holder, j), Proceed(Stray, j)];
    var s1 := Exec(s, es1);
    assert s1.tasks[a] == s1.tasks[b] == Task(j, s.live[j].sched, false);
    TakeAndJump(s1, t, a);
    var es2 := [Take(t, a), Jump(t)];
    Append(s, es1, es2);
    var s2 := Exec(s1, es2);
    TakeAndJump(s2, u, b);
    Append(s, es1 + es2, [Take(u, b), Jump(u)]);
    es := es1 + es2 + [Take(u, b), Jump(u)];
  }

  /** The first journey suspends itself with a handler that stores the proceed handler. */
  lemma StoreRun(s0: State, t: Tid) returns (es: seq<Event>)
    requires Init(s0) && t in s0.threads
    ensures Legal(s0, es) && DisciplinedRun(es)
    ensures var s := Exec(s0, es); 1 in s.held && 1 in s.live && s.live[1].sched == Pool(t.pool) && s.threads == s0.threads
  {
    BeginRun(s0, t);
    var begin := [Go(None, Pool(t.pool)), Take(t, s0.next), Jump(t)];
    InitInv(s0);
    AlwaysInv(s0, begin);
    var fs := SuspendAndStore(Exec(s0, begin), t);
    Append(s0, begin, fs);
    es := begin + fs;
    assert Exec(s0, es).threads == s0.threads;
  }

  lemma SuspendAndStore(s: State, t: Tid) returns (es: seq<Event>)
    requires Inv(s) && RunsBody(s, t) && s.threads[t].j in s.live
    requires !Deliverable(s.live[s.threads[t].j], s.goer[s.threads[t].j], false)
    ensures Legal(s, es) && DisciplinedRun(es)
    ensures
      var j := s.threads[t].j;
      Exec(s, es) == s.(live := s.live[j := s.live[j].(running := false)], held := s.held + {j}, threads := s.threads[t := Idle])
  {
    var suspend := [Defer(t, Program(0), false), Return(t), Exit(t)];
    SuspendRun(s, t, Program(0));
    PublishAndLeave(Exec(s, suspend), t);
    Append(s, suspend, [Publish(t), Leave(t)]);
    es := suspend + [Publish(t), Leave(t)];
    assert Exec(s, suspend).threads[t := Idle] == s.threads[t := Idle];
  }

  lemma PublishAndLeave(s: State, t: Tid)
    requires Enabled(s, Publish(t))
    ensures Legal(s, [Publish(t), Leave(t)])
    ensures Exec(s, [Publish(t), Leave(t)]) == s.(held := s.held + {s.threads[t].j}, threads := s.threads[t := Idle])
  {
    Two(s, Publish(t), Leave(t));
    assert s.threads[t := s.threads[t].(right := false)][t := Idle] == s.threads[t := Idle];
  }

  /** Such a run from the start; every other step of it is disciplined. */
  lemma DoubleProceed(s0: State, t: Tid, u: Tid) returns (es: seq<Event>, k: nat)
    requires Init(s0) && t in s0.threads && u in s0.threads && t != u && t.pool == u.pool
    ensures Legal(s0, es) && Exec(s0, es).fault == Some(ResumeRunning)
    ensures k < |es| && es[k].Proceed? && forall i :: 0 <= i < |es| && i != k ==> Disciplined(es[i])
  {
    var begin := StoreRun(s0, t);
    InitInv(s0);
    AlwaysInv(s0, begin);
    var fs := SecondProceedFaults(Exec(s0, begin), 1, t, u);
    Append(s0, begin, fs);
    es := begin + fs;
    k := |begin| + 1;
  }
}
