/** A proceed handler that is called once more than its right allows: exactly when the library's own checks
    can then fail. */
module Misuse {
  import opened Prelude
  import opened Runtime
  import opened Tokens
  import opened Lifecycle
  import opened Affinity

  /** Some continuation in which nobody else misuses a right ends in a failing check. */
  ghost predicate CanFault(s: State) {
    exists fs :: Legal(s, fs) && DisciplinedRun(fs) && Exec(s, fs).fault.Some?
  }

  lemma Goes(s: State, e: Event)
    requires Enabled(s, e) && Disciplined(e) && CanFault(Apply(s, e))
    ensures CanFault(s)
  {
    var fs :| Legal(Apply(s, e), fs) && DisciplinedRun(fs) && Exec(Apply(s, e), fs).fault.Some?;
    var all := Prepend(s, e, fs);
  }

  lemma AlreadyFaulty(s: State)
    requires s.fault.Some?
    ensures CanFault(s)
  {
    assert Legal(s, []) && DisciplinedRun([]) && Exec(s, []).fault.Some?;
  }

  /** An idle thread of a pool, and a queued continuation of a journey of that pool. */
  ghost predicate Ready(s: State, j: Jid, t: Tid, id: nat) {
    && s.fault.None? && j in s.live && t in s.threads && s.threads[t].Idle?
    && id in s.tasks && s.tasks[id] == Task(j, Pool(t.pool), false)
  }

  /** The continuation of a journey that runs, or has not begun, or has ended. */
  lemma FaultNow(s: State, j: Jid, t: Tid, id: nat)
    requires Ready(s, j, t, id) && (s.live[j].running || !s.live[j].started)
    ensures CanFault(s)
  {
    AlreadyFaulty(Apply(Apply(s, Take(t, id)), Jump(t)));
    Goes(Apply(s, Take(t, id)), Jump(t));
    Goes(s, Take(t, id));
  }

  /** Two continuations of a suspended journey. */
  lemma TwoTasks(s: State, j: Jid, t: Tid, u: Tid, a: nat, b: nat)
    requires Ready(s, j, t, a) && Ready(s, j, u, b) && a != b && t != u
    ensures CanFault(s)
  {
    if s.live[j].running || !s.live[j].started {
      FaultNow(s, j, t, a);
    } else {
      var s1 := Apply(s, Take(t, a));
      FaultNow(Apply(s1, Jump(t)), j, u, b);
      Goes(s1, Jump(t));
      Goes(s, Take(t, a));
    }
  }

  /** Somebody who has the right uses it, and one continuation is queued already. */
  lemma UsesRight(s: State, j: Jid, caller: Caller, t: Tid, u: Tid, id: nat)
    requires Ready(s, j, t, id) && Ready(s, j, u, id) && t != u && id < s.next
    requires s.live[j].sched == Pool(t.pool) && !caller.Stray? && Enabled(s, Proceed(caller, j))
    requires caller.Handler? ==> caller.t != t && caller.t != u
    ensures CanFault(s)
  {
    TwoTasks(Apply(s, Proceed(caller, j)), j, t, u, id, s.next);
    Goes(s, Proceed(caller, j));
  }

  /** The right is with a thread that works for the journey. */
  lemma WithThread(s: State, j: Jid, w: Tid, t: Tid, u: Tid, id: nat)
    requires Ready(s, j, t, id) && Ready(s, j, u, id) && t != u && id < s.next && s.live[j].sched == Pool(t.pool)
    requires w in s.threads && w != t && w != u && Owns(s.threads[w], j) && Flags(s, j, ByThread(w))
    ensures CanFault(s)
  {
    if s.live[j].running || !s.live[j].started {
      FaultNow(s, j, t, id);
    } else {
      match s.threads[w]
      case Entered(_, _, _) =>
        FaultNow(Apply(s, Jump(w)), j, t, id);
        Goes(s, Jump(w));
      case Exiting(_, _) =>
        UsesRight(Apply(s, Exit(w)), j, Handler(w), t, u, id);
        Goes(s, Exit(w));
      case Handling(_, _, _, _) => UsesRight(s, j, Handler(w), t, u, id);
      case _ =>
    }
  }

  /** The right is still somewhere when the handler is called without it. */
  lemma StrayFaults(s: State, j: Jid, p: Place, t: Tid, u: Tid)
    requires Inv(s) && Affine(s) && j in s.live && At(s, j, p) && !p.ByNobody?
    requires s.live[j].sched == Pool(t.pool) && t != u && t.pool == u.pool
    requires t in s.threads && s.threads[t].Idle? && u in s.threads && s.threads[u].Idle?
    ensures CanFault(ApplyProceed(s, j))
  {
    var s1 := ApplyProceed(s, j);
    var id := s.next;
    assert Flags(s, j, p);
    assert Ready(s1, j, t, id) && Ready(s1, j, u, id);
    match p
    case ByTask(k) =>
      if s.tasks[k].first { FaultNow(s1, j, t, id); } else { TwoTasks(s1, j, t, u, k, id); }
    case ByThread(w) => WithThread(s1, j, w, t, u, id);
    case ByHolder => UsesRight(s1, j, Holder, t, u, id);
    case ByNobody =>
  }

  // ---- a right that was lost ----

  /** Nobody's right: the call takes its place, and everything is in order. */
  lemma StrayRevives(s: State, j: Jid)
    requires Inv(s) && j in s.live && j in s.lost
    ensures Inv(ApplyProceed(s, j).(lost := s.lost - {j}))
  {
    var s1 := ApplyProceed(s, j).(lost := s.lost - {j});
    assert At(s, j, ByNobody);
    FrameOthers(s, s1, j);
    forall p | At(s1, j, p) ensures p == ByTask(s.next) {
      assert p != ByTask(s.next) ==> At(s, j, p);
    }
    MoveKeepsTokens(s, s1, j, ByTask(s.next));
  }

  /** No step looks at the lost rights. */
  lemma LostIgnored(s: State, e: Event, L: set<Jid>)
    requires Enabled(s, e)
    ensures Enabled(s.(lost := L), e)
    ensures var r := Apply(s.(lost := L), e); r == Apply(s, e).(lost := r.lost)
  {
    if e.Teleport? {
      TeleportIgnoresLost(s, e.t, e.to, e.unwinding, L);
    } else if e.Defer? {
      DeferIgnoresLost(s, e.t, e.code, e.unwinding, L);
    } else if BodyEvent(e) {
      BodyIgnoresLost(s, e, L);
    } else if e.Jump? || e.Return? || e.Exit? {
      SwitchIgnoresLost(s, e.t, L);
    }
  }

  lemma SwitchIgnoresLost(s: State, t: Tid, L: set<Jid>)
    requires t in s.threads
    ensures s.threads[t].Entered? ==> ApplyJump(s.(lost := L), t) == ApplyJump(s, t).(lost := L)
    ensures s.threads[t].SwitchedBack? ==> ApplyReturn(s.(lost := L), t) == ApplyReturn(s, t).(lost := L)
    ensures s.threads[t].Exiting? ==> ApplyExit(s.(lost := L), t) == ApplyExit(s, t).(lost := L)
  {
  }

  lemma SuspendIgnoresLost(s: State, t: Tid, j: Jid, jn: Journey, code: Code, L: set<Jid>)
    requires RunsBody(s, t)
    ensures Suspend(s.(lost := L), t, j, jn, code) == Suspend(s, t, j, jn, code).(lost := L)
  {
  }

  lemma TeleportIgnoresLost(s: State, t: Tid, to: Sched, unwinding: bool, L: set<Jid>)
    requires RunsBody(s, t)
    ensures var e := Teleport(t, to, unwinding); ApplyBody(s.(lost := L), t, e) == ApplyBody(s, t, e).(lost := L)
  {
    var j := s.threads[t].j;
    if j in s.live && j in s.goer && to != s.live[j].sched {
      if Deliverable(s.live[j], s.goer[j], unwinding) {
      } else {
        SuspendIgnoresLost(s, t, j, s.live[j].(sched := to), Reschedule, L);
      }
    }
  }

  lemma DeferIgnoresLost(s: State, t: Tid, code: Code, unwinding: bool, L: set<Jid>)
    requires RunsBody(s, t)
    ensures var e := Defer(t, code, unwinding); ApplyBody(s.(lost := L), t, e) == ApplyBody(s, t, e).(lost := L)
  {
  }

  lemma BodyIgnoresLost(s: State, e: Event, L: set<Jid>)
    requires BodyEvent(e) && !e.Teleport? && !e.Defer? && RunsBody(s, e.t)
    ensures ApplyBody(s.(lost := L), e.t, e) == ApplyBody(s, e.t, e).(lost := L)
  {
  }

  lemma {:induction false} LostIgnoredRun(s: State, es: seq<Event>, L: set<Jid>)
    requires Legal(s, es)
    ensures Legal(s.(lost := L), es) && Exec(s.(lost := L), es).fault == Exec(s, es).fault
    decreases |es|
  {
    if es != [] {
      LostIgnored(s, es[0], L);
      LostIgnoredRun(Apply(s, es[0]), es[1..], Apply(s.(lost := L), es[0]).lost);
    }
  }

  lemma StrayIsHarmless(s: State, j: Jid)
    requires Inv(s) && j in s.live && j in s.lost
    ensures !CanFault(ApplyProceed(s, j))
  {
    var s1 := ApplyProceed(s, j);
    StrayRevives(s, j);
    forall fs | Legal(s1, fs) && DisciplinedRun(fs) ensures Exec(s1, fs).fault.None? {
      LostIgnoredRun(s1, fs, s.lost - {j});
      AlwaysInv(s1.(lost := s.lost - {j}), fs);
    }
  }

  /** A proceed handler is called by somebody who has no right to. If the journey is alive, its pool has two
      free threads. Then a check can fail, in a continuation in which nobody else does such a thing, if and
      only if the journey is deleted or its right is not lost. */
  lemma StrayFaultsIff(s: State, j: Jid, t: Tid, u: Tid)
    requires Inv(s) && Affine(s) && j in s.goer
    requires j in s.live ==>
      && s.live[j].sched == Pool(t.pool) && t != u && t.pool == u.pool
      && t in s.threads && s.threads[t].Idle? && u in s.threads && s.threads[u].Idle?
    ensures Enabled(s, Proceed(Stray, j))
    ensures CanFault(Apply(s, Proceed(Stray, j))) <==> j !in s.live || j !in s.lost
  {
    if j !in s.live {
      AlreadyFaulty(Apply(s, Proceed(Stray, j)));
    } else if j in s.lost {
      StrayIsHarmless(s, j);
    } else {
      var p :| At(s, j, p);
      StrayFaults(s, j, p, t, u);
    }
  }
}
