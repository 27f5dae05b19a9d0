/** The single right to be resumed: where it is, and why no check of the runtime can fail. The invariant says
    that each live journey has its right at exactly one place (a queued task, a thread that works for it, a
    holder of its proceed handler, or nobody after a handler dropped it), and that the coroutine's flags and
    the deferred handler agree with the place. Each event has a lemma that it keeps the invariant: it moves one
    journey's right and leaves everybody else's alone. */
module Tokens {
  import opened Runtime

  datatype Place = ByTask(id: nat) | ByThread(t: Tid) | ByHolder | ByNobody

  predicate Owns(th: Thread, j: Jid) {
    !th.Idle? && th.j == j && (th.Handling? ==> th.right)
  }

  /** The right to run journey j next (or the fact that it runs) is at place p. */
  ghost predicate At(s: State, j: Jid, p: Place) {
    match p
    case ByTask(id) => id in s.tasks && s.tasks[id].j == j
    case ByThread(t) => t in s.threads && Owns(s.threads[t], j)
    case ByHolder => j in s.held
    case ByNobody => j in s.lost
  }

  /** The coroutine flags agree with the place. */
  ghost predicate Flags(s: State, j: Jid, p: Place)
    requires j in s.live && At(s, j, p)
  {
    var jn := s.live[j];
    match p
    case ByTask(id) => !jn.running && jn.deferHandler.None? && (jn.started <==> !s.tasks[id].first)
    case ByThread(t) => (
      match s.threads[t]
      case Entered(_, _, first) => !jn.running && jn.deferHandler.None? && (jn.started <==> !first)
      case InCoro(_, _) => jn.started && jn.running && jn.deferHandler.None?
      case SwitchedBack(_, _) => jn.running && (jn.started <==> jn.deferHandler.Some?)
      case Exiting(_, _) => !jn.running && (jn.started <==> jn.deferHandler.Some?)
      case Handling(_, _, _, _) => jn.started && !jn.running && jn.deferHandler.None?
      )
    case ByHolder => jn.started && !jn.running && jn.deferHandler.None?
    case ByNobody => jn.started && !jn.running && jn.deferHandler.None?
  }

  ghost predicate Numbered(s: State) {
    && (forall id :: id in s.tasks ==> id < s.next)
    && (forall j :: j in s.live ==> 1 <= j <= s.created)
    && (forall j :: j in s.live ==> j in s.goer)
    && (forall j :: j in s.goer ==> j <= s.created)
    && s.created == s.destroyed + |s.live|
  }

  ghost predicate Tokens(s: State) {
    && (forall j, p {:trigger At(s, j, p)} :: At(s, j, p) ==> j in s.live && Flags(s, j, p))
    && (forall j, p, q {:trigger At(s, j, p), At(s, j, q)} :: At(s, j, p) && At(s, j, q) ==> p == q)
    && (forall j :: j in s.live ==> exists p :: At(s, j, p))
  }

  ghost predicate Inv(s: State) {
    s.fault.None? && Numbered(s) && Tokens(s)
  }

  /** From s to s', journey j goes to place q, and nothing changes for the others. */
  ghost predicate Moves(s: State, s': State, j: Jid, q: Place) {
    && j in s'.live && At(s', j, q) && Flags(s', j, q)
    && (forall p {:trigger At(s', j, p)} :: At(s', j, p) ==> p == q)
    && OthersStay(s, s', j)
  }

  ghost predicate OthersStay(s: State, s': State, j: Jid) {
    && (forall k :: k != j ==> (k in s'.live <==> k in s.live))
    && (forall k, p {:trigger At(s', k, p)} {:trigger At(s, k, p)} :: k != j ==> (At(s', k, p) <==> At(s, k, p)))
    && (forall k, p {:trigger At(s', k, p)} :: k != j && At(s, k, p) && k in s.live && Flags(s, k, p) ==> k in s'.live && At(s', k, p) && Flags(s', k, p))
  }

  /** Enough for the other journeys: their fields, tasks, threads and stored rights are the same. */
  lemma FrameOthers(s: State, s': State, j: Jid)
    requires forall k :: k != j ==> (k in s'.live <==> k in s.live) && (k in s.live ==> s'.live[k] == s.live[k])
    requires forall id :: (id in s.tasks && s.tasks[id].j != j) ==> id in s'.tasks && s'.tasks[id] == s.tasks[id]
    requires forall id :: (id in s'.tasks && s'.tasks[id].j != j) ==> id in s.tasks && s'.tasks[id] == s.tasks[id]
    requires s'.threads.Keys == s.threads.Keys
    requires forall t :: t in s.threads && s'.threads[t] != s.threads[t] ==>
               (s.threads[t].Idle? || s.threads[t].j == j) && (s'.threads[t].Idle? || s'.threads[t].j == j)
    requires forall k :: k != j ==> (k in s'.held <==> k in s.held) && (k in s'.lost <==> k in s.lost)
    ensures OthersStay(s, s', j)
  {
    forall k, p | k != j ensures At(s', k, p) <==> At(s, k, p) {
      match p
      case ByTask(id) =>
      case ByThread(t) =>
      case ByHolder =>
      case ByNobody =>
    }
    forall k, p | k != j && At(s, k, p) && k in s.live && Flags(s, k, p)
      ensures k in s'.live && At(s', k, p) && Flags(s', k, p)
    {
      match p
      case ByTask(id) =>
      case ByThread(t) => assert s'.threads[t] == s.threads[t];
      case ByHolder =>
      case ByNobody =>
    }
  }

  lemma MoveKeepsTokens(s: State, s': State, j: Jid, q: Place)
    requires Tokens(s) && Moves(s, s', j, q)
    ensures Tokens(s')
  {
    forall k | k in s'.live ensures exists p :: At(s', k, p) {
      if k == j {
        assert At(s', j, q);
      } else {
        var p :| At(s, k, p);
        assert At(s', k, p);
      }
    }
  }

  lemma GoNumbered(s: State, sched: Sched)
    requires Numbered(s)
    ensures Numbered(ApplyGo(s, sched))
  {
    assert s.created + 1 !in s.live;
  }

  lemma GoKeeps(s: State, sched: Sched)
    requires Inv(s)
    ensures Inv(ApplyGo(s, sched))
  {
    var s' := ApplyGo(s, sched);
    var j := s.created + 1;
    GoNumbered(s, sched);
    FrameOthers(s, s', j);
    forall p | p != ByTask(s.next) ensures !At(s', j, p) {
      assert !At(s, j, p);
    }
    MoveKeepsTokens(s, s', j, ByTask(s.next));
  }

  lemma TakeKeeps(s: State, t: Tid, id: nat)
    requires Inv(s) && Enabled(s, Take(t, id))
    ensures Inv(ApplyTake(s, t, id))
  {
    var s' := ApplyTake(s, t, id);
    var j := s.tasks[id].j;
    assert At(s, j, ByTask(id));
    forall p | At(s', j, p) ensures p == ByThread(t) {
      if p != ByThread(t) { assert At(s, j, p); }
    }
    MoveKeepsTokens(s, s', j, ByThread(t));
  }

  /** A thread works on the journey it owns. */
  lemma OwnerKeeps(s: State, s': State, t: Tid, j: Jid)
    requires Inv(s) && At(s, j, ByThread(t)) && j in s'.live && At(s', j, ByThread(t)) && Flags(s', j, ByThread(t))
    requires s'.live == s.live[j := s'.live[j]] && s'.threads == s.threads[t := s'.threads[t]]
    requires s'.goer.Keys == s.goer.Keys
    requires s' == s.(live := s'.live, threads := s'.threads, goer := s'.goer)
    ensures Inv(s')
  {
    assert j in s.live;
    assert s'.live.Keys == s.live.Keys;
    assert |s'.live| == |s'.live.Keys| == |s.live|;
    forall p | At(s', j, p) ensures p == ByThread(t) {
      if p != ByThread(t) { assert At(s, j, p); }
    }
    MoveKeepsTokens(s, s', j, ByThread(t));
  }

  lemma JumpKeeps(s: State, t: Tid)
    requires Inv(s) && Enabled(s, Jump(t))
    ensures Inv(ApplyJump(s, t))
  {
    var j := s.threads[t].j;
    assert At(s, j, ByThread(t));
    OwnerKeeps(s, ApplyJump(s, t), t, j);
  }

  ghost predicate BodyEvent(e: Event) {
    e.HandleEvents? || e.DisableEvents? || e.EnableEvents? || e.Teleport? || e.Defer? || e.Finish?
  }

  lemma BodyKeeps(s: State, e: Event)
    requires Inv(s) && Enabled(s, e) && BodyEvent(e)
    ensures Inv(Apply(s, e))
  {
    assert At(s, s.threads[e.t].j, ByThread(e.t));
    BodyStaysOwner(s, e);
    OwnerKeeps(s, ApplyBody(s, e.t, e), e.t, s.threads[e.t].j);
  }

  lemma BodyStaysOwner(s: State, e: Event)
    requires s.fault.None? && BodyEvent(e) && RunsBody(s, e.t)
    requires var j := s.threads[e.t].j; j in s.live && j in s.goer && Flags(s, j, ByThread(e.t))
    ensures
      var t := e.t; var j := s.threads[t].j; var s' := ApplyBody(s, t, e);
      && j in s'.live && s'.live == s.live[j := s'.live[j]]
      && t in s'.threads && s'.threads == s.threads[t := s'.threads[t]]
      && s'.goer.Keys == s.goer.Keys
      && s' == s.(live := s'.live, threads := s'.threads, goer := s'.goer)
      && Owns(s'.threads[t], j) && Flags(s', j, ByThread(t))
  {
  }

  lemma ReturnKeeps(s: State, t: Tid)
    requires Inv(s) && Enabled(s, Return(t))
    ensures Inv(ApplyReturn(s, t))
  {
    var j := s.threads[t].j;
    assert At(s, j, ByThread(t));
    OwnerKeeps(s, ApplyReturn(s, t), t, j);
  }

  lemma ExitKeeps(s: State, t: Tid)
    requires Inv(s) && Enabled(s, Exit(t))
    ensures Inv(ApplyExit(s, t))
  {
    var j := s.threads[t].j;
    var s' := ApplyExit(s, t);
    assert At(s, j, ByThread(t));
    if s.live[j].deferHandler.Some? {
      OwnerKeeps(s, s', t, j);
    } else {
      assert s'.live.Keys == s.live.Keys - {j};
      assert |s'.live| == |s'.live.Keys| == |s.live.Keys| - 1;
      FrameOthers(s, s', j);
      forall p | At(s', j, p) ensures false {
        assert At(s, j, p);
      }
      forall k | k in s'.live ensures exists p :: At(s', k, p) {
        var p :| At(s, k, p);
        assert At(s', k, p);
      }
    }
  }

  /** The right leaves a deferred handler, or a holder, and goes to q. */
  lemma RightKeeps(s: State, s': State, j: Jid, p: Place, q: Place)
    requires Inv(s) && At(s, j, p) && (p.ByHolder? || (p.ByThread? && s.threads[p.t].Handling?))
    requires s'.live == s.live && s'.goer == s.goer && s'.created == s.created && s'.destroyed == s.destroyed && s'.fault.None?
    requires forall id :: id in s'.tasks ==> id < s'.next
    requires At(s', j, q) && Flags(s', j, q) && !At(s', j, p)
    requires forall x :: x != p && x != q ==> (At(s', j, x) <==> At(s, j, x))
    requires OthersStay(s, s', j)
    ensures Inv(s')
  {
    forall x | x != q ensures !At(s', j, x) {
      if x != p { assert At(s', j, x) <==> At(s, j, x); }
    }
    MoveKeepsTokens(s, s', j, q);
  }

  lemma ProceedKeeps(s: State, e: Event)
    requires Inv(s) && Enabled(s, e) && e.Proceed? && Disciplined(e)
    ensures Inv(Apply(s, e))
  {
    var p := if e.caller.Holder? then ByHolder else ByThread(e.caller.t);
    assert At(s, e.target, p);
    FrameOthers(s, Apply(s, e), e.target);
    RightKeeps(s, Apply(s, e), e.target, p, ByTask(s.next));
  }

  lemma PublishKeeps(s: State, t: Tid)
    requires Inv(s) && Enabled(s, Publish(t))
    ensures Inv(Apply(s, Publish(t)))
  {
    var j := s.threads[t].j;
    assert At(s, j, ByThread(t));
    FrameOthers(s, Apply(s, Publish(t)), j);
    RightKeeps(s, Apply(s, Publish(t)), j, ByThread(t), ByHolder);
  }

  predicate OwnsNobody(th: Thread) {
    th.Idle? || (th.Handling? && !th.right)
  }

  /** Nobody's right moves. */
  lemma NobodyMoves(s: State, s': State)
    requires Tokens(s)
    requires s'.live == s.live && s'.tasks == s.tasks && s'.held == s.held && s'.lost == s.lost
    requires s'.threads.Keys == s.threads.Keys
    requires forall t :: t in s.threads && s'.threads[t] != s.threads[t] ==> OwnsNobody(s.threads[t]) && OwnsNobody(s'.threads[t])
    ensures Tokens(s')
  {
    forall j, p ensures At(s', j, p) <==> At(s, j, p) {
    }
    forall j | j in s'.live ensures exists p :: At(s', j, p) {
      var p :| At(s, j, p);
      assert At(s', j, p);
    }
  }

  lemma LeaveKeeps(s: State, t: Tid)
    requires Inv(s) && Enabled(s, Leave(t))
    ensures Inv(Apply(s, Leave(t)))
  {
    var j := s.threads[t].j;
    var s' := Apply(s, Leave(t));
    if s.threads[t].right {
      assert At(s, j, ByThread(t));
      FrameOthers(s, s', j);
      RightKeeps(s, s', j, ByThread(t), ByNobody);
    } else {
      NobodyMoves(s, s');
    }
  }

  lemma RaiseKeeps(s: State, j: Jid, st: Status)
    requires Inv(s) && Enabled(s, Raise(j, st))
    ensures Inv(Apply(s, Raise(j, st)))
  {
    NobodyMoves(s, Apply(s, Raise(j, st)));
  }

  lemma StepKeeps(s: State, e: Event)
    requires Inv(s) && Enabled(s, e) && Disciplined(e)
    ensures Inv(Apply(s, e))
  {
    match e
    case Go(_, sched) => GoKeeps(s, sched);
    case Take(t, id) => TakeKeeps(s, t, id);
    case Jump(t) => JumpKeeps(s, t);
    case Raise(j, st) => RaiseKeeps(s, j, st);
    case Return(t) => ReturnKeeps(s, t);
    case Exit(t) => ExitKeeps(s, t);
    case Publish(t) => PublishKeeps(s, t);
    case Proceed(_, _) => ProceedKeeps(s, e);
    case Leave(t) => LeaveKeeps(s, t);
    case _ => BodyKeeps(s, e);
  }

  lemma {:induction false} AlwaysInv(s: State, es: seq<Event>)
    requires Inv(s) && Legal(s, es) && DisciplinedRun(es)
    ensures Inv(Exec(s, es))
    decreases |es|
  {
    if es != [] {
      assert Disciplined(es[0]);
      StepKeeps(s, es[0]);
      AlwaysInv(Apply(s, es[0]), es[1..]);
    }
  }
}
