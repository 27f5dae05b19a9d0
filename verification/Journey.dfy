/** The journey and its goer as the objects whose fields the code updates, tied to the thread machine. */
module JourneyHeap {
  import opened Prelude
  import opened Runtime

  /** The shared state of a goer. The ghost fields record the events that were accepted, and those that
      were taken out for delivery. */
  class Goer {
    var status: Status
    ghost var accepted: seq<Status>
    ghost var delivered: seq<Status>

    /** Every accepted event is delivered once, in order; at most one is pending. */
    ghost predicate Valid()
      reads this
    {
      && accepted == delivered + (if status == Normal then [] else [status])
      && forall i :: 0 <= i < |accepted| ==> accepted[i] != Normal
    }

    constructor ()
      ensures Valid() && status == Normal && accepted == []
    {
      status, accepted, delivered := Normal, [], [];
    }

    method SetStatus(s: Status) returns (ok: bool)
      requires Valid() && s != Normal
      modifies this
      ensures Valid() && delivered == old(delivered)
      ensures ok <==> old(status) == Normal
      ensures accepted == old(accepted) + (if ok then [s] else [])
      ensures status == if ok then s else old(status)
    {
      if status != Normal {
        return false;
      }
      status := s;
      accepted := accepted + [s];
      return true;
    }

    method Cancel() returns (ok: bool)
      requires Valid()
      modifies this
      ensures Valid() && delivered == old(delivered)
      ensures ok <==> old(status) == Normal
      ensures accepted == old(accepted) + (if ok then [Cancelled] else [])
    {
      ok := SetStatus(Cancelled);
    }

    method Timedout() returns (ok: bool)
      requires Valid()
      modifies this
      ensures Valid() && delivered == old(delivered)
      ensures ok <==> old(status) == Normal
      ensures accepted == old(accepted) + (if ok then [TimedOut] else [])
    {
      ok := SetStatus(TimedOut);
    }

    method Reset() returns (s: Status)
      requires Valid()
      modifies this
      ensures Valid() && status == Normal && accepted == old(accepted) && s == old(status)
      ensures delivered == old(delivered) + (if s == Normal then [] else [s])
    {
      s := status;
      status := Normal;
      if s != Normal {
        delivered := delivered + [s];
      }
    }
  }

  // ---- the step of one journey ----

  /** How a call made by the body ends. */
  datatype Ending = Returns | Throws(status: Status) | Yields

  datatype Local = Local(jn: Runtime.Journey, status: Status, ending: Ending)

  function CheckEvents(jn: Runtime.Journey, st: Status, unwinding: bool, otherwise: Local): Local {
    if Deliverable(jn, st, unwinding) then Local(jn, Normal, Throws(st)) else otherwise
  }

  /** What a call of the body does to its journey, and how it ends. */
  function LocalStep(jn: Runtime.Journey, st: Status, e: Event): Local
    requires e.HandleEvents? || e.DisableEvents? || e.EnableEvents? || e.Teleport? || e.Defer?
  {
    match e
    case HandleEvents(_, u) => CheckEvents(jn, st, u, Local(jn, st, Returns))
    case DisableEvents(_, u) => CheckEvents(jn, st, u, Local(jn.(eventsAllowed := false), st, Returns))
    case EnableEvents(_, u) =>
      var on := jn.(eventsAllowed := true);
      CheckEvents(on, st, u, Local(on, st, Returns))
    case Teleport(_, to, u) =>
      if to == jn.sched then Local(jn, st, Returns) else
      var moved := jn.(sched := to);
      CheckEvents(moved, st, u, Local(moved.(deferHandler := Some(Reschedule)), st, Yields))
    case Defer(_, code, u) => CheckEvents(jn, st, u, Local(jn.(deferHandler := Some(code)), st, Yields))
  }

  /** The machine's step of a running body is exactly that call on its own journey: nothing else of the
      state changes, but the thread, which has switched back just when the call yields. */
  lemma MachineStep(s: Runtime.State, t: Tid, e: Event)
    requires RunsBody(s, t) && s.threads[t].j in s.live && s.threads[t].j in s.goer
    requires (e.HandleEvents? || e.DisableEvents? || e.EnableEvents? || e.Teleport? || e.Defer?) && e.t == t
    ensures
      var j := s.threads[t].j;
      var l := LocalStep(s.live[j], s.goer[j], e);
      ApplyBody(s, t, e) == s.(live := s.live[j := l.jn], goer := s.goer[j := l.status],
                               threads := s.threads[t := if l.ending.Yields? then SwitchedBack(j, s.threads[t].on) else s.threads[t]])
  {
    var j := s.threads[t].j;
    assert s.live == s.live[j := s.live[j]];
    assert s.goer == s.goer[j := s.goer[j]];
    assert s.threads == s.threads[t := s.threads[t]];
    assert s.goer[j] == Normal || s.goer[j := Normal][j := s.goer[j]] == s.goer;
  }

  /** What onExit0 does: with the fields that the called handler finds. */
  datatype ExitAction = Deletes | Calls(jn: Runtime.Journey, code: Code)

  function LocalExit(jn: Runtime.Journey): ExitAction {
    match jn.deferHandler
    case None => Deletes
    case Some(code) => Calls(jn.(deferHandler := None), code)
  }

  /** The machine's step at the end of a run segment is exactly that action. */
  lemma MachineExit(s: Runtime.State, t: Tid)
    requires t in s.threads && s.threads[t].Exiting? && s.threads[t].j in s.live
    requires var jn := s.live[s.threads[t].j]; jn.deferHandler.None? ==> !jn.started && !jn.running
    ensures
      var j := s.threads[t].j;
      ApplyExit(s, t) ==
        match LocalExit(s.live[j])
        case Deletes => s.(live := s.live - {j}, destroyed := s.destroyed + 1, threads := s.threads[t := Idle])
        case Calls(jn, code) =>
          s.(live := s.live[j := jn], threads := s.threads[t := Handling(j, s.threads[t].on, code, true)])
  {
  }

  /** The fields of a journey. `unwinding` stands for std::uncaught_exception. A method that yields ends
      where the context is switched. The thread `t` only names the machine's step. */
  class Journey {
    var sched: Sched
    var eventsAllowed: bool
    var deferHandler: Option<Code>
    var started: bool
    var running: bool
    const goer: Goer
    ghost var deleted: bool   // `delete this` was reached

    constructor (s: Sched)
      ensures Snapshot() == NewJourney(s) && goer.Valid() && goer.status == Normal && fresh(goer) && !deleted
    {
      deleted := false;
      sched, eventsAllowed, deferHandler := s, true, None;
      started, running := false, false;
      goer := new Goer();
    }

    function Snapshot(): Runtime.Journey
      reads this
    {
      Runtime.Journey(sched, started, running, deferHandler, eventsAllowed)
    }

    ghost function State(ending: Ending): Local
      reads this, goer
    {
      Local(Snapshot(), goer.status, ending)
    }

    /** The pending event was taken by a call that ended like r, or it is still pending. */
    ghost predicate Took(r: Ending, pending: Status, delivered: seq<Status>)
      reads this, goer
    {
      if r.Throws? then r.status == pending && goer.status == Normal && goer.delivered == delivered + [pending]
      else goer.status == pending && goer.delivered == delivered
    }

    method HandleEvents(ghost t: Tid, unwinding: bool) returns (r: Ending)
      requires goer.Valid()
      modifies goer
      ensures goer.Valid()
      ensures State(r) == LocalStep(old(Snapshot()), old(goer.status), Event.HandleEvents(t, unwinding))
      ensures r.Throws? <==> old(eventsAllowed) && !unwinding && old(goer.status) != Normal
      ensures !r.Throws? ==> r == Returns
      ensures Took(r, old(goer.status), old(goer.delivered)) && goer.accepted == old(goer.accepted)
    {
      if !eventsAllowed || unwinding {
        return Returns;
      }
      var s := goer.Reset();
      if s == Normal {
        return Returns;
      }
      return Throws(s);
    }

    method DisableEvents(ghost t: Tid, unwinding: bool) returns (r: Ending)
      requires goer.Valid()
      modifies this, goer
      ensures goer.Valid() && deleted == old(deleted)
      ensures State(r) == LocalStep(old(Snapshot()), old(goer.status), Event.DisableEvents(t, unwinding))
      ensures r.Throws? <==> old(eventsAllowed) && !unwinding && old(goer.status) != Normal
      ensures !r.Throws? ==> r == Returns
      ensures Took(r, old(goer.status), old(goer.delivered)) && goer.accepted == old(goer.accepted)
      ensures eventsAllowed == (if r.Throws? then old(eventsAllowed) else false)
      ensures sched == old(sched) && deferHandler == old(deferHandler) && started == old(started) && running == old(running)
    {
      r := HandleEvents(t, unwinding);
      if r.Returns? {
        eventsAllowed := false;
      }
    }

    method EnableEvents(ghost t: Tid, unwinding: bool) returns (r: Ending)
      requires goer.Valid()
      modifies this, goer
      ensures goer.Valid() && deleted == old(deleted)
      ensures State(r) == LocalStep(old(Snapshot()), old(goer.status), Event.EnableEvents(t, unwinding))
      ensures r.Throws? <==> !unwinding && old(goer.status) != Normal
      ensures !r.Throws? ==> r == Returns
      ensures Took(r, old(goer.status), old(goer.delivered)) && goer.accepted == old(goer.accepted)
      ensures eventsAllowed
      ensures sched == old(sched) && deferHandler == old(deferHandler) && started == old(started) && running == old(running)
    {
      eventsAllowed := true;
      r := HandleEvents(t, unwinding);
    }

    method Defer(ghost t: Tid, code: Code, unwinding: bool) returns (r: Ending)
      requires goer.Valid()
      modifies this, goer
      ensures goer.Valid() && deleted == old(deleted)
      ensures State(r) == LocalStep(old(Snapshot()), old(goer.status), Event.Defer(t, code, unwinding))
      ensures r.Throws? <==> old(eventsAllowed) && !unwinding && old(goer.status) != Normal
      ensures !r.Throws? ==> r == Yields
      ensures Took(r, old(goer.status), old(goer.delivered)) && goer.accepted == old(goer.accepted)
      ensures deferHandler == (if r.Throws? then old(deferHandler) else Some(code))
      ensures sched == old(sched) && eventsAllowed == old(eventsAllowed) && started == old(started) && running == old(running)
    {
      r := HandleEvents(t, unwinding);
      if r.Returns? {
        deferHandler := Some(code);
        r := Yields;
      }
    }

    method Teleport(ghost t: Tid, to: Sched, unwinding: bool) returns (r: Ending)
      requires goer.Valid()
      modifies this, goer
      ensures goer.Valid() && deleted == old(deleted)
      ensures State(r) == LocalStep(old(Snapshot()), old(goer.status), Event.Teleport(t, to, unwinding))
      ensures r == Returns <==> to == old(sched)
      ensures r.Throws? <==> to != old(sched) && old(eventsAllowed) && !unwinding && old(goer.status) != Normal
      ensures Took(r, old(goer.status), old(goer.delivered)) && goer.accepted == old(goer.accepted)
      ensures sched == to && deferHandler == (if r.Yields? then Some(Reschedule) else old(deferHandler))
      ensures eventsAllowed == old(eventsAllowed) && started == old(started) && running == old(running)
    {
      if to == sched {
        return Returns;
      }
      sched := to;
      r := Defer(t, Reschedule, unwinding);
    }

    /** The rest of defer, and of teleport, once the journey is resumed. */
    method AfterYield(ghost t: Tid, unwinding: bool) returns (r: Ending)
      requires goer.Valid() && started && running && deferHandler.None?
      modifies goer
      ensures goer.Valid()
      ensures State(r) == LocalStep(old(Snapshot()), old(goer.status), Event.HandleEvents(t, unwinding))
      ensures r.Throws? <==> old(eventsAllowed) && !unwinding && old(goer.status) != Normal
      ensures !r.Throws? ==> r == Returns
      ensures Took(r, old(goer.status), old(goer.delivered)) && goer.accepted == old(goer.accepted)
    {
      r := HandleEvents(t, unwinding);
    }

    /** onExit0: without a deferred handler the journey is deleted; otherwise the handler is moved out, and
        is called with the field already empty. */
    method OnExit() returns (exit: ExitAction)
      requires !deleted
      modifies this
      ensures exit == LocalExit(old(Snapshot()))
      ensures deleted <==> exit.Deletes?
      ensures exit.Calls? ==> Snapshot() == exit.jn
    {
      if deferHandler.None? {
        deleted := true;
        return Deletes;
      }
      var handler := deferHandler.value;
      deferHandler := None;
      return Calls(Snapshot(), handler);
    }
  }
}
