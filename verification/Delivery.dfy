/** When an event is taken: exactly by a call of its journey's own body, outside an unwinding, with events
    allowed; and what a guard that disables events is good for. */
module Delivery {
  import opened Prelude
  import opened Runtime
  import opened Tokens
  import opened Lifecycle

  /** A call, made by the body of journey j, that looks for events. A teleport to the scheduler where the
      journey is does not. */
  ghost predicate Looks(s: State, e: Event, j: Jid) {
    && BodyCall(s, e) && s.threads[e.t].j == j && j in s.live
    && (e.HandleEvents? || e.DisableEvents? || e.EnableEvents? || e.Defer? || (e.Teleport? && e.to != s.live[j].sched))
  }

  ghost predicate BodyCall(s: State, e: Event) {
    BodyEvent(e) && RunsBody(s, e.t)
  }

  /** The pending event of j is taken by this step. */
  ghost predicate Taken(s: State, e: Event, j: Jid) {
    && Looks(s, e, j) && !e.unwinding && (s.live[j].eventsAllowed || e.EnableEvents?)
    && j in s.goer && s.goer[j] != Normal
  }

  /** The status of a goer after each step: a pending event goes away just when it is taken, a second event is
      not accepted while one is pending, and an event is accepted while none is. */
  lemma StatusStep(s: State, e: Event, j: Jid)
    requires Inv(s) && Enabled(s, e) && Disciplined(e) && j in s.goer
    ensures
      var s' := Apply(s, e);
      && j in s'.goer
      && s'.goer[j] == if Taken(s, e, j) then Normal
                       else if e.Raise? && e.target == j && s.goer[j] == Normal then e.status
                       else s.goer[j]
  {
    if BodyEvent(e) {
      assert At(s, s.threads[e.t].j, ByThread(e.t));
      BodyStatus(s, e, j);
    }
  }

  lemma BodyStatus(s: State, e: Event, j: Jid)
    requires s.fault.None? && BodyEvent(e) && RunsBody(s, e.t) && j in s.goer
    requires s.threads[e.t].j in s.live && s.threads[e.t].j in s.goer
    ensures
      var s' := ApplyBody(s, e.t, e);
      j in s'.goer && s'.goer[j] == if Taken(s, e, j) then Normal else s.goer[j]
  {
  }

  /** A body call that does not take an event does what it says: it goes on, with events disabled or enabled,
      or it gives control up. One that takes it keeps control, in its exception path. */
  lemma CallStep(s: State, e: Event)
    requires Inv(s) && Enabled(s, e) && BodyEvent(e) && !e.Finish?
    ensures
      var j := s.threads[e.t].j; var s' := Apply(s, e);
      && j in s.live && j in s'.live
      && (s'.live[j].eventsAllowed == if e.EnableEvents? then true
                                      else if e.DisableEvents? && !Taken(s, e, j) then false
                                      else s.live[j].eventsAllowed)
      && (RunsBody(s', e.t) <==>
            Taken(s, e, j) || !(e.Defer? || (e.Teleport? && e.to != s.live[j].sched)))
  {
    assert At(s, s.threads[e.t].j, ByThread(e.t));
  }

  /** Nobody but its own body disables or enables the events of a journey. */
  lemma OthersCannotAllow(s: State, e: Event, j: Jid)
    requires Inv(s) && Enabled(s, e) && Disciplined(e) && j in s.live && j in Apply(s, e).live
    requires !(BodyCall(s, e) && s.threads[e.t].j == j && (e.EnableEvents? || e.DisableEvents?))
    ensures Apply(s, e).live[j].eventsAllowed == s.live[j].eventsAllowed
  {
    if BodyEvent(e) {
      assert At(s, s.threads[e.t].j, ByThread(e.t));
      BodyAllows(s, e, j);
    } else if e.Jump? || e.Return? || e.Exit? {
      CoroAllows(s, e, j);
    } else {
      RestAllows(s, e, j);
    }
  }

  lemma BodyAllows(s: State, e: Event, j: Jid)
    requires BodyEvent(e) && RunsBody(s, e.t) && s.threads[e.t].j in s.live && s.threads[e.t].j in s.goer
    requires j in s.live && (s.threads[e.t].j != j || !(e.EnableEvents? || e.DisableEvents?))
    ensures var s' := ApplyBody(s, e.t, e); j in s'.live && s'.live[j].eventsAllowed == s.live[j].eventsAllowed
  {
  }

  lemma CoroAllows(s: State, e: Event, j: Jid)
    requires Enabled(s, e) && (e.Jump? || e.Return? || e.Exit?) && j in s.live && j in Apply(s, e).live
    ensures Apply(s, e).live[j].eventsAllowed == s.live[j].eventsAllowed
  {
  }

  lemma RestAllows(s: State, e: Event, j: Jid)
    requires Numbered(s) && Enabled(s, e) && !BodyEvent(e) && !e.Jump? && !e.Return? && !e.Exit? && j in s.live
    ensures j in Apply(s, e).live && Apply(s, e).live[j] == s.live[j]
  {
  }

  // ---- between DisableEvents and EnableEvents ----

  /** Body j calls EnableEvents somewhere in the run. */
  ghost predicate Enables(s: State, es: seq<Event>, j: Jid)
    requires Legal(s, es)
    decreases |es|
  {
    es != [] && ((es[0].EnableEvents? && BodyCall(s, es[0]) && s.threads[es[0].t].j == j) || Enables(Apply(s, es[0]), es[1..], j))
  }

  /** Journey j has been created, and if it still lives its events are disabled. */
  ghost predicate Masked(s: State, j: Jid) {
    j in s.goer && (j in s.live ==> !s.live[j].eventsAllowed)
  }

  lemma MaskedStep(s: State, e: Event, j: Jid)
    requires Inv(s) && Enabled(s, e) && Disciplined(e) && Masked(s, j)
    requires !(e.EnableEvents? && BodyCall(s, e) && s.threads[e.t].j == j)
    ensures Masked(Apply(s, e), j) && !Taken(s, e, j)
  {
    StatusStep(s, e, j);
    if j !in s.live {
      StaysDeleted(s, e, j);
    } else if e.DisableEvents? && s.threads[e.t].j == j {
      CallStep(s, e);
    } else if j in Apply(s, e).live {
      OthersCannotAllow(s, e, j);
    }
  }

  lemma StaysDeleted(s: State, e: Event, j: Jid)
    requires Inv(s) && Enabled(s, e) && Disciplined(e) && j in s.goer && j !in s.live
    ensures j !in Apply(s, e).live
  {
    if BodyEvent(e) {
      assert At(s, s.threads[e.t].j, ByThread(e.t));
      BodyStaysOwner(s, e);
    }
  }

  /** While a journey keeps its events disabled, none of its calls takes one: an event that was pending, or the
      first that arrives, is pending at the end of every such run, whatever all threads do. */
  lemma {:induction false} MaskedEventStays(s: State, es: seq<Event>, j: Jid)
    requires Inv(s) && Legal(s, es) && DisciplinedRun(es) && Masked(s, j) && !Enables(s, es, j)
    ensures
      var s' := Exec(s, es);
      && Inv(s') && Masked(s', j)
      && (s.goer[j] != Normal ==> s'.goer[j] == s.goer[j])
      && (s.goer[j] == Normal ==> s'.goer[j] == FirstRaised(es, j))
    decreases |es|
  {
    if es != [] {
      assert Disciplined(es[0]);
      StepKeeps(s, es[0]);
      MaskedStep(s, es[0], j);
      StatusStep(s, es[0], j);
      MaskedEventStays(Apply(s, es[0]), es[1..], j);
    }
  }

  /** The status of the first event raised for j; Normal if none is. */
  function FirstRaised(es: seq<Event>, j: Jid): Status {
    if es == [] then Normal
    else if es[0].Raise? && es[0].target == j && es[0].status != Normal then es[0].status
    else FirstRaised(es[1..], j)
  }

  /** A guard: the body disables events, and no event was there to be taken; then anything happens that is no
      EnableEvents of that body; then the body enables events, not in an unwinding. If an event was raised in
      between, the first one is taken at that moment, and not before; otherwise nothing is taken. */
  lemma GuardDefersEvents(s: State, t: Tid, u: bool, es: seq<Event>, v: Tid)
    requires Inv(s) && Enabled(s, DisableEvents(t, u)) && !Taken(s, DisableEvents(t, u), s.threads[t].j)
    requires
      var s1 := Apply(s, DisableEvents(t, u));
      && Legal(s1, es) && DisciplinedRun(es) && !Enables(s1, es, s.threads[t].j)
      && RunsBody(Exec(s1, es), v) && Exec(s1, es).threads[v].j == s.threads[t].j && Enabled(Exec(s1, es), EnableEvents(v, false))
    ensures
      var j := s.threads[t].j; var s1 := Apply(s, DisableEvents(t, u)); var s2 := Exec(s1, es);
      && j in s.goer && j in s2.goer
      && s2.goer[j] == (if s.goer[j] == Normal then FirstRaised(es, j) else s.goer[j])
      && (Taken(s2, EnableEvents(v, false), j) <==> s2.goer[j] != Normal)
      && Apply(s2, EnableEvents(v, false)).goer[j] == Normal
      && j in Apply(s2, EnableEvents(v, false)).live && Apply(s2, EnableEvents(v, false)).live[j].eventsAllowed
  {
    var j := s.threads[t].j;
    var s1 := Apply(s, DisableEvents(t, u));
    assert At(s, j, ByThread(t));
    StatusStep(s, DisableEvents(t, u), j);
    CallStep(s, DisableEvents(t, u));
    StepKeeps(s, DisableEvents(t, u));
    MaskedEventStays(s1, es, j);
    var s2 := Exec(s1, es);
    assert At(s2, j, ByThread(v));
    StatusStep(s2, EnableEvents(v, false), j);
    CallStep(s2, EnableEvents(v, false));
  }
}
