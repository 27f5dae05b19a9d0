/** The reusable Waiter: a shared pointer whose deleter resumes the owner. One machine for any number of
    rounds of go and wait. */
module Barrier {
  import opened Prelude

  /** The owner of the waiter. */
  datatype Owner =
    | Body       // runs; may call go and wait
    | Yielding   // has called defer in wait; the deferred handler is to come
    | Moved      // the deferred handler has moved the member into its local pointer
    | Suspended  // the deferred handler is over
    | Ready      // proceed was called

  /** A journey started by go. It holds a copy of the pointer until it is gone. */
  datatype Child = Running | Releasing | Gone

  datatype State = State(
    owner: Owner,
    member: bool,         // the member pointer is not empty
    local: bool,          // the deferred handler's pointer is not empty
    refs: nat,            // use count of the current pointer
    deleting: bool,       // somebody has dropped the last copy and runs the deleter
    children: seq<Child>,
    sleeps: nat,          // waits that suspended the owner
    proceeds: nat,        // calls of proceed
    fault: bool)          // proceed while the owner is not suspended

  datatype Event =
    | Go
    | WaitFast            // unique() is true: wait returns at once
    | WaitSlow            // unique() is false, and the owner yields
    | WaitThrowing        // unique() is false, and defer throws an event before it yields
    | Move
    | DropLocal
    | End(i: nat)         // the handler ends, normally or by an exception
    | Release(i: nat)
    | Delete
    | Return              // the owner is resumed and makes a new pointer
    | ReturnThrowing      // the owner is resumed and an event is thrown before it makes one

  ghost predicate Enabled(s: State, e: Event) {
    !s.fault &&
    match e
    case Go => s.owner.Body?
    case WaitFast => s.owner.Body? && s.member && s.refs == 1
    case WaitSlow => s.owner.Body? && !(s.member && s.refs == 1)
    case WaitThrowing => s.owner.Body? && !(s.member && s.refs == 1)
    case Move => s.owner.Yielding?
    case DropLocal => s.owner.Moved?
    case End(i) => i < |s.children| && s.children[i].Running?
    case Release(i) => i < |s.children| && s.children[i].Releasing?
    case Delete => s.deleting
    case Return => s.owner.Ready?
    case ReturnThrowing => s.owner.Ready?
  }

  /** A copy is dropped; the last one runs the deleter. An empty pointer has no copies to drop. */
  function Drop(s: State): State {
    if s.refs == 0 then s else s.(refs := s.refs - 1, deleting := s.refs == 1)
  }

  ghost function Apply(s: State, e: Event): State
    requires Enabled(s, e)
  {
    match e
    case Go => s.(children := s.children + [Running], refs := if s.member then s.refs + 1 else s.refs)
    case WaitFast => s
    case WaitSlow => s.(owner := Yielding, sleeps := s.sleeps + 1)
    case WaitThrowing => s
    case Move => s.(owner := Moved, member := false, local := s.member)
    case DropLocal => (if s.local then Drop(s) else s).(owner := Suspended, local := false)
    case End(i) => s.(children := s.children[i := Releasing])
    case Release(i) => Drop(s.(children := s.children[i := Gone]))
    case Delete => s.(deleting := false, owner := Ready, proceeds := s.proceeds + 1, fault := !s.owner.Suspended?)
    case Return => s.(owner := Body, member := true, refs := 1)
    case ReturnThrowing => s.(owner := Body)
  }

  /** The constructor has run. */
  const START := State(Body, true, false, 1, false, [], 0, 0, false)

  // ---- the invariant ----

  function CopyOf(c: Child): nat {
    if c.Gone? then 0 else 1
  }

  /** The copies that journeys hold. */
  function Copies(cs: seq<Child>): nat {
    Weight(cs, CopyOf)
  }

  ghost predicate Asleep(s: State) {
    s.owner.Yielding? || s.owner.Moved? || s.owner.Suspended?
  }

  ghost predicate AllGone(s: State) {
    forall i :: 0 <= i < |s.children| ==> s.children[i].Gone?
  }

  ghost predicate Inv(s: State) {
    && !s.fault
    && s.refs == Copies(s.children) + (if s.member || s.local then 1 else 0)
    && (s.member <==> s.owner.Body? || s.owner.Yielding?)
    && (s.local <==> s.owner.Moved?)
    && (s.deleting ==> s.owner.Suspended?)
    && (s.owner.Suspended? ==> (s.deleting <==> s.refs == 0))
    && (s.owner.Ready? ==> s.refs == 0)
    && s.sleeps == s.proceeds + (if Asleep(s) then 1 else 0)
  }

  lemma NoCopies(cs: seq<Child>)
    ensures Copies(cs) == 0 <==> forall i :: 0 <= i < |cs| ==> cs[i].Gone?
  {
    WeightZero(cs, CopyOf);
  }

  /** After an event at the end of a wait: every pointer is empty, and will be. The owner may launch
      journeys with empty copies, and wait. */
  ghost predicate Emptied(s: State) {
    && !s.fault && !s.member && !s.local && !s.deleting && s.refs == 0 && !s.owner.Ready?
    && s.sleeps == s.proceeds + (if Asleep(s) then 1 else 0)
  }

  /** A step keeps the invariant, but for an event at the end of a wait, which empties the pointer. */
  lemma StepKeeps(s: State, e: Event)
    requires Inv(s) && Enabled(s, e)
    ensures if e.ReturnThrowing? then Emptied(Apply(s, e)) else Inv(Apply(s, e))
  {
    match e
    case Go => assert (s.children + [Running])[..|s.children|] == s.children;
    case End(i) => WeightUpdate(s.children, i, Releasing, CopyOf);
    case Release(i) => WeightUpdate(s.children, i, Gone, CopyOf);
    case _ =>
  }

  /** Once empty, always empty: no wait is fast, and no deleter will run. */
  lemma EmptiedStep(s: State, e: Event)
    requires Emptied(s) && Enabled(s, e)
    ensures Emptied(Apply(s, e))
    ensures !e.WaitFast? && !e.Delete? && !e.Return? && !e.ReturnThrowing?
    ensures Asleep(s) ==> Asleep(Apply(s, e))
  {
  }

  // ---- runs ----

  ghost predicate Legal(s: State, es: seq<Event>)
    decreases |es|
  {
    es == [] || (Enabled(s, es[0]) && Legal(Apply(s, es[0]), es[1..]))
  }

  ghost function Exec(s: State, es: seq<Event>): State
    requires Legal(s, es)
    decreases |es|
  {
    if es == [] then s else Exec(Apply(s, es[0]), es[1..])
  }

  /** No event is thrown at the end of a sleep. */
  ghost predicate Calm(es: seq<Event>) {
    forall i :: 0 <= i < |es| ==> !es[i].ReturnThrowing?
  }

  lemma {:induction false} EmptiedRun(s: State, es: seq<Event>)
    requires Emptied(s) && Legal(s, es)
    ensures Emptied(Exec(s, es)) && Calm(es)
    ensures Asleep(s) ==> Asleep(Exec(s, es))
    decreases |es|
  {
    if es != [] {
      EmptiedStep(s, es[0]);
      EmptiedRun(Apply(s, es[0]), es[1..]);
    }
  }

  lemma {:induction false} AlwaysInv(s: State, es: seq<Event>)
    requires Inv(s) && Legal(s, es)
    ensures if Calm(es) then Inv(Exec(s, es)) else Emptied(Exec(s, es))
    decreases |es|
  {
    if es != [] {
      StepKeeps(s, es[0]);
      if es[0].ReturnThrowing? {
        EmptiedRun(Apply(s, es[0]), es[1..]);
      } else {
        AlwaysInv(Apply(s, es[0]), es[1..]);
        assert Calm(es) <==> Calm(es[1..]) by { CalmTail(es); }
      }
    }
  }

  lemma CalmTail(es: seq<Event>)
    requires es != [] && !es[0].ReturnThrowing?
    ensures Calm(es) <==> Calm(es[1..])
  {
    assert forall i :: 0 < i < |es| ==> es[i] == es[1..][i - 1];
  }

  /** Over any number of rounds, events included: a wait that returns at once, and a sleep that ends, by an
      event or not, find every journey that was launched before gone; proceed is called at most once for
      each wait that sleeps, and only while the owner is suspended in it. A call of wait can end by an event
      before it sleeps exactly while some journey is left, or after an event has ended a sleep. */
  lemma WaitIsBarrier(es: seq<Event>)
    requires Legal(START, es)
    ensures
      var s := Exec(START, es);
      && (Enabled(s, WaitFast) || Enabled(s, Return) || Enabled(s, ReturnThrowing) ==> AllGone(s))
      && (s.owner.Body? ==> (Enabled(s, WaitThrowing) <==> !AllGone(s) || !Calm(es)))
      && !s.fault && s.proceeds <= s.sleeps <= s.proceeds + 1
      && (s.owner.Body? ==> s.proceeds == s.sleeps)
      && (Enabled(s, Delete) ==> s.owner.Suspended? && s.proceeds + 1 == s.sleeps)
  {
    AlwaysInv(START, es);
    if Calm(es) {
      InOrderFacts(Exec(START, es));
    } else {
      EmptiedFacts(Exec(START, es));
    }
  }

  lemma InOrderFacts(s: State)
    requires Inv(s)
    ensures Enabled(s, WaitFast) || Enabled(s, Return) || Enabled(s, ReturnThrowing) ==> AllGone(s)
    ensures s.owner.Body? ==> s.proceeds == s.sleeps && (Enabled(s, WaitThrowing) <==> !AllGone(s))
    ensures Enabled(s, Delete) ==> s.owner.Suspended? && s.proceeds + 1 == s.sleeps
    ensures s.proceeds <= s.sleeps <= s.proceeds + 1
  {
    NoCopies(s.children);
  }

  lemma EmptiedFacts(s: State)
    requires Emptied(s)
    ensures !Enabled(s, WaitFast) && !Enabled(s, Return) && !Enabled(s, ReturnThrowing) && !Enabled(s, Delete)
    ensures s.owner.Body? ==> s.proceeds == s.sleeps && Enabled(s, WaitThrowing)
    ensures s.proceeds <= s.sleeps <= s.proceeds + 1
  {
  }

  // ---- exactly when a call of wait is a barrier ----

  /** The first step of a call of wait, by whether an event is deliverable at the call. */
  function Call(s: State, deliverable: bool): Event {
    if s.member && s.refs == 1 then WaitFast else if deliverable then WaitThrowing else WaitSlow
  }

  /** The first m journeys are gone. */
  ghost predicate GoneBefore(s: State, m: nat) {
    m <= |s.children| && forall i :: 0 <= i < m ==> s.children[i].Gone?
  }

  /** In every run that begins with this call, whenever the owner runs again, every journey that was
      launched before the call is gone. */
  ghost predicate CallIsBarrier(s: State, deliverable: bool)
    requires s.owner.Body?
  {
    forall fs :: Legal(s, [Call(s, deliverable)] + fs) && Exec(s, [Call(s, deliverable)] + fs).owner.Body?
      ==> GoneBefore(Exec(s, [Call(s, deliverable)] + fs), |s.children|)
  }

  /** The call has not ended, or the journeys from before it are gone. */
  ghost predicate Holds(s: State, m: nat) {
    GoneBefore(s, m) || ((Inv(s) || Emptied(s)) && !s.owner.Body? && m <= |s.children|)
  }

  lemma {:induction false} HoldsRun(s: State, es: seq<Event>, m: nat)
    requires Holds(s, m) && Legal(s, es)
    ensures Holds(Exec(s, es), m)
    decreases |es|
  {
    if es != [] {
      if !GoneBefore(s, m) {
        NoCopies(s.children);
        if Inv(s) { StepKeeps(s, es[0]); } else { EmptiedStep(s, es[0]); }
      }
      HoldsRun(Apply(s, es[0]), es[1..], m);
    }
  }

  /** A call of wait is a barrier if and only if the journeys are gone already or no event is deliverable
      at the call. */
  lemma CallIsBarrierIff(es: seq<Event>, deliverable: bool)
    requires Legal(START, es) && Exec(START, es).owner.Body?
    ensures CallIsBarrier(Exec(START, es), deliverable) <==> AllGone(Exec(START, es)) || !deliverable
  {
    AlwaysInv(START, es);
    var s := Exec(START, es);
    var c := Call(s, deliverable);
    NoCopies(s.children);
    if AllGone(s) || !deliverable {
      forall fs | Legal(s, [c] + fs) && Exec(s, [c] + fs).owner.Body?
        ensures GoneBefore(Exec(s, [c] + fs), |s.children|)
      {
        assert ([c] + fs)[1..] == fs;
        if Inv(s) { StepKeeps(s, c); } else { EmptiedStep(s, c); }
        HoldsRun(Apply(s, c), fs, |s.children|);
      }
    } else {
      Unfold(s, c, []);
      assert !GoneBefore(Exec(s, [c] + []), |s.children|);
    }
  }

  /** A run in which it is none: an event that is deliverable at the first call of wait ends it while a
      journey runs. */
  lemma EarlyEvent() returns (es: seq<Event>)
    ensures Legal(START, es) && Exec(START, es).owner.Body? && !CallIsBarrier(Exec(START, es), true)
  {
    es := [Go];
    Unfold(START, Go, []);
    assert [Go] + [] == es;
    assert Exec(START, es).children[0].Running?;
    CallIsBarrierIff(es, true);
  }

  /** What a state of a sleeping owner still has to do before the owner runs again. */
  function Left(s: State): nat {
    Weight(s.children, StepsOf)
    + (match s.owner case Body => 0 case Yielding => 5 case Moved => 4 case Suspended => 3 case Ready => 1)
    + (if s.deleting then 0 else 1)
  }

  function StepsOf(c: Child): nat {
    match c case Running => 2 case Releasing => 1 case Gone => 0
  }

  /** A sleeping owner never sleeps for ever: a step is possible, and every step, whosoever it is,
      brings the end of the wait nearer. */
  lemma SleepEnds(s: State)
    requires Inv(s) && !s.owner.Body?
    ensures exists e :: Enabled(s, e) && !e.ReturnThrowing?
    ensures forall e :: Enabled(s, e) && !e.ReturnThrowing? ==> Left(Apply(s, e)) < Left(s)
  {
    NoCopies(s.children);
    if s.owner.Yielding? { assert Enabled(s, Move); }
    if s.owner.Moved? { assert Enabled(s, DropLocal); }
    if s.owner.Ready? { assert Enabled(s, Return); }
    if s.owner.Suspended? {
      if s.deleting {
        assert Enabled(s, Delete);
      } else {
        var i :| 0 <= i < |s.children| && !s.children[i].Gone?;
        assert Enabled(s, if s.children[i].Running? then End(i) else Release(i));
      }
    }
    forall e | Enabled(s, e) && !e.ReturnThrowing? ensures Left(Apply(s, e)) < Left(s) {
      match e
      case End(i) => WeightUpdate(s.children, i, Releasing, StepsOf);
      case Release(i) => WeightUpdate(s.children, i, Gone, StepsOf);
      case _ =>
    }
  }

  // ---- exactly when a wait that sleeps can return ----

  ghost predicate CanWake(s: State) {
    exists fs :: Legal(s, fs) && Exec(s, fs).owner.Body?
  }

  lemma {:induction false} WakeRun(s: State) returns (fs: seq<Event>)
    requires Inv(s)
    ensures Legal(s, fs) && Exec(s, fs).owner.Body?
    decreases Left(s)
  {
    if s.owner.Body? {
      fs := [];
    } else {
      SleepEnds(s);
      var e :| Enabled(s, e) && !e.ReturnThrowing?;
      StepKeeps(s, e);
      fs := WakeRun(Apply(s, e));
      Unfold(s, e, fs);
      fs := [e] + fs;
    }
  }

  lemma Unfold(s: State, e: Event, es: seq<Event>)
    requires Enabled(s, e) && Legal(Apply(s, e), es)
    ensures Legal(s, [e] + es) && Exec(s, [e] + es) == Exec(Apply(s, e), es)
  {
    assert ([e] + es)[1..] == es;
  }

  /** A wait that sleeps can return if and only if no earlier sleep was ended by an event. If none was,
      it does return, whatever the schedule (SleepEnds); otherwise the owner sleeps for ever. */
  lemma SleepReturnsIff(es: seq<Event>)
    requires Legal(START, es) && Asleep(Exec(START, es))
    ensures CanWake(Exec(START, es)) <==> Calm(es)
  {
    AlwaysInv(START, es);
    var s := Exec(START, es);
    if Calm(es) {
      var fs := WakeRun(s);
    } else {
      forall fs | Legal(s, fs) ensures !Exec(s, fs).owner.Body? {
        EmptiedRun(s, fs);
      }
    }
  }

  /** Such a run: one round that an event ends, and the next wait. */
  lemma LateEvent() returns (es: seq<Event>)
    ensures Legal(START, es) && Asleep(Exec(START, es)) && !CanWake(Exec(START, es))
  {
    var s1 := Apply(START, Go);
    var s2 := Apply(s1, WaitSlow);
    var s3 := Apply(s2, Move);
    var s4 := Apply(s3, DropLocal);
    var s5 := Apply(s4, End(0));
    var s6 := Apply(s5, Release(0));
    var s7 := Apply(s6, Delete);
    var s8 := Apply(s7, ReturnThrowing);
    var s9 := Apply(s8, WaitSlow);
    assert s9.owner.Yielding?;
    Unfold(s8, WaitSlow, []);
    Unfold(s7, ReturnThrowing, [WaitSlow]);
    es := [ReturnThrowing] + [WaitSlow];
    Unfold(s6, Delete, es);
    es := [Delete] + es;
    Unfold(s5, Release(0), es);
    es := [Release(0)] + es;
    Unfold(s4, End(0), es);
    es := [End(0)] + es;
    Unfold(s3, DropLocal, es);
    es := [DropLocal] + es;
    Unfold(s2, Move, es);
    es := [Move] + es;
    Unfold(s1, WaitSlow, es);
    es := [WaitSlow] + es;
    Unfold(START, Go, es);
    es := [Go] + es;
    assert es[7] == ReturnThrowing;
    SleepReturnsIff(es);
  }
}
