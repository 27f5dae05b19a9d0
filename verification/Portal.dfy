/** Portals: scoped teleports. The bodies are those of a journey with no deliverable event. */
module Portal {
  import opened Prelude
  import R = Runtime
  import J = JourneyHeap

  type Sched = R.Sched

  datatype Body =
    | Skip
    | Work(tag: nat)                         // user code
    | Seq(first: Body, second: Body)
    | Throw
    | Catch(body: Body, handler: Body)
    | Teleport(dest: Sched)
    | Scope(dest: Sched, body: Body)         // { Portal p(dest); body }

  /** User code that ran, and the scheduler on which it did. */
  datatype Entry = Entry(tag: nat, at: Sched)

  /** The scheduler at the end, whether an exception leaves the body, the user code that ran, and the
      destinations of all calls of teleport, those of constructors and destructors included. */
  datatype Outcome = Outcome(sched: Sched, threw: bool, log: seq<Entry>, calls: seq<Sched>)

  function Then(a: Outcome, b: Outcome): Outcome {
    b.(log := a.log + b.log, calls := a.calls + b.calls)
  }

  function Meaning(b: Body, s: Sched): Outcome
    decreases b
  {
    match b
    case Skip => Outcome(s, false, [], [])
    case Work(tag) => Outcome(s, false, [Entry(tag, s)], [])
    case Throw => Outcome(s, true, [], [])
    case Seq(x, y) =>
      var a := Meaning(x, s);
      if a.threw then a else Then(a, Meaning(y, a.sched))
    case Catch(x, h) =>
      var a := Meaning(x, s);
      if a.threw then Then(a, Meaning(h, a.sched)) else a
    case Teleport(d) => Outcome(d, false, [], [d])
    case Scope(d, x) =>
      var a := Meaning(x, d);
      Outcome(s, a.threw, a.log, [d] + a.calls + [s])
  }

  /** The number of positions at which the scheduler really changes. */
  function Changes(s: Sched, calls: seq<Sched>): nat
    decreases |calls|
  {
    if calls == [] then 0
    else (if calls[0] == s then 0 else 1) + Changes(calls[0], calls[1..])
  }

  function Last(s: Sched, calls: seq<Sched>): Sched {
    if calls == [] then s else calls[|calls| - 1]
  }

  lemma {:induction false} ChangesAppend(s: Sched, xs: seq<Sched>, ys: seq<Sched>)
    ensures Changes(s, xs + ys) == Changes(s, xs) + Changes(Last(s, xs), ys)
    decreases |xs|
  {
    if xs == [] {
      assert xs + ys == ys;
    } else {
      assert (xs + ys)[1..] == xs[1..] + ys;
      ChangesAppend(xs[0], xs[1..], ys);
    }
  }

  lemma {:induction false} EndsAtLastCall(b: Body, s: Sched)
    ensures Meaning(b, s).sched == Last(s, Meaning(b, s).calls)
    decreases b
  {
    match b
    case Seq(x, y) =>
      EndsAtLastCall(x, s);
      EndsAtLastCall(y, Meaning(x, s).sched);
    case Catch(x, h) =>
      EndsAtLastCall(x, s);
      EndsAtLastCall(h, Meaning(x, s).sched);
    case _ =>
  }

  lemma ThenChanges(x: Body, s: Sched, rest: seq<Sched>)
    ensures Changes(s, Meaning(x, s).calls + rest) == Changes(s, Meaning(x, s).calls) + Changes(Meaning(x, s).sched, rest)
  {
    EndsAtLastCall(x, s);
    ChangesAppend(s, Meaning(x, s).calls, rest);
  }

  /** What the journey has recorded after two bodies, from what it had after the first. */
  lemma ThenDone(x: Body, s: Sched, m: Outcome, log: seq<Entry>, calls: seq<Sched>, switches: nat,
                 log1: seq<Entry>, calls1: seq<Sched>, switches1: nat)
    requires var a := Meaning(x, s);
             log1 == log + a.log && calls1 == calls + a.calls && switches1 == switches + Changes(s, a.calls)
    ensures var t := Then(Meaning(x, s), m);
            && log1 + m.log == log + t.log && calls1 + m.calls == calls + t.calls
            && switches1 + Changes(Meaning(x, s).sched, m.calls) == switches + Changes(s, t.calls)
  {
    ThenChanges(x, s, m.calls);
    Regroup(log, Meaning(x, s).log, m.log);
    Regroup(calls, Meaning(x, s).calls, m.calls);
  }

  lemma Regroup<T>(a: seq<T>, b: seq<T>, c: seq<T>)
    ensures (a + b) + c == a + (b + c)
  {
  }

  lemma ScopeChanges(d: Sched, x: Body, s: Sched)
    ensures Changes(s, Meaning(Scope(d, x), s).calls)
         == (if d == s then 0 else 1) + Changes(d, Meaning(x, d).calls) + (if Meaning(x, d).sched == s then 0 else 1)
  {
    var cs := Meaning(x, d).calls;
    ThenChanges(x, d, [s]);
    assert [d] + cs + [s] == [d] + (cs + [s]);
    assert ([d] + (cs + [s]))[1..] == cs + [s];
  }

  /** No teleport outside the constructors and destructors of portals. */
  predicate Scoped(b: Body) {
    match b
    case Teleport(_) => false
    case Seq(x, y) => Scoped(x) && Scoped(y)
    case Catch(x, h) => Scoped(x) && Scoped(h)
    case Scope(_, x) => Scoped(x)
    case _ => true
  }

  /** The entries that the text of the body allows: every piece of user code with the scheduler of the
      innermost portal around it. */
  function Lexical(b: Body, s: Sched): set<Entry> {
    match b
    case Work(tag) => {Entry(tag, s)}
    case Seq(x, y) => Lexical(x, s) + Lexical(y, s)
    case Catch(x, h) => Lexical(x, s) + Lexical(h, s)
    case Scope(d, x) => Lexical(x, d)
    case _ => {}
  }

  /** In a body whose teleports are all portals, the scheduler is restored on every exit, normal or by
      an exception, and every piece of user code, catch handlers included, runs on the scheduler of the
      innermost portal written around it. */
  lemma {:induction false} PortalsAreLexical(b: Body, s: Sched)
    requires Scoped(b)
    ensures Meaning(b, s).sched == s
    ensures forall i :: 0 <= i < |Meaning(b, s).log| ==> Meaning(b, s).log[i] in Lexical(b, s)
    decreases b
  {
    match b
    case Seq(x, y) =>
      PortalsAreLexical(x, s);
      PortalsAreLexical(y, s);
    case Catch(x, h) =>
      PortalsAreLexical(x, s);
      PortalsAreLexical(h, s);
    case Scope(d, x) =>
      PortalsAreLexical(x, d);
    case _ =>
  }

  /** The converse: a teleport outside portals to another scheduler is seen by the code after it. */
  lemma BareTeleportLeaks(d: Sched, s: Sched, tag: nat)
    requires d != s
    ensures var b := Seq(Teleport(d), Work(tag));
            Meaning(b, s).sched != s && |Meaning(b, s).log| == 1 && Meaning(b, s).log[0] !in Lexical(b, s)
  {
    assert Meaning(Seq(Teleport(d), Work(tag)), s).log == [Entry(tag, d)];
  }

  // ---- exceptions ----

  /** An exception leaves the body. Where the body runs has no part in it. */
  predicate Escapes(b: Body) {
    match b
    case Throw => true
    case Seq(x, y) => Escapes(x) || Escapes(y)
    case Catch(x, h) => Escapes(x) && Escapes(h)
    case Scope(_, x) => Escapes(x)
    case _ => false
  }

  /** The user code that runs: what follows an exception is skipped, and a handler runs only after one. */
  function Ran(b: Body): seq<nat> {
    match b
    case Work(tag) => [tag]
    case Seq(x, y) => Ran(x) + if Escapes(x) then [] else Ran(y)
    case Catch(x, h) => Ran(x) + if Escapes(x) then Ran(h) else []
    case Scope(_, x) => Ran(x)
    case _ => []
  }

  function Tags(log: seq<Entry>): seq<nat> {
    seq(|log|, i requires 0 <= i < |log| => log[i].tag)
  }

  lemma TagsAppend(a: seq<Entry>, b: seq<Entry>)
    ensures Tags(a + b) == Tags(a) + Tags(b)
  {
  }

  /** Teleports and portals decide where code runs, and nothing else: which code runs, in which order, and
      whether an exception leaves the body, are the same from every scheduler. In particular a portal passes
      an exception on, and a handler runs exactly if an exception reaches it. */
  lemma {:induction false} ExceptionsPass(b: Body, s: Sched)
    ensures Meaning(b, s).threw == Escapes(b)
    ensures Tags(Meaning(b, s).log) == Ran(b)
    decreases b
  {
    match b
    case Seq(x, y) =>
      ExceptionsPass(x, s);
      ExceptionsPass(y, Meaning(x, s).sched);
      TagsAppend(Meaning(x, s).log, Meaning(y, Meaning(x, s).sched).log);
    case Catch(x, h) =>
      ExceptionsPass(x, s);
      ExceptionsPass(h, Meaning(x, s).sched);
      TagsAppend(Meaning(x, s).log, Meaning(h, Meaning(x, s).sched).log);
    case Scope(d, x) => ExceptionsPass(x, d);
    case _ =>
  }

  /** The body with every teleport and every portal taken out. */
  function Erased(b: Body): Body {
    match b
    case Teleport(_) => Skip
    case Seq(x, y) => Seq(Erased(x), Erased(y))
    case Catch(x, h) => Catch(Erased(x), Erased(h))
    case Scope(_, x) => Erased(x)
    case _ => b
  }

  /** Taking portals and teleports out changes neither the code that runs nor how the body ends. */
  lemma {:induction false} ErasureKeeps(b: Body, s: Sched, s': Sched)
    ensures Meaning(Erased(b), s').threw == Meaning(b, s).threw
    ensures Tags(Meaning(Erased(b), s').log) == Tags(Meaning(b, s).log)
    ensures Meaning(Erased(b), s').calls == []
    decreases b
  {
    ExceptionsPass(b, s);
    ExceptionsPass(Erased(b), s');
    ErasedRuns(b);
    ErasedStays(b, s');
  }

  lemma {:induction false} ErasedRuns(b: Body)
    ensures Escapes(Erased(b)) == Escapes(b) && Ran(Erased(b)) == Ran(b)
    decreases b
  {
    match b
    case Seq(x, y) => ErasedRuns(x); ErasedRuns(y);
    case Catch(x, h) => ErasedRuns(x); ErasedRuns(h);
    case Scope(_, x) => ErasedRuns(x);
    case _ =>
  }

  lemma {:induction false} ErasedStays(b: Body, s: Sched)
    ensures Meaning(Erased(b), s).calls == [] && Meaning(Erased(b), s).sched == s
    decreases b
  {
    match b
    case Seq(x, y) => ErasedStays(x, s); ErasedStays(y, s);
    case Catch(x, h) => ErasedStays(x, s); ErasedStays(h, s);
    case Scope(_, x) => ErasedStays(x, s);
    case _ =>
  }

  /** A journey that runs a body, with what it has done so far. */
  class Trip {
    const journey: J.Journey
    var switches: nat          // how often the journey has left its thread
    var log: seq<Entry>
    ghost var calls: seq<Sched>
    ghost const thread: R.Tid

    /** The body runs, and no event is pending. */
    ghost predicate Valid()
      reads this, journey, journey.goer
    {
      && journey.goer.Valid() && journey.goer.status == R.Normal
      && journey.started && journey.running && journey.deferHandler.None? && !journey.deleted
    }

    constructor (j: J.Journey)
      requires j.goer.Valid() && j.goer.status == R.Normal && j.started && j.running && j.deferHandler.None? && !j.deleted
      ensures Valid() && journey == j && switches == 0 && log == [] && calls == []
    {
      journey, switches, log, calls := j, 0, [], [];
    }

    /** teleport of the journey object, and the way over the other scheduler if it yields: the switch back,
        onExit0, the continuation posted by the journey's own proceed handler, the resumption. */
    method Teleport(s: Sched)
      requires Valid()
      modifies this, journey, journey.goer
      ensures Valid() && journey.sched == s && calls == old(calls) + [s] && log == old(log)
      ensures switches == old(switches) + (if s == old(journey.sched) then 0 else 1)
    {
      calls := calls + [s];
      var r := journey.Teleport(thread, s, false);
      if r.Yields? {
        CrossOver();
      }
    }

    method CrossOver()
      requires journey.goer.Valid() && journey.goer.status == R.Normal && journey.started && journey.running
      requires journey.deferHandler == Some(R.Reschedule) && !journey.deleted
      modifies this`switches, journey, journey.goer
      ensures Valid() && journey.sched == old(journey.sched) && switches == old(switches) + 1
    {
      journey.running := false;
      var exit := journey.OnExit();
      assert exit.code == R.Reschedule;
      switches := switches + 1;
      journey.running := true;
      var r := journey.AfterYield(thread, false);
    }

    /** Runs a body. An exception that leaves a portal's scope runs the destructor first. */
    method Run(b: Body) returns (threw: bool)
      requires Valid()
      modifies this, journey, journey.goer
      ensures Valid() && threw == Meaning(b, old(journey.sched)).threw
      ensures journey.sched == Meaning(b, old(journey.sched)).sched
      ensures log == old(log) + Meaning(b, old(journey.sched)).log
      ensures calls == old(calls) + Meaning(b, old(journey.sched)).calls
      ensures switches == old(switches) + Changes(old(journey.sched), Meaning(b, old(journey.sched)).calls)
      ensures threw == Escapes(b)
      decreases b, 1
    {
      ExceptionsPass(b, journey.sched);
      threw := false;
      match b
      case Skip =>
      case Work(tag) => log := log + [Entry(tag, journey.sched)];
      case Throw => threw := true;
      case Seq(x, y) => threw := RunThen(b, x, y, false);
      case Catch(x, h) => threw := RunThen(b, x, h, true);
      case Teleport(d) => Teleport(d);
      case Scope(d, x) => threw := RunScope(d, x);
    }

    /** The second body runs if the first one ends in the given way. */
    method RunThen(ghost b: Body, x: Body, y: Body, caught: bool) returns (threw: bool)
      requires Valid() && b == if caught then Catch(x, y) else Seq(x, y)
      modifies this, journey, journey.goer
      ensures Valid()
      ensures var m := Meaning(b, old(journey.sched));
              && journey.sched == m.sched && threw == m.threw && log == old(log) + m.log && calls == old(calls) + m.calls
              && switches == old(switches) + Changes(old(journey.sched), m.calls)
      decreases b, 0
    {
      ghost var s := journey.sched;
      ghost var a := Meaning(x, s);
      threw := Run(x);
      assert Meaning(b, s) == if a.threw == caught then Then(a, Meaning(y, a.sched)) else a;
      if threw == caught {
        ghost var l, c, w := log, calls, switches;
        threw := Run(y);
        ThenDone(x, s, Meaning(y, a.sched), old(log), old(calls), old(switches), l, c, w);
      }
    }

    /** The portal's constructor, the body, the portal's destructor. */
    method RunScope(d: Sched, x: Body) returns (threw: bool)
      requires Valid()
      modifies this, journey, journey.goer
      ensures Valid()
      ensures journey.sched == old(journey.sched) && threw == Meaning(x, d).threw && log == old(log) + Meaning(x, d).log
      ensures calls == old(calls) + Meaning(Scope(d, x), old(journey.sched)).calls
      ensures switches == old(switches) + Changes(old(journey.sched), Meaning(Scope(d, x), old(journey.sched)).calls)
      decreases x, 2
    {
      var source := journey.sched;
      Teleport(d);
      threw := Run(x);
      Teleport(source);
      ScopeChanges(d, x, source);
    }
  }
}
