/** What nested coroutines of one thread do, seen from outside: a stack of active coroutines. */
module CoroStack {
  import opened Prelude

  /** The active coroutines, innermost last, and the ones whose body has begun and not ended. */
  datatype Flow<T(==)> = Flow(stack: seq<T>, started: set<T>)

  datatype Event<T, E> =
    | Start(c: T)
    | Resume(c: T)
    | Yield
    | Finish(exc: Option<E>)  // the body ends; with exc, by that exception

  /** What the code that gets control sees. */
  datatype Signal<E> =
    | Begun             // control is in the coroutine that was started or resumed
    | Back              // start or resume has returned
    | Thrown(exc: E)    // start or resume has rethrown the exception of the body
    | Refused           // a VERIFY has thrown, in the caller itself

  function Top<T>(f: Flow<T>): Option<T> {
    if f.stack == [] then None else Some(f.stack[|f.stack| - 1])
  }

  function Pop<T>(f: Flow<T>): Flow<T>
    requires f.stack != []
  {
    f.(stack := f.stack[..|f.stack| - 1])
  }

  function Answer<E>(exc: Option<E>): Signal<E> {
    if exc.None? then Back else Thrown(exc.value)
  }

  function Next<T, E>(f: Flow<T>, e: Event<T, E>): (Flow<T>, Signal<E>)
    requires e.Finish? ==> f.stack != []
  {
    match e
    case Start(c) =>
      if c in f.started || c in f.stack then (f, Refused) else (Flow(f.stack + [c], f.started + {c}), Begun)
    case Resume(c) =>
      if c !in f.started || c in f.stack then (f, Refused) else (Flow(f.stack + [c], f.started), Begun)
    case Yield =>
      if f.stack == [] then (f, Refused) else (Pop(f), Back)
    case Finish(exc) =>
      (Pop(f).(started := f.started - {f.stack[|f.stack| - 1]}), Answer(exc))
  }

  /** Only code inside a coroutine can end a coroutine. */
  ghost predicate Legal<T, E>(f: Flow<T>, es: seq<Event<T, E>>)
    decreases |es|
  {
    es == [] || ((es[0].Finish? ==> f.stack != []) && Legal(Next(f, es[0]).0, es[1..]))
  }

  ghost function Exec<T, E>(f: Flow<T>, es: seq<Event<T, E>>): Flow<T>
    requires Legal(f, es)
    decreases |es|
  {
    if es == [] then f else Exec(Next(f, es[0]).0, es[1..])
  }

  ghost predicate Sound<T>(f: Flow<T>) {
    Distinct(f.stack) && forall i :: 0 <= i < |f.stack| ==> f.stack[i] in f.started
  }

  lemma StepSound<T, E>(f: Flow<T>, e: Event<T, E>)
    requires Sound(f) && (e.Finish? ==> f.stack != [])
    ensures Sound(Next(f, e).0)
  {
  }

  /** However coroutines start, resume and end one another, the active ones form a stack without
      repetitions, and an active coroutine has begun and not ended. */
  lemma {:induction false} AlwaysSound<T, E>(f: Flow<T>, es: seq<Event<T, E>>)
    requires Sound(f) && Legal(f, es)
    ensures Sound(Exec(f, es))
    decreases |es|
  {
    if es != [] {
      StepSound(f, es[0]);
      AlwaysSound(Next(f, es[0]).0, es[1..]);
    }
  }

  /** After every run: a coroutine that is not active can be resumed exactly if its body has begun and not
      ended, and started exactly otherwise; it gets control on top of the unchanged stack. An active one can
      be neither started nor resumed. Inside a coroutine, and only there, control can be given back. */
  lemma WhoCanRun<T, E>(f0: Flow<T>, es: seq<Event<T, E>>, c: T)
    requires Sound(f0) && Legal(f0, es)
    ensures
      var f := Exec(f0, es); var resumed, started := Next(f, Event<T, E>.Resume(c)), Next(f, Event<T, E>.Start(c));
      && (c in f.stack ==> c in f.started && resumed == (f, Refused) && started == (f, Refused))
      && (c !in f.stack && c in f.started ==> resumed == (f.(stack := f.stack + [c]), Begun) && started == (f, Refused))
      && (c !in f.started ==> resumed == (f, Refused) && started == (Flow(f.stack + [c], f.started + {c}), Begun))
      && (Next(f, Event<T, E>.Yield).1 == (if f.stack == [] then Refused else Back))
  {
    AlwaysSound(f0, es);
    var f := Exec(f0, es);
    if c in f.stack {
      var i :| 0 <= i < |f.stack| && f.stack[i] == c;
    }
  }

  /** A coroutine that was started and yields is suspended, and is resumed where it was. */
  lemma StartYieldResume<T, E>(f: Flow<T>, c: T)
    requires Sound(f) && c !in f.started
    ensures
      var es: seq<Event<T, E>> := [Start(c), Yield, Resume(c)];
      && Legal(f, es) && Exec(f, es) == Flow(f.stack + [c], f.started + {c})
  {
    var es: seq<Event<T, E>> := [Start(c), Yield, Resume(c)];
    var f1 := Flow(f.stack + [c], f.started + {c});
    assert Next(f, es[0]).0 == f1;
    var f2 := Next(f1, es[1]).0;
    assert f2 == Flow(f.stack, f.started + {c});
    assert Next(f2, es[2]).0 == f1;
    assert es[1..] == [Yield, Resume(c)] && es[1..][1..] == [Resume(c)] && es[1..][1..][1..] == [];
    assert Legal(f2, [es[2]]) && Exec(f2, [es[2]]) == f1;
    assert Legal(f1, es[1..]) && Exec(f1, es[1..]) == f1;
  }

  /** During the run the stack is never shorter than n. */
  ghost predicate Above<T, E>(f: Flow<T>, es: seq<Event<T, E>>, n: nat)
    requires Legal(f, es)
    decreases |es|
  {
    n <= |f.stack| && (es == [] || Above(Next(f, es[0]).0, es[1..], n))
  }

  lemma {:induction false} AboveKeeps<T, E>(f: Flow<T>, es: seq<Event<T, E>>, n: nat)
    requires Legal(f, es) && Above(f, es, n)
    ensures n <= |Exec(f, es).stack| && Exec(f, es).stack[..n] == f.stack[..n]
    decreases |es|
  {
    if es != [] {
      var g := Next(f, es[0]).0;
      assert n <= |g.stack|;
      assert g.stack[..n] == f.stack[..n];
      AboveKeeps(g, es[1..], n);
    }
  }

  /** Whatever runs between the start or the resumption of a coroutine and the moment control comes back
      to its caller: it is that coroutine which gives control back, by yielding or ending; it is the
      caller that gets it; the caller finds the current coroutine it had; and it sees an exception just
      when the body has ended by that exception. */
  lemma ControlComesBack<T, E>(f: Flow<T>, e: Event<T, E>, mid: seq<Event<T, E>>, last: Event<T, E>)
    requires Sound(f) && (e.Start? || e.Resume?) && Next(f, e).1 == Begun
    requires var g := Next(f, e).0;
             && Legal(g, mid) && Above(g, mid, |f.stack| + 1)
             && |Exec(g, mid).stack| == |f.stack| + 1
             && (last.Yield? || last.Finish?)
    ensures var h := Exec(Next(f, e).0, mid);
            && Top(h) == Some(e.c)
            && Next(h, last).0.stack == f.stack
            && Next(h, last).1 == (if last.Finish? then Answer(last.exc) else Back)
            && (e.c in Next(h, last).0.started <==> last.Yield?)
  {
    var g := Next(f, e).0;
    var h := Exec(g, mid);
    AboveKeeps(g, mid, |f.stack| + 1);
    assert h.stack == g.stack;
    assert h.stack[..|f.stack|] == f.stack;
    StepSound(f, e);
    AlwaysSound(g, mid);
    assert h.stack[|f.stack|] == e.c;
  }
}

/** The coroutine object and the thread-local variable behind that stack. */
module CoroHeap {
  import opened Prelude
  import opened CoroStack

  /** A coroutine and its context. `callee` and `old_` are the locals `this` and `old` of the jump0 that
      code of this context has called and not yet returned from. */
  class Coro {
    var started: bool
    var running: bool
    var exc: Option<nat>
    var saved: Coro?
    var callee: Coro?
    var old_: Coro?

    constructor ()
      ensures !started && !running && exc == None
    {
      started, running, exc := false, false, None;
      saved, callee, old_ := null, null, null;
    }
  }

  class OsThread {
    const base: Coro     // stands for the context of the thread's own code; it is no coroutine
    var tCoro: Coro?     // the thread-local variable
    var current: Coro    // the context that really runs
    ghost var path: seq<Coro>
    ghost var pool: set<Coro>

    /** The thread's own code, then the active coroutines. */
    ghost predicate Shape()
      reads this
    {
      && |path| > 0 && path[0] == base && base !in pool && Distinct(path)
      && (forall i :: 0 < i < |path| ==> path[i] in pool)
      && current == path[|path| - 1]
      && tCoro == Named(|path| - 1)
    }

    ghost function Named(i: nat): Coro?
      requires i < |path|
      reads this
    {
      if i == 0 then null else path[i]
    }

    ghost predicate Link(i: nat)
      requires 0 < i < |path|
      reads this, path
    {
      && path[i].saved == path[i - 1]
      && path[i - 1].callee == path[i]
      && path[i - 1].old_ == Named(i - 1)
    }

    /** The saved contexts and the pending calls of jump0 lead from every active coroutine back to the code
        that resumed it. */
    ghost predicate Links()
      reads this, path
    {
      forall i: nat :: 0 < i < |path| ==> Link(i)
    }

    ghost predicate Flags()
      reads this, pool
    {
      forall c :: c in pool ==>
        && (c.running <==> c in path)
        && (c.running ==> c.started)
        && (c.started ==> c.exc == None)
    }

    ghost predicate Valid()
      reads this, pool, path
    {
      Shape() && Links() && Flags()
    }

    ghost function Started(): set<Coro>
      reads this, pool
    {
      set c | c in pool && c.started
    }

    ghost function Abs(): Flow<Coro>
      requires |path| > 0
      reads this, pool
    {
      Flow(path[1..], Started())
    }

    lemma StackOf(c: Coro)
      requires Shape() && c in pool
      ensures c in path[1..] <==> c in path
    {
      if c in path {
        var i :| 0 <= i < |path| && path[i] == c;
        assert path[1..][i - 1] == c;
      }
    }

    constructor (coros: set<Coro>)
      requires forall c :: c in coros ==> !c.started && !c.running
      ensures Valid() && pool == coros && Abs() == Flow([], {})
    {
      var b := new Coro();
      base, tCoro, current := b, null, b;
      path, pool := [b], coros;
    }

    /** jump0 up to the jump. */
    method JumpInto(c: Coro)
      requires Shape() && Links() && c in pool && c !in path
      modifies this, c`running, c`saved, current`callee, current`old_
      ensures Shape() && Links() && pool == old(pool) && path == old(path) + [c]
      ensures c.running
    {
      var prev := tCoro;
      tCoro := c;
      c.running := true;
      current.callee, current.old_ := c, prev;
      c.saved := current;
      current := c;
      path := path + [c];
      forall i: nat | 0 < i < |path| ensures Link(i) {
        assert i < |path| - 1 ==> old(Link(i));
      }
    }

    /** Control has gone into c, on top of the contexts `was`. */
    ghost predicate InControl(c: Coro, was: seq<Coro>)
      reads this, c
    {
      path == was + [c] && current == c && tCoro == c && c.running
    }

    ghost predicate Unchanged(c: Coro, was: seq<Coro>, started: bool, running: bool)
      reads this, c
    {
      path == was && c.started == started && c.running == running
    }

    method Start(c: Coro) returns (r: Signal<nat>)
      requires Valid() && c in pool
      modifies this, c, current
      ensures Valid() && pool == old(pool)
      ensures (Abs(), r) == Next(old(Abs()), CoroStack.Event<Coro, nat>.Start(c))
      ensures r == (if old(c.started) || old(c.running) then Refused else Begun)
      ensures r == Begun ==> c.started && InControl(c, old(path))
      ensures r == Refused ==> Unchanged(c, old(path), old(c.started), old(c.running))
    {
      StackOf(c);
      if c.started || c.running {
        return Refused;
      }
      c.started := true;
      c.exc := None;
      JumpInto(c);
      r := Begun;
      assert path[1..] == old(path)[1..] + [c];
      assert Started() == old(Started()) + {c};
    }

    method Resume(c: Coro) returns (r: Signal<nat>)
      requires Valid() && c in pool
      modifies this, c, current
      ensures Valid() && pool == old(pool)
      ensures (Abs(), r) == Next(old(Abs()), CoroStack.Event<Coro, nat>.Resume(c))
      ensures r == (if !old(c.started) || old(c.running) then Refused else Begun)
      ensures r == Begun ==> c.started && InControl(c, old(path))
      ensures r == Refused ==> Unchanged(c, old(path), old(c.started), old(c.running))
    {
      StackOf(c);
      if !c.started || c.running {
        return Refused;
      }
      JumpInto(c);
      r := Begun;
      assert path[1..] == old(path)[1..] + [c];
      assert Started() == old(Started());
    }

    /** yield0 of the current coroutine, and the rest of the jump0 that is pending where control lands. */
    method JumpBack() returns (r: Signal<nat>)
      requires Shape() && Links() && tCoro != null
      modifies this, current`running
      ensures Shape() && Links() && pool == old(pool) && path == old(path)[..|old(path)| - 1]
      ensures !old(current).running
      ensures r == Answer(old(current.exc))
    {
      assert Link(|path| - 1);
      current := tCoro.saved;
      var self := current.callee;
      self.running := false;
      tCoro := current.old_;
      r := Answer(self.exc);
      path := path[..|path| - 1];
      forall i: nat | 0 < i < |path| ensures Link(i) {
        assert old(Link(i));
      }
    }

    /** Control has gone back to the context below the top of `was`. */
    ghost predicate LeftTo(was: seq<Coro>)
      reads this
    {
      |was| > 1 && path == was[..|was| - 1] && current == was[|was| - 2] && tCoro == (if |was| == 2 then null else current)
    }

    method Yield() returns (r: Signal<nat>)
      requires Valid()
      modifies this, current
      ensures Valid() && pool == old(pool)
      ensures (Abs(), r) == Next(old(Abs()), CoroStack.Event<Coro, nat>.Yield)
      ensures r == (if old(tCoro) == null then Refused else Back)
      ensures r == Refused ==> path == old(path)
      ensures r == Back ==> LeftTo(old(path)) && old(current).started && !old(current).running
    {
      if tCoro == null {
        return Refused;
      }
      r := JumpBack();
      assert path[1..] == old(path[1..])[..|old(path)| - 2];
      assert Started() == old(Started());
    }

    /** The end of starter0. */
    method Finish(exc: Option<nat>) returns (r: Signal<nat>)
      requires Valid() && tCoro != null
      modifies this, current
      ensures Valid() && pool == old(pool)
      ensures (Abs(), r) == Next(old(Abs()), CoroStack.Event<Coro, nat>.Finish(exc))
      ensures r == (if exc == None then Back else Thrown(exc.value))
      ensures LeftTo(old(path)) && !old(current).started && !old(current).running
    {
      tCoro.exc := exc;
      tCoro.started := false;
      forall i: nat | 0 < i < |path| ensures Link(i) {
        assert old(Link(i));
      }
      r := JumpBack();
      assert path[1..] == old(path[1..])[..|old(path)| - 2];
      assert Started() == old(Started()) - {old(current)};
    }
  }
}
