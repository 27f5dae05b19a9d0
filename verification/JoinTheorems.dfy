/** Each join resumes its caller exactly once, when and with what its documentation says. */
module JoinTheorems {
  import opened Prelude
  import opened Joins

  lemma InitInv<T>(j: Join<T>, s: State<T>)
    requires j.Init(s)
    ensures j.Inv(s)
  {
    WeightZero(s.children, CopyOf);
  }

  /** A journey whose copy is still there keeps the shared object alive. */
  lemma CopyHasRef<T>(j: Join<T>, s: State<T>, i: nat)
    requires j.Fits(s) && j.Counted(s) && i < |s.children| && HasCopy(s.children[i])
    ensures s.refs > 0 && s.destructor.Idle?
  {
    WeightUpdate(s.children, i, Gone, CopyOf);
  }

  lemma SpawnKeeps<T>(j: Join<T>, s: State<T>, i: nat)
    requires j.Inv(s) && j.Enabled(s, Spawn(i))
    ensures j.Inv(j.Apply(s, Spawn(i)))
  {
    WeightUpdate(s.children, i, Running, CopyOf);
  }

  lemma DropLocalKeeps<T>(j: Join<T>, s: State<T>)
    requires j.Inv(s) && j.Enabled(s, DropLocal)
    ensures s.refs > 0 && j.Inv(j.Apply(s, DropLocal))
  {
  }

  lemma EndKeeps<T>(j: Join<T>, s: State<T>, i: nat)
    requires j.Inv(s) && j.Enabled(s, End(i))
    ensures j.Inv(j.Apply(s, End(i)))
  {
    WeightUpdate(s.children, i, if j.Increments(i) then Trying else Releasing, CopyOf);
  }

  lemma IncrementKeeps<T>(j: Join<T>, s: State<T>, i: nat)
    requires j.Inv(s) && j.Enabled(s, Increment(i))
    ensures j.Inv(j.Apply(s, Increment(i)))
  {
    WeightUpdate(s.children, i, if s.counter == 0 then Winning else Releasing, CopyOf);
    CopyHasRef(j, s, i);
  }

  lemma WriteKeeps<T>(j: Join<T>, s: State<T>, i: nat)
    requires j.Inv(s) && j.Enabled(s, Write(i))
    ensures j.Inv(j.Apply(s, Write(i)))
  {
    WeightUpdate(s.children, i, Calling, CopyOf);
  }

  lemma CallKeeps<T>(j: Join<T>, s: State<T>, i: nat)
    requires j.Inv(s) && j.Enabled(s, Call(i))
    ensures j.Inv(j.Apply(s, Call(i)))
  {
    WeightUpdate(s.children, i, Releasing, CopyOf);
  }

  lemma ReleaseKeeps<T>(j: Join<T>, s: State<T>, i: nat)
    requires j.Inv(s) && j.Enabled(s, Release(i))
    ensures s.refs > 0 && j.Inv(j.Apply(s, Release(i)))
  {
    CopyHasRef(j, s, i);
    WeightUpdate(s.children, i, Gone, CopyOf);
  }

  /** The object is destroyed after all its journeys have released it. */
  lemma DestroyedLast<T>(j: Join<T>, s: State<T>)
    requires j.Inv(s) && !s.destructor.Idle?
    ensures !s.local && forall i :: 0 <= i < |s.children| ==> s.children[i].Gone?
  {
    WeightZero(s.children, CopyOf);
  }

  lemma DestroyKeeps<T>(j: Join<T>, s: State<T>)
    requires j.Inv(s) && j.Enabled(s, Destroy)
    ensures j.Inv(j.ApplyDestroy(s))
  {
    DestroyedLast(j, s);
  }

  lemma StepKeeps<T>(j: Join<T>, s: State<T>, e: Event)
    requires j.Inv(s) && j.Enabled(s, e)
    ensures (e.DropLocal? || e.Release? ==> s.refs > 0) && j.Inv(j.Apply(s, e))
  {
    match e
    case Spawn(i) => SpawnKeeps(j, s, i);
    case DropLocal => DropLocalKeeps(j, s);
    case End(i) => EndKeeps(j, s, i);
    case Increment(i) => IncrementKeeps(j, s, i);
    case Write(i) => WriteKeeps(j, s, i);
    case Call(i) => CallKeeps(j, s, i);
    case Release(i) => ReleaseKeeps(j, s, i);
    case Destroy => DestroyKeeps(j, s);
  }

  // ---- runs ----

  ghost predicate Legal<T>(j: Join<T>, s: State<T>, es: seq<Event>)
    decreases |es|
  {
    es == [] ||
    (j.Fits(s) && j.Enabled(s, es[0]) && ((es[0].DropLocal? || es[0].Release?) ==> s.refs > 0)
     && Legal(j, j.Apply(s, es[0]), es[1..]))
  }

  ghost function Exec<T>(j: Join<T>, s: State<T>, es: seq<Event>): State<T>
    requires Legal(j, s, es)
    decreases |es|
  {
    if es == [] then s else Exec(j, j.Apply(s, es[0]), es[1..])
  }

  lemma {:induction false} AlwaysInv<T>(j: Join<T>, s: State<T>, es: seq<Event>)
    requires j.Inv(s) && Legal(j, s, es)
    ensures j.Inv(Exec(j, s, es))
    decreases |es|
  {
    if es != [] {
      StepKeeps(j, s, es[0]);
      AlwaysInv(j, j.Apply(s, es[0]), es[1..]);
    }
  }

  /** Nobody can take another step. */
  ghost predicate AtRest<T>(j: Join<T>, s: State<T>)
    requires j.Fits(s)
  {
    forall e :: !j.Enabled(s, e)
  }

  lemma RestIsOver<T>(j: Join<T>, s: State<T>)
    requires j.Inv(s)
    ensures AtRest(j, s) <==> s.destructor.Over?
  {
    if s.destructor.Over? {
      DestroyedLast(j, s);
    } else if s.destructor.Idle? {
      if i :| 0 <= i < |s.children| && HasCopy(s.children[i]) {
        BusyChildSteps(j, s, i);
      } else if s.local {
        SpawnerSteps(j, s, |s.children|);
      } else {
        WeightZero(s.children, CopyOf);
      }
    } else {
      assert j.Enabled(s, Destroy);
    }
  }

  lemma BusyChildSteps<T>(j: Join<T>, s: State<T>, i: nat)
    requires j.Inv(s) && i < |s.children| && HasCopy(s.children[i])
    ensures exists e :: j.Enabled(s, e)
  {
    var c := s.children[i];
    var e := if c.Running? then End(i) else if c.Trying? then Increment(i) else if c.Winning? then Write(i)
             else if c.Calling? then Call(i) else Release(i);
    assert j.Enabled(s, e);
  }

  lemma {:induction false} SpawnerSteps<T>(j: Join<T>, s: State<T>, m: nat)
    requires j.Inv(s) && s.local && m <= |s.children| && forall k :: m <= k < |s.children| ==> !s.children[k].Unspawned?
    ensures exists e :: j.Enabled(s, e)
    decreases m
  {
    if i :| 0 <= i < m && s.children[i].Unspawned? {
      if k :| 0 <= k < i && s.children[k].Unspawned? {
        FirstUnspawned(j, s, i);
      } else {
        assert j.Enabled(s, Spawn(i));
      }
    } else {
      assert j.Enabled(s, DropLocal);
    }
  }

  lemma {:induction false} FirstUnspawned<T>(j: Join<T>, s: State<T>, i: nat)
    requires j.Inv(s) && s.local && i < |s.children| && s.children[i].Unspawned?
    ensures exists e :: j.Enabled(s, e)
    decreases i
  {
    if k :| 0 <= k < i && s.children[k].Unspawned? {
      FirstUnspawned(j, s, k);
    } else {
      assert j.Enabled(s, Spawn(i));
    }
  }

  // ---- runs come to rest ----

  function ChildLeft(c: Child): nat {
    match c
    case Unspawned => 6
    case Running => 5
    case Trying => 4
    case Winning => 3
    case Calling => 2
    case Releasing => 1
    case Gone => 0
  }

  function Left<T>(s: State<T>): nat {
    Weight(s.children, ChildLeft) + (if s.local then 1 else 0)
    + (match s.destructor case Idle => 4 case Entered => 3 case Writing => 2 case CallingLast => 1 case Over => 0)
  }

  lemma StepUsesUp<T>(j: Join<T>, s: State<T>, e: Event)
    requires j.Inv(s) && j.Enabled(s, e) && ((e.DropLocal? || e.Release?) ==> s.refs > 0)
    ensures Left(j.Apply(s, e)) < Left(s)
  {
    match e
    case DropLocal =>
    case Destroy =>
    case _ => ChildUsesUp(j, s, e);
  }

  /** A child's step, or the spawning of one, moves just that child on. */
  lemma ChildUsesUp<T>(j: Join<T>, s: State<T>, e: Event)
    requires j.Fits(s) && j.Enabled(s, e) && !e.DropLocal? && !e.Destroy? && (e.Release? ==> s.refs > 0)
    requires e.Release? ==> s.destructor.Idle?
    ensures Left(j.Apply(s, e)) < Left(s)
  {
    WeightUpdate(s.children, e.i, j.Apply(s, e).children[e.i], ChildLeft);
  }

  /** No run is longer than six steps a handler and a few more. */
  lemma {:induction false} RunsEnd<T>(j: Join<T>, s: State<T>, es: seq<Event>)
    requires j.Inv(s) && Legal(j, s, es)
    ensures |es| <= Left(s)
    decreases |es|
  {
    if es != [] {
      StepUsesUp(j, s, es[0]);
      StepKeeps(j, s, es[0]);
      RunsEnd(j, j.Apply(s, es[0]), es[1..]);
    }
  }

  // ---- the three functions ----

  /** In every state of every run of every join: proceed was called at most once, and neither it nor a
      write of the caller's variable happened while the caller was not suspended. */
  lemma AtMostOnce<T>(j: Join<T>, s0: State<T>, es: seq<Event>)
    requires j.Init(s0) && Legal(j, s0, es)
    ensures var s := Exec(j, s0, es); !s.fault && s.resumed <= 1 && j.Inv(s)
  {
    InitInv(j, s0);
    AlwaysInv(j, s0, es);
  }

  /** goWait resumes its caller only when the spawn loop is over and every handler has ended, however it
      ended; and in a run that has come to rest the caller was resumed exactly once. */
  lemma GoWaitTheorem<T>(j: Join<T>, s0: State<T>, es: seq<Event>)
    requires j.mode.GoWait? && j.Init(s0) && Legal(j, s0, es)
    ensures var s := Exec(j, s0, es);
      && (s.resumed > 0 ==> !s.local && forall i :: 0 <= i < |s.children| ==> s.children[i].Gone?)
      && (j.Fits(s) && AtRest(j, s) ==> s.resumed == 1)
  {
    AtMostOnce(j, s0, es);
    var s := Exec(j, s0, es);
    if !s.destructor.Idle? { DestroyedLast(j, s); }
    RestIsOver(j, s);
  }

  /** goAnyWait: once the caller is resumed, the index it sees is that of the one handler whose increment
      produced 1, which returned normally; and at rest the caller was resumed exactly once if some handler
      returned normally, and not at all otherwise. */
  lemma GoAnyWaitTheorem<T>(j: Join<T>, s0: State<T>, es: seq<Event>)
    requires j.mode.GoAnyWait? && j.Init(s0) && Legal(j, s0, es)
    ensures var s := Exec(j, s0, es);
      && (s.resumed > 0 ==> s.winner.Handler? && s.winner.i < |j.outcomes| && j.outcomes[s.winner.i].Returns? && s.slot == Index(s.winner.i))
      && (j.Fits(s) && AtRest(j, s) ==>
            s.resumed == if exists i :: 0 <= i < |j.outcomes| && j.outcomes[i].Returns? then 1 else 0)
  {
    AtMostOnce(j, s0, es);
    var s := Exec(j, s0, es);
    RestIsOver(j, s);
    if s.destructor.Over? {
      DestroyedLast(j, s);
      if i :| 0 <= i < |j.outcomes| && j.outcomes[i].Returns? {
        assert j.Increments(i);
      }
    }
  }

  /** Handler i has returned a value. */
  predicate HasValue<T>(o: Outcome<T>) {
    o.Returns? && o.r.Some?
  }

  /** goAnyResult: once the caller is resumed, it sees the value of one handler that returned a value, the
      first to increment the counter; it sees nothing exactly if every handler threw or returned nothing; and
      at rest it was resumed exactly once, for every list of handlers, empty or not. */
  lemma GoAnyResultTheorem<T>(j: Join<T>, s0: State<T>, es: seq<Event>)
    requires j.mode.GoAnyResult? && j.Init(s0) && Legal(j, s0, es)
    ensures var s := Exec(j, s0, es);
      && (s.winner.Handler? ==> s.winner.i < |j.outcomes| && HasValue(j.outcomes[s.winner.i]))
      && (s.resumed > 0 && s.winner.Handler? ==> s.slot == Result(j.outcomes[s.winner.i].r))
      && (s.resumed > 0 ==> (s.slot == Result(None) <==> forall i :: 0 <= i < |j.outcomes| ==> !HasValue(j.outcomes[i])))
      && (s.resumed > 0 && s.slot != Result(None) ==>
            exists i :: 0 <= i < |j.outcomes| && HasValue(j.outcomes[i]) && s.slot == Result(j.outcomes[i].r))
      && (j.Fits(s) && AtRest(j, s) ==> s.resumed == 1)
  {
    AtMostOnce(j, s0, es);
    var s := Exec(j, s0, es);
    RestIsOver(j, s);
    if s.destructor.Over? { DestroyedLast(j, s); }
    forall i | 0 <= i < |j.outcomes| ensures j.Increments(i) <==> HasValue(j.outcomes[i]) {
    }
    if s.winner.Handler? { assert HasValue(j.outcomes[s.winner.i]); }
  }

  // ---- everyone that may increments ----

  /** A handler that has something to report, and is past its increment. */
  function Reported<T>(j: Join<T>, s: State<T>, i: nat): nat
    requires i < |s.children| && i < |j.outcomes|
  {
    var o := j.outcomes[i];
    var reports := match j.mode case GoWait => false case GoAnyWait => o.Returns? case GoAnyResult => HasValue(o);
    var c := s.children[i];
    if reports && (c.Winning? || c.Calling? || c.Releasing? || c.Gone?) then 1 else 0
  }

  function ReportedUpTo<T>(j: Join<T>, s: State<T>, m: nat): nat
    requires m <= |s.children| && m <= |j.outcomes|
  {
    if m == 0 then 0 else ReportedUpTo(j, s, m - 1) + Reported(j, s, m - 1)
  }

  /** The counter counts the handlers that reported, and the destructor of goAnyResult counts once more. */
  ghost predicate CounterCounts<T>(j: Join<T>, s: State<T>)
    requires j.Fits(s)
  {
    s.counter == ReportedUpTo(j, s, |s.children|)
               + (if j.mode.GoAnyResult? && !s.destructor.Idle? && !s.destructor.Entered? then 1 else 0)
  }

  lemma {:induction false} ReportedChange<T>(j: Join<T>, s: State<T>, s': State<T>, i: nat, m: nat)
    requires j.Fits(s) && j.Fits(s') && m <= |s.children| && i < |s.children|
    requires forall k :: 0 <= k < |s.children| && k != i ==> s'.children[k] == s.children[k]
    ensures ReportedUpTo(j, s', m) - ReportedUpTo(j, s, m) == if i < m then Reported(j, s', i) - Reported(j, s, i) else 0
    decreases m
  {
    if m > 0 { ReportedChange(j, s, s', i, m - 1); }
  }

  lemma {:induction false} NobodyReported<T>(j: Join<T>, s: State<T>, m: nat)
    requires m <= |s.children| && m <= |j.outcomes| && forall k :: 0 <= k < m ==> s.children[k].Unspawned?
    ensures ReportedUpTo(j, s, m) == 0
    decreases m
  {
    if m > 0 { NobodyReported(j, s, m - 1); }
  }

  lemma CountStep<T>(j: Join<T>, s: State<T>, e: Event)
    requires j.Inv(s) && j.Enabled(s, e) && ((e.DropLocal? || e.Release?) ==> s.refs > 0) && CounterCounts(j, s)
    ensures j.Fits(j.Apply(s, e)) && CounterCounts(j, j.Apply(s, e))
  {
    match e
    case DropLocal => SameReports(j, s, j.Apply(s, e));
    case Destroy => SameReports(j, s, j.ApplyDestroy(s));
    case _ => ChildCounts(j, s, e);
  }

  lemma SameReports<T>(j: Join<T>, s: State<T>, s': State<T>)
    requires j.Fits(s) && s'.children == s.children
    ensures ReportedUpTo(j, s', |s.children|) == ReportedUpTo(j, s, |s.children|)
  {
    if |s.children| > 0 { ReportedChange(j, s, s', 0, |s.children|); }
  }

  lemma ChildCounts<T>(j: Join<T>, s: State<T>, e: Event)
    requires j.Inv(s) && j.Enabled(s, e) && (e.Release? ==> s.refs > 0) && !e.DropLocal? && !e.Destroy? && CounterCounts(j, s)
    ensures j.Fits(j.Apply(s, e)) && CounterCounts(j, j.Apply(s, e))
  {
    ReportedChange(j, s, j.Apply(s, e), e.i, |s.children|);
    if HasCopy(s.children[e.i]) { CopyHasRef(j, s, e.i); }
  }

  lemma {:induction false} AlwaysCounts<T>(j: Join<T>, s: State<T>, es: seq<Event>)
    requires j.Inv(s) && CounterCounts(j, s) && Legal(j, s, es)
    ensures j.Fits(Exec(j, s, es)) && CounterCounts(j, Exec(j, s, es))
    decreases |es|
  {
    if es != [] {
      StepKeeps(j, s, es[0]);
      CountStep(j, s, es[0]);
      AlwaysCounts(j, j.Apply(s, es[0]), es[1..]);
    }
  }

  /** Nobody that has something to report forgets to: in every run of every join the counter is the number of
      handlers past their increment with something to report. */
  lemma EveryReportCounts<T>(j: Join<T>, s0: State<T>, es: seq<Event>)
    requires j.Init(s0) && Legal(j, s0, es)
    ensures j.Fits(Exec(j, s0, es)) && CounterCounts(j, Exec(j, s0, es))
  {
    InitInv(j, s0);
    NobodyReported(j, s0, |s0.children|);
    AlwaysCounts(j, s0, es);
  }
}
