/** goWait, goAnyWait and goAnyResult: a suspended caller, a deferred handler that spawns one journey for
    each handler of the list, and a shared object that is destroyed with its last copy. Each journey and
    the spawning thread take their steps in any order. How a handler ends is fixed in advance, but
    arbitrary. */
module Joins {
  import opened Prelude

  datatype Mode = GoWait | GoAnyWait | GoAnyResult

  /** How a handler ends. goWait and goAnyWait ignore what it returns. */
  datatype Outcome<T> = Returns(r: Option<T>) | Throws

  datatype Child =
    | Unspawned
    | Running      // inside its handler
    | Trying       // about to increment the counter
    | Winning      // its increment produced 1; it is about to write the caller's variable
    | Calling      // about to call proceed
    | Releasing    // about to drop its copy of the shared object
    | Gone

  datatype Destructor = Idle | Entered | Writing | CallingLast | Over

  datatype Slot<T> = Unset | Index(i: nat) | Result(r: Option<T>)

  datatype Winner = Nobody | Handler(i: nat) | Last

  datatype State<T> = State(
    children: seq<Child>,
    local: bool,          // the spawning handler still has its own copy
    refs: nat,            // copies of the shared object
    counter: nat,
    winner: Winner,       // whose increment produced 1
    destructor: Destructor,
    slot: Slot<T>,        // index or result, a variable of the caller
    resumed: nat,         // calls of proceed
    fault: bool)          // proceed or a write while the caller is not suspended

  datatype Event =
    | Spawn(i: nat)
    | DropLocal
    | End(i: nat)
    | Increment(i: nat)
    | Write(i: nat)
    | Call(i: nat)
    | Release(i: nat)
    | Destroy

  predicate HasCopy(c: Child) {
    !c.Unspawned? && !c.Gone?
  }

  function CopyOf(c: Child): nat {
    if HasCopy(c) then 1 else 0
  }

  /** A list of handlers under one of the three functions. */
  datatype Join<T> = Join(mode: Mode, outcomes: seq<Outcome<T>>) {

    /** Whether the journey of handler i increments the counter after its handler. */
    predicate Increments(i: nat)
      requires i < |outcomes|
    {
      match mode
      case GoWait => false
      case GoAnyWait => outcomes[i].Returns?
      case GoAnyResult => outcomes[i].Returns? && outcomes[i].r.Some?
    }

    function Written(i: nat): Slot<T>
      requires i < |outcomes| && Increments(i)
    {
      if mode.GoAnyWait? then Index(i) else Result(outcomes[i].r)
    }

    ghost predicate Fits(s: State<T>) {
      |s.children| == |outcomes|
    }

    ghost predicate Enabled(s: State<T>, e: Event)
      requires Fits(s)
    {
      !s.fault &&
      match e
      case Spawn(i) => s.local && i < |s.children| && s.children[i].Unspawned? && forall k :: 0 <= k < i ==> !s.children[k].Unspawned?
      case DropLocal => s.local && forall k :: 0 <= k < |s.children| ==> !s.children[k].Unspawned?
      case End(i) => i < |s.children| && s.children[i].Running?
      case Increment(i) => i < |s.children| && s.children[i].Trying?
      case Write(i) => i < |s.children| && s.children[i].Winning? && Increments(i)
      case Call(i) => i < |s.children| && s.children[i].Calling?
      case Release(i) => i < |s.children| && s.children[i].Releasing?
      case Destroy => !s.destructor.Idle? && !s.destructor.Over?
    }

    static function SetChild(s: State<T>, i: nat, c: Child): State<T>
      requires i < |s.children|
    {
      s.(children := s.children[i := c])
    }

    /** One copy of the shared object is destroyed, and with the last one the object. */
    static function Drop(s: State<T>): State<T>
      requires s.refs > 0
    {
      s.(refs := s.refs - 1, destructor := if s.refs == 1 then Entered else s.destructor)
    }

    /** The caller's variable is written. */
    static function Store(s: State<T>, x: Slot<T>): State<T> {
      s.(slot := x, fault := s.fault || s.resumed > 0)
    }

    /** The caller's proceed handler is called. */
    static function Proceed(s: State<T>): State<T> {
      s.(resumed := s.resumed + 1, fault := s.fault || s.resumed > 0)
    }

    function ApplyDestroy(s: State<T>): State<T> {
      match s.destructor
      case Entered => (
        match mode
        case GoWait => Proceed(s).(destructor := Over)
        case GoAnyWait => s.(destructor := Over)
        case GoAnyResult =>
          if s.counter == 0 then s.(counter := 1, winner := Last, destructor := Writing)
          else s.(counter := s.counter + 1, destructor := Over)
        )
      case Writing => Store(s, Result(None)).(destructor := CallingLast)
      case CallingLast => Proceed(s).(destructor := Over)
      case _ => s
    }

    ghost function Apply(s: State<T>, e: Event): State<T>
      requires Fits(s) && Enabled(s, e) && ((e.DropLocal? || e.Release?) ==> s.refs > 0)
    {
      match e
      case Spawn(i) => SetChild(s, i, Running).(refs := s.refs + 1)
      case DropLocal => Drop(s.(local := false))
      case End(i) => SetChild(s, i, if Increments(i) then Trying else Releasing)
      case Increment(i) =>
        if s.counter == 0 then SetChild(s, i, Winning).(counter := 1, winner := Handler(i))
        else SetChild(s, i, Releasing).(counter := s.counter + 1)
      case Write(i) => Store(SetChild(s, i, Calling), Written(i))
      case Call(i) => Proceed(SetChild(s, i, Releasing))
      case Release(i) => Drop(SetChild(s, i, Gone))
      case Destroy => ApplyDestroy(s)
    }

    /** The deferred handler has just been entered. */
    ghost predicate Init(s: State<T>) {
      && Fits(s)
      && (forall i :: 0 <= i < |s.children| ==> s.children[i].Unspawned?)
      && s == State(s.children, true, 1, 0, Nobody, Idle, Unset, 0, false)
    }

    // ---- the invariant ----

    ghost predicate Counted(s: State<T>) {
      && s.refs == Weight(s.children, CopyOf) + (if s.local then 1 else 0)
      && (s.destructor.Idle? <==> s.refs > 0)
      && (!s.local ==> forall i :: 0 <= i < |s.children| ==> !s.children[i].Unspawned?)
    }

    /** Handler i is between winning and its call of proceed. */
    predicate Pending(c: Child) {
      c.Winning? || c.Calling?
    }

    ghost predicate Decided(s: State<T>)
      requires Fits(s)
    {
      match s.winner
      case Nobody =>
        && s.counter == 0 && s.slot == Unset
        && !s.destructor.Writing? && !s.destructor.CallingLast? && (mode.GoAnyResult? ==> !s.destructor.Over?)
        && s.resumed == (if mode.GoWait? && s.destructor.Over? then 1 else 0)
      case Handler(w) =>
        && w < |s.children| && Increments(w) && s.counter > 0
        && !s.destructor.Writing? && !s.destructor.CallingLast?
        && (Pending(s.children[w]) || s.children[w].Releasing? || s.children[w].Gone?)
        && s.resumed == (if Pending(s.children[w]) then 0 else 1)
        && s.slot == (if s.children[w].Winning? then Unset else Written(w))
      case Last =>
        && mode.GoAnyResult? && s.counter > 0
        && (s.destructor.Writing? || s.destructor.CallingLast? || s.destructor.Over?)
        && s.resumed == (if s.destructor.Over? then 1 else 0)
        && s.slot == (if s.destructor.Writing? then Unset else Result(None))
        && (forall i :: 0 <= i < |outcomes| ==> !Increments(i))
    }

    ghost predicate Inv(s: State<T>) {
      && Fits(s) && Counted(s) && Decided(s) && !s.fault
      && (forall i :: 0 <= i < |s.children| && Pending(s.children[i]) ==> s.winner == Handler(i))
      && (forall i :: 0 <= i < |s.children| && s.children[i].Trying? ==> Increments(i))
      && (forall i :: 0 <= i < |s.children| && Increments(i) && (s.children[i].Releasing? || s.children[i].Gone?) ==> s.winner.Handler?)
    }
  }
}
