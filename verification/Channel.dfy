/** The channel: a linked list of waiting journeys, newest first, beside a queue of values. */
module ChannelValue {
  /** The state that the mutex protects. `waiters` are the waiting readers, newest first. */
  datatype Chan<W, T> = Chan(waiters: seq<W>, queue: seq<T>, closed: bool) {

    /** put under the lock: the newest waiter gets the value, or else the queue. */
    function Put(v: T): Chan<W, T> {
      if waiters != [] then this.(waiters := waiters[1..]) else this.(queue := queue + [v])
    }

    /** get under the lock, when there is a value. */
    function Take(): Chan<W, T>
      requires queue != []
    {
      this.(queue := queue[1..])
    }

    /** get under the lock, when there is neither a value nor an end. */
    function Park(w: W): Chan<W, T> {
      this.(waiters := [w] + waiters)
    }

    /** close under the lock. */
    function Close(): Chan<W, T> {
      if closed then this else Chan([], queue, true)
    }

    function Open(): Chan<W, T> {
      this.(closed := false)
    }

    /** Readers wait only on an empty open channel. */
    ghost predicate Sane() {
      waiters != [] ==> queue == [] && !closed
    }
  }
}

module ChannelHeap {
  import opened Prelude
  import opened ChannelValue

  /** What put or close has told a reader. */
  datatype Answer<T> = NotYet | Gave(v: T) | Ended

  /** One call of get that waits. `val` is the reader's variable, `hasValue` whether the pointer to
      it is still set, `proc` whether the proceed handler is stored. The object lives on the stack
      of the reader: after proceed nothing is known about its link. */
  class Waiter<T> {
    var next: Waiter?<T>
    var val: T
    var hasValue: bool
    var proc: bool
    var proceeded: nat   // how many times the proceed handler was called
    ghost var answer: Answer<T>

    constructor (v: T)
      ensures next == null && val == v && Pending() && !proc
    {
      next, val, hasValue, proc, proceeded := null, v, true, false, 0;
      answer := NotYet;
    }

    ghost predicate Pending()
      reads this
    {
      hasValue && proceeded == 0 && answer == NotYet
    }

    /** The reader was told something, once, and finds it in its fields. */
    ghost predicate Told()
      reads this
    {
      && proceeded == 1 && answer != NotYet
      && (answer.Gave? ==> hasValue && val == answer.v)
      && (answer.Ended? ==> !hasValue)
    }

    method Proceed(v: T)
      requires proc && Pending()
      modifies this
      ensures Told() && answer == Gave(v)
    {
      answer := Gave(v);
      val := v;
      proceeded := proceeded + 1;
      next := null;
    }

    method ProceedEmpty()
      requires proc && Pending()
      modifies this
      ensures Told() && answer == Ended
    {
      answer := Ended;
      hasValue := false;
      proceeded := proceeded + 1;
      next := null;
    }
  }

  /** The intrusive list, newest waiter first. */
  class Waiters<T> {
    var root: Waiter?<T>
    ghost var spine: seq<Waiter<T>>   // the linked list from root on

    ghost predicate Linked()
      reads this, spine
    {
      && (root == null <==> spine == [])
      && (spine != [] ==> root == spine[0])
      && (forall i {:trigger spine[i].next} :: 0 <= i < |spine| - 1 ==> spine[i].next == spine[i + 1])
      && (spine != [] ==> spine[|spine| - 1].next == null)
      && Distinct(spine)
    }

    constructor ()
      ensures Linked() && spine == []
    {
      root, spine := null, [];
    }

    method Pop() returns (w: Waiter?<T>)
      requires Linked()
      modifies this
      ensures Linked()
      ensures w == null <==> old(spine) == []
      ensures w != null ==> old(spine) == [w] + spine && w in old(spine) && w !in spine
      ensures w == null ==> spine == []
      ensures forall u :: u in old(spine) <==> u == w || u in spine
      ensures |spine| == if w == null then 0 else |old(spine)| - 1
    {
      if root == null {
        return null;
      }
      w := root;
      root := root.next;
      spine := spine[1..];
    }

    method PopAll() returns (ws: Waiters<T>)
      requires Linked()
      modifies this
      ensures Linked() && spine == []
      ensures fresh(ws) && ws.Linked() && ws.spine == old(spine)
    {
      ws := new Waiters<T>();
      ws.root, ws.spine := root, spine;
      root, spine := null, [];
    }

    method Push(w: Waiter<T>)
      requires Linked() && w !in spine
      modifies this, w`next
      ensures Linked() && spine == [w] + old(spine)
    {
      w.next := root;
      root := w;
      spine := [w] + spine;
    }

    /** The loop of close: each link is read before its waiter proceeds, never afterwards. */
    method ProceedAll()
      requires Linked()
      requires forall w :: w in spine ==> w.proc && w.Pending()
      modifies this, spine
      ensures forall w :: w in old(spine) ==> w.Told() && w.answer == Ended
      ensures spine == []
    {
      ghost var gone: set<Waiter<T>> := {};
      var w := Pop();
      while w != null
        invariant Linked() && (w == null ==> spine == [])
        invariant w != null ==> w in old(spine) && w !in spine && w !in gone && w.proc && w.Pending()
        invariant forall u :: u in spine ==> u in old(spine) && u !in gone && u.proc && u.Pending()
        invariant forall u :: u in gone ==> u.Told() && u.answer == Ended
        invariant forall u :: u in old(spine) ==> u in gone || u == w || u in spine
        decreases w != null, |spine|
      {
        w.ProceedEmpty();
        gone := gone + {w};
        w := Pop();
      }
    }
  }

  datatype Outcome<T> = Value(v: T) | End | Waits(w: Waiter<T>)

  class Channel<T> {
    const waiters: Waiters<T>
    var queue: seq<T>
    var closed: bool
    var locked: bool

    ghost predicate Valid()
      reads this, waiters, waiters.spine
    {
      && waiters.Linked()
      && Contents().Sane()
      && (forall w :: w in waiters.spine ==> w.Pending())
      && (!locked ==> forall w :: w in waiters.spine ==> w.proc)
    }

    ghost function Contents(): Chan<Waiter<T>, T>
      reads this, waiters
    {
      Chan(waiters.spine, queue, closed)
    }

    constructor ()
      ensures Valid() && Contents() == Chan([], [], false) && !locked && fresh(waiters)
    {
      waiters := new Waiters<T>();
      queue, closed, locked := [], false, false;
    }

    method Put(v: T)
      requires Valid() && !locked
      modifies this, waiters, waiters.spine
      ensures Valid() && !locked && Contents() == old(Contents().Put(v))
      ensures old(waiters.spine) != [] ==> var w := old(waiters.spine[0]); w.Told() && w.answer == Gave(v)
      ensures forall w :: w in waiters.spine ==> w.val == old(w.val)
    {
      var w := waiters.Pop();
      if w != null {
        assert w == old(waiters.spine)[0];
        w.Proceed(v);
      } else {
        queue := queue + [v];
      }
    }

    /** get up to the yield. A reader that has to wait leaves the mutex locked. */
    method Get(v: T) returns (r: Outcome<T>)
      requires Valid() && !locked
      modifies this, waiters
      ensures Valid()
      ensures old(queue) != [] ==> r == Value(old(queue)[0]) && Contents() == old(Contents().Take()) && !locked
      ensures old(queue) == [] && old(closed) ==> r == End && Contents() == old(Contents()) && !locked
      ensures old(queue) == [] && !old(closed) ==>
                r.Waits? && fresh(r.w) && locked && Contents() == old(Contents()).Park(r.w)
                && !r.w.proc && forall w :: w in old(waiters.spine) ==> w.proc
    {
      if queue != [] {
        r := Value(queue[0]);
        queue := queue[1..];
        return;
      }
      if closed {
        return End;
      }
      var w := new Waiter(v);
      waiters.Push(w);
      locked := true;
      r := Waits(w);
    }

    /** The end of get after the wait: it returns the value that the put which woke the reader was called
        with, and the end if a close woke it. */
    method GetResumed(w: Waiter<T>) returns (r: Outcome<T>)
      requires w.Told()
      ensures w.answer.Gave? ==> r == Value(w.answer.v)
      ensures w.answer.Ended? ==> r == End
    {
      r := if w.hasValue then Value(w.val) else End;
    }

    /** The deferred handler of get: it stores the proceed handler, then unlocks. */
    method Arm(w: Waiter<T>)
      requires Valid() && locked && waiters.spine != [] && w == waiters.spine[0]
      requires forall u :: u in waiters.spine[1..] ==> u.proc
      modifies this`locked, w`proc
      ensures Valid() && !locked && Contents() == old(Contents()) && w.proc
    {
      w.proc := true;
      locked := false;
      assert waiters.spine == [w] + waiters.spine[1..];
    }

    method Open()
      requires Valid() && !locked
      modifies this`closed
      ensures Valid() && Contents() == old(Contents().Open())
    {
      closed := false;
    }

    /** close: the whole list is taken under the lock, its waiters proceed one by one afterwards. */
    method Close()
      requires Valid() && !locked
      modifies this, waiters, waiters.spine
      ensures Valid() && !locked && Contents() == old(Contents().Close())
      ensures !old(closed) ==> forall w :: w in old(waiters.spine) ==> w.Told() && w.answer == Ended
    {
      if closed {
        return;
      }
      closed := true;
      var ws := waiters.PopAll();
      ws.ProceedAll();
    }
  }
}
