/** The channel's structural invariant: who waits where, and who holds the lock. Each event of the channel
    machine has a lemma that it keeps the invariant; a step of the runtime keeps it because nobody but the
    channel has the rights that its waiters have stored. The second part follows the holder of the mutex
    from the yield inside get to the unlock in its deferred handler: four steps, each of them always
    possible, and none that anybody else could take or undo. */
module ChannelSafety {
  import opened Prelude
  import R = Runtime
  import opened Tokens
  import opened Lifecycle
  import A = Affinity
  import opened ChannelMachine

  // ---- runtime steps ----

  /** A step of others leaves the thread that parks, and its journey's deferred handler, alone. */
  lemma BetweenStays(rt: R.State, e: R.Event, t: Tid, j: Jid)
    requires Inv(rt) && R.Enabled(rt, e) && R.Disciplined(e) && Between(rt, t, j)
    requires ThreadOf(e) != Some(t) || e.Return? || e.Exit?
    ensures Between(R.Apply(rt, e), t, j)
  {
    assert At(rt, j, ByThread(t));
    var rt' := R.Apply(rt, e);
    StepKeeps(rt, e);
    if ThreadOf(e) == Some(t) {
      OwnBetween(rt, e, t, j);
    } else {
      OtherThread(rt, e, t);
      OtherHasNoRight(rt, e, t, j);
      TouchNeedsRight(rt, e, j);
      assert AgreeOff(rt, rt, j);
    }
  }

  lemma OwnBetween(rt: R.State, e: R.Event, t: Tid, j: Jid)
    requires Inv(rt) && R.Enabled(rt, e) && Between(rt, t, j) && ThreadOf(e) == Some(t) && (e.Return? || e.Exit?)
    ensures Between(R.Apply(rt, e), t, j)
  {
    assert At(rt, j, ByThread(t));
  }

  lemma OtherThread(rt: R.State, e: R.Event, t: Tid)
    requires R.Enabled(rt, e) && t in rt.threads && ThreadOf(e) != Some(t) && !rt.threads[t].Idle?
    ensures t in R.Apply(rt, e).threads && R.Apply(rt, e).threads[t] == rt.threads[t]
  {
    if !e.Take? { A.OnStays(rt, e); }
  }

  lemma OtherHasNoRight(rt: R.State, e: R.Event, t: Tid, j: Jid)
    requires Inv(rt) && R.Enabled(rt, e) && R.Disciplined(e) && ThreadOf(e) != Some(t) && At(rt, j, ByThread(t))
    ensures !HasRight(rt, e, j)
  {
  }

  lemma RtKeeps<T>(s: State<T>, e: R.Event)
    requires Struct(s) && Enabled(s, Rt(e))
    ensures Struct(Apply(s, Rt(e)))
  {
    var s' := Apply(s, Rt(e));
    StepKeeps(s.rt, e);
    assert forall j, p {:trigger Has(s', j, p)} {:trigger Has(s, j, p)} :: Has(s', j, p) <==> Has(s, j, p);
    forall j | j in s'.armed ensures j in s'.rt.held && j !in s'.answered {
      HeldStays(s.rt, e, j);
    }
    forall t | t in s'.ops && s'.ops[t].Parking? ensures Between(s'.rt, t, s'.ops[t].j) {
      BetweenStays(s.rt, e, t, s.ops[t].j);
    }
  }

  // ---- channel steps ----

  lemma PutKeeps<T>(s: State<T>, t: Tid, v: T)
    requires Struct(s) && Enabled(s, Put(t, v))
    ensures Struct(ApplyPut(s, t, v))
  {
    var s' := ApplyPut(s, t, v);
    if s.chan.waiters != [] {
      forall j, p | Has(s', j, p) ensures Has(s, j, PutBack(p, t)) {
      }
      forall j, p, q | Has(s', j, p) && Has(s', j, q) ensures p == q {
        assert Has(s, j, PutBack(p, t)) && Has(s, j, PutBack(q, t));
      }
    } else {
      assert forall j, p {:trigger Has(s', j, p)} :: Has(s', j, p) <==> Has(s, j, p);
    }
  }

  /** Where a waiter was before put popped the newest one. */
  function PutBack(p: Spot, t: Tid): Spot {
    match p
    case InList(i) => InList(i + 1)
    case InHand(u) => if u == t then InList(0) else p
    case InClose(_, _) => p
  }

  lemma ParkKeeps<T>(s: State<T>, t: Tid)
    requires Struct(s) && Enabled(s, Get(t)) && s.chan.queue == [] && !s.chan.closed
    ensures Struct(ApplyGet(s, t))
  {
    var j := s.rt.threads[t].j;
    var rt' := R.Apply(s.rt, R.Defer(t, GET_HANDLER, false));
    assert At(s.rt, j, ByThread(t));
    assert !At(s.rt, j, ByHolder);
    StepKeeps(s.rt, R.Defer(t, GET_HANDLER, false));
    assert rt'.held == s.rt.held && Between(rt', t, j);
    ParkSpots(s, t, rt');
  }

  lemma ParkSpots<T>(s: State<T>, t: Tid, rt': R.State)
    requires Spots(s) && R.RunsBody(s.rt, t) && s.mutex.None? && rt'.held == s.rt.held && s.rt.threads[t].j !in s.armed
    ensures var j := s.rt.threads[t].j;
            Spots(s.(rt := rt', chan := s.chan.Park(j), mutex := Some(t), ops := s.ops[t := Parking(j)]))
    requires t !in s.ops
  {
    var j := s.rt.threads[t].j;
    var s' := s.(rt := rt', chan := s.chan.Park(j), mutex := Some(t), ops := s.ops[t := Parking(j)]);
    forall k, p | Has(s', k, p) ensures if p == InList(0) then k == j else Has(s, k, ParkBack(p)) {
    }
    forall k, p, q | Has(s', k, p) && Has(s', k, q) ensures p == q {
      assert p != InList(0) ==> Has(s, k, ParkBack(p));
      assert q != InList(0) ==> Has(s, k, ParkBack(q));
    }
  }

  function ParkBack(p: Spot): Spot {
    match p
    case InList(i) => if i > 0 then InList(i - 1) else p
    case _ => p
  }

  lemma GetKeeps<T>(s: State<T>, t: Tid)
    requires Struct(s) && Enabled(s, Get(t))
    ensures Struct(ApplyGet(s, t))
  {
    if s.chan.queue == [] && !s.chan.closed {
      ParkKeeps(s, t);
    } else {
      var s' := ApplyGet(s, t);
      assert forall j, p {:trigger Has(s', j, p)} :: Has(s', j, p) <==> Has(s, j, p);
    }
  }

  lemma ArmKeeps<T>(s: State<T>, t: Tid)
    requires Struct(s) && Enabled(s, Arm(t))
    ensures Struct(Apply(s, Arm(t)))
  {
    var s' := Apply(s, Arm(t));
    StepKeeps(s.rt, R.Publish(t));
    assert forall j, p {:trigger Has(s', j, p)} :: Has(s', j, p) <==> Has(s, j, p);
  }

  lemma UnlockKeeps<T>(s: State<T>, t: Tid)
    requires Struct(s) && Enabled(s, Unlock(t))
    ensures Struct(Apply(s, Unlock(t)))
  {
    var s' := Apply(s, Unlock(t));
    assert forall j, p {:trigger Has(s', j, p)} :: Has(s', j, p) <==> Has(s, j, p);
  }

  lemma GetReturnKeeps<T>(s: State<T>, t: Tid)
    requires Struct(s) && Enabled(s, GetReturn(t))
    ensures Struct(Apply(s, GetReturn(t)))
  {
    var s' := Apply(s, GetReturn(t));
    assert forall j, p {:trigger Has(s', j, p)} :: Has(s', j, p) <==> Has(s, j, p);
  }

  lemma OpenKeeps<T>(s: State<T>, t: Tid)
    requires Struct(s) && Enabled(s, Open(t))
    ensures Struct(Apply(s, Open(t)))
  {
    var s' := Apply(s, Open(t));
    assert forall j, p {:trigger Has(s', j, p)} :: Has(s', j, p) <==> Has(s, j, p);
  }

  lemma CloseKeeps<T>(s: State<T>, t: Tid)
    requires Struct(s) && Enabled(s, Close(t))
    ensures Struct(ApplyClose(s, t))
  {
    var s' := ApplyClose(s, t);
    if !s.chan.closed {
      forall j, p | Has(s', j, p) ensures Has(s, j, CloseBack(p, t)) {
      }
      forall j, p, q | Has(s', j, p) && Has(s', j, q) ensures p == q {
        assert Has(s, j, CloseBack(p, t)) && Has(s, j, CloseBack(q, t));
      }
    }
  }

  function CloseBack(p: Spot, t: Tid): Spot {
    match p
    case InClose(u, i) => if u == t then InList(i) else p
    case _ => p
  }

  /** A waiter that was popped proceeds. */
  lemma AnswerKeeps<T>(s: State<T>, m: State<T>, j: Jid, a: Option<T>, p: Spot, t: Tid)
    requires Struct(s) && Has(s, j, p) && !p.InList? && p.t == t && Popped(s, m, j, t)
    ensures Struct(Answer(m, j, a))
    ensures Answer(m, j, a) == m.(rt := R.Apply(m.rt, R.Proceed(R.Holder, j)), armed := m.armed - {j}, answered := m.answered[j := a])
  {
    var s' := Answer(m, j, a);
    var e := R.Proceed(R.Holder, j);
    assert j in s.armed && j in s.rt.held;
    StepKeeps(s.rt, e);
    forall k | k in s'.armed ensures k in s'.rt.held {
      HeldStays(s.rt, e, k);
    }
    AnswerSpots(s, s', j, t);
    AnswerLock(s, s', t);
    forall u | u in s'.ops && s'.ops[u].Parking? ensures Between(s'.rt, u, s'.ops[u].j) {
      BetweenStays(s.rt, e, u, s.ops[u].j);
    }
  }

  /** In m, thread t has dropped j from its operation and keeps the rest of it. */
  ghost predicate Popped<T>(s: State<T>, m: State<T>, j: Jid, t: Tid) {
    && m == s.(ops := m.ops)
    && (forall u :: u != t ==> (u in m.ops <==> u in s.ops) && (u in m.ops && u in s.ops ==> m.ops[u] == s.ops[u]))
    && (t in m.ops ==> !m.ops[t].Parking? && !m.ops[t].Unlocking?)
    && t in s.ops && !s.ops[t].Parking? && !s.ops[t].Unlocking?
    && (forall k, q {:trigger Has(m, k, q)} :: Has(m, k, q) ==> Has(s, k, NextBack(q, t)) && k != j)
  }

  lemma AnswerSpots<T>(s: State<T>, s': State<T>, j: Jid, t: Tid)
    requires Spots(s) && Popped(s, s.(ops := s'.ops), j, t)
    requires s'.chan == s.chan && s'.mutex == s.mutex && s'.armed == s.armed - {j} && s'.answered.Keys == s.answered.Keys + {j}
    requires forall k :: k in s'.armed ==> k in s'.rt.held
    ensures Spots(s')
  {
    var m := s.(ops := s'.ops);
    forall k, q | Has(s', k, q) ensures Has(s, k, NextBack(q, t)) && k != j {
      assert Has(m, k, q);
    }
    forall k, q, r | Has(s', k, q) && Has(s', k, r) ensures q == r {
      assert Has(s, k, NextBack(q, t)) && Has(s, k, NextBack(r, t));
    }
  }

  lemma AnswerLock<T>(s: State<T>, s': State<T>, t: Tid)
    requires Lock(s) && t in s.ops && !s.ops[t].Parking? && !s.ops[t].Unlocking? && s'.mutex == s.mutex
    requires forall u :: u != t ==> (u in s'.ops <==> u in s.ops) && (u in s'.ops && u in s.ops ==> s'.ops[u] == s.ops[u])
    requires t in s'.ops ==> !s'.ops[t].Parking? && !s'.ops[t].Unlocking?
    ensures Lock(s')
  {
  }

  function NextBack(p: Spot, t: Tid): Spot {
    match p
    case InClose(u, i) => if u == t then InClose(u, i + 1) else p
    case _ => p
  }

  lemma HandOverPops<T>(s: State<T>, t: Tid)
    requires Spots(s) && t in s.ops && s.ops[t].Handing?
    ensures Popped(s, Without(s, t), s.ops[t].j, t)
  {
    var m := Without(s, t);
    assert Has(s, s.ops[t].j, InHand(t));
    forall k, q | Has(m, k, q) ensures Has(s, k, NextBack(q, t)) && k != s.ops[t].j {
      assert Has(s, k, q);
    }
  }

  lemma CloseNextPops<T>(s: State<T>, t: Tid)
    requires Spots(s) && t in s.ops && s.ops[t].Closing? && s.ops[t].js != []
    ensures Popped(s, s.(ops := s.ops[t := Closing(s.ops[t].js[1..])]), s.ops[t].js[0], t)
  {
    var j := s.ops[t].js[0];
    var m := s.(ops := s.ops[t := Closing(s.ops[t].js[1..])]);
    assert Has(s, j, InClose(t, 0));
    forall k, q | Has(m, k, q) ensures Has(s, k, NextBack(q, t)) && k != j {
      assert Has(s, k, NextBack(q, t));
    }
  }

  lemma HandOverKeeps<T>(s: State<T>, t: Tid)
    requires Struct(s) && Enabled(s, HandOver(t))
    ensures Struct(Apply(s, HandOver(t)))
  {
    assert Has(s, s.ops[t].j, InHand(t));
    HandOverPops(s, t);
    AnswerKeeps(s, Without(s, t), s.ops[t].j, Some(s.ops[t].v), InHand(t), t);
  }

  lemma CloseNextKeeps<T>(s: State<T>, t: Tid)
    requires Struct(s) && Enabled(s, CloseNext(t))
    ensures Struct(ApplyCloseNext(s, t))
  {
    var js := s.ops[t].js;
    if js == [] {
      var s' := ApplyCloseNext(s, t);
      assert forall j, p {:trigger Has(s', j, p)} :: Has(s', j, p) <==> Has(s, j, p);
    } else {
      assert Has(s, js[0], InClose(t, 0));
      CloseNextPops(s, t);
      AnswerKeeps(s, s.(ops := s.ops[t := Closing(js[1..])]), js[0], None, InClose(t, 0), t);
    }
  }

  lemma StructStep<T>(s: State<T>, e: Event<T>)
    requires Struct(s) && Enabled(s, e)
    ensures Struct(Apply(s, e))
  {
    match e
    case Rt(r) => RtKeeps(s, r);
    case Put(t, v) => PutKeeps(s, t, v);
    case HandOver(t) => HandOverKeeps(s, t);
    case Get(t) => GetKeeps(s, t);
    case Arm(t) => ArmKeeps(s, t);
    case Unlock(t) => UnlockKeeps(s, t);
    case GetReturn(t) => GetReturnKeeps(s, t);
    case Close(t) => CloseKeeps(s, t);
    case CloseNext(t) => CloseNextKeeps(s, t);
    case Open(t) => OpenKeeps(s, t);
  }

  // ---- the way to the unlock ----

  /** The thread that takes a step. */
  function StepBy<T>(e: Event<T>): Option<Tid> {
    match e
    case Rt(r) => ThreadOf(r)
    case _ => Some(e.t)
  }

  /** How many steps of its own separate the holder of the mutex from having unlocked it. */
  ghost function HolderLeft<T>(s: State<T>): nat {
    if s.mutex.None? then 0
    else if s.mutex.value !in s.ops || s.mutex.value !in s.rt.threads then 1
    else if !s.ops[s.mutex.value].Parking? then 1
    else match s.rt.threads[s.mutex.value]
      case Handling(_, _, _, _) => 2
      case Exiting(_, _) => 3
      case _ => 4
  }

  /** The holder's next step. */
  ghost function HolderNext<T>(s: State<T>): Event<T>
    requires s.mutex.Some?
  {
    var t := s.mutex.value;
    match HolderLeft(s)
    case 4 => Rt(R.Return(t))
    case 3 => Rt(R.Exit(t))
    case 2 => Arm(t)
    case _ => Unlock(t)
  }

  lemma HolderCanStep<T>(s: State<T>)
    requires Struct(s) && s.mutex.Some?
    ensures Enabled(s, HolderNext(s)) && StepBy(HolderNext(s)) == s.mutex && 1 <= HolderLeft(s) <= 4
  {
    var t := s.mutex.value;
    if s.ops[t].Parking? {
      assert Between(s.rt, t, s.ops[t].j);
    }
  }

  lemma HolderOwnStep<T>(s: State<T>, e: Event<T>)
    requires Struct(s) && s.mutex.Some? && Enabled(s, e) && StepBy(e) == s.mutex
    ensures e == HolderNext(s)
    ensures HolderLeft(Apply(s, e)) == HolderLeft(s) - 1
    ensures Apply(s, e).mutex == if e.Unlock? then None else s.mutex
  {
    var t := s.mutex.value;
    if s.ops[t].Parking? {
      OnlyNext(s, e);
      SwitchStep(s.rt, t, s.ops[t].j);
    }
  }

  /** The thread that parks can do nothing else. */
  lemma OnlyNext<T>(s: State<T>, e: Event<T>)
    requires Park(s) && s.mutex.Some? && Enabled(s, e) && StepBy(e) == s.mutex
    requires s.mutex.value in s.ops && s.ops[s.mutex.value].Parking?
    ensures e == HolderNext(s) && Between(s.rt, s.mutex.value, s.ops[s.mutex.value].j)
  {
  }

  /** The steps of the switch. */
  lemma SwitchStep(rt: R.State, t: Tid, j: Jid)
    requires Inv(rt) && Between(rt, t, j)
    ensures rt.threads[t].SwitchedBack? ==>
              R.Enabled(rt, R.Return(t)) && var r := R.Apply(rt, R.Return(t)); t in r.threads && r.threads[t].Exiting?
    ensures rt.threads[t].Exiting? ==>
              R.Enabled(rt, R.Exit(t)) && var r := R.Apply(rt, R.Exit(t)); t in r.threads && r.threads[t].Handling?
  {
  }

  lemma OtherRtStep<T>(s: State<T>, r: R.Event)
    requires Struct(s) && s.mutex.Some? && Enabled(s, Rt(r)) && ThreadOf(r) != s.mutex
    ensures HolderLeft(Apply(s, Rt(r))) == HolderLeft(s)
  {
    var t := s.mutex.value;
    if s.ops[t].Parking? {
      assert Between(s.rt, t, s.ops[t].j);
      OtherThread(s.rt, r, t);
    }
  }

  lemma OtherChannelStep<T>(s: State<T>, e: Event<T>)
    requires Struct(s) && s.mutex.Some? && Enabled(s, e) && StepBy(e) != s.mutex && !e.Rt?
    ensures Apply(s, e).mutex == s.mutex && HolderLeft(Apply(s, e)) == HolderLeft(s) && !e.Unlock?
  {
    match e
    case HandOver(t) => AnswerKeepsHolder(Without(s, t), s.ops[t].j, Some(s.ops[t].v));
    case CloseNext(t) =>
      if s.ops[t].js != [] {
        AnswerKeepsHolder(s.(ops := s.ops[t := Closing(s.ops[t].js[1..])]), s.ops[t].js[0], None);
      }
    case _ =>
  }

  lemma AnswerKeepsHolder<T>(s: State<T>, j: Jid, a: Option<T>)
    ensures Answer(s, j, a).mutex == s.mutex && HolderLeft(Answer(s, j, a)) == HolderLeft(s)
  {
  }

  ghost predicate NearsUnlock<T>(s: State<T>, e: Event<T>)
    requires s.mutex.Some? && Enabled(s, e)
  {
    var s' := Apply(s, e);
    && HolderLeft(s') == HolderLeft(s) - (if StepBy(e) == s.mutex then 1 else 0)
    && s'.mutex == (if e == Unlock(s.mutex.value) then None else s.mutex)
    && (e == Unlock(s.mutex.value) <==> HolderLeft(s') == 0)
  }

  /** Each step of the holder brings it nearer to the unlock, the last one unlocks, and no step of anybody
      else changes anything about it. */
  lemma HolderStep<T>(s: State<T>, e: Event<T>)
    requires Struct(s) && s.mutex.Some? && Enabled(s, e)
    ensures NearsUnlock(s, e)
  {
    HolderCanStep(s);
    if StepBy(e) == s.mutex {
      HolderOwnStep(s, e);
    } else if e.Rt? {
      OtherRtStep(s, e.e);
    } else {
      OtherChannelStep(s, e);
    }
  }
}
