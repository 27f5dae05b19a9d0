/** The channel is a linearizable queue, and every get returns what its own operation on that queue gave. */
module ChannelFifo {
  import opened Prelude
  import R = Runtime
  import opened Tokens
  import Lifecycle
  import opened ChannelMachine
  import opened ChannelSafety

  // ---- the plain queue ----

  datatype Fifo<T> = Fifo(queue: seq<T>, closed: bool)

  /** None if the plain queue cannot do the operation with this result. */
  function SpecStep<T(==)>(f: Fifo<T>, l: Label<T>): Option<Fifo<T>> {
    match l
    case Putting(v) => Some(f.(queue := f.queue + [v]))
    case Got(_, v) => if f.queue != [] && f.queue[0] == v then Some(f.(queue := f.queue[1..])) else None
    case Failed(_) => if f.queue == [] && f.closed then Some(f) else None
    case Closes => Some(f.(closed := true))
    case Opens => Some(f.(closed := false))
  }

  function SpecRun<T(==)>(ls: seq<Label<T>>): Option<Fifo<T>>
    decreases |ls|
  {
    if ls == [] then Some(Fifo([], false))
    else
      match SpecRun(ls[..|ls| - 1])
      case None => None
      case Some(f) => SpecStep(f, ls[|ls| - 1])
  }

  lemma SpecSnoc<T>(ls: seq<Label<T>>, l: Label<T>)
    requires SpecRun(ls).Some?
    ensures SpecRun(ls + [l]) == SpecStep(SpecRun(ls).value, l)
  {
    assert (ls + [l])[..|ls|] == ls;
  }

  lemma FailuresSplit<T>(ls: seq<Label<T>>, js: seq<Jid>)
    ensures js == [] ==> ls + Failures(js) == ls
    ensures js != [] ==> ls + Failures(js) == ls + [Failed(js[0])] + Failures(js[1..])
  {
  }

  lemma {:induction false} SpecFailures<T>(ls: seq<Label<T>>, js: seq<Jid>)
    requires SpecRun(ls).Some? && SpecRun(ls).value.queue == [] && SpecRun(ls).value.closed
    ensures SpecRun(ls + Failures(js)) == SpecRun(ls)
    decreases |js|
  {
    FailuresSplit(ls, js);
    if js != [] {
      SpecSnoc(ls, Failed(js[0]));
      SpecFailures(ls + [Failed(js[0])], js[1..]);
    }
  }

  ghost predicate Refines<T>(s: State<T>) {
    SpecRun(s.log) == Some(Fifo(s.chan.queue, s.chan.closed))
  }

  lemma PutRefines<T>(s: State<T>, t: Tid, v: T)
    requires s.chan.Sane() && Refines(s)
    ensures Refines(ApplyPut(s, t, v))
  {
    SpecSnoc(s.log, Putting(v));
    if s.chan.waiters != [] {
      assert (s.chan.queue + [v])[1..] == [];
      SpecSnoc(s.log + [Putting(v)], Got(s.chan.waiters[0], v));
    }
  }

  lemma GetRefines<T>(s: State<T>, t: Tid)
    requires Enabled(s, Get(t)) && Refines(s)
    ensures Refines(ApplyGet(s, t))
  {
    var j := s.rt.threads[t].j;
    SpecSnoc(s.log, if s.chan.queue != [] then Got(j, s.chan.queue[0]) else Failed(j));
  }

  lemma CloseRefines<T>(s: State<T>, t: Tid)
    requires s.chan.Sane() && Refines(s)
    ensures Refines(ApplyClose(s, t))
  {
    if !s.chan.closed {
      SpecSnoc(s.log, Closes);
      if s.chan.waiters == [] {
        FailuresSplit(s.log + [Closes], s.chan.waiters);
      } else {
        SpecFailures(s.log + [Closes], s.chan.waiters);
      }
    }
  }

  lemma RefinesStep<T>(s: State<T>, e: Event<T>)
    requires s.chan.Sane() && Enabled(s, e) && Refines(s)
    ensures Refines(Apply(s, e))
  {
    match e
    case Put(t, v) => PutRefines(s, t, v);
    case Get(t) => GetRefines(s, t);
    case Close(t) => CloseRefines(s, t);
    case Open(t) => SpecSnoc(s.log, Opens);
    case _ => SilentRefines(s, e);
  }

  /** Steps that are no operation of the plain queue. */
  lemma SilentRefines<T>(s: State<T>, e: Event<T>)
    requires Enabled(s, e) && Refines(s) && !e.Put? && !e.Get? && !e.Close? && !e.Open?
    ensures Refines(Apply(s, e))
  {
    assert Apply(s, e).log == s.log && Apply(s, e).chan == s.chan;
  }

  /** Values in the order in which they were put, and in which they were given. */
  function Puts<T>(ls: seq<Label<T>>): seq<T> {
    if ls == [] then [] else
    Puts(ls[..|ls| - 1]) + (match ls[|ls| - 1] case Putting(v) => [v] case _ => [])
  }

  function Gots<T>(ls: seq<Label<T>>): seq<T> {
    if ls == [] then [] else
    Gots(ls[..|ls| - 1]) + (match ls[|ls| - 1] case Got(_, v) => [v] case _ => [])
  }

  lemma {:induction false} FifoOrder<T>(ls: seq<Label<T>>)
    requires SpecRun(ls).Some?
    ensures Puts(ls) == Gots(ls) + SpecRun(ls).value.queue
    decreases |ls|
  {
    if ls != [] {
      FifoOrder(ls[..|ls| - 1]);
    }
  }

  // ---- each reader gets what the queue gave it ----

  function Outcome<T>(l: Label<T>, j: Jid): seq<Option<T>> {
    match l
    case Got(k, v) => if k == j then [Some(v)] else []
    case Failed(k) => if k == j then [None] else []
    case _ => []
  }

  /** What the queue gave to journey j. */
  function Decided<T>(ls: seq<Label<T>>, j: Jid): seq<Option<T>> {
    if ls == [] then [] else Decided(ls[..|ls| - 1], j) + Outcome(ls[|ls| - 1], j)
  }

  /** What calls of get returned to journey j. */
  function Given<T>(rs: seq<(Jid, Option<T>)>, j: Jid): seq<Option<T>> {
    if rs == [] then [] else
    Given(rs[..|rs| - 1], j) + (if rs[|rs| - 1].0 == j then [rs[|rs| - 1].1] else [])
  }

  lemma DecidedSnoc<T>(ls: seq<Label<T>>, l: Label<T>, j: Jid)
    ensures Decided(ls + [l], j) == Decided(ls, j) + Outcome(l, j)
  {
    assert (ls + [l])[..|ls|] == ls;
  }

  lemma GivenSnoc<T>(rs: seq<(Jid, Option<T>)>, r: (Jid, Option<T>), j: Jid)
    ensures Given(rs + [r], j) == Given(rs, j) + (if r.0 == j then [r.1] else [])
  {
    assert (rs + [r])[..|rs|] == rs;
  }

  lemma {:induction false} DecidedFailures<T>(ls: seq<Label<T>>, js: seq<Jid>, j: Jid)
    requires Distinct(js)
    ensures Decided(ls + Failures(js), j) == Decided(ls, j) + (if j in js then [None] else [])
    decreases |js|
  {
    FailuresSplit(ls, js);
    if js != [] {
      DecidedSnoc(ls, Failed(js[0]), j);
      DecidedFailures(ls + [Failed(js[0])], js[1..], j);
    }
  }

  /** No operation on behalf of j is between its critical section and its return. */
  ghost predicate Settled<T>(s: State<T>, j: Jid) {
    j !in s.answered && forall p :: Has(s, j, p) ==> p.InList?
  }

  /** A popped waiter, and the outcome that is on its way to its reader. */
  ghost predicate Underway<T>(s: State<T>, j: Jid, p: Spot) {
    Has(s, j, p) && !p.InList?
  }

  ghost function Answers<T>(s: State<T>, p: Spot): Option<T> {
    match p
    case InHand(t) => if t in s.ops && s.ops[t].Handing? then Some(s.ops[t].v) else None
    case _ => None
  }

  ghost predicate Delivers<T>(s: State<T>) {
    && (forall j :: j in s.answered ==> Decided(s.log, j) == Given(s.results, j) + [s.answered[j]])
    && (forall j, p :: Underway(s, j, p) ==> Decided(s.log, j) == Given(s.results, j) + [Answers(s, p)])
    && (forall j :: Settled(s, j) ==> Decided(s.log, j) == Given(s.results, j))
  }

  /** Steps that log and return nothing, and keep every reader where it is. */
  lemma QuietDelivers<T>(s: State<T>, s': State<T>)
    requires Delivers(s) && s'.log == s.log && s'.results == s.results && s'.answered == s.answered
    requires forall j, p: Spot {:trigger Has(s, j, p)} {:trigger Has(s', j, p)} :: !p.InList? ==> (Has(s', j, p) <==> Has(s, j, p))
    requires forall j, p :: Underway(s', j, p) ==> Answers(s', p) == Answers(s, p)
    ensures Delivers(s')
  {
    forall j | Settled(s', j) ensures Settled(s, j) {
    }
    forall j, p | Underway(s', j, p) ensures Underway(s, j, p) {
    }
  }

  /** Nobody moves, except perhaps that journey j has got its answer. */
  lemma SameSpots<T>(s: State<T>, s': State<T>, j: Jid)
    requires s'.ops == s.ops && s'.chan.waiters == s.chan.waiters
    requires s'.answered == s.answered || s'.answered == s.answered - {j}
    ensures forall k, p :: Underway(s', k, p) <==> Underway(s, k, p)
    ensures forall k :: k != j && Settled(s', k) ==> Settled(s, k)
    ensures s'.answered == s.answered && Settled(s', j) ==> Settled(s, j)
  {
    assert forall k, p {:trigger Has(s, k, p)} {:trigger Has(s', k, p)} :: Has(s', k, p) <==> Has(s, k, p);
  }

  lemma PutDelivers<T>(s: State<T>, t: Tid, v: T)
    requires Spots(s) && t !in s.ops && s.mutex.None? && Delivers(s)
    ensures Delivers(ApplyPut(s, t, v))
  {
    var s' := ApplyPut(s, t, v);
    PutDecides(s, t, v);
    if s.chan.waiters == [] {
      SameSpots(s, s', 0);
    } else {
      HandingSpots(s, t, v);
    }
  }

  lemma PutDecides<T>(s: State<T>, t: Tid, v: T)
    ensures forall j :: Decided(ApplyPut(s, t, v).log, j) ==
              Decided(s.log, j) + (if s.chan.waiters != [] && j == s.chan.waiters[0] then [Some(v)] else [])
  {
    forall j ensures Decided(ApplyPut(s, t, v).log, j) ==
              Decided(s.log, j) + (if s.chan.waiters != [] && j == s.chan.waiters[0] then [Some(v)] else [])
    {
      if s.chan.waiters == [] {
        DecidedSnoc(s.log, Putting(v), j);
      } else {
        HandOffDecides(s.log, s.chan.waiters[0], v, j);
      }
    }
  }

  lemma HandOffDecides<T>(ls: seq<Label<T>>, w: Jid, v: T, j: Jid)
    ensures Decided(ls + [Putting(v)] + [Got(w, v)], j) == Decided(ls, j) + (if j == w then [Some(v)] else [])
  {
    DecidedSnoc(ls, Putting(v), j);
    DecidedSnoc(ls + [Putting(v)], Got(w, v), j);
  }

  lemma HandingSpots<T>(s: State<T>, t: Tid, v: T)
    requires Spots(s) && t !in s.ops && s.chan.waiters != [] && s.mutex.None?
    ensures
      var s' := ApplyPut(s, t, v); var w := s.chan.waiters[0];
      && Settled(s, w) && (forall j :: Settled(s', j) ==> j != w && Settled(s, j))
      && (forall j, p :: Underway(s', j, p) ==>
            if p == InHand(t) then j == w else Underway(s, j, p) && j != w && Answers(s', p) == Answers(s, p))
  {
    var s' := ApplyPut(s, t, v);
    var w := s.chan.waiters[0];
    assert Has(s, w, InList(0));
    assert Has(s', w, InHand(t));
    forall j | Settled(s', j) ensures j != w && Settled(s, j) {
      forall p | Has(s, j, p) ensures p.InList? {
        assert !p.InList? ==> Has(s', j, p);
      }
    }
    forall j, p | Underway(s', j, p)
      ensures if p == InHand(t) then j == w else Underway(s, j, p) && j != w && Answers(s', p) == Answers(s, p)
    {
      assert p != InHand(t) ==> Has(s, j, p);
    }
  }

  lemma GetDelivers<T>(s: State<T>, t: Tid)
    requires Struct(s) && Enabled(s, Get(t)) && Delivers(s)
    ensures Delivers(ApplyGet(s, t))
  {
    BodyHasNoSpot(s, t);
    if s.chan.queue == [] && !s.chan.closed {
      QuietDelivers(s, ApplyGet(s, t));
    } else {
      var j := s.rt.threads[t].j;
      var l := if s.chan.queue != [] then Got(j, s.chan.queue[0]) else Failed(j);
      AtOnceDelivers(s, ApplyGet(s, t), j, l);
    }
  }

  /** A get that needs not wait is decided and returns in one step. */
  lemma AtOnceDelivers<T>(s: State<T>, s': State<T>, j: Jid, l: Label<T>)
    requires Delivers(s) && Settled(s, j) && forall p :: !Has(s, j, p)
    requires s'.ops == s.ops && s'.chan.waiters == s.chan.waiters && s'.answered == s.answered
    requires s'.log == s.log + [l] && |Outcome(l, j)| == 1 && (l.Got? || l.Failed?) && l.j == j
    requires s'.results == s.results + [(j, Outcome(l, j)[0])]
    ensures Delivers(s')
  {
    forall k ensures Decided(s'.log, k) == Decided(s.log, k) + Outcome(l, k) {
      DecidedSnoc(s.log, l, k);
    }
    forall k ensures Given(s'.results, k) == Given(s.results, k) + Outcome(l, k) {
      GivenSnoc(s.results, (j, Outcome(l, j)[0]), k);
    }
    SameSpots(s, s', j);
  }

  lemma BodyHasNoSpot<T>(s: State<T>, t: Tid)
    requires Struct(s) && Enabled(s, Get(t))
    ensures forall p :: !Has(s, s.rt.threads[t].j, p)
    ensures Settled(s, s.rt.threads[t].j)
  {
    assert At(s.rt, s.rt.threads[t].j, ByThread(t));
    assert !At(s.rt, s.rt.threads[t].j, ByHolder);
  }

  lemma CloseDelivers<T>(s: State<T>, t: Tid)
    requires Struct(s) && Enabled(s, Close(t)) && Delivers(s)
    ensures Delivers(ApplyClose(s, t))
  {
    var s' := ApplyClose(s, t);
    var ws := s.chan.waiters;
    if !s.chan.closed {
      CloseDecides(s, t);
      ClosingSpots(s, t);
      assert s'.results == s.results && s'.answered == s.answered;
    }
  }

  lemma CloseDecides<T>(s: State<T>, t: Tid)
    requires Spots(s) && !s.chan.closed
    ensures forall j :: Decided(ApplyClose(s, t).log, j) == Decided(s.log, j) + (if j in s.chan.waiters then [None] else [])
  {
    WaitersDistinct(s);
    forall j ensures Decided(ApplyClose(s, t).log, j) == Decided(s.log, j) + (if j in s.chan.waiters then [None] else []) {
      FailuresDecide(s.log, s.chan.waiters, j);
    }
  }

  lemma FailuresDecide<T>(ls: seq<Label<T>>, js: seq<Jid>, j: Jid)
    requires Distinct(js)
    ensures Decided(ls + [Closes] + Failures(js), j) == Decided(ls, j) + (if j in js then [None] else [])
  {
    DecidedSnoc(ls, Closes, j);
    DecidedFailures(ls + [Closes], js, j);
  }

  lemma ClosingSpots<T>(s: State<T>, t: Tid)
    requires Spots(s) && t !in s.ops && !s.chan.closed && s.mutex.None?
    ensures
      var s' := ApplyClose(s, t); var ws := s.chan.waiters;
      && (forall j :: j in ws ==> Settled(s, j) && !Settled(s', j))
      && (forall j :: Settled(s', j) ==> Settled(s, j))
      && (forall j, p :: Underway(s', j, p) ==>
            if p.InClose? && p.t == t then j in ws && Answers(s', p) == None
            else Underway(s, j, p) && j !in ws && Answers(s', p) == Answers(s, p))
  {
    var s' := ApplyClose(s, t);
    var ws := s.chan.waiters;
    forall j | j in ws ensures Settled(s, j) && !Settled(s', j) {
      var i :| 0 <= i < |ws| && ws[i] == j;
      assert Has(s, j, InList(i));
      assert Has(s', j, InClose(t, i));
    }
    forall j | Settled(s', j) ensures Settled(s, j) {
      forall p | Has(s, j, p) ensures p.InList? {
        assert !p.InList? ==> Has(s', j, p);
      }
    }
    forall j, p | Underway(s', j, p)
      ensures if p.InClose? && p.t == t then j in ws && Answers(s', p) == None
              else Underway(s, j, p) && j !in ws && Answers(s', p) == Answers(s, p)
    {
      if !(p.InClose? && p.t == t) { assert Has(s, j, p); }
    }
  }

  lemma WaitersDistinct<T>(s: State<T>)
    requires Spots(s)
    ensures Distinct(s.chan.waiters)
  {
    var ws := s.chan.waiters;
    forall i, k | 0 <= i < k < |ws| ensures ws[i] != ws[k] {
      assert Has(s, ws[i], InList(i)) && Has(s, ws[k], InList(k));
    }
  }

  /** The answer reaches the reader's variable. */
  lemma AnswerDelivers<T>(s: State<T>, m: State<T>, j: Jid, p: Spot, t: Tid)
    requires Struct(s) && Delivers(s) && Has(s, j, p) && !p.InList? && p.t == t && Popped(s, m, j, t)
    requires m.ops.Keys + {t} == s.ops.Keys
    requires t in m.ops ==> m.ops[t].Closing?
    requires forall k, q {:trigger Has(s, k, q)} :: Has(s, k, q) && !q.InList? && k != j ==> exists r :: Has(m, k, r) && !r.InList?
    ensures Delivers(Answer(m, j, Answers(s, p)))
  {
    var s' := Answer(m, j, Answers(s, p));
    AnswerKeeps(s, m, j, Answers(s, p), p, t);
    assert Underway(s, j, p);
    forall k | Settled(s', k) ensures Settled(s, k) {
      assert k != j;
      forall q | Has(s, k, q) ensures q.InList? {
        if !q.InList? {
          var r :| Has(m, k, r) && !r.InList?;
          assert Has(s', k, r);
        }
      }
    }
    forall k, q | Underway(s', k, q) ensures Underway(s, k, NextBack(q, t)) && Answers(s', q) == Answers(s, NextBack(q, t)) {
      assert Has(m, k, q);
    }
  }

  lemma HandOverDelivers<T>(s: State<T>, t: Tid)
    requires Struct(s) && Enabled(s, HandOver(t)) && Delivers(s)
    ensures Delivers(Apply(s, HandOver(t)))
  {
    var m := Without(s, t);
    assert Has(s, s.ops[t].j, InHand(t));
    HandOverPops(s, t);
    forall k, q | Has(s, k, q) && !q.InList? && k != s.ops[t].j ensures exists r :: Has(m, k, r) && !r.InList? {
      assert Has(m, k, q);
    }
    AnswerDelivers(s, m, s.ops[t].j, InHand(t), t);
  }

  lemma CloseNextDelivers<T>(s: State<T>, t: Tid)
    requires Struct(s) && Enabled(s, CloseNext(t)) && Delivers(s)
    ensures Delivers(ApplyCloseNext(s, t))
  {
    var js := s.ops[t].js;
    if js == [] {
      QuietDelivers(s, Without(s, t));
    } else {
      var m := s.(ops := s.ops[t := Closing(js[1..])]);
      assert Has(s, js[0], InClose(t, 0));
      CloseNextPops(s, t);
      forall k, q | Has(s, k, q) && !q.InList? && k != js[0] ensures exists r :: Has(m, k, r) && !r.InList? {
        assert Has(m, k, if q.InClose? && q.t == t then InClose(t, q.i - 1) else q);
      }
      AnswerDelivers(s, m, js[0], InClose(t, 0), t);
    }
  }

  lemma GetReturnDelivers<T>(s: State<T>, t: Tid)
    requires Struct(s) && Enabled(s, GetReturn(t)) && Delivers(s)
    ensures Delivers(Apply(s, GetReturn(t)))
  {
    var j := s.rt.threads[t].j;
    forall p ensures !Has(s, j, p) {
      assert Has(s, j, p) ==> j in s.armed || ParkedNow(s, j);
    }
    AnswerReturns(s, Apply(s, GetReturn(t)), j);
  }

  /** The answer of reader j, who is in no list, becomes the result of its call. */
  lemma AnswerReturns<T>(s: State<T>, s': State<T>, j: Jid)
    requires Delivers(s) && j in s.answered && forall p :: !Has(s, j, p)
    requires s'.ops == s.ops && s'.chan.waiters == s.chan.waiters && s'.log == s.log
    requires s'.answered == s.answered - {j} && s'.results == s.results + [(j, s.answered[j])]
    ensures Delivers(s')
  {
    forall k ensures Given(s'.results, k) == Given(s.results, k) + (if k == j then [s.answered[j]] else []) {
      GivenSnoc(s.results, (j, s.answered[j]), k);
    }
    SameSpots(s, s', j);
  }

  lemma DeliversStep<T>(s: State<T>, e: Event<T>)
    requires Struct(s) && Enabled(s, e) && Delivers(s)
    ensures Delivers(Apply(s, e))
  {
    match e
    case Put(t, v) => PutDelivers(s, t, v);
    case HandOver(t) => HandOverDelivers(s, t);
    case Get(t) => GetDelivers(s, t);
    case GetReturn(t) => GetReturnDelivers(s, t);
    case Close(t) => CloseDelivers(s, t);
    case CloseNext(t) => CloseNextDelivers(s, t);
    case Open(t) => OpenDelivers(s, t);
    case _ => SilentDelivers(s, e);
  }

  lemma SilentDelivers<T>(s: State<T>, e: Event<T>)
    requires Enabled(s, e) && Delivers(s) && (e.Rt? || e.Arm? || e.Unlock?)
    ensures Delivers(Apply(s, e))
  {
    QuietDelivers(s, Apply(s, e));
  }

  lemma OpenDelivers<T>(s: State<T>, t: Tid)
    requires Enabled(s, Open(t)) && Delivers(s)
    ensures Delivers(Apply(s, Open(t)))
  {
    SameReadersDeliver(s, Apply(s, Open(t)), Opens);
  }

  /** A step that logs nothing for any reader and moves none. */
  lemma SameReadersDeliver<T>(s: State<T>, s': State<T>, l: Label<T>)
    requires Delivers(s) && s'.ops == s.ops && s'.chan.waiters == s.chan.waiters && s'.answered == s.answered
    requires s'.results == s.results && s'.log == s.log + [l] && !l.Got? && !l.Failed?
    ensures Delivers(s')
  {
    forall j ensures Decided(s'.log, j) == Decided(s.log, j) {
      DecidedSnoc(s.log, l, j);
    }
    SameSpots(s, s', 0);
  }

  // ---- every run ----

  lemma InitHolds<T>(s: State<T>)
    requires Init(s)
    ensures Struct(s) && Refines(s) && Delivers(s)
  {
    Lifecycle.InitInv(s.rt);
  }

  lemma {:induction false} AlwaysHolds<T>(s: State<T>, es: seq<Event<T>>)
    requires Struct(s) && Refines(s) && Delivers(s) && Legal(s, es)
    ensures Struct(Exec(s, es)) && Refines(Exec(s, es)) && Delivers(Exec(s, es))
    decreases |es|
  {
    if es != [] {
      StructStep(s, es[0]);
      RefinesStep(s, es[0]);
      DeliversStep(s, es[0]);
      AlwaysHolds(Apply(s, es[0]), es[1..]);
    }
  }

  /** The log of every run is a history of the plain queue that ends with the channel's content;
      values leave in the order in which they were put; and what the calls of get of a journey
      returned is what the queue gave it, up to one answer that is still on its way. */
  lemma ChannelIsFifo<T>(s0: State<T>, es: seq<Event<T>>)
    requires Init(s0) && Legal(s0, es)
    ensures
      var s := Exec(s0, es);
      && SpecRun(s.log) == Some(Fifo(s.chan.queue, s.chan.closed))
      && Puts(s.log) == Gots(s.log) + s.chan.queue
      && (forall j :: Given(s.results, j) <= Decided(s.log, j) && |Decided(s.log, j)| <= |Given(s.results, j)| + 1)
      && (forall j :: Settled(s, j) ==> Given(s.results, j) == Decided(s.log, j))
  {
    InitHolds(s0);
    AlwaysHolds(s0, es);
    var s := Exec(s0, es);
    FifoOrder(s.log);
    forall j ensures Given(s.results, j) <= Decided(s.log, j) && |Decided(s.log, j)| <= |Given(s.results, j)| + 1 {
      if j !in s.answered && !Settled(s, j) {
        var p :| Has(s, j, p) && !p.InList?;
        assert Underway(s, j, p);
      }
    }
  }

  /** Whenever the mutex is free, every waiter that put or close can reach has its proceed handler,
      and there are waiters only while the queue is empty and open. While it is taken, it belongs to
      the OS thread that yields for a reader, or that has just stored that reader's handler; only
      that thread can unlock it; and neither a check of the runtime nor one of the channel fails. Its next
      step is always possible; with at most four steps of its own it unlocks, once; and steps of others
      neither delay nor undo that. */
  lemma LockAcrossYield<T>(s0: State<T>, es: seq<Event<T>>)
    requires Init(s0) && Legal(s0, es)
    ensures
      var s := Exec(s0, es);
      && !s.fault && s.rt.fault.None?
      && (s.mutex.None? ==> forall j :: j in s.chan.waiters ==> j in s.armed && j in s.rt.held)
      && (s.chan.waiters != [] ==> s.chan.queue == [] && !s.chan.closed)
      && (forall t :: t in s.ops && (s.ops[t].Parking? || s.ops[t].Unlocking?) <==> s.mutex == Some(t))
      && (s.mutex.Some? && s.ops[s.mutex.value].Parking? ==> Between(s.rt, s.mutex.value, s.ops[s.mutex.value].j))
      && (forall t :: Enabled(s, Unlock(t)) ==> s.mutex == Some(t))
      && (s.mutex.Some? ==> Enabled(s, HolderNext(s)) && StepBy(HolderNext(s)) == s.mutex && HolderLeft(s) <= 4)
      && (s.mutex.Some? ==> forall e :: Enabled(s, e) ==> NearsUnlock(s, e))
  {
    InitHolds(s0);
    AlwaysHolds(s0, es);
    var s := Exec(s0, es);
    if s.mutex.Some? {
      HolderCanStep(s);
      forall e | Enabled(s, e) ensures NearsUnlock(s, e) {
        HolderStep(s, e);
      }
    }
    forall j | s.mutex.None? && j in s.chan.waiters ensures j in s.armed && j in s.rt.held {
      var i :| 0 <= i < |s.chan.waiters| && s.chan.waiters[i] == j;
      assert Has(s, j, InList(i));
    }
  }
}
