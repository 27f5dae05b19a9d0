/** Worker journeys that read one channel, process its items and put results to others: stages made by
    piping and goN, and hand-written loops with several closers. A put, a get and a close are single steps
    here; an item is its position among the values ever put. */
module Network {
  import opened Prelude
  import opened ChannelValue

  type Cid = nat
  type Wid = nat

  /** Workers by number: the channel each reads, and the channels its closers close at its end. */
  datatype Shape = Shape(channels: nat, src: seq<Cid>, dsts: seq<seq<Cid>>) {
    ghost predicate Valid() {
      && |src| == |dsts|
      && (forall w :: 0 <= w < |src| ==> src[w] < channels)
      && (forall w, d :: 0 <= w < |dsts| && d in dsts[w] ==> d < channels)
    }
  }

  datatype Worker<V> =
    | Fetching                                  // about to call get
    | Parked                                    // waits in the list of its source
    | Given(i: nat)                             // get has returned, or is about to return, item i
    | Busy(i: nat, todo: seq<(Cid, V)>)         // processes item i; these puts are to come
    | Ending(closes: seq<Cid>)                  // the loop is over; these closers are to run

  datatype State<V> = State(
    chans: seq<Chan<Wid, nat>>,
    puts: seq<seq<V>>,                          // all values ever put, by channel
    done: seq<seq<nat>>,                        // items whose processing has ended, by channel
    work: seq<Worker<V>>)

  datatype Event<V> =
    | External(c: Cid, v: V)                    // put from outside
    | ExternalClose(c: Cid)
    | Fetch(w: Wid)
    | Begin(w: Wid, outs: seq<(Cid, V)>)        // the processing of an item determines what is put
    | PutOut(w: Wid)
    | Finish(w: Wid)
    | CloseNext(w: Wid)

  ghost predicate Fits<V>(n: Shape, s: State<V>) {
    && n.Valid()
    && |s.chans| == |s.puts| == |s.done| == n.channels
    && |s.work| == |n.src|
    && (forall c, u :: 0 <= c < n.channels && u in s.chans[c].waiters ==> u < |n.src|)
    && (forall w, k :: 0 <= w < |s.work| && s.work[w].Busy? && 0 <= k < |s.work[w].todo| ==> s.work[w].todo[k].0 in n.dsts[w])
    && (forall w, d :: 0 <= w < |s.work| && s.work[w].Ending? && d in s.work[w].closes ==> d in n.dsts[w])
  }

  predicate FromOutside<V>(e: Event<V>) {
    e.External? || e.ExternalClose?
  }

  ghost predicate Enabled<V>(n: Shape, s: State<V>, e: Event<V>)
    requires Fits(n, s)
  {
    if FromOutside(e) then e.c < n.channels else
    e.w < |s.work| &&
    match e
    case Fetch(w) => s.work[w].Fetching?
    case Begin(w, outs) => s.work[w].Given? && forall k :: 0 <= k < |outs| ==> outs[k].0 in n.dsts[w]
    case PutOut(w) => s.work[w].Busy? && s.work[w].todo != []
    case Finish(w) => s.work[w].Busy? && s.work[w].todo == []
    case CloseNext(w) => s.work[w].Ending? && s.work[w].closes != []
  }

  function SetWork<V>(s: State<V>, w: Wid, x: Worker<V>): State<V>
    requires w < |s.work|
  {
    s.(work := s.work[w := x])
  }

  /** Channel::put. */
  function PutTo<V>(s: State<V>, c: Cid, v: V): State<V>
    requires c < |s.chans| == |s.puts|
    requires forall u :: u in s.chans[c].waiters ==> u < |s.work|
  {
    var i := |s.puts[c]|;
    var s1 := s.(chans := s.chans[c := s.chans[c].Put(i)], puts := s.puts[c := s.puts[c] + [v]]);
    if s.chans[c].waiters == [] then s1
    else
      assert s.chans[c].waiters[0] in s.chans[c].waiters;
      SetWork(s1, s.chans[c].waiters[0], Given(i))
  }

  /** Channel::close: every waiting reader is told that there is no more. */
  function CloseChan<V>(n: Shape, s: State<V>, c: Cid): State<V>
    requires c < |s.chans| && |s.work| == |n.dsts|
  {
    if s.chans[c].closed then s
    else s.(chans := s.chans[c := s.chans[c].Close()],
            work := seq(|s.work|, w requires 0 <= w < |s.work| =>
                      if w in s.chans[c].waiters then Ending(n.dsts[w]) else s.work[w]))
  }

  function ApplyFetch<V>(n: Shape, s: State<V>, w: Wid): State<V>
    requires w < |s.work| == |n.src| == |n.dsts| && n.src[w] < |s.chans|
  {
    var c := n.src[w];
    var ch := s.chans[c];
    if ch.queue != [] then SetWork(s.(chans := s.chans[c := ch.Take()]), w, Given(ch.queue[0]))
    else if ch.closed then SetWork(s, w, Ending(n.dsts[w]))
    else SetWork(s.(chans := s.chans[c := ch.Park(w)]), w, Parked)
  }

  ghost function Apply<V>(n: Shape, s: State<V>, e: Event<V>): State<V>
    requires Fits(n, s) && Enabled(n, s, e)
  {
    match e
    case External(c, v) => PutTo(s, c, v)
    case ExternalClose(c) => CloseChan(n, s, c)
    case Fetch(w) => ApplyFetch(n, s, w)
    case Begin(w, outs) => SetWork(s, w, Busy(s.work[w].i, outs))
    case PutOut(w) =>
      var Busy(i, todo) := s.work[w];
      PutTo(SetWork(s, w, Busy(i, todo[1..])), todo[0].0, todo[0].1)
    case Finish(w) =>
      SetWork(s, w, Fetching).(done := s.done[n.src[w] := s.done[n.src[w]] + [s.work[w].i]])
    case CloseNext(w) =>
      var cs := s.work[w].closes;
      assert cs[0] in n.dsts[w];
      CloseChan(n, SetWork(s, w, Ending(cs[1..])), cs[0])
  }

  /** Nothing is scheduled: every worker waits, or has exited. */
  predicate Quiet<V>(s: State<V>) {
    forall w :: 0 <= w < |s.work| ==> s.work[w] == Parked || s.work[w] == Ending([])
  }

  ghost predicate Init<V>(n: Shape, s: State<V>) {
    && Fits(n, s)
    && (forall c :: 0 <= c < n.channels ==> s.chans[c] == Chan([], [], false) && s.puts[c] == [] && s.done[c] == [])
    && (forall w :: 0 <= w < |s.work| ==> s.work[w].Fetching?)
  }

  // ---- where the items are ----

  datatype Place = InQueue | With(w: Wid) | DoneAt(k: nat)

  ghost predicate Holds<V>(x: Worker<V>, i: nat) {
    (x.Given? && x.i == i) || (x.Busy? && x.i == i)
  }

  /** Item i of channel c is at place p. */
  ghost predicate At<V>(n: Shape, s: State<V>, c: Cid, i: nat, p: Place)
    requires Fits(n, s) && c < n.channels
  {
    match p
    case InQueue => i in s.chans[c].queue
    case With(w) => w < |s.work| && n.src[w] == c && Holds(s.work[w], i)
    case DoneAt(k) => k < |s.done[c]| && s.done[c][k] == i
  }

  /** Items are handed out in order, and every item put is at exactly one place. */
  ghost predicate Items<V>(n: Shape, s: State<V>)
    requires Fits(n, s)
  {
    forall c :: 0 <= c < n.channels ==> ItemsOf(n, s, c)
  }

  ghost predicate ItemsOf<V>(n: Shape, s: State<V>, c: Cid)
    requires Fits(n, s) && c < n.channels
  {
    var q := s.chans[c].queue;
    && (forall k :: 0 <= k < |q| ==> q[k] == |s.puts[c]| - |q| + k)
    && (forall i: nat, p {:trigger At(n, s, c, i, p)} :: At(n, s, c, i, p) ==> i < |s.puts[c]|)
    && (forall i: nat, p, r {:trigger At(n, s, c, i, p), At(n, s, c, i, r)} :: At(n, s, c, i, p) && At(n, s, c, i, r) ==> p == r)
    && (forall i: nat :: i < |s.puts[c]| ==> Somewhere(n, s, c, i))
  }

  ghost predicate Somewhere<V>(n: Shape, s: State<V>, c: Cid, i: nat)
    requires Fits(n, s) && c < n.channels
  {
    exists p :: At(n, s, c, i, p)
  }

  /** The list of a channel holds exactly its parked readers. */
  ghost predicate Lists<V>(n: Shape, s: State<V>)
    requires Fits(n, s)
  {
    && (forall c :: 0 <= c < n.channels ==> s.chans[c].Sane() && Distinct(s.chans[c].waiters))
    && (forall w :: 0 <= w < |s.work| ==> (s.work[w].Parked? <==> w in s.chans[n.src[w]].waiters))
    && (forall c, w :: 0 <= c < n.channels && w in s.chans[c].waiters ==> n.src[w] == c)
  }

  ghost predicate Inv<V>(n: Shape, s: State<V>) {
    Fits(n, s) && Items(n, s) && Lists(n, s)
  }
}
