/** The feedback network of the channel tests: one stage turns v into v - 1 and v - 2, the other
    records what it gets and feeds positive values back. */
module Feedback {
  import opened Network
  import opened NetworkSafety
  import opened Shutdown
  import opened Potential

  const C: Cid := 0
  const AGGR: Cid := 1

  ghost const FEEDBACK := Shape(2, [C, AGGR], [[AGGR], [C]])

  function Split(c: Cid, v: int): seq<(Cid, int)> {
    if c == C then [(AGGR, v - 1), (AGGR, v - 2)]
    else if v > 0 then [(C, v)] else []
  }

  function Fib(n: nat): nat {
    if n < 2 then n else Fib(n - 1) + Fib(n - 2)
  }

  /** How many values are recorded in consequence of an item of the second channel. */
  function AggrRecords(v: int): nat
    decreases v
  {
    if v <= 0 then 1 else 1 + AggrRecords(v - 1) + AggrRecords(v - 2)
  }

  function Records(c: Cid, v: int): nat {
    if c == C then AggrRecords(v - 1) + AggrRecords(v - 2) else AggrRecords(v)
  }

  /** How many steps the workers take in consequence of an item of the second channel. */
  function AggrSteps(v: int): nat
    decreases v
  {
    if v <= 0 then 3 else 9 + AggrSteps(v - 1) + AggrSteps(v - 2)
  }

  function Steps(c: Cid, v: int): nat {
    if c == C then 5 + AggrSteps(v - 1) + AggrSteps(v - 2) else AggrSteps(v)
  }

  lemma {:induction false} AggrRecordsFib(v: int)
    requires v >= -1
    ensures AggrRecords(v) == 2 * Fib(v + 2) - 1
    decreases v + 1
  {
    if v > 0 {
      AggrRecordsFib(v - 1);
      AggrRecordsFib(v - 2);
    }
  }

  /** Only the beginning of an item of the second channel records a value. */
  const RECORDING: Tariff<int> := Tariff(0, c => if c == C then 0 else 1, (c, v) => 0, 0)

  const STEPPING: Tariff<int> := Tariff(1, c => 1, (c, v) => 1, 1)

  lemma RecordsBalanced()
    ensures Balanced(Split, RECORDING, Records)
  {
    forall c: Cid, v ensures Records(c, v) == RECORDING.begin(c) + OutsPrice(RECORDING, Records, Split(c, v)) {
      Outs(RECORDING, Records, c, v);
    }
  }

  lemma StepsBalanced()
    ensures Balanced(Split, STEPPING, Steps)
  {
    forall c: Cid, v ensures Steps(c, v) == 1 + OutsPrice(STEPPING, Steps, Split(c, v)) + 2 {
      Outs(STEPPING, Steps, c, v);
    }
  }

  lemma Outs(k: Tariff<int>, W: Price<int>, c: Cid, v: int)
    ensures OutsPrice(k, W, Split(c, v)) ==
            if c == C then k.put(AGGR, v - 1) + W(AGGR, v - 1) + k.put(AGGR, v - 2) + W(AGGR, v - 2)
            else if v > 0 then k.put(C, v) + W(C, v) else 0
  {
    var outs := Split(c, v);
    if c == C {
      var rest := outs[1..];
      assert rest == [(AGGR, v - 2)] && |rest[1..]| == 0;
      assert OutsPrice(k, W, rest) == k.put(AGGR, v - 2) + W(AGGR, v - 2);
    } else if v > 0 {
      assert |outs[1..]| == 0;
    }
  }

  /** The values recorded in a run: one at the beginning of each item of the second channel. */
  function Recorded(es: seq<Event<int>>): nat {
    if es == [] then 0 else (if es[0].Begin? && es[0].w == AGGR then 1 else 0) + Recorded(es[1..])
  }

  function FromOutsideCount(es: seq<Event<int>>): nat {
    if es == [] then 0 else (if FromOutside(es[0]) then 1 else 0) + FromOutsideCount(es[1..])
  }

  lemma {:induction false} RecordedIsCost(s: State<int>, es: seq<Event<int>>)
    requires Legal(FEEDBACK, s, es)
    ensures CostOf(FEEDBACK, RECORDING, s, es) == Recorded(es)
    decreases |es|
  {
    if es != [] {
      RecordedIsCost(Apply(FEEDBACK, s, es[0]), es[1..]);
    }
  }

  lemma {:induction false} StepsAreCost(s: State<int>, es: seq<Event<int>>)
    requires Open(FEEDBACK, s) && Legal(FEEDBACK, s, es) && NoClose(es)
    ensures CostOf(FEEDBACK, STEPPING, s, es) + FromOutsideCount(es) == |es|
    decreases |es|
  {
    if es != [] {
      OpenStep(FEEDBACK, s, es[0]);
      StepsAreCost(Apply(FEEDBACK, s, es[0]), es[1..]);
    }
  }

  /** One item from outside, put into the first channel at any moment. */
  ghost predicate OneItem(es: seq<Event<int>>, v: int)
    decreases |es|
  {
    es != [] && if FromOutside(es[0]) then es[0] == External(C, v) && Inside(es[1..]) else OneItem(es[1..], v)
  }

  lemma {:induction false} InsideBringsNothing(W: Price<int>, es: seq<Event<int>>)
    requires Inside(es)
    ensures BringsOf(W, es) == 0 && FromOutsideCount(es) == 0
    decreases |es|
  {
    if es != [] {
      assert !FromOutside(es[0]);
      InsideBringsNothing(W, es[1..]);
    }
  }

  lemma {:induction false} OneItemBrings(W: Price<int>, es: seq<Event<int>>, v: int)
    requires OneItem(es, v)
    ensures BringsOf(W, es) == W(C, v) && FromOutsideCount(es) == 1 && NoClose(es)
    decreases |es|
  {
    if FromOutside(es[0]) {
      InsideBringsNothing(W, es[1..]);
      assert forall i :: 0 <= i < |es[1..]| ==> es[i + 1] == es[1..][i];
    } else {
      OneItemBrings(W, es[1..], v);
      assert forall i :: 0 < i < |es| ==> es[i] == es[1..][i - 1];
    }
  }

  lemma Read()
    ensures FEEDBACK.Valid() && forall c :: 0 <= c < FEEDBACK.channels ==> Consumed(FEEDBACK, c)
  {
    assert FEEDBACK.src[0] == 0 && FEEDBACK.src[1] == 1;
    forall c | 0 <= c < FEEDBACK.channels ensures Consumed(FEEDBACK, c) {
      assert FEEDBACK.src[c] == c;
    }
  }

  /** The balance of a whole run under a price list. */
  lemma Balance(k: Tariff<int>, W: Price<int>, s0: State<int>, es: seq<Event<int>>, v: int)
    requires Balanced(Split, k, W)
    requires Init(FEEDBACK, s0) && Legal(FEEDBACK, s0, es) && FollowsRun(FEEDBACK, Split, s0, es) && OneItem(es, v)
    ensures CostOf(FEEDBACK, k, s0, es) <= 2 * k.fetch + W(C, v)
    ensures Quiet(Exec(FEEDBACK, s0, es)) ==> CostOf(FEEDBACK, k, s0, es) == 2 * k.fetch + W(C, v)
  {
    Read();
    WholeRun(FEEDBACK, Split, k, W, s0, es);
    OneItemBrings(W, es, v);
  }

  /** Under every schedule the network stops: a run has no more steps than the price of the item, and
      exactly as many when it is at rest. */
  lemma Terminates(s0: State<int>, es: seq<Event<int>>, v: int)
    requires Init(FEEDBACK, s0) && Legal(FEEDBACK, s0, es) && FollowsRun(FEEDBACK, Split, s0, es) && OneItem(es, v)
    ensures |es| <= 3 + Steps(C, v)
    ensures Quiet(Exec(FEEDBACK, s0, es)) ==> |es| == 3 + Steps(C, v)
  {
    StepsBalanced();
    InitInv(FEEDBACK, s0);
    OneItemBrings(Steps, es, v);
    StepsAreCost(s0, es);
    Balance(STEPPING, Steps, s0, es, v);
  }

  /** From one item v >= 1 exactly 2 * Fib(v + 2) - 2 values are recorded. */
  lemma RecordsFibonacci(s0: State<int>, es: seq<Event<int>>, v: int)
    requires v >= 1
    requires Init(FEEDBACK, s0) && Legal(FEEDBACK, s0, es) && FollowsRun(FEEDBACK, Split, s0, es) && OneItem(es, v)
    ensures Recorded(es) <= 2 * Fib(v + 2) - 2
    ensures Quiet(Exec(FEEDBACK, s0, es)) ==> Recorded(es) == 2 * Fib(v + 2) - 2
  {
    RecordsBalanced();
    RecordedIsCost(s0, es);
    Balance(RECORDING, Records, s0, es, v);
    RecordsFib(v);
  }

  lemma RecordsFib(v: int)
    requires v >= 1
    ensures Records(C, v) == 2 * Fib(v + 2) - 2
  {
    AggrRecordsFib(v - 1);
    AggrRecordsFib(v - 2);
  }
}
