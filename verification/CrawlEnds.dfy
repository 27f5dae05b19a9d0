/** The crawl comes to rest under every schedule. */
module CrawlEnds {
  import opened Network
  import opened Shutdown
  import opened Potential
  import opened Crawl

  /** Every step costs one. */
  const ONE_EACH: Tariff<Item> := Tariff(1, c => 1, (c, v) => 1, 1)

  /** The network cut at the filter. */
  function Cut(F: Function<Item>): Function<Item> {
    (c: Cid, v) => if c < URL then F(c, v) else []
  }

  ghost predicate Upward(c: Cid, outs: seq<(Cid, Item)>) {
    forall k :: 0 <= k < |outs| ==> c < outs[k].0
  }

  /** The number of steps that an item leads to in the cut network. */
  function PriceOf(F: Function<Item>, c: Cid, v: Item): nat
    decreases if c < URL then URL - c else 0, 1, 0
  {
    if c >= URL then 3 else 3 + PriceOuts(F, c, F(c, v))
  }

  function PriceOuts(F: Function<Item>, c: Cid, outs: seq<(Cid, Item)>): nat
    requires c < URL
    decreases URL - c, 0, |outs|
  {
    if outs == [] then 0
    else 1 + (if c < outs[0].0 then PriceOf(F, outs[0].0, outs[0].1) else 0) + PriceOuts(F, c, outs[1..])
  }

  function Steps(F: Function<Item>): Price<Item> {
    (c, v) => PriceOf(F, c, v)
  }

  lemma {:induction false} PriceOutsIs(F: Function<Item>, c: Cid, outs: seq<(Cid, Item)>)
    requires c < URL && Upward(c, outs)
    ensures OutsPrice(ONE_EACH, Steps(F), outs) == PriceOuts(F, c, outs)
    decreases |outs|
  {
    if outs != [] {
      assert forall k :: 0 <= k < |outs[1..]| ==> outs[1..][k] == outs[k + 1];
      PriceOutsIs(F, c, outs[1..]);
    }
  }

  lemma CutBalanced(n: Shape, F: Function<Item>)
    requires n.Valid() && Pages(n, F)
    ensures Balanced(Cut(F), ONE_EACH, Steps(F))
  {
    var W := Steps(F);
    forall c: Cid, v ensures W(c, v) == ONE_EACH.begin(c) + OutsPrice(ONE_EACH, W, Cut(F)(c, v)) + 1 + 1 {
      if c < URL { PriceOutsIs(F, c, F(c, v)); }
    }
  }

  ghost function Budget(p: Setup, s: Progress): nat
    requires |s.processed| <= p.maxUrls
  {
    p.maxUrls - |s.processed|
  }

  ghost function Work(p: Setup, F: Function<Item>, s: Progress): nat
    requires CrawlInv(p, s)
  {
    Total(Crawler(p.loaders), ONE_EACH, Steps(F), s.net)
  }

  /** The filter accepts and uses up a place, or the step is one less to go. */
  lemma CrawlDescends(p: Setup, F: Function<Item>, s: Progress, e: Event<Item>)
    requires Crawler(p.loaders).Valid() && Pages(Crawler(p.loaders), F)
    requires CrawlInv(p, s) && StepOk(p, F, s, e)
    ensures CrawlInv(p, Step(p, F, s, e))
    ensures var t := Step(p, F, s, e);
            Budget(p, t) < Budget(p, s) || (t.processed == s.processed && Work(p, F, t) < Work(p, F, s))
  {
    var n := Crawler(p.loaders);
    CrawlStepKeeps(p, F, s, e);
    var t := Step(p, F, s, e);
    if t.processed == s.processed {
      assert Follows(n, Cut(F), s.net, e) by { FollowsCut(p, F, s, e); }
      CutBalanced(n, F);
      StepTotal(n, Cut(F), ONE_EACH, Steps(F), s.net, e);
      CostsOne(p, F, s, e);
    } else {
      assert |t.processed| == |s.processed| + 1;
    }
  }

  lemma FollowsCut(p: Setup, F: Function<Item>, s: Progress, e: Event<Item>)
    requires Crawler(p.loaders).Valid() && StepOk(p, F, s, e) && Step(p, F, s, e).processed == s.processed
    ensures Follows(Crawler(p.loaders), Cut(F), s.net, e)
  {
    if e.Begin? {
      OnlyTheFilter(p.loaders, e.w);
      assert e.w != 0 ==> Crawler(p.loaders).src[e.w] < URL;
    }
  }

  lemma CostsOne(p: Setup, F: Function<Item>, s: Progress, e: Event<Item>)
    requires CrawlInv(p, s) && StepOk(p, F, s, e)
    ensures Cost(Crawler(p.loaders), ONE_EACH, s.net, e) == 1 && Brings(Steps(F), e) == 0
  {
    assert !e.CloseNext?;
  }

  /** As long as the network is not at rest it can go on, with what the pages and the filter say. */
  lemma GoesOn(p: Setup, F: Function<Item>, s: Progress)
    requires Crawler(p.loaders).Valid() && Pages(Crawler(p.loaders), F) && CrawlInv(p, s) && !Quiet(s.net)
    ensures exists e :: StepOk(p, F, s, e)
  {
    var n := Crawler(p.loaders);
    RestOrStep(n, s.net);
    var e :| Enabled(n, s.net, e) && !FromOutside(e);
    if e.Begin? {
      var v := Current(p, s, e.w);
      var outs := if e.w == 0 then FilterOuts(p, s.processed, v) else F(n.src[e.w], v);
      assert n.dsts[0] == [FILTERED];
      assert StepOk(p, F, s, Begin(e.w, outs));
    } else {
      assert StepOk(p, F, s, e);
    }
  }

  /** A schedule: it steps as long as it can. */
  ghost predicate Schedule(p: Setup, F: Function<Item>, run: nat -> Progress) {
    forall i: nat :: Follow(p, F, run, i)
  }

  ghost predicate Follow(p: Setup, F: Function<Item>, run: nat -> Progress, i: nat) {
    (exists e :: StepOk(p, F, run(i), e)) ==> exists e :: StepOk(p, F, run(i), e) && run(i + 1) == Step(p, F, run(i), e)
  }

  lemma {:induction false} EndsFrom(p: Setup, F: Function<Item>, run: nat -> Progress, i: nat) returns (j: nat)
    requires Crawler(p.loaders).Valid() && Pages(Crawler(p.loaders), F) && Schedule(p, F, run) && CrawlInv(p, run(i))
    ensures Fits(Crawler(p.loaders), run(j).net) && Quiet(run(j).net)
    decreases Budget(p, run(i)), Work(p, F, run(i))
  {
    if Quiet(run(i).net) {
      j := i;
    } else {
      GoesOn(p, F, run(i));
      assert Follow(p, F, run, i);
      var e :| StepOk(p, F, run(i), e) && run(i + 1) == Step(p, F, run(i), e);
      CrawlDescends(p, F, run(i), e);
      j := EndsFrom(p, F, run, i + 1);
    }
  }

  /** With finitely many links on each page, the crawl comes to rest: every infinite schedule that never
      idles while a step is possible reaches a state where every worker waits. */
  lemma CrawlComesToRest(p: Setup, F: Function<Item>, run: nat -> Progress)
    requires Crawler(p.loaders).Valid() && Pages(Crawler(p.loaders), F)
    requires Start(p, run(0)) && Schedule(p, F, run)
    ensures exists j: nat :: Quiet(run(j).net)
  {
    StartInv(p, run(0));
    var j := EndsFrom(p, F, run, 0);
  }
}
