/** The cyclic network of the crawler: links found on loaded pages are fed back to the URL filter, whose
    set of processed URLs is the only state of a stage. */
module Crawl {
  import opened Prelude
  import opened Network
  import opened NetworkSafety
  import opened Shutdown
  import opened Potential
  import opened UrlFilter

  datatype Item = Str(s: string) | StrPair(first: string, second: string)

  /** Channels, every stage but the filter leading from a smaller to a greater one. */
  const FILTERED: Cid := 0
  const PARSED: Cid := 1
  const CONTENT: Cid := 2
  const HREF: Cid := 3
  const TEXT: Cid := 4
  const PARAGRAPH: Cid := 5
  const PLAIN: Cid := 6
  const WORDS: Cid := 7
  const URL: Cid := 8

  /** Worker 0 is the filter; then come the loaders, and the other stages. */
  ghost function Crawler(loaders: nat): Shape {
    Shape(9, [URL, FILTERED, CONTENT, HREF, TEXT, PARAGRAPH, PLAIN, WORDS] + seq(loaders, i => PARSED),
      [[FILTERED], [PARSED], [HREF, TEXT], [URL], [PARAGRAPH], [PLAIN], [WORDS], []] + seq(loaders, i => [CONTENT]))
  }

  /** The pages: what each stage but the filter puts for an item. A stage puts only to its destinations. */
  ghost predicate Pages(n: Shape, F: Function<Item>)
    requires n.Valid()
  {
    && (forall c, v, k :: 0 <= k < |F(c, v)| ==> c < F(c, v)[k].0)
    && (forall w, v, k :: 0 < w < |n.src| && 0 <= k < |F(n.src[w], v)| ==> F(n.src[w], v)[k].0 in n.dsts[w])
  }

  datatype Progress = Progress(net: State<Item>, processed: set<string>)

  datatype Setup = Setup(loaders: nat, filter: string, maxUrls: nat)

  /** The stage piping1to01(url, filteredUrl, urlFilter). */
  function FilterOuts(p: Setup, processed: set<string>, v: Item): seq<(Cid, Item)> {
    if v.StrPair? then [] else
      var r := Accept(p.filter, p.maxUrls, processed, v.s).1;
      if r == "" then [] else [(FILTERED, Str(r))]
  }

  ghost predicate StepOk(p: Setup, F: Function<Item>, s: Progress, e: Event<Item>) {
    var n := Crawler(p.loaders);
    && Fits(n, s.net) && InRange(n, s.net)
    && !FromOutside(e) && Enabled(n, s.net, e)
    && (e.Begin? ==>
      var v := Current(p, s, e.w);
      e.outs == if e.w == 0 then FilterOuts(p, s.processed, v) else F(n.src[e.w], v))
  }

  ghost function Current(p: Setup, s: Progress, w: Wid): Item
    requires Fits(Crawler(p.loaders), s.net) && InRange(Crawler(p.loaders), s.net)
    requires w < |s.net.work| && s.net.work[w].Given?
  {
    s.net.puts[Crawler(p.loaders).src[w]][s.net.work[w].i]
  }

  ghost function Step(p: Setup, F: Function<Item>, s: Progress, e: Event<Item>): Progress
    requires StepOk(p, F, s, e)
  {
    Progress(Apply(Crawler(p.loaders), s.net, e),
      if e.Begin? && e.w == 0 && Current(p, s, 0).Str?
      then Accept(p.filter, p.maxUrls, s.processed, Current(p, s, 0).s).0 else s.processed)
  }

  /** The network has begun, and the first URL is put. */
  ghost predicate Start(p: Setup, s: Progress) {
    var n := Crawler(p.loaders);
    exists s0: State<Item>, root: string :: Init(n, s0) && Fits(n, s0)
      && s == Progress(Apply(n, s0, External(URL, Str(root))), {})
  }

  ghost predicate CrawlLegal(p: Setup, F: Function<Item>, s: Progress, es: seq<Event<Item>>)
    decreases |es|
  {
    es == [] || (StepOk(p, F, s, es[0]) && CrawlLegal(p, F, Step(p, F, s, es[0]), es[1..]))
  }

  ghost function Run(p: Setup, F: Function<Item>, s: Progress, es: seq<Event<Item>>): Progress
    requires CrawlLegal(p, F, s, es)
    decreases |es|
  {
    if es == [] then s else Run(p, F, Step(p, F, s, es[0]), es[1..])
  }

  // ---- what enters filteredUrl ----

  ghost predicate Good(p: Setup, processed: set<string>, v: Item) {
    v.Str? && v.s != "" && v.s in processed && Contains(v.s, p.filter)
  }

  /** Everything put into filteredUrl was accepted, once; the filter's worker may hold one more. */
  ghost predicate Filtered(p: Setup, s: Progress) {
    && Fits(Crawler(p.loaders), s.net)
    && |s.processed| <= p.maxUrls
    && Distinct(s.net.puts[FILTERED])
    && (forall i :: 0 <= i < |s.net.puts[FILTERED]| ==> Good(p, s.processed, s.net.puts[FILTERED][i]))
    && (s.net.work[0].Busy? && s.net.work[0].todo != [] ==>
        && |s.net.work[0].todo| == 1 && Good(p, s.processed, s.net.work[0].todo[0].1)
        && s.net.work[0].todo[0].1 !in s.net.puts[FILTERED])
  }

  ghost predicate CrawlInv(p: Setup, s: Progress) {
    Open(Crawler(p.loaders), s.net) && InRange(Crawler(p.loaders), s.net) && Filtered(p, s)
  }

  lemma OnlyTheFilter(loaders: nat, w: Wid)
    requires w < |Crawler(loaders).src|
    ensures Crawler(loaders).Valid()
    ensures Crawler(loaders).src[w] == URL <==> w == 0
    ensures FILTERED in Crawler(loaders).dsts[w] <==> w == 0
  {
    var n := Crawler(loaders);
    forall v | 8 <= v < |n.src| ensures n.src[v] == PARSED && n.dsts[v] == [CONTENT] {}
    if w < 8 {
      assert n.dsts[w] == [[FILTERED], [PARSED], [HREF, TEXT], [URL], [PARAGRAPH], [PLAIN], [WORDS], []][w];
    }
  }

  lemma PutElsewhereKeeps(p: Setup, s: Progress, e: Event<Item>, F: Function<Item>)
    requires CrawlInv(p, s) && StepOk(p, F, s, e) && !(e.Begin? && e.w == 0) && !(e.PutOut? && e.w == 0)
    requires Fits(Crawler(p.loaders), Step(p, F, s, e).net)
    ensures Filtered(p, Step(p, F, s, e))
  {
    var t := Step(p, F, s, e);
    OnlyTheFilter(p.loaders, e.w);
    if e.PutOut? {
      assert s.net.work[e.w].todo[0].0 in Crawler(p.loaders).dsts[e.w];
    }
    assert t.net.puts[FILTERED] == s.net.puts[FILTERED];
    assert t.net.work[0].Busy? ==> t.net.work[0] == s.net.work[0];
  }

  lemma FilterKeeps(p: Setup, s: Progress, e: Event<Item>, F: Function<Item>)
    requires CrawlInv(p, s) && StepOk(p, F, s, e) && e.Begin? && e.w == 0
    requires Fits(Crawler(p.loaders), Step(p, F, s, e).net)
    ensures Filtered(p, Step(p, F, s, e))
  {
    var t := Step(p, F, s, e);
    assert s.processed <= t.processed;
    assert forall v :: Good(p, s.processed, v) ==> Good(p, t.processed, v);
  }

  lemma FilterPutKeeps(p: Setup, s: Progress, e: Event<Item>, F: Function<Item>)
    requires CrawlInv(p, s) && StepOk(p, F, s, e) && e.PutOut? && e.w == 0
    requires Fits(Crawler(p.loaders), Step(p, F, s, e).net)
    ensures Filtered(p, Step(p, F, s, e))
  {
    OnlyTheFilter(p.loaders, 0);
    var t := Step(p, F, s, e);
    var out := s.net.work[0].todo[0];
    assert out.0 in Crawler(p.loaders).dsts[0];
    assert t.net.puts[FILTERED] == s.net.puts[FILTERED] + [out.1];
    assert t.net.work[0].Busy? ==> t.net.work[0].todo == [];
  }

  lemma CrawlStepKeeps(p: Setup, F: Function<Item>, s: Progress, e: Event<Item>)
    requires CrawlInv(p, s) && StepOk(p, F, s, e)
    ensures CrawlInv(p, Step(p, F, s, e))
  {
    var n := Crawler(p.loaders);
    OpenStep(n, s.net, e);
    InvInRange(n, Apply(n, s.net, e));
    if e.Begin? && e.w == 0 {
      FilterKeeps(p, s, e, F);
    } else if e.PutOut? && e.w == 0 {
      FilterPutKeeps(p, s, e, F);
    } else {
      PutElsewhereKeeps(p, s, e, F);
    }
  }

  lemma StartInv(p: Setup, s: Progress)
    requires Start(p, s)
    ensures CrawlInv(p, s)
  {
    var n := Crawler(p.loaders);
    var s0: State<Item>, root: string :| Init(n, s0) && Fits(n, s0)
      && s == Progress(Apply(n, s0, External(URL, Str(root))), {});
    InitInv(n, s0);
    OpenStep(n, s0, External(URL, Str(root)));
    InvInRange(n, s.net);
  }

  lemma {:induction false} CrawlRunKeeps(p: Setup, F: Function<Item>, s: Progress, es: seq<Event<Item>>)
    requires CrawlInv(p, s) && CrawlLegal(p, F, s, es)
    ensures CrawlInv(p, Run(p, F, s, es))
    decreases |es|
  {
    if es != [] {
      CrawlStepKeeps(p, F, s, es[0]);
      CrawlRunKeeps(p, F, Step(p, F, s, es[0]), es[1..]);
    }
  }

  lemma {:induction false} CountDistinct(vs: seq<Item>, P: set<string>)
    requires Distinct(vs) && forall i :: 0 <= i < |vs| ==> vs[i].Str? && vs[i].s in P
    ensures |vs| <= |P|
    decreases |vs|
  {
    if vs != [] {
      var last := vs[|vs| - 1];
      CountDistinct(vs[..|vs| - 1], P - {last.s});
    }
  }

  /** Whatever the pages link to and however the journeys are scheduled: at most maxUrls URLs ever enter
      filteredUrl, all different and all containing the filter. */
  lemma AtMostMaxUrls(p: Setup, F: Function<Item>, s: Progress, es: seq<Event<Item>>)
    requires Start(p, s) && CrawlLegal(p, F, s, es)
    ensures Fits(Crawler(p.loaders), Run(p, F, s, es).net)
    ensures var urls := Run(p, F, s, es).net.puts[FILTERED];
            && |urls| <= p.maxUrls && Distinct(urls)
            && forall i :: 0 <= i < |urls| ==> urls[i].Str? && Contains(urls[i].s, p.filter)
  {
    StartInv(p, s);
    CrawlRunKeeps(p, F, s, es);
    var t := Run(p, F, s, es);
    CountDistinct(t.net.puts[FILTERED], t.processed);
  }

  // ---- nothing that is accepted gets lost ----

  /** The filter has seen this item: it was accepted, or does not match, or there was no place left. */
  predicate Judged(p: Setup, processed: set<string>, v: Item) {
    v.Str? && Contains(v.s, p.filter) ==> v.s in processed || |processed| >= p.maxUrls
  }

  /** Every item put into url waits for the filter, is about to be handled by it, or was judged. */
  ghost predicate Handled(p: Setup, s: Progress)
    requires Fits(Crawler(p.loaders), s.net)
  {
    forall i: nat :: i < |s.net.puts[URL]| ==> Ahead(p, s, i) || Judged(p, s.processed, s.net.puts[URL][i])
  }

  ghost predicate Ahead(p: Setup, s: Progress, i: nat)
    requires Fits(Crawler(p.loaders), s.net)
  {
    i in s.net.chans[URL].queue || s.net.work[0] == Given(i)
  }

  /** Every accepted URL, but the empty one, has been put into filteredUrl, or the filter is about to. */
  ghost predicate Entered(p: Setup, s: Progress)
    requires Fits(Crawler(p.loaders), s.net)
  {
    forall u :: u in s.processed && u != "" ==>
      Str(u) in s.net.puts[FILTERED] || (s.net.work[0].Busy? && s.net.work[0].todo == [(FILTERED, Str(u))])
  }

  ghost predicate Complete(p: Setup, s: Progress) {
    && Fits(Crawler(p.loaders), s.net) && Handled(p, s) && Entered(p, s)
    && forall u :: u in s.processed ==> Contains(u, p.filter)
  }

  /** A put by anybody but the filter. */
  lemma OtherPut(p: Setup, s: Progress, net: State<Item>, c: Cid, v: Item)
    requires Fits(Crawler(p.loaders), s.net) && Complete(p, s) && c < 9 && c != FILTERED
    requires Fits(Crawler(p.loaders), net) && Fits(Crawler(p.loaders), PutTo(net, c, v))
    requires net.chans == s.net.chans && net.puts == s.net.puts && net.work[0] == s.net.work[0]
    requires forall u :: u in net.chans[c].waiters ==> u < |net.work| && Crawler(p.loaders).src[u] == c && net.work[u].Parked?
    ensures Complete(p, s.(net := PutTo(net, c, v)))
  {
    var s' := s.(net := PutTo(net, c, v));
    assert s'.net.puts[FILTERED] == s.net.puts[FILTERED];
    var ws := net.chans[c].waiters;
    if ws != [] {
      assert ws[0] in ws;
      OnlyTheFilter(p.loaders, ws[0]);
    }
    assert s.net.work[0].Busy? ==> s'.net.work[0] == s.net.work[0];
    forall i: nat | i < |s'.net.puts[URL]| ensures Ahead(p, s', i) || Judged(p, s'.processed, s'.net.puts[URL][i]) {
      if i < |s.net.puts[URL]| {
        assert s'.net.puts[URL][i] == s.net.puts[URL][i];
        assert Ahead(p, s, i) ==> Ahead(p, s', i);
      }
    }
  }

  /** Steps after which the channel url, filteredUrl and the filter's worker are as before. */
  lemma ElsewhereComplete(p: Setup, s: Progress, net: State<Item>)
    requires Complete(p, s) && Fits(Crawler(p.loaders), net)
    requires net.puts == s.net.puts && net.chans[URL] == s.net.chans[URL] && net.work[0] == s.net.work[0]
    ensures Complete(p, s.(net := net))
  {
    var s' := s.(net := net);
    forall i: nat | i < |s'.net.puts[URL]| ensures Ahead(p, s', i) || Judged(p, s'.processed, s'.net.puts[URL][i]) {
      assert Ahead(p, s, i) ==> Ahead(p, s', i);
    }
  }

  lemma OtherWorkerComplete(p: Setup, F: Function<Item>, s: Progress, e: Event<Item>)
    requires CrawlInv(p, s) && Complete(p, s) && StepOk(p, F, s, e) && e.w != 0 && Fits(Crawler(p.loaders), Step(p, F, s, e).net)
    ensures Complete(p, Step(p, F, s, e))
  {
    var n := Crawler(p.loaders);
    OnlyTheFilter(p.loaders, e.w);
    if e.PutOut? {
      var todo := s.net.work[e.w].todo;
      assert todo[0].0 in n.dsts[e.w];
      OtherPut(p, s, SetWork(s.net, e.w, Busy(s.net.work[e.w].i, todo[1..])), todo[0].0, todo[0].1);
    } else if e.CloseNext? {
    } else {
      ElsewhereComplete(p, s, Step(p, F, s, e).net);
    }
  }

  lemma FilterFetchComplete(p: Setup, s: Progress)
    requires CrawlInv(p, s) && Complete(p, s) && Enabled(Crawler(p.loaders), s.net, Fetch(0))
    requires Fits(Crawler(p.loaders), ApplyFetch(Crawler(p.loaders), s.net, 0))
    ensures Complete(p, s.(net := ApplyFetch(Crawler(p.loaders), s.net, 0)))
  {
    var s' := s.(net := ApplyFetch(Crawler(p.loaders), s.net, 0));
    forall i: nat | i < |s'.net.puts[URL]| ensures Ahead(p, s', i) || Judged(p, s'.processed, s'.net.puts[URL][i]) {
      assert Ahead(p, s, i) ==> Ahead(p, s', i);
    }
  }

  lemma FilterBeginComplete(p: Setup, F: Function<Item>, s: Progress, e: Event<Item>)
    requires CrawlInv(p, s) && Complete(p, s) && StepOk(p, F, s, e) && e.Begin? && e.w == 0
    requires Fits(Crawler(p.loaders), Step(p, F, s, e).net)
    ensures Complete(p, Step(p, F, s, e))
  {
    var s' := Step(p, F, s, e);
    var v := Current(p, s, 0);
    assert s.processed <= s'.processed && |s.processed| <= |s'.processed|;
    assert Judged(p, s'.processed, v);
    forall i: nat | i < |s'.net.puts[URL]| ensures Ahead(p, s', i) || Judged(p, s'.processed, s'.net.puts[URL][i]) {
      if Ahead(p, s, i) {
        assert i in s.net.chans[URL].queue ==> Ahead(p, s', i);
      } else {
        assert Judged(p, s.processed, s.net.puts[URL][i]);
      }
    }
    forall u | u in s'.processed && u != ""
      ensures Str(u) in s'.net.puts[FILTERED] || (s'.net.work[0].Busy? && s'.net.work[0].todo == [(FILTERED, Str(u))])
    {
      assert u !in s.processed ==> v == Str(u);
    }
  }

  lemma FilterPutComplete(p: Setup, s: Progress, net: State<Item>)
    requires CrawlInv(p, s) && Complete(p, s) && s.net.work[0].Busy? && |s.net.work[0].todo| == 1 && s.net.work[0].todo[0].0 == FILTERED
    requires net == SetWork(s.net, 0, Busy(s.net.work[0].i, [])) && Fits(Crawler(p.loaders), net)
    requires Fits(Crawler(p.loaders), PutTo(net, FILTERED, s.net.work[0].todo[0].1))
    ensures Complete(p, s.(net := PutTo(net, FILTERED, s.net.work[0].todo[0].1)))
  {
    var out := s.net.work[0].todo[0].1;
    var s' := s.(net := PutTo(net, FILTERED, out));
    var ws := net.chans[FILTERED].waiters;
    if ws != [] {
      assert ws[0] in ws;
      assert Crawler(p.loaders).src[ws[0]] == FILTERED;
    }
    assert s'.net.puts[FILTERED] == s.net.puts[FILTERED] + [out];
    assert out in s'.net.puts[FILTERED];
    forall i: nat | i < |s'.net.puts[URL]| ensures Ahead(p, s', i) || Judged(p, s'.processed, s'.net.puts[URL][i]) {
      assert Ahead(p, s, i) ==> Ahead(p, s', i);
    }
  }

  lemma FilterComplete(p: Setup, F: Function<Item>, s: Progress, e: Event<Item>)
    requires CrawlInv(p, s) && Complete(p, s) && StepOk(p, F, s, e) && e.w == 0 && Fits(Crawler(p.loaders), Step(p, F, s, e).net)
    ensures Complete(p, Step(p, F, s, e))
  {
    OnlyTheFilter(p.loaders, 0);
    match e
    case Fetch(_) => FilterFetchComplete(p, s);
    case Begin(_, _) => FilterBeginComplete(p, F, s, e);
    case PutOut(_) =>
      assert Crawler(p.loaders).dsts[0] == [FILTERED];
      assert s.net.work[0].todo[0].0 in Crawler(p.loaders).dsts[0];
      PutOutFirst(Crawler(p.loaders), s.net, 0);
      assert s.net.work[0].todo[1..] == [];
      FilterPutComplete(p, s, SetWork(s.net, 0, Busy(s.net.work[0].i, s.net.work[0].todo[1..])));
    case Finish(_) => FilterFinishComplete(p, s, Step(p, F, s, e).net);
    case CloseNext(_) =>
  }

  lemma FilterFinishComplete(p: Setup, s: Progress, net: State<Item>)
    requires Complete(p, s) && Fits(Crawler(p.loaders), net) && s.net.work[0].Busy? && s.net.work[0].todo == []
    requires net.puts == s.net.puts && net.chans == s.net.chans
    ensures Complete(p, s.(net := net))
  {
    var s' := s.(net := net);
    forall i: nat | i < |s'.net.puts[URL]| ensures Ahead(p, s', i) || Judged(p, s'.processed, s'.net.puts[URL][i]) {
      assert Ahead(p, s, i) ==> Ahead(p, s', i);
    }
  }

  lemma {:induction false} CompleteRun(p: Setup, F: Function<Item>, s: Progress, es: seq<Event<Item>>)
    requires CrawlInv(p, s) && Complete(p, s) && CrawlLegal(p, F, s, es)
    ensures CrawlInv(p, Run(p, F, s, es)) && Complete(p, Run(p, F, s, es))
    decreases |es|
  {
    if es != [] {
      CrawlStepKeeps(p, F, s, es[0]);
      if es[0].w == 0 {
        FilterComplete(p, F, s, es[0]);
      } else {
        OtherWorkerComplete(p, F, s, es[0]);
      }
      CompleteRun(p, F, Step(p, F, s, es[0]), es[1..]);
    }
  }

  lemma StartComplete(p: Setup, s: Progress)
    requires Start(p, s)
    ensures Complete(p, s)
  {
    StartInv(p, s);
    var n := Crawler(p.loaders);
    var s0: State<Item>, root: string :| Init(n, s0) && Fits(n, s0)
      && s == Progress(Apply(n, s0, External(URL, Str(root))), {});
  }

  lemma {:induction false} CountAll(vs: seq<Item>, P: set<string>)
    requires forall u :: u in P ==> Str(u) in vs
    ensures |P| <= |vs|
    decreases |vs|
  {
    if vs == [] {
      assert P == {};
    } else {
      var last := vs[|vs| - 1];
      var Q := if last.Str? then P - {last.s} else P;
      forall u | u in Q ensures Str(u) in vs[..|vs| - 1] {
        assert vs == vs[..|vs| - 1] + [last];
      }
      CountAll(vs[..|vs| - 1], Q);
    }
  }

  /** What filteredUrl holds: every accepted URL but the empty one; and if it could take more, every URL but
      the empty one that was ever put into url and contains the filter. */
  ghost predicate AllThere(p: Setup, t: Progress)
    requires Fits(Crawler(p.loaders), t.net)
  {
    var out := t.net.puts[FILTERED];
    && (forall u :: u in t.processed && u != "" ==> Str(u) in out)
    && (|out| + (if Contains("", p.filter) then 1 else 0) < p.maxUrls ==>
          forall u :: Str(u) in t.net.puts[URL] && u != "" && Contains(u, p.filter) ==> Str(u) in out)
  }

  lemma AtRestAllThere(p: Setup, t: Progress)
    requires CrawlInv(p, t) && Complete(p, t) && Quiet(t.net)
    ensures AllThere(p, t)
  {
    var out := t.net.puts[FILTERED];
    CountAll(out, t.processed - {""});
    if "" in t.processed {
      assert t.processed == t.processed - {""} + {""};
    } else {
      assert t.processed == t.processed - {""};
    }
    OnlyTheFilter(p.loaders, 0);
    assert t.net.work[0].Parked?;
    assert t.net.chans[URL].queue == [];
    if |out| + (if Contains("", p.filter) then 1 else 0) < p.maxUrls {
      forall u | Str(u) in t.net.puts[URL] && u != "" && Contains(u, p.filter) ensures Str(u) in out {
        var i :| 0 <= i < |t.net.puts[URL]| && t.net.puts[URL][i] == Str(u);
        assert !Ahead(p, t, i);
      }
    }
  }

  /** When the crawler has come to rest, nothing that was accepted is missing in filteredUrl, and nothing that
      should have been accepted was turned down. */
  lemma CrawlIsComplete(p: Setup, F: Function<Item>, s: Progress, es: seq<Event<Item>>)
    requires Start(p, s) && CrawlLegal(p, F, s, es) && Quiet(Run(p, F, s, es).net)
    ensures Fits(Crawler(p.loaders), Run(p, F, s, es).net) && AllThere(p, Run(p, F, s, es))
  {
    StartInv(p, s);
    StartComplete(p, s);
    CompleteRun(p, F, s, es);
    AtRestAllThere(p, Run(p, F, s, es));
  }
}
