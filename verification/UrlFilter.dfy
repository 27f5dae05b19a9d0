/** The URL filter of the crawler, and the worker loop that applies it. */
module UrlFilter {
  import opened Prelude

  /** find(sub) != npos */
  predicate Contains(s: string, sub: string) {
    exists i {:trigger s[i..]} :: 0 <= i <= |s| && sub <= s[i..]
  }

  /** The filter may stand anywhere in the URL. */
  lemma ContainsIff(s: string, sub: string)
    ensures Contains(s, sub) <==> exists a, b :: s == a + sub + b
  {
    if Contains(s, sub) {
      var i :| 0 <= i <= |s| && sub <= s[i..];
      assert s == s[..i] + sub + s[i + |sub|..];
    }
    if a, b :| s == a + sub + b {
      assert s[|a|..] == sub + b;
    }
  }

  // ---- what is promised ----

  /** The members of a sequence that contain the filter, in order. */
  function Matching(filter: string, urls: seq<string>): seq<string> {
    if urls == [] then []
    else Matching(filter, urls[..|urls| - 1])
         + (if Contains(urls[|urls| - 1], filter) then [urls[|urls| - 1]] else [])
  }

  /** The first appearance of each member. */
  function Firsts(urls: seq<string>): seq<string> {
    if urls == [] then []
    else Firsts(urls[..|urls| - 1])
         + (if urls[|urls| - 1] in urls[..|urls| - 1] then [] else [urls[|urls| - 1]])
  }

  function Take(s: seq<string>, n: nat): seq<string> {
    if |s| <= n then s else s[..n]
  }

  /** The stage drops empty results. */
  function NonEmpty(s: seq<string>): seq<string> {
    if s == [] then []
    else NonEmpty(s[..|s| - 1]) + (if s[|s| - 1] == "" then [] else [s[|s| - 1]])
  }

  /** The URLs that take a place among the first maxUrls, in order of their first appearance. */
  function Chosen(filter: string, maxUrls: nat, urls: seq<string>): seq<string> {
    Take(Firsts(Matching(filter, urls)), maxUrls)
  }

  lemma {:induction false} FirstsMembers(urls: seq<string>)
    ensures Distinct(Firsts(urls))
    ensures forall u :: u in Firsts(urls) <==> u in urls
    decreases |urls|
  {
    if urls != [] {
      FirstsMembers(urls[..|urls| - 1]);
      assert urls == urls[..|urls| - 1] + [urls[|urls| - 1]];
    }
  }

  lemma {:induction false} MatchingMembers(filter: string, urls: seq<string>)
    ensures forall u :: u in Matching(filter, urls) <==> u in urls && Contains(u, filter)
    decreases |urls|
  {
    if urls != [] {
      MatchingMembers(filter, urls[..|urls| - 1]);
      assert urls == urls[..|urls| - 1] + [urls[|urls| - 1]];
    }
  }

  lemma {:induction false} NonEmptyMembers(s: seq<string>)
    requires Distinct(s)
    ensures Distinct(NonEmpty(s)) && |NonEmpty(s)| <= |s|
    ensures forall u :: u in NonEmpty(s) <==> u in s && u != ""
    decreases |s|
  {
    if s != [] {
      NonEmptyMembers(s[..|s| - 1]);
      assert s[|s| - 1] !in s[..|s| - 1];
      assert s == s[..|s| - 1] + [s[|s| - 1]];
    }
  }

  function Elements(s: seq<string>): set<string> {
    set u | u in s
  }

  lemma {:induction false} DistinctCount(s: seq<string>)
    requires Distinct(s)
    ensures |Elements(s)| == |s|
    decreases |s|
  {
    if s == [] {
      assert Elements(s) == {};
    } else {
      var t := s[..|s| - 1];
      DistinctCount(t);
      assert s == t + [s[|s| - 1]];
      assert Elements(s) == Elements(t) + {s[|s| - 1]};
      assert s[|s| - 1] !in Elements(t);
    }
  }

  lemma ChosenMembers(filter: string, maxUrls: nat, urls: seq<string>)
    ensures var c := Chosen(filter, maxUrls, urls);
            && Distinct(c) && |c| <= maxUrls && |Elements(c)| == |c|
            && (forall u :: u in c ==> u in urls && Contains(u, filter))
            && (|c| < maxUrls ==> forall u :: u in urls && Contains(u, filter) ==> u in c)
  {
    var m := Matching(filter, urls);
    MatchingMembers(filter, urls);
    FirstsMembers(m);
    DistinctCount(Chosen(filter, maxUrls, urls));
  }

  /** One more URL. */
  lemma ChosenNext(filter: string, maxUrls: nat, urls: seq<string>, url: string)
    ensures
      var c := Chosen(filter, maxUrls, urls);
      Chosen(filter, maxUrls, urls + [url])
      == if Contains(url, filter) && |c| < maxUrls && url !in c then c + [url] else c
  {
    assert (urls + [url])[..|urls|] == urls;
    var m := Matching(filter, urls);
    var fs := Firsts(m);
    FirstsMembers(m);
    if Contains(url, filter) {
      assert Matching(filter, urls + [url]) == m + [url];
      assert (m + [url])[..|m|] == m;
      assert Firsts(m + [url]) == fs + (if url in m then [] else [url]);
      if |fs| < maxUrls {
        assert Take(fs, maxUrls) == fs;
      } else {
        assert Take(fs + [url], maxUrls) == Take(fs, maxUrls) == fs[..maxUrls];
      }
    } else {
      assert Matching(filter, urls + [url]) == m + [] == m;
    }
  }

  lemma NonEmptyNext(s: seq<string>, u: string)
    ensures NonEmpty(s + [u]) == NonEmpty(s) + (if u == "" then [] else [u])
  {
    assert (s + [u])[..|s|] == s;
  }

  /** What comes out, whatever goes in: at most maxUrls URLs, all different, all containing the filter;
      and if fewer than maxUrls were accepted, every URL that contains the filter. */
  lemma OutputBound(filter: string, maxUrls: nat, urls: seq<string>)
    ensures var out := NonEmpty(Chosen(filter, maxUrls, urls));
            && |out| <= maxUrls && Distinct(out)
            && (forall u :: u in out ==> u in urls && Contains(u, filter))
            && (|Chosen(filter, maxUrls, urls)| < maxUrls ==>
                forall u :: u in urls && u != "" && Contains(u, filter) ==> u in out)
  {
    ChosenMembers(filter, maxUrls, urls);
    NonEmptyMembers(Chosen(filter, maxUrls, urls));
  }

  // ---- the code ----

  /** One call: the new set of processed URLs and the result. */
  function Accept(filter: string, maxUrls: nat, processed: set<string>, url: string): (set<string>, string) {
    if Contains(url, filter) && |processed| < maxUrls && url !in processed
    then (processed + {url}, url) else (processed, "")
  }

  /** One call keeps what the loop has produced equal to what is promised. */
  lemma AcceptNext(filter: string, maxUrls: nat, urls: seq<string>, i: nat)
    requires i < |urls|
    ensures var c, d := Chosen(filter, maxUrls, urls[..i]), Chosen(filter, maxUrls, urls[..i + 1]);
            var (p, r) := Accept(filter, maxUrls, Elements(c), urls[i]);
            p == Elements(d) && NonEmpty(d) == NonEmpty(c) + (if r == "" then [] else [r])
  {
    var c := Chosen(filter, maxUrls, urls[..i]);
    ChosenMembers(filter, maxUrls, urls[..i]);
    ChosenNext(filter, maxUrls, urls[..i], urls[i]);
    assert urls[..i + 1] == urls[..i] + [urls[i]];
    NonEmptyNext(c, urls[i]);
    assert Elements(c + [urls[i]]) == Elements(c) + {urls[i]};
  }

  class Filter {
    const filter: string
    const maxUrls: nat
    var processed: set<string>

    constructor (filter_: string, maxUrls_: nat)
      ensures filter == filter_ && maxUrls == maxUrls_ && processed == {}
    {
      filter, maxUrls, processed := filter_, maxUrls_, {};
    }

    method Call(url: string) returns (r: string)
      modifies this
      ensures (processed, r) == Accept(filter, maxUrls, old(processed), url)
    {
      if !Contains(url, filter) {
        return "";
      }
      if |processed| >= maxUrls {
        return "";
      }
      if url in processed {
        return "";
      }
      processed := processed + {url};
      return url;
    }

    /** The loop of the worker: it puts the results that are not empty. */
    method Pipe(urls: seq<string>) returns (out: seq<string>)
      requires processed == {}
      modifies this
      ensures processed == Elements(Chosen(filter, maxUrls, urls))
      ensures out == NonEmpty(Chosen(filter, maxUrls, urls))
    {
      out := [];
      assert Elements(Chosen(filter, maxUrls, [])) == {};
      for i := 0 to |urls|
        invariant processed == Elements(Chosen(filter, maxUrls, urls[..i]))
        invariant out == NonEmpty(Chosen(filter, maxUrls, urls[..i]))
      {
        AcceptNext(filter, maxUrls, urls, i);
        var r := Call(urls[i]);
        if r != "" {
          out := out + [r];
        }
      }
      assert urls[..|urls|] == urls;
    }
  }
}
