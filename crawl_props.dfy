/**
 * What the recursive search guarantees: the robots cache is transparent and
 * fails closed, every URL is read at most once, only permitted pages are
 * downloaded, results are only ever appended, a reply's own hits come before
 * its children's in the service's order, and no search goes past the depth limit.
 */
module CrawlProps {
  import opened Common
  import opened Text
  import opened CrawlSpec

  // ---------------------------------------------------------------------------
  // Small facts about sequences
  // ---------------------------------------------------------------------------

  lemma DistinctSnoc<T>(xs: seq<T>, x: T)
    requires Distinct(xs) && x !in xs
    ensures Distinct(xs + [x])
  {
  }

  lemma ElemsSnoc<T>(xs: seq<T>, x: T)
    ensures Elems(xs + [x]) == Elems(xs) + {x}
  {
  }

  lemma UrlsSnoc(rs: seq<CrawledResult>, r: CrawledResult)
    ensures Urls(rs + [r]) == Urls(rs) + [r.page.url]
  {
  }

  lemma PageUrlsSnoc(ps: seq<WebResult>)
    requires ps != []
    ensures PageUrls(ps) == PageUrls(ps[..|ps| - 1]) + [ps[|ps| - 1].url]
  {
  }

  // ---------------------------------------------------------------------------
  // robots.txt cache
  // ---------------------------------------------------------------------------

  /**
   * With a sound cache, the cached check answers exactly as reading the robots
   * file afresh would (so a failed read forbids), keeps the cache sound, reads
   * a key only when it is not cached yet and changes nothing else.
   */
  lemma CanFetchAgrees(o: Oracles, url: Option<string>, s: CrawlState)
    requires CacheSound(o, s)
    ensures var c := CanFetch(o, url, s); var key := RobotsKey(o, url);
      && c.0 == Permitted(o, url)
      && CacheSound(o, c.1)
      && c.1.robots.Keys == s.robots.Keys + {key}
      && c.1.robotsReads == s.robotsReads + (if key in s.robots then [] else [key])
      && c.1 == s.(robots := c.1.robots, robotsReads := c.1.robotsReads)
  {
  }

  /** A URL whose robots file has been cached as unreadable is refused without a new read. */
  lemma CanFetchFailsClosed(o: Oracles, url: Option<string>, s: CrawlState)
    requires RobotsKey(o, url) in s.robots && s.robots[RobotsKey(o, url)].None?
    ensures CanFetch(o, url, s) == (false, s)
  {
  }

  /** A cached key is answered by the cached parser, with no new read. */
  lemma CanFetchUsesCache(o: Oracles, url: Option<string>, s: CrawlState)
    requires RobotsKey(o, url) in s.robots && s.robots[RobotsKey(o, url)].Some?
    ensures CanFetch(o, url, s) == (o.allows(s.robots[RobotsKey(o, url)].value, url), s)
  {
  }

  // ---------------------------------------------------------------------------
  // One page
  // ---------------------------------------------------------------------------

  predicate Annotated(o: Oracles, r: CrawledResult) {
    (r.pageText, r.extractedTopics) == Annotation(o, r.page.url)
  }

  /**
   * Reading one hit through the cache gives the reference annotation, downloads
   * the page exactly when it is permitted, and touches only cache and logs.
   */
  lemma AnnotateAgrees(o: Oracles, page: WebResult, s: CrawlState)
    requires CacheSound(o, s)
    ensures var a := Annotate(o, page, s); var key := RobotsKey(o, page.url);
      && a.0.page == page
      && Annotated(o, a.0)
      && CacheSound(o, a.1)
      && a.1.robots.Keys == s.robots.Keys + {key}
      && a.1.robotsReads == s.robotsReads + (if key in s.robots then [] else [key])
      && a.1.fetches == s.fetches + (if Permitted(o, page.url) then [page.url] else [])
      && a.1 == s.(robots := a.1.robots, robotsReads := a.1.robotsReads, fetches := a.1.fetches)
  {
    CanFetchAgrees(o, page.url, s);
  }

  /** Reading a hit neither reads nor writes the result list. */
  lemma AnnotateFrame(o: Oracles, page: WebResult, s: CrawlState, rs: seq<CrawledResult>)
    ensures var a := Annotate(o, page, s);
      && a.1.results == s.results
      && Annotate(o, page, s.(results := rs)) == (a.0, a.1.(results := rs))
  {
  }

  /** Text kept for a page never has leading, trailing or repeated whitespace. */
  lemma AnnotationCollapsed(o: Oracles, url: Option<string>)
    ensures Annotation(o, url).0.Some? <==> Annotation(o, url).1.Some?
    ensures Annotation(o, url).0.Some? ==> Permitted(o, url) && Collapsed(Annotation(o, url).0.value)
  {
    if Permitted(o, url) && o.fetchText(url).Some? {
      CollapseIsCollapsed(o.fetchText(url).value);
    }
  }

  // ---------------------------------------------------------------------------
  // The invariant of the generator's state
  // ---------------------------------------------------------------------------

  /**
   * The cache is sound and each key was read once; result URLs are distinct
   * and are exactly the visited set; every result carries its reference
   * annotation; every download is of a distinct visited URL that robots.txt permits.
   */
  predicate Inv(o: Oracles, s: CrawlState) {
    && CacheSound(o, s)
    && Distinct(s.robotsReads)
    && Elems(s.robotsReads) == s.robots.Keys
    && Distinct(Urls(s.results))
    && Elems(Urls(s.results)) == s.visited
    && (forall i :: 0 <= i < |s.results| ==> Annotated(o, s.results[i]))
    && Distinct(s.fetches)
    && (forall u :: u in s.fetches ==> u in s.visited && Permitted(o, u))
  }

  lemma InitialInv(o: Oracles)
    ensures Inv(o, Initial)
  {
  }

  lemma StepInv(o: Oracles, page: WebResult, s: CrawlState)
    requires Inv(o, s)
    ensures Inv(o, Step(o, page, s))
  {
    var u := page.url;
    if u !in s.visited {
      var s0 := s.(visited := s.visited + {u});
      var a := Annotate(o, page, s0);
      AnnotateAgrees(o, page, s0);
      var t := Step(o, page, s);
      assert t == a.1.(results := s.results + [a.0]);
      var key := RobotsKey(o, u);
      if key !in s.robots {
        assert key !in s.robotsReads;
        DistinctSnoc(s.robotsReads, key);
        ElemsSnoc(s.robotsReads, key);
      }
      UrlsSnoc(s.results, a.0);
      assert u !in Urls(s.results);
      DistinctSnoc(Urls(s.results), u);
      ElemsSnoc(Urls(s.results), u);
      assert forall i :: 0 <= i < |t.results| ==> Annotated(o, t.results[i]) by {
        forall i | 0 <= i < |t.results|
          ensures Annotated(o, t.results[i])
        {
          if i < |s.results| {
            assert t.results[i] == s.results[i];
          }
        }
      }
      if Permitted(o, u) {
        assert u !in s.fetches;
        DistinctSnoc(s.fetches, u);
      }
    }
  }

  lemma {:induction false} ProcessPagesInv(o: Oracles, pages: seq<WebResult>, s: CrawlState)
    requires Inv(o, s)
    ensures Inv(o, ProcessPages(o, pages, s))
    decreases |pages|
  {
    if pages != [] {
      ProcessPagesInv(o, pages[..|pages| - 1], s);
      StepInv(o, pages[|pages| - 1], ProcessPages(o, pages[..|pages| - 1], s));
    }
  }

  /** The whole recursive search keeps the invariant. */
  lemma {:induction false} CrawlInv(o: Oracles, maxDepth: int, q: string, d: int, s: CrawlState)
    requires Inv(o, s)
    ensures Inv(o, Crawl(o, maxDepth, q, d, s))
    decreases Budget(maxDepth, d), 1, 0
  {
    if d <= maxDepth {
      var s1 := s.(searches := s.searches + [SearchCall(q, d)]);
      assert Inv(o, s1);
      match o.search(q)
      case None =>
      case Some(resp) =>
        ProcessPagesInv(o, NormalizedResults(resp), s1);
        CrawlAllInv(o, maxDepth, d, ChildQueries(RelatedOf(resp)), ProcessPages(o, NormalizedResults(resp), s1));
    }
  }

  lemma {:induction false} CrawlAllInv(o: Oracles, maxDepth: int, pd: int, qs: seq<string>, s: CrawlState)
    requires pd <= maxDepth
    requires Inv(o, s)
    ensures Inv(o, CrawlAll(o, maxDepth, pd, qs, s))
    decreases Budget(maxDepth, pd), 0, |qs|
  {
    if qs != [] {
      CrawlAllInv(o, maxDepth, pd, qs[..|qs| - 1], s);
      CrawlInv(o, maxDepth, qs[|qs| - 1], pd + 1, CrawlAll(o, maxDepth, pd, qs[..|qs| - 1], s));
    }
  }

  // ---------------------------------------------------------------------------
  // Only appending
  // ---------------------------------------------------------------------------

  /** `t` is a later state than `s`: every log and the result list only grew, cache entries never changed. */
  predicate Extends(s: CrawlState, t: CrawlState) {
    && s.searches <= t.searches
    && s.results <= t.results
    && s.robotsReads <= t.robotsReads
    && s.fetches <= t.fetches
    && s.visited <= t.visited
    && (forall k :: k in s.robots ==> k in t.robots && t.robots[k] == s.robots[k])
  }

  lemma ExtendsTrans(s: CrawlState, t: CrawlState, u: CrawlState)
    requires Extends(s, t) && Extends(t, u)
    ensures Extends(s, u)
  {
  }

  lemma StepExtends(o: Oracles, page: WebResult, s: CrawlState)
    ensures Extends(s, Step(o, page, s))
    ensures Step(o, page, s).searches == s.searches
  {
  }

  lemma {:induction false} ProcessPagesExtends(o: Oracles, pages: seq<WebResult>, s: CrawlState)
    ensures Extends(s, ProcessPages(o, pages, s))
    ensures ProcessPages(o, pages, s).searches == s.searches
    decreases |pages|
  {
    if pages != [] {
      var t := ProcessPages(o, pages[..|pages| - 1], s);
      ProcessPagesExtends(o, pages[..|pages| - 1], s);
      StepExtends(o, pages[|pages| - 1], t);
      ExtendsTrans(s, t, Step(o, pages[|pages| - 1], t));
    }
  }

  /** A search never alters or removes anything already recorded. */
  lemma {:induction false} CrawlExtends(o: Oracles, maxDepth: int, q: string, d: int, s: CrawlState)
    ensures Extends(s, Crawl(o, maxDepth, q, d, s))
    decreases Budget(maxDepth, d), 1, 0
  {
    if d <= maxDepth {
      var s1 := s.(searches := s.searches + [SearchCall(q, d)]);
      match o.search(q)
      case None =>
      case Some(resp) =>
        var s2 := ProcessPages(o, NormalizedResults(resp), s1);
        ProcessPagesExtends(o, NormalizedResults(resp), s1);
        ExtendsTrans(s, s1, s2);
        CrawlAllExtends(o, maxDepth, d, ChildQueries(RelatedOf(resp)), s2);
        ExtendsTrans(s, s2, Crawl(o, maxDepth, q, d, s));
    }
  }

  lemma {:induction false} CrawlAllExtends(o: Oracles, maxDepth: int, pd: int, qs: seq<string>, s: CrawlState)
    requires pd <= maxDepth
    ensures Extends(s, CrawlAll(o, maxDepth, pd, qs, s))
    decreases Budget(maxDepth, pd), 0, |qs|
  {
    if qs != [] {
      var t := CrawlAll(o, maxDepth, pd, qs[..|qs| - 1], s);
      CrawlAllExtends(o, maxDepth, pd, qs[..|qs| - 1], s);
      CrawlExtends(o, maxDepth, qs[|qs| - 1], pd + 1, t);
      ExtendsTrans(s, t, CrawlAll(o, maxDepth, pd, qs, s));
    }
  }

  // ---------------------------------------------------------------------------
  // Depth
  // ---------------------------------------------------------------------------

  /** Every search recorded after `s` was made at a depth in `lo..hi`. */
  predicate NewSearchesWithin(s: CrawlState, t: CrawlState, lo: int, hi: int) {
    forall i :: |s.searches| <= i < |t.searches| ==> lo <= t.searches[i].depth <= hi
  }

  /** A search started at depth `d` never searches above `d` or below the limit. */
  lemma {:induction false} CrawlDepth(o: Oracles, maxDepth: int, q: string, d: int, s: CrawlState)
    ensures NewSearchesWithin(s, Crawl(o, maxDepth, q, d, s), d, maxDepth)
    decreases Budget(maxDepth, d), 1, 0
  {
    if d <= maxDepth {
      var s1 := s.(searches := s.searches + [SearchCall(q, d)]);
      match o.search(q)
      case None =>
      case Some(resp) =>
        var s2 := ProcessPages(o, NormalizedResults(resp), s1);
        ProcessPagesExtends(o, NormalizedResults(resp), s1);
        CrawlAllDepth(o, maxDepth, d, ChildQueries(RelatedOf(resp)), s2);
        CrawlAllExtends(o, maxDepth, d, ChildQueries(RelatedOf(resp)), s2);
        var t := Crawl(o, maxDepth, q, d, s);
        assert t.searches[|s.searches|] == s2.searches[|s.searches|];
    }
  }

  lemma {:induction false} CrawlAllDepth(o: Oracles, maxDepth: int, pd: int, qs: seq<string>, s: CrawlState)
    requires pd <= maxDepth
    ensures NewSearchesWithin(s, CrawlAll(o, maxDepth, pd, qs, s), pd + 1, maxDepth)
    decreases Budget(maxDepth, pd), 0, |qs|
  {
    if qs != [] {
      var t := CrawlAll(o, maxDepth, pd, qs[..|qs| - 1], s);
      CrawlAllDepth(o, maxDepth, pd, qs[..|qs| - 1], s);
      CrawlAllExtends(o, maxDepth, pd, qs[..|qs| - 1], s);
      CrawlDepth(o, maxDepth, qs[|qs| - 1], pd + 1, t);
      CrawlExtends(o, maxDepth, qs[|qs| - 1], pd + 1, t);
      var u := CrawlAll(o, maxDepth, pd, qs, s);
      forall i | |s.searches| <= i < |u.searches|
        ensures pd + 1 <= u.searches[i].depth <= maxDepth
      {
        if i < |t.searches| {
          assert u.searches[i] == t.searches[i];
        }
      }
    }
  }

  /** Past the limit nothing happens at all. */
  lemma CrawlPastLimit(o: Oracles, maxDepth: int, q: string, d: int, s: CrawlState)
    requires d > maxDepth
    ensures Crawl(o, maxDepth, q, d, s) == s
  {
  }

  /** Children of a node at the limit are all cut off. */
  lemma {:induction false} CrawlAllAtLimit(o: Oracles, maxDepth: int, qs: seq<string>, s: CrawlState)
    ensures CrawlAll(o, maxDepth, maxDepth, qs, s) == s
    decreases |qs|
  {
    if qs != [] {
      CrawlAllAtLimit(o, maxDepth, qs[..|qs| - 1], s);
    }
  }

  /** Within the limit, the first new search is the query itself at its own depth. */
  lemma CrawlSearchesFirst(o: Oracles, maxDepth: int, q: string, d: int, s: CrawlState)
    requires d <= maxDepth
    ensures var t := Crawl(o, maxDepth, q, d, s);
      |t.searches| > |s.searches| && t.searches[|s.searches|] == SearchCall(q, d)
  {
    var s1 := s.(searches := s.searches + [SearchCall(q, d)]);
    CrawlExtends(o, maxDepth, q, d, s);
    match o.search(q)
    case None =>
    case Some(resp) =>
      var s2 := ProcessPages(o, NormalizedResults(resp), s1);
      ProcessPagesExtends(o, NormalizedResults(resp), s1);
      CrawlAllExtends(o, maxDepth, d, ChildQueries(RelatedOf(resp)), s2);
  }

  /** A search at the depth limit is the only search made: with `max_depth` equal to the start depth, exactly one. */
  lemma CrawlAtLimitSearchesOnce(o: Oracles, maxDepth: int, q: string, s: CrawlState)
    ensures Crawl(o, maxDepth, q, maxDepth, s).searches == s.searches + [SearchCall(q, maxDepth)]
  {
    var s1 := s.(searches := s.searches + [SearchCall(q, maxDepth)]);
    match o.search(q)
    case None =>
    case Some(resp) =>
      var s2 := ProcessPages(o, NormalizedResults(resp), s1);
      ProcessPagesExtends(o, NormalizedResults(resp), s1);
      CrawlAllAtLimit(o, maxDepth, ChildQueries(RelatedOf(resp)), s2);
  }

  // ---------------------------------------------------------------------------
  // Which hits are kept, and in which order
  // ---------------------------------------------------------------------------

  /**
   * The kept hits come from the reply, are not yet visited and have distinct
   * URLs; every not-yet-visited URL of the reply is kept once.
   */
  lemma {:induction false} FreshPagesSound(pages: seq<WebResult>, seen: set<Option<string>>)
    ensures var f := FreshPages(pages, seen);
      && (forall i :: 0 <= i < |f| ==> f[i] in pages && f[i].url !in seen)
      && Distinct(PageUrls(f))
      && (forall p :: p in pages && p.url !in seen ==> p.url in PageUrls(f))
    decreases |pages|
  {
    if pages != [] {
      var init := pages[..|pages| - 1];
      var x := pages[|pages| - 1];
      FreshPagesSound(init, seen);
      var f0 := FreshPages(init, seen);
      PageUrlsSnoc(pages);
      assert pages == init + [x];
      if !(x.url in seen || x.url in PageUrls(init)) {
        assert PageUrls(f0 + [x]) == PageUrls(f0) + [x.url];
        forall k | 0 <= k < |f0|
          ensures f0[k].url != x.url
        {
          assert f0[k] in init;
          var m :| 0 <= m < |init| && init[m] == f0[k];
          assert PageUrls(init)[m] == f0[k].url;
        }
        assert x.url !in PageUrls(f0);
        DistinctSnoc(PageUrls(f0), x.url);
      } else {
        forall p | p in pages && p.url !in seen
          ensures p.url in PageUrls(f0)
        {
          if p !in init {
            assert p == x;
            var m :| 0 <= m < |init| && PageUrls(init)[m] == x.url;
            assert init[m] in init && init[m].url == x.url;
          }
        }
      }
    }
  }

  /** The per-result loop appends one result per kept hit, in order, and marks every URL of the reply visited. */
  lemma {:induction false} ProcessPagesFresh(o: Oracles, pages: seq<WebResult>, s: CrawlState)
    ensures var t := ProcessPages(o, pages, s); var f := FreshPages(pages, s.visited);
      && |t.results| == |s.results| + |f|
      && t.results[..|s.results|] == s.results
      && (forall i :: 0 <= i < |f| ==> t.results[|s.results| + i].page == f[i])
      && t.visited == s.visited + Elems(PageUrls(pages))
    decreases |pages|
  {
    if pages != [] {
      var init := pages[..|pages| - 1];
      var x := pages[|pages| - 1];
      ProcessPagesFresh(o, init, s);
      var t0 := ProcessPages(o, init, s);
      PageUrlsSnoc(pages);
      ElemsSnoc(PageUrls(init), x.url);
      if x.url !in t0.visited {
        var a := Annotate(o, x, t0.(visited := t0.visited + {x.url}));
        assert a.0.page == x;
      }
    }
  }

  /**
   * Within the limit, a successful search first appends its own kept hits, in
   * the service's order, before any result of a child search.
   */
  lemma OwnResultsFirst(o: Oracles, maxDepth: int, q: string, d: int, s: CrawlState, resp: Response)
    requires d <= maxDepth && o.search(q) == Some(resp)
    ensures var t := Crawl(o, maxDepth, q, d, s); var f := FreshPages(NormalizedResults(resp), s.visited);
      && |t.results| >= |s.results| + |f|
      && t.results[..|s.results|] == s.results
      && (forall i :: 0 <= i < |f| ==> t.results[|s.results| + i].page == f[i])
  {
    var s1 := s.(searches := s.searches + [SearchCall(q, d)]);
    var s2 := ProcessPages(o, NormalizedResults(resp), s1);
    ProcessPagesFresh(o, NormalizedResults(resp), s1);
    CrawlAllExtends(o, maxDepth, d, ChildQueries(RelatedOf(resp)), s2);
    var t := Crawl(o, maxDepth, q, d, s);
    assert t == CrawlAll(o, maxDepth, d, ChildQueries(RelatedOf(resp)), s2);
    assert s2.results <= t.results;
    forall i | 0 <= i < |s2.results|
      ensures t.results[i] == s2.results[i]
    {
    }
  }

  // ---------------------------------------------------------------------------
  // Child queries
  // ---------------------------------------------------------------------------

  /** Child queries of consecutive entries are consecutive. */
  lemma {:induction false} ChildQueriesAppend(a: seq<Related>, b: seq<Related>)
    ensures ChildQueries(a + b) == ChildQueries(a) + ChildQueries(b)
    decreases |b|
  {
    if b != [] {
      var b' := b[..|b| - 1];
      assert (a + b)[..|a + b| - 1] == a + b';
      assert (a + b)[|a + b| - 1] == b[|b| - 1];
      ChildQueriesAppend(a, b');
      var last := ChildQuery(b[|b| - 1]);
      var tail := if last.Some? then [last.value] else [];
      assert ChildQueries(a + b) == ChildQueries(a + b') + tail;
      assert ChildQueries(b) == ChildQueries(b') + tail;
    } else {
      assert a + b == a;
    }
  }

  /** One entry contributes its `text` if truthy, else its `displayText` if truthy, else nothing. */
  lemma ChildQueriesSingle(r: Related)
    ensures Truthy(r.text) ==> ChildQueries([r]) == [r.text.value]
    ensures !Truthy(r.text) && Truthy(r.displayText) ==> ChildQueries([r]) == [r.displayText.value]
    ensures !Truthy(r.text) && !Truthy(r.displayText) ==> ChildQueries([r]) == []
  {
    assert [r][..0] == [];
  }
}
