/**
 * The thesis topic generator object: its constructor, the robots check, the
 * normalisation of a search reply, the recursive search, the aggregation call
 * and `run`.  Each method is proved against the pure specification in
 * `CrawlSpec` (for the crawl) or against the functions below (for the rest).
 */
module Generator {
  import opened Common
  import opened Text
  import opened TopicList
  import opened CrawlSpec
  import opened CrawlProps

  /** Why `run` produced no topic list: the aggregation call raised, or a reply line had no period. */
  datatype RunError = AggregationFailed | ParseFailed(error: ParseError)

  /** The query the generator searches first. */
  function FullQuery(year: int, query: string): string {
    "thesis topic " + IntToString(year) + " " + query
  }

  /** `result['extracted_topics']` for each accumulated result. */
  function ExtractedTopics(rs: seq<CrawledResult>): seq<Option<string>> {
    seq(|rs|, i requires 0 <= i < |rs| => rs[i].extractedTopics)
  }

  /** The aggregation prompt's variable parts. */
  function AggregationFor(numNewTags: int, year: int, rs: seq<CrawledResult>): AggregationRequest {
    AggregationRequest(numNewTags, year, Template(numNewTags), CombinedTopicsText(ExtractedTopics(rs)))
  }

  /** `generate_top_topics`: the stripped reply of the aggregation call, `None` when it raised. */
  function TopTopics(o: Oracles, numNewTags: int, year: int, rs: seq<CrawledResult>): Option<string> {
    match o.aggregate(AggregationFor(numNewTags, year, rs))
    case None => None
    case Some(reply) => Some(Strip(reply))
  }

  /** The outcome of `run` once the search is done. */
  function RunOutcome(o: Oracles, numNewTags: int, year: int, rs: seq<CrawledResult>): Result<seq<string>, RunError> {
    match TopTopics(o, numNewTags, year, rs)
    case None => Err(AggregationFailed)
    case Some(top) =>
      match ParseTopicList(top)
      case Ok(ts) => Ok(ts)
      case Err(e) => Err(ParseFailed(e))
  }

  /** What `ThesisTopicGenerator(query, max_depth, num_new_tags).run()` returns for a new generator. */
  function GenerateTopics(o: Oracles, query: string, maxDepth: int, numNewTags: int, year: int): Result<seq<string>, RunError> {
    RunOutcome(o, numNewTags, year, Crawl(o, maxDepth, FullQuery(year, query), 1, Initial).results)
  }

  class ThesisTopicGenerator {
    const query: string
    const maxDepth: int
    const numNewTags: int
    const currentYear: int
    const fullQuery: string
    const oracles: Oracles
    var robotsParsers: map<string, Option<Policy>>
    var visitedUrls: set<Option<string>>
    var allResults: seq<CrawledResult>
    ghost var searchLog: seq<SearchCall>
    ghost var robotsReads: seq<string>
    ghost var fetchLog: seq<Option<string>>

    ghost function State(): CrawlState
      reads this
    {
      CrawlState(robotsParsers, visitedUrls, allResults, searchLog, robotsReads, fetchLog)
    }

    /** `currentYear` stands for `datetime.now().year` and `oracles` for the services the object talks to. */
    constructor(query: string, maxDepth: int, numNewTags: int, currentYear: int, oracles: Oracles)
      ensures this.query == query && this.maxDepth == maxDepth && this.numNewTags == numNewTags
      ensures this.currentYear == currentYear && this.oracles == oracles
      ensures fullQuery == "thesis topic " + IntToString(currentYear) + " " + query
      ensures State() == Initial
    {
      this.query := query;
      this.maxDepth := maxDepth;
      this.numNewTags := numNewTags;
      this.currentYear := currentYear;
      this.oracles := oracles;
      robotsParsers := map[];
      visitedUrls := {};
      allResults := [];
      fullQuery := "thesis topic " + IntToString(currentYear) + " " + query;
      searchLog := [];
      robotsReads := [];
      fetchLog := [];
    }

    /** Consult (reading once and caching, failures included) the robots file of the URL's site. */
    method CanFetchUrl(url: Option<string>) returns (allowed: bool)
      modifies this
      ensures (allowed, State()) == CanFetch(oracles, url, old(State()))
    {
      var parts := oracles.urlParts(url);
      var robotsUrl := parts.0 + "://" + parts.1 + "/robots.txt";
      if robotsUrl !in robotsParsers {
        var rp := oracles.readRobots(robotsUrl);
        robotsReads := robotsReads + [robotsUrl];
        robotsParsers := robotsParsers[robotsUrl := rp];
        if rp.None? {
          return false;
        }
        allowed := oracles.allows(rp.value, url);
      } else {
        var rp := robotsParsers[robotsUrl];
        if rp.None? {
          return false;
        }
        allowed := oracles.allows(rp.value, url);
      }
    }

    /** The five fields of each raw page, in the reply's order; nothing when `webPages.value` is absent. */
    method ProcessSearchResults(results: Response) returns (structured: seq<WebResult>)
      ensures |structured| == |PagesOf(results)|
      ensures forall i :: 0 <= i < |structured| ==>
        var page := PagesOf(results)[i];
        structured[i] == WebResult(Get(page, "name"), Get(page, "url"), Get(page, "snippet"), Get(page, "displayUrl"), Get(page, "dateLastCrawled"))
      ensures structured == NormalizedResults(results)
    {
      structured := [];
      if results.webPages.Some? && results.webPages.value.value.Some? {
        var pages := results.webPages.value.value.value;
        var i := 0;
        while i < |pages|
          invariant 0 <= i <= |pages|
          invariant |structured| == i
          invariant forall k :: 0 <= k < i ==> structured[k] == Structure(pages[k])
        {
          var page := pages[i];
          var structuredObject := WebResult(Get(page, "name"), Get(page, "url"), Get(page, "snippet"), Get(page, "displayUrl"), Get(page, "dateLastCrawled"));
          structured := structured + [structuredObject];
          i := i + 1;
        }
      }
    }

    /** The try block for one new URL: robots check, download, whitespace collapse, topic extraction. */
    method ReadResult(result: WebResult) returns (crawled: CrawledResult)
      modifies this
      ensures (crawled, State()) == Annotate(oracles, result, old(State()))
    {
      var url := result.url;
      var allowed := CanFetchUrl(url);
      if !allowed {
        return CrawledResult(result, None, None);
      }
      fetchLog := fetchLog + [url];
      var raw := oracles.fetchText(url);
      if raw.None? {
        return CrawledResult(result, None, None);
      }
      var text := Collapse(raw.value);
      var tags := oracles.topics(Take(text, 5000));
      if tags.None? {
        return CrawledResult(result, None, None);
      }
      crawled := CrawledResult(result, Some(text), tags);
    }

    /** The per-result loop of `recursive_search`: skip visited URLs, read the others, then append them all. */
    method VisitResults(list: seq<WebResult>)
      modifies this
      ensures State() == ProcessPages(oracles, list, old(State()))
    {
      ghost var s0 := State();
      var current: seq<CrawledResult> := [];
      var i := 0;
      while i < |list|
        invariant 0 <= i <= |list|
        invariant allResults == s0.results
        invariant State().(results := allResults + current) == ProcessPages(oracles, list[..i], s0)
      {
        var result := list[i];
        assert list[..i + 1][..i] == list[..i];
        if result.url !in visitedUrls {
          visitedUrls := visitedUrls + {result.url};
          AnnotateFrame(oracles, result, State(), allResults + current);
          var crawled := ReadResult(result);
          current := current + [crawled];
        }
        i := i + 1;
      }
      assert list[..i] == list;
      allResults := allResults + current;
    }

    /** `recursive_search(query, depth)`, proved to compute `Crawl`. */
    method RecursiveSearch(q: string, depth: int)
      modifies this
      ensures State() == Crawl(oracles, maxDepth, q, depth, old(State()))
      decreases Budget(maxDepth, depth)
    {
      if depth > maxDepth {
        return;
      }
      searchLog := searchLog + [SearchCall(q, depth)];
      var results := oracles.search(q);
      if results.None? {
        return;
      }
      var resp := results.value;
      var list := ProcessSearchResults(resp);
      ghost var s1 := State();
      VisitResults(list);
      var related := RelatedOf(resp);
      ghost var s2 := State();
      var j := 0;
      while j < |related|
        invariant 0 <= j <= |related|
        invariant State() == CrawlAll(oracles, maxDepth, depth, ChildQueries(related[..j]), s2)
      {
        var relatedQuery := ChildQuery(related[j]);
        ghost var done := ChildQueries(related[..j]);
        assert related[..j + 1][..j] == related[..j];
        assert related[..j + 1][j] == related[j];
        if relatedQuery.Some? {
          assert ChildQueries(related[..j + 1]) == done + [relatedQuery.value];
          assert (done + [relatedQuery.value])[..|done|] == done;
          RecursiveSearch(relatedQuery.value, depth + 1);
        } else {
          assert ChildQueries(related[..j + 1]) == done + [];
          assert done + [] == done;
        }
        j := j + 1;
      }
      assert related[..j] == related;
      assert s1 == old(State()).(searches := old(State()).searches + [SearchCall(q, depth)]);
    }

    /** `generate_top_topics`: the numbered format and the truthy extracted topics go to the aggregation call. */
    method GenerateTopTopics() returns (top: Option<string>)
      ensures top == TopTopics(oracles, numNewTags, currentYear, allResults)
    {
      var combined := CombinedTopicsText(ExtractedTopics(allResults));
      var s := BuildTemplate(numNewTags);
      var reply := oracles.aggregate(AggregationRequest(numNewTags, currentYear, s, combined));
      if reply.None? {
        return None;
      }
      top := Some(Strip(reply.value));
    }

    /** `run`: search from the full query at depth 1, aggregate, and read one topic off each non-empty line. */
    method Run() returns (topics: Result<seq<string>, RunError>)
      modifies this
      ensures State() == Crawl(oracles, maxDepth, fullQuery, 1, old(State()))
      ensures topics == RunOutcome(oracles, numNewTags, currentYear, allResults)
    {
      RecursiveSearch(fullQuery, 1);
      var top := GenerateTopTopics();
      if top.None? {
        return Err(AggregationFailed);
      }
      var parsed := ParseTopicList(top.value);
      if parsed.Err? {
        return Err(ParseFailed(parsed.error));
      }
      topics := Ok(parsed.value);
    }
  }

  // ---------------------------------------------------------------------------
  // Properties of a whole run
  // ---------------------------------------------------------------------------

  /**
   * A run of a new generator searches only depths `1..max_depth` (with the
   * full query first when `max_depth >= 1`, and nothing otherwise), reads
   * each URL at most once and keeps the crawl invariant.
   */
  lemma RunCrawl(o: Oracles, query: string, maxDepth: int, year: int)
    ensures var t := Crawl(o, maxDepth, FullQuery(year, query), 1, Initial);
      && Inv(o, t)
      && (forall i :: 0 <= i < |t.searches| ==> 1 <= t.searches[i].depth <= maxDepth)
      && (maxDepth >= 1 ==> |t.searches| >= 1 && t.searches[0] == SearchCall(FullQuery(year, query), 1))
      && (maxDepth < 1 ==> t == Initial)
  {
    InitialInv(o);
    CrawlInv(o, maxDepth, FullQuery(year, query), 1, Initial);
    CrawlDepth(o, maxDepth, FullQuery(year, query), 1, Initial);
    if maxDepth >= 1 {
      CrawlSearchesFirst(o, maxDepth, FullQuery(year, query), 1, Initial);
    }
  }

  /** With `max_depth = 1`, a new generator makes exactly one search: the full query at depth 1. */
  lemma SingleLevelRun(o: Oracles, query: string, year: int)
    ensures Crawl(o, 1, FullQuery(year, query), 1, Initial).searches == [SearchCall(FullQuery(year, query), 1)]
  {
    CrawlAtLimitSearchesOnce(o, 1, FullQuery(year, query), Initial);
  }

  /** If the aggregation echoes the numbered format it was given, `run` returns `Topic 1 .. Topic n`. */
  lemma EchoedFormatRoundTrip(o: Oracles, numNewTags: int, year: int, rs: seq<CrawledResult>)
    requires o.aggregate(AggregationFor(numNewTags, year, rs)) == Some(Template(numNewTags))
    ensures RunOutcome(o, numNewTags, year, rs) == Ok(TopicNames(numNewTags))
  {
    StrippedTemplateRoundTrip(numNewTags);
  }

  /** `run` reports a raising aggregation call as such. */
  lemma RunOutcomeNoReply(o: Oracles, numNewTags: int, year: int, rs: seq<CrawledResult>)
    requires o.aggregate(AggregationFor(numNewTags, year, rs)).None?
    ensures RunOutcome(o, numNewTags, year, rs) == Err(AggregationFailed)
  {
  }

  /**
   * Given a reply, `run` fails exactly when a non-empty line of the stripped
   * reply has no period; otherwise it returns one topic per non-empty line.
   */
  lemma RunOutcomeParses(o: Oracles, numNewTags: int, year: int, rs: seq<CrawledResult>, top: string)
    requires TopTopics(o, numNewTags, year, rs) == Some(top)
    ensures var r := RunOutcome(o, numNewTags, year, rs); var lines := SplitOn(top, '\n');
      && (r.Err? <==> exists i :: 0 <= i < |lines| && lines[i] != "" && '.' !in lines[i])
      && (r.Ok? ==> |r.value| == |NonEmptyLines(lines)|)
  {
    ParseTopicListCases(top);
  }

  /** The text handed to the aggregation is empty exactly when no result has truthy extracted topics. */
  lemma CombinedTextEmptyIff(rs: seq<CrawledResult>)
    ensures CombinedTopicsText(ExtractedTopics(rs)) == "" <==> forall i :: 0 <= i < |rs| ==> !Truthy(rs[i].extractedTopics)
  {
    var ts := ExtractedTopics(rs);
    var kept := TruthyValues(ts);
    if kept == [] {
      forall i | 0 <= i < |rs|
        ensures !Truthy(rs[i].extractedTopics)
      {
        assert ts[i] == rs[i].extractedTopics;
      }
    } else {
      assert TotalLength(kept) >= |kept[0]| > 0;
      var j :| 0 <= j < |ts| && ts[j] == Some(kept[0]);
      assert Truthy(rs[j].extractedTopics);
    }
  }
}
