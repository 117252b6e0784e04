/**
 * The recursive web search of the thesis topic generator, stated as pure
 * functions over an explicit crawl state.
 *
 * Everything the generator asks of the outside world (the search service,
 * URL parsing, robots.txt retrieval and matching, page download, the language
 * model) is an oracle: a total function that answers `None` where the
 * original call raises.  The state carries, besides the generator's own
 * fields (robots cache, visited URLs, accumulated results), three logs that
 * record every search, every robots.txt read and every page download, so
 * that "at most once", "never deeper than" and "only when allowed" can be
 * stated.
 */
module CrawlSpec {
  import opened Common
  import opened Text
  import opened TopicList

  /** One entry of `webPages.value`: a JSON object mapping keys to strings. */
  type RawPage = map<string, string>

  /** The contents of a robots.txt file a parser was built from. */
  type Policy = string

  /** The five fields the generator keeps of a search hit; a missing key is `None`. */
  datatype WebResult = WebResult(
    name: Option<string>,
    url: Option<string>,
    snippet: Option<string>,
    displayUrl: Option<string>,
    dateLastCrawled: Option<string>)

  /** A hit after the generator has tried to read it: page text and extracted topics. */
  datatype CrawledResult = CrawledResult(page: WebResult, pageText: Option<string>, extractedTopics: Option<string>)

  datatype WebPages = WebPages(value: Option<seq<RawPage>>)
  datatype Related = Related(text: Option<string>, displayText: Option<string>)
  datatype RelatedSearches = RelatedSearches(value: Option<seq<Related>>)

  /** A decoded search-service reply; an absent key is `None`. */
  datatype Response = Response(webPages: Option<WebPages>, relatedSearches: Option<RelatedSearches>)

  /** One call of the search service, with the recursion depth it was made at. */
  datatype SearchCall = SearchCall(query: string, depth: int)

  /** What the final language-model call is given: the topic count, the year, the numbered format and the extracted topics. */
  datatype AggregationRequest = AggregationRequest(numNewTags: int, currentYear: int, format: string, extracted: string)

  /** The outside world, as seen by one generator; `None` means the call raised. */
  datatype Oracles = Oracles(
    search: string -> Option<Response>,
    urlParts: Option<string> -> (string, string),
    readRobots: string -> Option<Policy>,
    allows: (Policy, Option<string>) -> bool,
    fetchText: Option<string> -> Option<string>,
    topics: string -> Option<string>,
    aggregate: AggregationRequest -> Option<string>)

  /** The generator's fields plus the ghost logs of its outside calls. */
  datatype CrawlState = CrawlState(
    robots: map<string, Option<Policy>>,
    visited: set<Option<string>>,
    results: seq<CrawledResult>,
    searches: seq<SearchCall>,
    robotsReads: seq<string>,
    fetches: seq<Option<string>>)

  /** A freshly constructed generator. */
  const Initial := CrawlState(map[], {}, [], [], [], [])

  predicate Distinct<T(==)>(xs: seq<T>) {
    forall i, j :: 0 <= i < j < |xs| ==> xs[i] != xs[j]
  }

  function Elems<T>(xs: seq<T>): set<T> {
    set x | x in xs
  }

  function Urls(rs: seq<CrawledResult>): seq<Option<string>> {
    seq(|rs|, i requires 0 <= i < |rs| => rs[i].page.url)
  }

  function PageUrls(ps: seq<WebResult>): seq<Option<string>> {
    seq(|ps|, i requires 0 <= i < |ps| => ps[i].url)
  }

  // ---------------------------------------------------------------------------
  // Normalising a search reply
  // ---------------------------------------------------------------------------

  function Get(page: RawPage, key: string): Option<string> {
    if key in page then Some(page[key]) else None
  }

  /** The structured object built for one raw page. */
  function Structure(page: RawPage): WebResult {
    WebResult(Get(page, "name"), Get(page, "url"), Get(page, "snippet"), Get(page, "displayUrl"), Get(page, "dateLastCrawled"))
  }

  /** The raw pages of a reply, empty when `webPages` or its `value` is absent. */
  function PagesOf(resp: Response): seq<RawPage> {
    if resp.webPages.Some? && resp.webPages.value.value.Some? then resp.webPages.value.value.value else []
  }

  /** The structured results of a reply, one per raw page, in the service's order. */
  function NormalizedResults(resp: Response): seq<WebResult> {
    var pages := PagesOf(resp);
    seq(|pages|, i requires 0 <= i < |pages| => Structure(pages[i]))
  }

  /** The related-search entries of a reply, empty when absent. */
  function RelatedOf(resp: Response): seq<Related> {
    if resp.relatedSearches.Some? && resp.relatedSearches.value.value.Some? then resp.relatedSearches.value.value.value else []
  }

  /** `text or displayText`, kept only when truthy. */
  function ChildQuery(r: Related): (q: Option<string>)
    ensures q.Some? <==> Truthy(r.text) || Truthy(r.displayText)
    ensures q.Some? ==> q.value != "" && (q == r.text || (!Truthy(r.text) && q == r.displayText))
  {
    if Truthy(r.text) then r.text else if Truthy(r.displayText) then r.displayText else None
  }

  /** The queries searched one level deeper, in the order of the entries. */
  function ChildQueries(rel: seq<Related>): seq<string> {
    if rel == [] then []
    else
      var last := ChildQuery(rel[|rel| - 1]);
      ChildQueries(rel[..|rel| - 1]) + (if last.Some? then [last.value] else [])
  }

  // ---------------------------------------------------------------------------
  // robots.txt
  // ---------------------------------------------------------------------------

  /** The cache key of a URL: `scheme://netloc/robots.txt`. */
  function RobotsKey(o: Oracles, url: Option<string>): string {
    o.urlParts(url).0 + "://" + o.urlParts(url).1 + "/robots.txt"
  }

  /** Reference answer without a cache: read the robots file and ask it; a failed read forbids. */
  predicate Permitted(o: Oracles, url: Option<string>) {
    match o.readRobots(RobotsKey(o, url))
    case None => false
    case Some(p) => o.allows(p, url)
  }

  /** The cached check: a key not yet cached is read once and its outcome, parser or failure, is stored. */
  function CanFetch(o: Oracles, url: Option<string>, s: CrawlState): (bool, CrawlState) {
    var key := RobotsKey(o, url);
    if key !in s.robots then
      var policy := o.readRobots(key);
      var s' := s.(robots := s.robots[key := policy], robotsReads := s.robotsReads + [key]);
      match policy
      case None => (false, s')
      case Some(p) => (o.allows(p, url), s')
    else
      match s.robots[key]
      case None => (false, s)
      case Some(p) => (o.allows(p, url), s)
  }

  /** Every cached entry is what reading that robots file yields. */
  predicate CacheSound(o: Oracles, s: CrawlState) {
    forall k :: k in s.robots ==> s.robots[k] == o.readRobots(k)
  }

  // ---------------------------------------------------------------------------
  // Reading one page
  // ---------------------------------------------------------------------------

  /** Reference annotation of a URL: text and topics when permitted and both calls succeed, otherwise neither. */
  function Annotation(o: Oracles, url: Option<string>): (Option<string>, Option<string>) {
    if !Permitted(o, url) then (None, None)
    else
      match o.fetchText(url)
      case None => (None, None)
      case Some(raw) =>
        var text := Collapse(raw);
        match o.topics(Take(text, 5000))
        case None => (None, None)
        case Some(t) => (Some(text), Some(t))
  }

  /** The try block for one allowed-or-not URL: check robots, download, collapse whitespace, extract topics. */
  function Annotate(o: Oracles, page: WebResult, s: CrawlState): (CrawledResult, CrawlState) {
    var c := CanFetch(o, page.url, s);
    if !c.0 then (CrawledResult(page, None, None), c.1)
    else
      var s1 := c.1.(fetches := c.1.fetches + [page.url]);
      match o.fetchText(page.url)
      case None => (CrawledResult(page, None, None), s1)
      case Some(raw) =>
        var text := Collapse(raw);
        match o.topics(Take(text, 5000))
        case None => (CrawledResult(page, None, None), s1)
        case Some(t) => (CrawledResult(page, Some(text), Some(t)), s1)
  }

  /** One iteration of the per-result loop: skip a visited URL, otherwise mark it, read it and keep it. */
  function Step(o: Oracles, page: WebResult, s: CrawlState): CrawlState {
    if page.url in s.visited then s
    else
      var a := Annotate(o, page, s.(visited := s.visited + {page.url}));
      a.1.(results := a.1.results + [a.0])
  }

  /** The per-result loop over a reply's structured results. */
  function ProcessPages(o: Oracles, pages: seq<WebResult>, s: CrawlState): CrawlState {
    if pages == [] then s
    else Step(o, pages[|pages| - 1], ProcessPages(o, pages[..|pages| - 1], s))
  }

  /** The hits the loop keeps: those whose URL is neither visited nor seen earlier in the same reply. */
  function FreshPages(pages: seq<WebResult>, seen: set<Option<string>>): seq<WebResult> {
    if pages == [] then []
    else
      var init := pages[..|pages| - 1];
      var x := pages[|pages| - 1];
      if x.url in seen || x.url in PageUrls(init) then FreshPages(init, seen)
      else FreshPages(init, seen) + [x]
  }

  // ---------------------------------------------------------------------------
  // The recursion
  // ---------------------------------------------------------------------------

  /** Levels left before the depth limit. */
  function Budget(maxDepth: int, depth: int): nat {
    if depth > maxDepth then 0 else maxDepth - depth + 1
  }

  /** `recursive_search(q, d)`: stop past the limit or on a failed search, else read this reply's hits, then each child query one level deeper. */
  function Crawl(o: Oracles, maxDepth: int, q: string, d: int, s: CrawlState): CrawlState
    decreases Budget(maxDepth, d), 1, 0
  {
    if d > maxDepth then s
    else
      var s1 := s.(searches := s.searches + [SearchCall(q, d)]);
      match o.search(q)
      case None => s1
      case Some(resp) =>
        CrawlAll(o, maxDepth, d, ChildQueries(RelatedOf(resp)), ProcessPages(o, NormalizedResults(resp), s1))
  }

  /** The child searches of a node at depth `pd`, depth-first and in order. */
  function CrawlAll(o: Oracles, maxDepth: int, pd: int, qs: seq<string>, s: CrawlState): CrawlState
    requires pd <= maxDepth
    decreases Budget(maxDepth, pd), 0, |qs|
  {
    if qs == [] then s
    else Crawl(o, maxDepth, qs[|qs| - 1], pd + 1, CrawlAll(o, maxDepth, pd, qs[..|qs| - 1], s))
  }
}
