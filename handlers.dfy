/**
 * The decision and shaping rules of the web handlers: which of query and
 * session id a search request uses, how saved topic layers become search
 * terms, how the next layer of topics is generated, and how session records
 * are created, updated and listed.  The document store, request parsing and
 * the clock are parameters; time is in whole seconds.
 */
module Handlers {
  import opened Common
  import opened Text
  import opened TopicList
  import opened CrawlSpec
  import opened Generator

  /** A JSON reply with its HTTP status, or an exception the handler does not catch (an HTTP 500 from the framework). */
  datatype Reply = Json(code: int, status: string, message: string) | Uncaught

  const NotBoth := "Please provide either a query or an ID, not both."
  const NeitherGiven := "Please provide a query or an ID."

  /** Thirty days in seconds: the lifetime of a saved session. */
  const SessionLifetime: int := 60 * 60 * 24 * 30

  // ---------------------------------------------------------------------------
  // Query or session id
  // ---------------------------------------------------------------------------

  /** Which path a valid request takes. */
  datatype Target = ByQuery(query: string) | BySession(id: string)

  /** The mutual-exclusion check shared by `power_search` and `query_submit`. */
  function ChooseTarget(query: Option<string>, id: Option<string>): (r: Result<Target, Reply>)
    ensures r.Err? <==> Truthy(query) == Truthy(id)
    ensures Truthy(query) && Truthy(id) ==> r == Err(Json(400, "error", NotBoth))
    ensures !Truthy(query) && !Truthy(id) ==> r == Err(Json(400, "error", NeitherGiven))
    ensures r.Ok? && r.value.BySession? ==> Truthy(id) && id == Some(r.value.id)
    ensures r.Ok? && r.value.ByQuery? ==> Truthy(query) && query == Some(r.value.query)
  {
    if Truthy(query) && Truthy(id) then Err(Json(400, "error", NotBoth))
    else if !Truthy(query) && !Truthy(id) then Err(Json(400, "error", NeitherGiven))
    else if Truthy(id) then Ok(BySession(id.value))
    else Ok(ByQuery(query.value))
  }

  /** `power_search` on POST. */
  function PowerSearch(query: Option<string>, id: Option<string>): (r: Reply)
    ensures r.Json?
    ensures r.code == 400 <==> Truthy(query) == Truthy(id)
    ensures r.code != 400 ==> r.code == 200 && r.status == "success"
  {
    match ChooseTarget(query, id)
    case Err(e) => e
    case Ok(BySession(sid)) => Json(200, "success", "Searching using session ID: " + sid)
    case Ok(ByQuery(q)) => Json(200, "success", "Searching using query: " + q)
  }

  // ---------------------------------------------------------------------------
  // Saved layers to search terms
  // ---------------------------------------------------------------------------

  /** `t.split("|")[-1]`: the text after the last bar, or all of `t` when it has none. */
  function LastSegment(t: string): string {
    var parts := SplitOn(t, '|');
    parts[|parts| - 1]
  }

  /** The topics of all layers, layer by layer. */
  function Concat(layers: seq<seq<string>>): seq<string> {
    if layers == [] then [] else layers[0] + Concat(layers[1..])
  }

  /** `[t.split("|")[-1] for layer in layers for t in layer]`. */
  function FlattenLayers(layers: seq<seq<string>>): (terms: seq<string>)
    ensures |terms| == |Concat(layers)|
    ensures forall i :: 0 <= i < |terms| ==> terms[i] == LastSegment(Concat(layers)[i])
  {
    if layers == [] then []
    else
      var first := seq(|layers[0]|, i requires 0 <= i < |layers[0]| => LastSegment(layers[0][i]));
      var rest := FlattenLayers(layers[1..]);
      assert forall i :: |first| <= i < |first| + |rest| ==> Concat(layers)[i] == Concat(layers[1..])[i - |first|];
      first + rest
  }

  /** The search terms of a session: a missing `selected_topics` gives none. */
  function SelectedQueries(selected: Option<seq<seq<string>>>): seq<string> {
    FlattenLayers(selected.GetOr([]))
  }

  /** A term has no bar in it, and a topic without a bar is its own term. */
  lemma LastSegmentProps(t: string)
    ensures '|' !in LastSegment(t)
    ensures '|' !in t ==> LastSegment(t) == t
    ensures |LastSegment(t)| <= |t|
  {
    SplitPiecesLackSeparator(t, '|');
    if '|' !in t {
      SplitWithout(t, '|');
    }
    JoinSplit(t, '|');
    var parts := SplitOn(t, '|');
    JoinLast(['|'], parts);
  }

  /** The last part is a suffix of the joined text. */
  lemma {:induction false} JoinLast(sep: string, parts: seq<string>)
    requires |parts| >= 1
    ensures |parts[|parts| - 1]| <= |Join(sep, parts)|
  {
    if |parts| > 1 {
      JoinLast(sep, parts[1..]);
    }
  }

  /** Whatever precedes the last bar, the term is what follows it. */
  lemma LastSegmentAfter(a: string, b: string)
    requires '|' !in b
    ensures LastSegment(a + "|" + b) == b
  {
    SplitConcat(a, "|", '|');
    assert SplitOn("|", '|') == ["", ""] by {
      assert "|"[1..] == "";
    }
    var A := SplitOn(a + "|", '|');
    assert A[|A| - 1] == "";
    SplitConcat(a + "|", b, '|');
    SplitWithout(b, '|');
    assert "" + b == b;
  }

  /** A generated entry `topic | g` flattens back to `" " + g` when `g` has no bar. */
  lemma PrefixRoundTrip(topic: string, g: string)
    requires '|' !in g
    ensures LastSegment(topic + " | " + g) == " " + g
  {
    assert topic + " | " + g == (topic + " ") + "|" + (" " + g);
    LastSegmentAfter(topic + " ", " " + g);
  }

  // ---------------------------------------------------------------------------
  // The next layer of topics
  // ---------------------------------------------------------------------------

  /** `10 // n` tags per selected topic. */
  function TagBudget(n: int): (budget: int)
    requires n >= 1
    ensures budget >= 0 && budget * n <= 10 < (budget + 1) * n
    ensures n <= 10 ==> budget >= 1
    ensures n > 10 ==> budget == 0
  {
    10 / n
  }

  /** `[f"{topic} | {g}" for g in gs]`. */
  function Prefixed(topic: string, gs: seq<string>): (entries: seq<string>)
    ensures |entries| == |gs|
    ensures forall i :: 0 <= i < |gs| ==> entries[i] == topic + " | " + gs[i]
  {
    seq(|gs|, i requires 0 <= i < |gs| => topic + " | " + gs[i])
  }

  /** The generated subtopics for `topics`, grouped by parent in order; the first failing run is the outcome. */
  function Subtopics(o: Oracles, year: int, topics: seq<string>, budget: int): Result<seq<string>, RunError> {
    if topics == [] then Ok([])
    else
      var last := topics[|topics| - 1];
      match Subtopics(o, year, topics[..|topics| - 1], budget)
      case Err(e) => Err(e)
      case Ok(acc) =>
        match GenerateTopics(o, last, 1, budget, year)
        case Err(e) => Err(e)
        case Ok(gs) => Ok(acc + Prefixed(last, gs))
  }

  /** A failure while expanding a prefix of the topics is the failure of the whole expansion. */
  lemma {:induction false} SubtopicsErrorSticks(o: Oracles, year: int, topics: seq<string>, budget: int, k: nat)
    requires k <= |topics|
    requires Subtopics(o, year, topics[..k], budget).Err?
    ensures Subtopics(o, year, topics, budget) == Subtopics(o, year, topics[..k], budget)
    decreases |topics| - k
  {
    if k < |topics| {
      assert topics[..k + 1][..k] == topics[..k];
      SubtopicsErrorSticks(o, year, topics, budget, k + 1);
    } else {
      assert topics[..k] == topics;
    }
  }

  /** Expanding one topic more appends exactly that topic's prefixed subtopics. */
  lemma SubtopicsSnoc(o: Oracles, year: int, topics: seq<string>, topic: string, budget: int)
    requires Subtopics(o, year, topics, budget).Ok? && GenerateTopics(o, topic, 1, budget, year).Ok?
    ensures Subtopics(o, year, topics + [topic], budget) ==
      Ok(Subtopics(o, year, topics, budget).value + Prefixed(topic, GenerateTopics(o, topic, 1, budget, year).value))
  {
    assert (topics + [topic])[..|topics|] == topics;
  }

  /** One more topic of the loop: a failed run ends the expansion with that failure, a successful one appends its subtopics. */
  lemma SubtopicsStep(o: Oracles, year: int, topics: seq<string>, budget: int, i: nat, acc: seq<string>, gen: Result<seq<string>, RunError>)
    requires i < |topics| && Subtopics(o, year, topics[..i], budget) == Ok(acc)
    requires gen == GenerateTopics(o, topics[i], 1, budget, year)
    ensures gen.Err? ==> Subtopics(o, year, topics, budget) == gen
    ensures gen.Ok? ==> Subtopics(o, year, topics[..i + 1], budget) == Ok(acc + Prefixed(topics[i], gen.value))
  {
    assert topics[..i + 1][..i] == topics[..i];
    if gen.Err? {
      SubtopicsErrorSticks(o, year, topics, budget, i + 1);
    }
  }

  /**
   * When every run succeeds with bar-free topics, flattening the new layer
   * gives back the generated subtopics, each after one space.
   */
  lemma {:induction false} SubtopicsFlattenBack(topic: string, gs: seq<string>)
    requires forall i :: 0 <= i < |gs| ==> '|' !in gs[i]
    ensures FlattenLayers([Prefixed(topic, gs)]) == seq(|gs|, i requires 0 <= i < |gs| => " " + gs[i])
  {
    var layers := [Prefixed(topic, gs)];
    assert Concat(layers) == Prefixed(topic, gs) + Concat([]);
    forall i | 0 <= i < |gs|
      ensures FlattenLayers(layers)[i] == " " + gs[i]
    {
      PrefixRoundTrip(topic, gs[i]);
    }
  }

  /** The fields of the `/metadata` form the handler reads. */
  datatype MetadataForm = MetadataForm(
    selectedTopics: seq<string>,
    selectedSubtopics: Option<string>,
    searchQuery: Option<string>,
    searchEngine: Option<string>,
    recursiveDepth: Option<string>,
    currentDepth: Option<string>)

  /** What `/metadata` answers on POST. */
  datatype MetadataReply =
    | NextLayer(newTopics: seq<string>, currentDepth: int)
    | DepthExceeded
    | FirstLayer(searchQuery: Option<string>, searchEngine: Option<string>, recursiveDepth: int, currentDepth: int, topTopics: seq<string>)
    | Failed

  /** `int(x)` of a form field, `None` when it raises (absent or not a digit string). */
  function FieldInt(field: Option<string>): Option<int> {
    match field
    case None => None
    case Some(s) => match ParseDecimal(s) case None => None case Some(n) => Some(n)
  }

  /** `int(form.get(name, 1))`: a missing field reads as 1. */
  function FieldIntOr1(field: Option<string>): Option<int> {
    if field.None? then Some(1) else FieldInt(field)
  }

  /** The depth check: the next layer is one deeper and must not pass `recursive_depth`. */
  function NextDepth(current: int, recursiveDepth: int): (r: Option<int>)
    ensures r.None? <==> current + 1 > recursiveDepth
    ensures r.Some? ==> r.value == current + 1 && r.value <= recursiveDepth
  {
    if current + 1 > recursiveDepth then None else Some(current + 1)
  }

  /** `f"{x}"` of an optional form value. */
  function Shown(x: Option<string>): string {
    if x.Some? then x.value else "None"
  }

  /**
   * The specification of `/metadata` on POST; `isJson` tells whether
   * `json.loads` accepts a text (the decoded subtopics are not used).
   */
  function MetadataOutcome(o: Oracles, isJson: string -> bool, year: int, form: MetadataForm): MetadataReply {
    if Truthy(form.selectedSubtopics) && !isJson(form.selectedSubtopics.value) then Failed
    else if form.selectedTopics != [] then
      match FieldInt(form.recursiveDepth)
      case None => Failed
      case Some(recursiveDepth) =>
        match FieldIntOr1(form.currentDepth)
        case None => Failed
        case Some(current) =>
          match NextDepth(current, recursiveDepth)
          case None => DepthExceeded
          case Some(next) =>
            match Subtopics(o, year, form.selectedTopics, TagBudget(|form.selectedTopics|))
            case Err(_) => Failed
            case Ok(topics) => NextLayer(topics, next)
    else
      match FieldIntOr1(form.recursiveDepth)
      case None => Failed
      case Some(recursiveDepth) =>
        match GenerateTopics(o, Shown(form.searchQuery), 1, 10, year)
        case Err(_) => Failed
        case Ok(topics) => FirstLayer(form.searchQuery, form.searchEngine, recursiveDepth, 1, topics)
  }

  /**
   * The depth guard as seen from the outside, for every next-layer request
   * whose subtopics are absent or valid JSON: refused exactly when one more
   * layer passes the limit.
   */
  lemma MetadataDepthGuard(o: Oracles, isJson: string -> bool, year: int, form: MetadataForm, recursiveDepth: int, current: int)
    requires !(Truthy(form.selectedSubtopics) && !isJson(form.selectedSubtopics.value)) && form.selectedTopics != []
    requires FieldInt(form.recursiveDepth) == Some(recursiveDepth) && FieldIntOr1(form.currentDepth) == Some(current)
    ensures MetadataOutcome(o, isJson, year, form).DepthExceeded? <==> current + 1 > recursiveDepth
    ensures MetadataOutcome(o, isJson, year, form).NextLayer? ==> MetadataOutcome(o, isJson, year, form).currentDepth == current + 1
  {
  }

  /** A new generator for `topic`, run once. */
  method RunNewGenerator(o: Oracles, topic: string, maxDepth: int, numNewTags: int, year: int)
    returns (topics: Result<seq<string>, RunError>)
    ensures topics == GenerateTopics(o, topic, maxDepth, numNewTags, year)
  {
    var generator := new ThesisTopicGenerator(topic, maxDepth, numNewTags, year, o);
    topics := generator.Run();
  }

  /** The loop over the selected topics: one fresh one-level generator per topic, results prefixed by their parent. */
  method ExpandTopics(o: Oracles, year: int, selected: seq<string>, budget: int)
    returns (r: Result<seq<string>, RunError>)
    ensures r == Subtopics(o, year, selected, budget)
  {
    var newTopics: seq<string> := [];
    var i := 0;
    while i < |selected|
      invariant 0 <= i <= |selected|
      invariant Subtopics(o, year, selected[..i], budget) == Ok(newTopics)
    {
      var topic := selected[i];
      var genTopics := RunNewGenerator(o, topic, 1, budget, year);
      SubtopicsStep(o, year, selected, budget, i, newTopics, genTopics);
      if genTopics.Err? {
        return genTopics;
      }
      newTopics := newTopics + Prefixed(topic, genTopics.value);
      i := i + 1;
    }
    assert selected[..i] == selected;
    r := Ok(newTopics);
  }

  /**
   * `/metadata` on POST.  With selected topics, one fresh generator per topic
   * (one level, `10 // n` tags) and the prefixed results, in topic order;
   * without, the first layer of ten topics for the search query.
   */
  method Metadata(o: Oracles, isJson: string -> bool, year: int, form: MetadataForm) returns (r: MetadataReply)
    ensures r == MetadataOutcome(o, isJson, year, form)
  {
    if Truthy(form.selectedSubtopics) && !isJson(form.selectedSubtopics.value) {
      return Failed;
    }
    var selected := form.selectedTopics;
    if selected != [] {
      var recursiveDepth := FieldInt(form.recursiveDepth);
      if recursiveDepth.None? {
        return Failed;
      }
      var currentDepth := FieldIntOr1(form.currentDepth);
      if currentDepth.None? {
        return Failed;
      }
      var current := currentDepth.value + 1;
      if current > recursiveDepth.value {
        return DepthExceeded;
      }
      var newTopics := ExpandTopics(o, year, selected, 10 / |selected|);
      if newTopics.Err? {
        return Failed;
      }
      r := NextLayer(newTopics.value, current);
    } else {
      var recursiveDepth := FieldIntOr1(form.recursiveDepth);
      if recursiveDepth.None? {
        return Failed;
      }
      var genTopics := RunNewGenerator(o, Shown(form.searchQuery), 1, 10, year);
      if genTopics.Err? {
        return Failed;
      }
      r := FirstLayer(form.searchQuery, form.searchEngine, recursiveDepth.value, 1, genTopics.value);
    }
  }

  // ---------------------------------------------------------------------------
  // Session records
  // ---------------------------------------------------------------------------

  datatype SessionMeta = SessionMeta(createdAt: int, source: string, version: int, updatedAt: Option<int>, expiredAt: int)

  /** A saved topic session. */
  datatype SessionDoc = SessionDoc(
    id: string,
    userId: string,
    allTopics: seq<string>,
    selectedTopics: Option<seq<seq<string>>>,
    topicCount: int,
    metadata: SessionMeta,
    partitionKey: string,
    ttl: int)

  /** The document `save_topics` creates; `allTopics` and `layers` default to empty lists. */
  function NewSession(id: string, userId: string, allTopics: Option<seq<string>>, layers: Option<seq<seq<string>>>, now: int): (doc: SessionDoc)
    ensures doc.topicCount == |layers.GetOr([])| && doc.selectedTopics == Some(layers.GetOr([]))
    ensures doc.ttl == 2592000 && doc.metadata.version == 1
    ensures doc.metadata.expiredAt - doc.metadata.createdAt == doc.ttl
    ensures doc.id == id && doc.userId == userId && doc.partitionKey == userId
    ensures doc.allTopics == allTopics.GetOr([]) && doc.metadata.createdAt == now && doc.metadata.source == "app_generated"
  {
    var layerList := layers.GetOr([]);
    SessionDoc(id, userId, allTopics.GetOr([]), Some(layerList), |layerList|,
      SessionMeta(now, "app_generated", 1, None, now + 2592000), userId, SessionLifetime)
  }

  /** The reply of `save_topics` given whether the store saved the document. */
  function SaveTopicsReply(saved: Option<bool>): (r: Reply)
    ensures r.Json? <==> saved.Some?
    ensures r.Json? ==> (r.code == 200 <==> saved == Some(true))
    ensures saved == Some(false) ==> r.code == 500
  {
    match saved
    case None => Uncaught
    case Some(true) => Json(200, "success", "Topics saved to Cosmos DB.")
    case Some(false) => Json(500, "error", "Failed to save topics to Cosmos DB.")
  }

  /** The rewrite `update_topics` applies to the stored session before upserting it. */
  function UpdatedSession(doc: SessionDoc, allTopics: Option<seq<string>>, layers: Option<seq<seq<string>>>, now: int): (updated: SessionDoc)
    ensures updated.allTopics == allTopics.GetOr([]) && updated.selectedTopics == Some(layers.GetOr([]))
    ensures updated.topicCount == |layers.GetOr([])|
    ensures updated.metadata.version == doc.metadata.version + 1
    ensures updated.metadata.updatedAt == Some(now) && updated.metadata.expiredAt == now + SessionLifetime
    ensures updated.id == doc.id && updated.userId == doc.userId && updated.partitionKey == doc.partitionKey
    ensures updated.ttl == doc.ttl && updated.metadata.createdAt == doc.metadata.createdAt && updated.metadata.source == doc.metadata.source
  {
    var layerList := layers.GetOr([]);
    var meta := doc.metadata;
    doc.(allTopics := allTopics.GetOr([]), selectedTopics := Some(layerList), topicCount := |layerList|,
         metadata := meta.(version := meta.version + 1, updatedAt := Some(now), expiredAt := now + SessionLifetime))
  }

  /**
   * `update_topics`: the reply and the record handed to the upsert, if any.
   * `found` is the lookup's answer (`None` when it raised), `upsert` the
   * store's (`None` when it raised); both failures are caught.
   */
  function UpdateTopics(found: Option<seq<SessionDoc>>, allTopics: Option<seq<string>>, layers: Option<seq<seq<string>>>, now: int,
                        upsert: SessionDoc -> Option<bool>): (r: (Reply, Option<SessionDoc>))
    ensures found.None? ==> r == (Json(500, "error", "An error occurred during update."), None)
    ensures found == Some([]) ==> r == (Json(404, "error", "Session not found."), None)
    ensures found.Some? && found.value != [] ==> r.1 == Some(UpdatedSession(found.value[0], allTopics, layers, now))
    ensures r.0.Json? && (r.0.code == 200 <==> found.Some? && found.value != [] && upsert(UpdatedSession(found.value[0], allTopics, layers, now)) == Some(true))
    ensures found.Some? && found.value != [] && upsert(UpdatedSession(found.value[0], allTopics, layers, now)) != Some(true) ==> r.0.code == 500
  {
    if found.None? then (Json(500, "error", "An error occurred during update."), None)
    else if found.value == [] then (Json(404, "error", "Session not found."), None)
    else
      var updated := UpdatedSession(found.value[0], allTopics, layers, now);
      match upsert(updated)
      case None => (Json(500, "error", "An error occurred during update."), Some(updated))
      case Some(true) => (Json(200, "success", "Topics updated successfully in Cosmos DB."), Some(updated))
      case Some(false) => (Json(500, "error", "Failed to update topics in Cosmos DB."), Some(updated))
  }

  // ---------------------------------------------------------------------------
  // History
  // ---------------------------------------------------------------------------

  function CreatedAt(d: SessionDoc): int {
    d.metadata.createdAt
  }

  predicate NewestFirst(ds: seq<SessionDoc>) {
    forall i, j :: 0 <= i < j < |ds| ==> CreatedAt(ds[i]) >= CreatedAt(ds[j])
  }

  /** A session no older than the head of a newest-first list can go in front of it. */
  lemma NewestFirstCons(d: SessionDoc, ds: seq<SessionDoc>)
    requires NewestFirst(ds)
    requires ds != [] ==> CreatedAt(ds[0]) <= CreatedAt(d)
    ensures NewestFirst([d] + ds)
  {
    var r := [d] + ds;
    forall i, j | 0 <= i < j < |r|
      ensures CreatedAt(r[i]) >= CreatedAt(r[j])
    {
      if i == 0 && j > 1 {
        assert CreatedAt(ds[0]) >= CreatedAt(ds[j - 1]);
      }
    }
  }

  /** Insert `d` before the first session not newer than it. */
  function InsertNewestFirst(d: SessionDoc, ds: seq<SessionDoc>): (r: seq<SessionDoc>)
    requires NewestFirst(ds)
    ensures r != [] && (r[0] == d || (ds != [] && r[0] == ds[0]))
    ensures NewestFirst(r)
    ensures multiset(r) == multiset(ds) + multiset{d}
  {
    if ds == [] then [d]
    else if CreatedAt(ds[0]) <= CreatedAt(d) then
      NewestFirstCons(d, ds);
      [d] + ds
    else
      assert NewestFirst(ds[1..]);
      var rest := InsertNewestFirst(d, ds[1..]);
      assert ds == [ds[0]] + ds[1..];
      assert ds[1..] != [] ==> CreatedAt(ds[1..][0]) <= CreatedAt(ds[0]);
      NewestFirstCons(ds[0], rest);
      [ds[0]] + rest
  }

  /** `sorted(sessions, key=created_at, reverse=True)`. */
  function SortNewestFirst(ds: seq<SessionDoc>): (r: seq<SessionDoc>)
    ensures NewestFirst(r)
    ensures multiset(r) == multiset(ds)
  {
    if ds == [] then []
    else
      assert ds == [ds[0]] + ds[1..];
      InsertNewestFirst(ds[0], SortNewestFirst(ds[1..]))
  }

  /** A history row: the session and its expiry, thirty days after creation. */
  datatype HistoryRow = HistoryRow(session: SessionDoc, createdAt: int, expiredAt: int)

  /** The row shown for one session. */
  function Row(d: SessionDoc): HistoryRow {
    HistoryRow(d, CreatedAt(d), CreatedAt(d) + SessionLifetime)
  }

  /** The history page: one row per session, newest first. */
  function History(sessions: seq<SessionDoc>): seq<HistoryRow> {
    var sorted := SortNewestFirst(sessions);
    seq(|sorted|, i requires 0 <= i < |sorted| => Row(sorted[i]))
  }

  /** `view_history`: the sessions sorted newest first, each given its expiry. */
  method ViewHistory(sessions: seq<SessionDoc>) returns (rows: seq<HistoryRow>)
    ensures rows == History(sessions)
  {
    var sorted := SortNewestFirst(sessions);
    rows := [];
    var i := 0;
    while i < |sorted|
      invariant 0 <= i <= |sorted|
      invariant rows == seq(i, k requires 0 <= k < i => Row(sorted[k]))
    {
      var created := CreatedAt(sorted[i]);
      rows := rows + [HistoryRow(sorted[i], created, created + 2592000)];
      i := i + 1;
    }
  }

  /** The history lists every session once, newest first, each expiring thirty days after its creation. */
  lemma HistoryNewestFirst(sessions: seq<SessionDoc>)
    ensures var rows := History(sessions);
      |rows| == |sessions|
      && (forall i, j :: 0 <= i < j < |rows| ==> rows[i].createdAt >= rows[j].createdAt)
      && (forall i :: 0 <= i < |rows| ==> rows[i].createdAt == CreatedAt(rows[i].session) && rows[i].expiredAt == rows[i].createdAt + 2592000)
      && multiset(seq(|rows|, i requires 0 <= i < |rows| => rows[i].session)) == multiset(sessions)
  {
    var sorted := SortNewestFirst(sessions);
    var rows := History(sessions);
    assert |sorted| == |multiset(sorted)| == |sessions|;
    assert seq(|rows|, i requires 0 <= i < |rows| => rows[i].session) == sorted;
  }

  // ---------------------------------------------------------------------------
  // Query submission
  // ---------------------------------------------------------------------------

  /** What a submitted search stores as its query: the text, or the session's search terms. */
  datatype QueryText = Text(text: string) | Terms(terms: seq<string>)

  /** A document of the query container. */
  datatype QueryDoc = QueryDoc(
    id: string,
    userId: string,
    queryText: QueryText,
    dateFrom: Option<string>,
    dateTo: Option<string>,
    priority: int,
    email: Option<string>,
    status: int,
    createdAt: int,
    updatedAt: int,
    source: string,
    partitionKey: string)

  /** The request fields of `query_submit`; `priority` is `int(priority)`, `None` when that raises. */
  datatype Submission = Submission(query: Option<string>, id: Option<string>, dateFrom: Option<string>, dateTo: Option<string>, priority: Option<int>)

  /**
   * `query_submit`: the validation above, then either the session's search
   * terms or the query text is stored.  `found` is what the session lookup
   * returns, `create` the store's answer (`None` when it raises).
   */
  function QuerySubmit(req: Submission, found: seq<SessionDoc>, newId: string, userId: string, now: int,
                       create: QueryDoc -> Option<bool>): (r: (Reply, Option<QueryDoc>))
    ensures ChooseTarget(req.query, req.id).Err? ==> r == (ChooseTarget(req.query, req.id).error, None)
    ensures r.1.Some? ==> r.1.value.status == 0 && r.1.value.id == newId && Some(r.1.value.priority) == req.priority
    ensures Truthy(req.id) && !Truthy(req.query) && found != [] && req.priority.Some? ==>
      r.1.Some? && r.1.value.queryText == Terms(SelectedQueries(found[0].selectedTopics))
    ensures Truthy(req.query) && !Truthy(req.id) && req.priority.Some? ==>
      r.1.Some? && r.1.value.queryText == Text(req.query.value)
    ensures Truthy(req.query) && !Truthy(req.id) && req.priority.None? ==>
      r == (Json(500, "error", "An error occurred while saving query."), None)
    ensures Truthy(req.id) && !Truthy(req.query) && found == [] ==> r == (Json(404, "error", "Session not found."), None)
    ensures Truthy(req.id) && !Truthy(req.query) && found != [] && req.priority.None? ==> r == (Uncaught, None)
    ensures Truthy(req.id) && !Truthy(req.query) && r.1.Some? && create(r.1.value).Some? ==> r.0.Json? && r.0.code == 200
    ensures Truthy(req.query) && !Truthy(req.id) && req.priority.Some? ==>
      r.1.Some? && r.0.Json? && (r.0.code == 200 <==> create(r.1.value) == Some(true))
  {
    match ChooseTarget(req.query, req.id)
    case Err(e) => (e, None)
    case Ok(BySession(sid)) =>
      if found == [] then (Json(404, "error", "Session not found."), None)
      else
        var terms := SelectedQueries(found[0].selectedTopics);
        if req.priority.None? then (Uncaught, None)
        else
          var doc := QueryDoc(newId, userId, Terms(terms), req.dateFrom, req.dateTo, req.priority.value, Some(""), 0, now, now, "user_input", userId);
          if create(doc).None? then (Uncaught, Some(doc))
          else (Json(200, "success", "Searching using session ID: " + sid), Some(doc))
    case Ok(ByQuery(q)) =>
      if req.priority.None? then (Json(500, "error", "An error occurred while saving query."), None)
      else
        var doc := QueryDoc(newId, userId, Text(q), req.dateFrom, req.dateTo, req.priority.value, None, 0, now, now, "user_input", userId);
        match create(doc)
        case None => (Json(500, "error", "An error occurred while saving query."), Some(doc))
        case Some(true) => (Json(200, "success", "Query saved to Cosmos DB."), Some(doc))
        case Some(false) => (Json(500, "error", "Failed to save query to Cosmos DB."), Some(doc))
  }
}
