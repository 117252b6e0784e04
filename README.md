# Thesis topic generator: a Dafny model

This project models the core of a small web application that suggests thesis
topics. It has three parts.

- **`ThesisTopicGenerator`** (`bing_search.py`) takes a search query and runs
  a web search for `"thesis topic <year> <query>"`. It reads every new hit that
  robots.txt allows, and follows each related search one level deeper, up to
  `max_depth`. A language model extracts topics from each page. A final
  language-model call condenses them into a numbered list, which is parsed back
  into topic strings.
- **`ArxivResearchHelper`** (`arxiv_search.py`) builds arXiv date-range
  queries from `YYYYMM` bounds and collects a capped list of papers. It also
  names downloaded PDFs after their sanitised titles.
- **The Flask handlers** (`app.py`):
  - They decide between a free-text query and a saved session id.
  - They flatten saved topic layers into search terms, and generate the next
    layer of subtopics under a depth limit.
  - They create, update and list the saved sessions kept in a document store.

Files:

| file | module | contents |
|---|---|---|
| `common.dfy` | `Common` | `Option`, `Result`, Python truthiness of an optional string |
| `text.dfy` | `Text` | `str.split()`, whitespace collapsing, `strip`, `split(c)`, `join`, decimal numerals |
| `topics.dfy` | `TopicList` | the numbered format template and the parser of the model's reply, with the round trip |
| `crawl_spec.dfy` | `CrawlSpec` | the recursive search as pure functions over an explicit crawl state |
| `crawl_props.dfy` | `CrawlProps` | invariants and properties of the crawl |
| `generator.dfy` | `Generator` | the `ThesisTopicGenerator` class, its methods proved equal to the crawl functions |
| `arxiv.dfy` | `Arxiv` | calendar, date-range query, the `ArxivResearchHelper` class |
| `handlers.dfy` | `Handlers` | request validation, layer flattening, `/metadata`, session records, history |

Everything outside the program is a parameter. This covers:

- the search service, URL splitting, robots.txt reading and matching, page
  download and text extraction;
- the language model, the arXiv client, CRC-32, the file system and the
  document store;
- the clock and fresh ids.

Each is a total function that answers `None` where the original call raises.
A generator's outside world is a value of `CrawlSpec.Oracles`. The crawl state
carries ghost logs of every search, every robots.txt read and every page
download, so "at most once", "never deeper than" and "only when allowed" can be
stated.

## Model

| member | source | states |
|---|---|---|
| Generator.ThesisTopicGenerator.constructor | script/py/fabric_flask/bing_search.py:12-25 | fields as given; full query is `"thesis topic " + year + " " + query`; empty cache, visited set and results |
| Generator.ThesisTopicGenerator.CanFetchUrl | script/py/fabric_flask/bing_search.py:27-44 | answer and new state are those of `CrawlSpec.CanFetch`: an uncached `scheme://netloc/robots.txt` is read once and cached, a failed read caches `None` and forbids |
| CrawlProps.CanFetchAgrees | script/py/fabric_flask/bing_search.py:27-44 | with a sound cache, the cached answer equals reading the robots file afresh; the cache stays sound; the file is read (and logged) only when its key was not cached; nothing else changes |
| CrawlProps.CanFetchFailsClosed | script/py/fabric_flask/bing_search.py:36-43 | once a robots file is cached as unreadable, the URL is refused with no new read and no change of state |
| CrawlProps.CanFetchUsesCache | script/py/fabric_flask/bing_search.py:40-44 | a cached key causes no read and leaves the state unchanged |
| Generator.ThesisTopicGenerator.ProcessSearchResults | script/py/fabric_flask/bing_search.py:46-60 | one structured result per raw page, in order, each field the page's value or `None`; empty when `webPages` or its `value` is missing |
| Generator.ThesisTopicGenerator.ReadResult | script/py/fabric_flask/bing_search.py:156-173 | the result and new state are `CrawlSpec.Annotate`: robots check, then download, collapse and topic extraction, with `None` text and topics on refusal or any failure |
| CrawlProps.AnnotateAgrees | script/py/fabric_flask/bing_search.py:156-173 | the annotation equals the cache-free reference `Annotation`; the robots file is read only when its key was uncached; a download is logged exactly when the URL is permitted; nothing else changes |
| CrawlProps.AnnotateFrame | script/py/fabric_flask/bing_search.py:156-173 | reading one result does not touch the accumulated results |
| CrawlProps.AnnotationCollapsed | script/py/fabric_flask/bing_search.py:92-108 | page text is stored exactly when topics are, only for a permitted URL, and it is whitespace-collapsed |
| Generator.ThesisTopicGenerator.VisitResults | script/py/fabric_flask/bing_search.py:150-177 | the loop over a reply's hits yields the state `CrawlSpec.ProcessPages` computes |
| Generator.ThesisTopicGenerator.RecursiveSearch | script/py/fabric_flask/bing_search.py:138-183 | the new state is `CrawlSpec.Crawl`: stop past `max_depth` or on a failed search; otherwise the hits, then each truthy related query one level deeper, in order |
| Generator.ThesisTopicGenerator.GenerateTopTopics | script/py/fabric_flask/bing_search.py:185-226 | the stripped reply of the aggregation call made with the numbered template and the newline-joined truthy extracted topics |
| Generator.ThesisTopicGenerator.Run | script/py/fabric_flask/bing_search.py:228-235 | searches from the full query at depth 1, then returns the parse of the aggregated reply (or the failure) |
| CrawlProps.InitialInv | script/py/fabric_flask/bing_search.py:22-24 | the crawl invariant holds for a new generator |
| CrawlProps.StepInv | script/py/fabric_flask/bing_search.py:150-175 | one hit keeps the invariant: visited set equals the stored URLs, without repeats; every stored result is annotated as the reference says; robots files read once each; downloads distinct, visited and permitted |
| CrawlProps.ProcessPagesInv | script/py/fabric_flask/bing_search.py:150-177 | a reply's hits keep the invariant |
| CrawlProps.CrawlInv | script/py/fabric_flask/bing_search.py:138-183 | a whole recursive search keeps the invariant |
| CrawlProps.CrawlAllInv | script/py/fabric_flask/bing_search.py:179-183 | the child searches keep the invariant |
| CrawlProps.StepExtends | script/py/fabric_flask/bing_search.py:150-175 | one hit only appends: results, reads, downloads and visited set grow, the cache only gains keys |
| CrawlProps.ProcessPagesExtends | script/py/fabric_flask/bing_search.py:150-177 | the hit loop only appends and makes no search |
| CrawlProps.CrawlExtends | script/py/fabric_flask/bing_search.py:138-183 | a recursive search only appends to every log and result list |
| CrawlProps.CrawlAllExtends | script/py/fabric_flask/bing_search.py:179-183 | the child searches only append |
| CrawlProps.ExtendsTrans | script/py/fabric_flask/bing_search.py:177 | appending twice is appending |
| CrawlProps.CrawlDepth | script/py/fabric_flask/bing_search.py:139-140 | every search a call makes is at a depth between its own and `max_depth` |
| CrawlProps.CrawlAllDepth | script/py/fabric_flask/bing_search.py:179-183 | child searches are strictly deeper than their parent and within `max_depth` |
| CrawlProps.CrawlPastLimit | script/py/fabric_flask/bing_search.py:139-140 | past `max_depth` nothing at all happens |
| CrawlProps.CrawlAllAtLimit | script/py/fabric_flask/bing_search.py:139-140 | at `max_depth` the related queries cause no search |
| CrawlProps.CrawlSearchesFirst | script/py/fabric_flask/bing_search.py:142-145 | within the limit, the call's own query is the first search it makes, at its depth |
| CrawlProps.CrawlAtLimitSearchesOnce | script/py/fabric_flask/bing_search.py:138-183 | at `max_depth` exactly one search is made |
| CrawlProps.FreshPagesSound | script/py/fabric_flask/bing_search.py:150-154 | every kept hit comes from the reply with a URL not yet visited; kept URLs are distinct; every URL of the reply not yet visited is kept |
| CrawlProps.ProcessPagesFresh | script/py/fabric_flask/bing_search.py:150-177 | the hit loop appends one result per fresh hit, in reply order |
| CrawlProps.OwnResultsFirst | script/py/fabric_flask/bing_search.py:177-183 | a search's own fresh hits come before anything its child searches add |
| CrawlProps.ChildQueriesAppend | script/py/fabric_flask/bing_search.py:180-183 | the child queries of two entry lists are the concatenation of each list's |
| CrawlProps.ChildQueriesSingle | script/py/fabric_flask/bing_search.py:181-182 | one entry yields its truthy `text`, else its truthy `displayText`, else nothing |
| CrawlSpec.ChildQuery | script/py/fabric_flask/bing_search.py:181-182 | a query exactly when `text` or `displayText` is truthy; `text` wins |
| Generator.RunCrawl | script/py/fabric_flask/bing_search.py:228-229 | a run keeps the invariant, searches only depths 1..`max_depth`, first the full query; with `max_depth < 1` nothing happens |
| Generator.SingleLevelRun | script/py/fabric_flask/bing_search.py:228-229 | with `max_depth = 1` (as every handler uses) the run makes exactly one search |
| Generator.EchoedFormatRoundTrip | script/py/fabric_flask/bing_search.py:189-191 | a reply that echoes the format verbatim parses to `Topic 1 .. Topic n` |
| Generator.RunOutcomeNoReply | script/py/fabric_flask/bing_search.py:217-230 | a failed aggregation call makes the run fail |
| Generator.RunOutcomeParses | script/py/fabric_flask/bing_search.py:233-234 | the run fails exactly when a non-empty reply line has no period; otherwise one topic per non-empty line |
| Generator.CombinedTextEmptyIff | script/py/fabric_flask/bing_search.py:187-188 | the combined topics text is empty exactly when no result has truthy topics |
| TopicList.TruthyValues | script/py/fabric_flask/bing_search.py:187 | every kept value is non-empty and comes from the input; every truthy input value is kept |
| TopicList.TruthyValuesAppend | script/py/fabric_flask/bing_search.py:187 | the comprehension keeps order and duplicates: the values kept from `a + b` are those kept from `a` followed by those kept from `b` |
| TopicList.TruthyValuesSingle | script/py/fabric_flask/bing_search.py:187 | one value is kept exactly when it is truthy |
| TopicList.BuildTemplate | script/py/fabric_flask/bing_search.py:189-191 | the loop builds `Template(n)`, the lines `i. Topic i` for `i` in `1..n` |
| TopicList.TopicNames | script/py/fabric_flask/bing_search.py:189-191 | `n` names for positive `n`, none otherwise |
| TopicList.ParseLine | script/py/fabric_flask/bing_search.py:234 | a line fails exactly when it has no period |
| TopicList.ParseStep | script/py/fabric_flask/bing_search.py:234 | a successful step means the line and the rest parsed, and adds the line's topic in front |
| TopicList.ParseLinesOk | script/py/fabric_flask/bing_search.py:234 | on success, one topic per non-empty line, topic `i` read off the `i`-th of them |
| TopicList.ParseLinesWithOk | script/py/fabric_flask/bing_search.py:234 | the same for any line parser |
| TopicList.ParseLinesFailsIff | script/py/fabric_flask/bing_search.py:234 | the parse fails exactly when some non-empty line has no period |
| TopicList.ParseLinesWithFailsIff | script/py/fabric_flask/bing_search.py:234 | the parse fails exactly when the line parser rejects some non-empty line |
| TopicList.ParseTopicListCases | script/py/fabric_flask/bing_search.py:233-234 | both of the above for the reply split on newlines |
| TopicList.ParseStepAppend | script/py/fabric_flask/bing_search.py:234 | topics appended after a successful step stay after it |
| TopicList.ParseLinesWithAppend | script/py/fabric_flask/bing_search.py:234 | parsing distributes over concatenated line lists, for any line parser |
| TopicList.ParseLinesAppend | script/py/fabric_flask/bing_search.py:234 | parsing distributes over concatenated line lists |
| TopicList.TemplateRoundTrip | script/py/fabric_flask/bing_search.py:189-191 | parsing the template gives `Topic 1 .. Topic n` |
| TopicList.StrippedTemplateRoundTrip | script/py/fabric_flask/bing_search.py:225 | the same after the reply is stripped |
| TopicList.TemplateLineParts | script/py/fabric_flask/bing_search.py:191 | a template line is non-empty, has no newline, and parses to its topic name |
| TopicList.TemplateLineSplit | script/py/fabric_flask/bing_search.py:191 | splitting line `i` on periods gives the numeral and `" Topic i"` |
| TopicList.StripTopicName | script/py/fabric_flask/bing_search.py:234 | stripping `" Topic i"` gives `Topic i` |
| TopicList.SplitTemplate | script/py/fabric_flask/bing_search.py:189-191 | the template splits into its lines and a final empty piece |
| TopicList.ParseTemplateLines | script/py/fabric_flask/bing_search.py:189-191 | the template lines parse to the topic names |
| TopicList.StripTemplate | script/py/fabric_flask/bing_search.py:225 | stripping the template removes just its final newline |
| TopicList.TemplateStartsWithOne | script/py/fabric_flask/bing_search.py:191 | a non-empty template starts with the digit 1 |
| TopicList.SplitAddLine | script/py/fabric_flask/bing_search.py:191 | adding a newline-terminated line adds one piece before the final empty one |
| TopicList.SplitLastLine | script/py/fabric_flask/bing_search.py:233 | an unterminated last line becomes the last piece |
| TopicList.SplitStrippedTemplate | script/py/fabric_flask/bing_search.py:233 | the stripped template splits into exactly its lines |
| TopicList.SplitCountsSeparator | script/py/fabric_flask/bing_search.py:234 | `split(c)` has two or more pieces exactly when `c` occurs |
| TopicList.DigitsLack | script/py/fabric_flask/bing_search.py:191 | a numeral contains no non-digit |
| Text.Words | script/py/fabric_flask/bing_search.py:92 | `str.split()`: the words are space-free and non-empty |
| Text.LeadingWord | script/py/fabric_flask/bing_search.py:92 | the first word is a space-free piece of the text |
| Text.Join | script/py/fabric_flask/bing_search.py:188 | joining nothing gives `""`; the length is the parts' plus separators' |
| Text.JoinWordsCollapsed | script/py/fabric_flask/bing_search.py:107 | words joined by single spaces form a collapsed text |
| Text.CollapseIsCollapsed | script/py/fabric_flask/bing_search.py:107 | `' '.join(t.split())` has no leading, trailing or doubled space and no other whitespace |
| Text.CollapseKeepsWords | script/py/fabric_flask/bing_search.py:107 | collapsing keeps exactly the words |
| Text.CollapseIdempotent | script/py/fabric_flask/bing_search.py:107 | collapsing twice is collapsing once |
| Text.WordsOfJoin | script/py/fabric_flask/bing_search.py:107 | splitting words joined by spaces gives the words back |
| Text.LeadingWordOfWord | script/py/fabric_flask/bing_search.py:107 | the first word of a word followed by a space is that word |
| Text.StripLeft | script/py/fabric_flask/bing_search.py:225 | the result is a suffix with no leading whitespace |
| Text.StripRight | script/py/fabric_flask/bing_search.py:225 | the result is a prefix with no trailing whitespace |
| Text.Strip | script/py/fabric_flask/bing_search.py:225 | no longer than the input, no whitespace at either end |
| Text.StripParts | script/py/fabric_flask/bing_search.py:225 | `strip()` keeps the characters of `s` starting after the leading whitespace, in order; everything before and after what is kept is whitespace; the result is empty exactly when `s` is all whitespace |
| Text.StripBetween | script/py/fabric_flask/bing_search.py:225 | composing `lstrip` and `rstrip` leaves a slice with only whitespace around it, empty exactly when the text is all whitespace |
| Text.SplitOn | script/py/fabric_flask/bing_search.py:233 | `split(c)` gives at least one piece |
| Text.SplitPiecesLackSeparator | script/py/fabric_flask/bing_search.py:233 | no piece contains the separator |
| Text.JoinSplit | script/py/fabric_flask/bing_search.py:233 | joining the pieces with the separator gives the text back |
| Text.SplitWithout | script/py/fabric_flask/bing_search.py:233 | a text without the separator is a single piece |
| Text.SplitConcat | script/py/fabric_flask/bing_search.py:233 | the pieces of `a + b` are those of `a` and `b` joined at the seam |
| Text.SplitCons | script/py/fabric_flask/bing_search.py:233 | one character in front extends the first piece or starts a new one |
| Text.SeamSep | script/py/fabric_flask/bing_search.py:233 | the seam step for a separator |
| Text.SeamOther | script/py/fabric_flask/bing_search.py:233 | the seam step for another character |
| Text.SplitAfterFirst | script/py/fabric_flask/bing_search.py:233 | text up to the first separator is the first piece, the rest splits on |
| Text.Take | script/py/fabric_flask/bing_search.py:121 | `text[:n]`: a prefix of length `min(n, len)` |
| Text.Drop | script/py/fabric_flask/arxiv_search.py:47 | `s[n:]`: the suffix after the first `n` characters |
| Text.NatToString | script/py/fabric_flask/bing_search.py:25 | a non-empty digit string, with no leading zero when the number is positive |
| Text.DigitChar | script/py/fabric_flask/bing_search.py:191 | the numeral character of a digit is a digit |
| Text.ParseDecimal | script/py/fabric_flask/arxiv_search.py:46-47 | `int(s)` succeeds exactly on non-empty digit strings |
| Text.ParseNatToString | script/py/fabric_flask/arxiv_search.py:46-49 | parsing a rendered number gives it back |
| Text.DigitsValueLeadingZero | script/py/fabric_flask/arxiv_search.py:47 | a leading `0` leaves a digit string's value unchanged |
| Text.ParseDecimalLeadingZero | script/py/fabric_flask/arxiv_search.py:47 | `int("0" + s)` equals `int(s)` for non-empty `s`, both failing together |
| Text.ReplaceChar | script/py/fabric_flask/arxiv_search.py:90 | `str.replace` of one character: same length, that character replaced at every index |
| Arxiv.DaysInMonth | script/py/fabric_flask/arxiv_search.py:48 | `calendar.monthrange(y, m)[1]`: 28..31, February 29 exactly in leap years, 30 for April, June, September and November |
| Arxiv.LeapYearExamples | script/py/fabric_flask/arxiv_search.py:48 | Feb 2024 and 2000 have 29 days, Feb 2023 and 1900 have 28 |
| Arxiv.EndDate | script/py/fabric_flask/arxiv_search.py:45-50 | succeeds exactly when year and month parse and the month is 1..12; the result is `date_to` followed by the month's last day |
| Arxiv.TwoDigits | script/py/fabric_flask/arxiv_search.py:49 | last days are always two digits |
| Arxiv.DateRangeQuery | script/py/fabric_flask/arxiv_search.py:36-54 | no bounds leave the query alone; otherwise `(q) AND submittedDate:[from01 TO toDD]`, `*` for a missing bound; a bad `date_to` is an error |
| Arxiv.EndDateLeap | script/py/fabric_flask/arxiv_search.py:45-50 | `202402` ends on `20240229` |
| Arxiv.EndDateCommon | script/py/fabric_flask/arxiv_search.py:45-50 | `202302` ends on `20230228` |
| Arxiv.EndDateCentury | script/py/fabric_flask/arxiv_search.py:45-50 | `190002` ends on `19000228` |
| Arxiv.EndDateBadMonth | script/py/fabric_flask/arxiv_search.py:46-48 | month 13 is refused |
| Arxiv.Numerals | script/py/fabric_flask/arxiv_search.py:49 | the numerals used in the examples |
| Arxiv.PaddedMonth | script/py/fabric_flask/arxiv_search.py:47 | a zero-padded month `0m` parses to `m` |
| Arxiv.FourDigits | script/py/fabric_flask/arxiv_search.py:46 | a four-digit year's numeral fills exactly the first four characters |
| Arxiv.EndDateOfMonth | script/py/fabric_flask/arxiv_search.py:45-50 | for every four-digit year and month 1..12 written `YYYYMM`, the end date is `YYYYMM` followed by that month's last day |
| Arxiv.AuthorsInOrder | script/py/fabric_flask/arxiv_search.py:70 | author names are joined with `", "` in order |
| Arxiv.Kept | script/py/fabric_flask/arxiv_search.py:76-79 | the loop keeps at most what the client yields, at most `max_results` when positive, and one result even when `max_results < 1`; the count is exactly `min(available, max_results)`, with `max_results < 1` acting as 1 |
| Arxiv.ArxivResearchHelper.constructor | script/py/fabric_flask/arxiv_search.py:10-20 | keeps the directory and the client |
| Arxiv.ArxivResearchHelper.SearchPapers | script/py/fabric_flask/arxiv_search.py:22-83 | a date error escapes; otherwise `Kept` many papers, paper `i` built from entry `i` |
| Arxiv.ArxivResearchHelper.PdfPath | script/py/fabric_flask/arxiv_search.py:90-91 | `os.path.join(download_dir, name)` for the slash-free name `sanitised title + .pdf`: the name alone for an empty directory, the directory and the name for one ending in `/`, otherwise the directory, one `/` and the name |
| Arxiv.ArxivResearchHelper.DownloadPdf | script/py/fabric_flask/arxiv_search.py:85-103 | `None` when the lookup fails; the path when the file exists or the download succeeds, else `None` |
| Arxiv.SanitizeTitleProps | script/py/fabric_flask/arxiv_search.py:90 | same length, no space or slash left, other characters kept, idempotent |
| Handlers.ChooseTarget | script/py/fabric_flask/app.py:115-118 | 400 with the "not both" message when both are truthy, the "provide one" message when neither is; otherwise the truthy one |
| Handlers.PowerSearch | script/py/fabric_flask/app.py:105-128 | 400 exactly when query and id are both or neither truthy, otherwise 200 success |
| Handlers.FlattenLayers | script/py/fabric_flask/app.py:156-157 | one term per stored topic, layer by layer; each term is the text after the topic's last bar |
| Handlers.LastSegmentProps | script/py/fabric_flask/app.py:157 | a term has no bar, is no longer than the topic, and is the topic itself when it has no bar |
| Handlers.LastSegmentAfter | script/py/fabric_flask/app.py:157 | the term of `a`, a bar and `b` is `b` when `b` has no bar |
| Handlers.PrefixRoundTrip | script/py/fabric_flask/app.py:280 | a generated entry (topic, space, bar, space, `g`) flattens back to `" " + g` when `g` has no bar |
| Handlers.JoinLast | script/py/fabric_flask/app.py:157 | the last piece is no longer than the text |
| Handlers.SubtopicsFlattenBack | script/py/fabric_flask/app.py:280 | flattening a generated layer gives each subtopic after one space |
| Handlers.TagBudget | script/py/fabric_flask/app.py:278 | `10 // n` is the largest budget whose total is at most 10; at least 1 for up to ten topics, 0 beyond |
| Handlers.Prefixed | script/py/fabric_flask/app.py:280 | one entry per subtopic, in order: the topic, `" "`, a bar, `" "` and the subtopic |
| Handlers.NextDepth | script/py/fabric_flask/app.py:265-272 | refused exactly when one more layer passes `recursive_depth`; otherwise one deeper |
| Handlers.MetadataDepthGuard | script/py/fabric_flask/app.py:255-272 | for a request whose `selected_subtopics` is absent, falsy or valid JSON, the handler replies "maximum depth" exactly when `current + 1 > recursive_depth`, and a new layer carries `current + 1` |
| Handlers.SubtopicsErrorSticks | script/py/fabric_flask/app.py:277-280 | a failing run aborts the whole expansion with its failure |
| Handlers.SubtopicsSnoc | script/py/fabric_flask/app.py:277-280 | one more topic appends exactly its prefixed subtopics |
| Handlers.SubtopicsStep | script/py/fabric_flask/app.py:277-280 | one loop step: a failure is the outcome, a success extends the layer |
| Handlers.RunNewGenerator | script/py/fabric_flask/app.py:278-279 | a new generator's `run()` returns `GenerateTopics` |
| Handlers.ExpandTopics | script/py/fabric_flask/app.py:277-280 | the loop returns `Subtopics`: the prefixed subtopics of every selected topic, in order, or the first failure |
| Handlers.Metadata | script/py/fabric_flask/app.py:251-307 | the handler's reply is `MetadataOutcome`: bad JSON or numbers fail, the depth guard, then the next layer or the first ten topics |
| Handlers.NewSession | script/py/fabric_flask/app.py:316-330 | topic count is the number of layers, version 1, ttl 2592000 s, expiry = creation + ttl, partition key the user; the given topics are stored and the creation time is now, source `app_generated` |
| Handlers.SaveTopicsReply | script/py/fabric_flask/app.py:333-338 | 200 exactly when the store saved it, 500 when it did not, uncaught when it raised |
| Handlers.UpdatedSession | script/py/fabric_flask/app.py:358-367 | new topics and count, version + 1, `updated_at` now, expiry now + 30 days; id, user, partition key, ttl, creation and source unchanged |
| Handlers.UpdateTopics | script/py/fabric_flask/app.py:340-379 | 404 when the session is missing, 500 when the lookup or upsert raises or the upsert fails, 200 exactly when the upsert of the updated record succeeds |
| Handlers.NewestFirstCons | script/py/fabric_flask/app.py:237 | a session no older than the head goes in front |
| Handlers.InsertNewestFirst | script/py/fabric_flask/app.py:237 | insertion keeps newest-first order and adds exactly one session |
| Handlers.SortNewestFirst | script/py/fabric_flask/app.py:237 | sorted newest first and a permutation of the input |
| Handlers.ViewHistory | script/py/fabric_flask/app.py:230-247 | the rows are `History`: the sorted sessions, each with its expiry |
| Handlers.HistoryNewestFirst | script/py/fabric_flask/app.py:237-242 | every session once, newest first, each expiring 2592000 s after creation |
| Handlers.QuerySubmit | script/py/fabric_flask/app.py:132-209 | validation errors as above; a session's stored query is its flattened terms, a free query is stored as text; a bad priority is the caught 500 on the query path and escapes on the session path; a missing session is 404; on the session path any store answer that does not raise gives 200; on the query path 200 exactly when the store saved the document; every stored document has status 0, the new id and the given priority |

## Left out

- Network, HTML and PDF text extraction, the language models, the arXiv client and the document store are oracles, as listed above. Each answers the same input with the same output. The model does not capture retries, latency or non-determinism.
- The robots.txt grammar and matching are inside the `readRobots` and `allows` oracles.
- Python's `int()` is modelled only on strings of ASCII digits. Python also accepts signs, surrounding whitespace and underscores, so `Handlers.FieldInt` and `Text.ParseDecimal` fail on inputs Python accepts.
- `query_submit` converts `priority` with `int()`. The model takes the converted value, or `None` when `int()` raises, as the `Submission.priority` field.
- JSON values are assumed to have the types the code expects. An explicit `null` for `webPages.value`, `relatedSearches.value`, `layers` or a stored `selected_topics` makes the original raise, and so does a stored topic inside `selected_topics` that is not a string (at `t.split`, app.py:157). Other fields of an unexpected type, such as a numeric `query` in `query_submit`, are passed on or stored without raising. The model's fields are strings and lists, so none of these inputs is representable; a `null` reads as absent.
- `Handlers.NewSession` and `Handlers.UpdatedSession`: an explicit `null` for `allTopics` is stored as `null` by `save_topics` and `update_topics` (app.py:317, app.py:346). The model has no JSON `null` there and stores `[]`, as for an absent field.
- A search hit without a `url` hands `None` to `urlparse`, which does not raise: it yields empty byte-string parts, the robots read of the resulting key fails inside the `try`, and the hit is refused. The model hands `None` to the URL-splitting oracle, which covers this.
- `urlParts` is total, so the model does not capture `urlparse` raising `ValueError` on a malformed URL (an unclosed IPv6 bracket such as `http://[::1`). In the source that happens in `can_fetch_url` outside any `try` and aborts `run()`; the model always produces a robots key.
- The assistant message content is assumed non-`None`.
- Console output is left out: the diagnostics `print`ed by `can_fetch_url`, `process_search_results`, `recursive_search`, `run`, `search_papers`, `download_pdf` and the Flask handlers do not affect results and are not modelled.
- The wording of the prompts is left out. `AggregationRequest` keeps only the variable parts: tag count, year, numbered format and combined topics. The topic oracle ignores `max_tokens = num_new_tags * 20`.
- `query_submit` computes `",".join(query)` and discards the result; the model does nothing for it.
- Left out of `app.py`: `chat`, `check_id` and `delete_session`, the GET pages and template rendering. Also left out: CSV export, directory creation, and how the arXiv client downloads a file.
- Timestamps are whole seconds. ISO formatting and `strftime` are not modelled, and history sorts on the numeric creation time where the code sorts the ISO strings (the same order for one time zone and format). Each handler reads the clock once in the model, where the source reads it several times: `save_topics` three times for the document (app.py:323, 326, 329; the first only feeds the id, which is a parameter), so the model's expiry is exactly creation + 2592000; `update_topics` twice (app.py:366-367), so the model's expiry is exactly `updated_at` + 30 days; `query_submit` twice on each path (app.py:170-171, 193-194), so the model's `updated_at` equals `created_at`. Each `ThesisTopicGenerator` also reads `datetime.now().year` itself when it is built (bing_search.py:16), so the generators `metadata` builds in its loop (app.py:278) could see different years across a year boundary; the model passes one `year` to all of them.
- Ids from `uuid4` and `uuid5` are parameters. The SQL texts of the document-store queries are not modelled.
- `Handlers.UpdatedSession` works on values. The in-place mutation of the looked-up dictionary, and any aliasing with the store's copy, is not modelled.
- `Handlers.HistoryNewestFirst` does not state that sessions created at the same time keep their order. `SortNewestFirst` inserts each session before equal-time ones from later in the input, which is Python's stable order.
- `query_submit` on the session path: a lookup that raises is not modelled. On both paths the store's reply is a parameter.
- A client that raises partway through `search_papers` is covered by a client answer that ends at that point, because the loop keeps what it has already collected.
