# Whitepaper Visualizer, modelled in Dafny

The Whitepaper Visualizer turns documents (uploaded PDF or text files, and URLs) into one
knowledge graph: topics, entities and relationships, where every item lists the positions
(`files`) of the documents it came from. This project models the logic in that pipeline.

- **Analyze route** (`POST /api/analyze`): collects one analysis per uploaded file, then one per
  usable URL, and merges them into a combined graph with provenance. The merge keys topics by
  name, entities by name, and relationships by the joined string `source||target||type`.
- **Single-URL route** (`POST /api/analyze-url`): fetches, strips HTML and wraps one analysis
  with `files: [0]`.
- **Analyzer**: the checks around the language-model call, and how its reply is cut down to
  the JSON text that is parsed.
- **Network view**:
  - the completer (`processData`), which adds a placeholder entity for every relationship
    endpoint that names no entity;
  - the node and link records, the radius and label rule;
  - the type legend, the hover highlighting and the drag pin.
- **Page**: the five view filters and the two handlers that select files and send them for
  analysis.

Modules, one per source concern:

| module | file | models |
|---|---|---|
| `Results` | results.dfy | `Option`, `Result` |
| `Ordered` | ordered.dfy | JavaScript's insertion-ordered `Set` and `Map` |
| `JsText` | jstext.dfy | `toLowerCase` (ASCII), `includes`, `startsWith`, `endsWith`, `trim` |
| `KnowledgeGraph` | knowledge_graph.dfy | the per-document analysis, the parsed reply it is read from, and the combined graph |
| `Provenance` | provenance.dfy | the stream of `(item, document index)` pairs the merge visits; reference definition of "the documents that mention a key" |
| `Aggregate` | aggregate.dfy | the merge: its loops over `Map`s, and its result as left folds |
| `Extraction` | extraction.dfy | the PDF-or-HTML decision and the three regular-expression replacements |
| `Api` | api.dfy | responses, collaborators, model choice, the catch-all error |
| `AnalyzeRoute` | analyze_route.dfy | `POST /api/analyze` |
| `AnalyzeUrlRoute` | analyze_url_route.dfy | `POST /api/analyze-url` |
| `Analyzer` | analyzer.dfy | `analyzeDocument` |
| `Completer` | completer.dfy | `processData` |
| `GraphView` | graph_view.dfy | nodes, links, legend, hover |
| `Drag` | drag.dfy | the drag handlers, as classes |
| `ViewFilter` | view_filter.dfy | the page's filter block |
| `HomePage` | home_page.dfy | the page's state and handlers, as a class |

The two routes and the analyzer call code that is not part of this model. Each such call is a
function-typed field of `Api.Services` or a parameter: `fetch`, `parseDocument`, decoding UTF-8,
`analyzeDocument`, the language-model reply and `JSON.parse`. Each one either returns a value
or fails with a message. The analyze route receives the request body already read by
`req.formData()`: either the form or the message the reader rejected it with.

Nothing checks the shape of a parsed reply. `KnowledgeGraph.Parsed` lets each of its three
arrays, and each entity's `contexts`, be missing, and the routes fail as the code does when
they call `forEach` or `map` on one.

Where the project's documentation and the code differ, the model follows the code:
- The `uniqueA`, `uniqueB` and `shared` filters judge a relationship by its own `files`, not
  by its endpoints.
- A placeholder entity carries only a name and a type: no `files`, no definition, no contexts.
- The documentation asks the merge to read a missing `contexts` as empty and to skip a
  malformed document. The code instead answers the whole request with a 500 (see Findings).

## Model

| member | source | states |
|---|---|---|
| KnowledgeGraph.AsParsed | lib/analyzer.ts:9-18 | An analysis of the declared `AnalysisResult` shape parses to a well-shaped reply with the same fields, every entity keeping its `contexts`. |
| KnowledgeGraph.Filled | lib/analyzer.ts:9-18 | A reply with its three arrays reads as an analysis with the same topics, relationships and entity fields. A missing `contexts` reads as empty, and a well-shaped reply reads back exactly. |
| KnowledgeGraph.FilledAsParsed | lib/analyzer.ts:9-18 | Reading back the reply an analysis parses to gives that analysis. |
| Aggregate.AddTopic | app/api/analyze/route.ts:60-61 | A topic name enters the key order only the first time it is seen. Its index set gains the document index at most once. No other topic changes. |
| Aggregate.AddEntity | app/api/analyze/route.ts:70-77 | The entry is created from the first occurrence's type and definition. Later occurrences only add the document index (once) and append their contexts. No other entity changes. |
| Aggregate.AddRelationship | app/api/analyze/route.ts:91-93 | The entry for the joined key is created from the first occurrence's endpoints and type. Later occurrences only add the document index (once). |
| Aggregate.CombinedTopics | app/api/analyze/route.ts:57-64 | The combined topics are the distinct topic names in first-mention order. Each lists exactly the ascending indices of the analyses that name it. |
| Aggregate.CombinedEntityNames | app/api/analyze/route.ts:67-86 | There is one combined entity per distinct name across all analyses, in first-mention order. No name is lost or invented. |
| Aggregate.CombinedEntity | app/api/analyze/route.ts:68-86 | An entity's type and definition are its first mention's. Its contexts are every mention's contexts, in analysis order and then document order, without dedup. Its files are the ascending indices of the analyses that mention it. |
| Aggregate.CombinedRelationships | app/api/analyze/route.ts:88-96 | There is one relationship per distinct joined key, in first-mention order. Its endpoints and type are the first mention's. Its files are the ascending indices of the analyses with that key. |
| Aggregate.RelKeySameEndpoints | app/api/analyze/route.ts:91 | With equal endpoints, two relationships share a key exactly when their types are equal. |
| Aggregate.RelKeyConflates | app/api/analyze/route.ts:91-92 | `("a\|\|b","c")` and `("a","b\|\|c")` with the same type share one key, so the merge keeps only the first. |
| Aggregate.PushAll | app/api/analyze/route.ts:77 | Pushing every context appends them in order. |
| Aggregate.RecordTopic | app/api/analyze/route.ts:60-61 | The `has`/`set`/`add` sequence for one topic is the merge step `AddTopic`. |
| Aggregate.RecordTopics | app/api/analyze/route.ts:59-62 | The loop over one document's topics continues the merge over that document's occurrences. |
| Aggregate.RecordEntity | app/api/analyze/route.ts:70-77 | The create-then-update sequence for one entity is the merge step `AddEntity`. |
| Aggregate.RecordEntities | app/api/analyze/route.ts:69-78 | The loop over one document's entities continues the merge over that document's occurrences. |
| Aggregate.RecordRelationship | app/api/analyze/route.ts:91-93 | Building the key, then the create-then-add sequence for one relationship, is the merge step `AddRelationship`. |
| Aggregate.RecordRelationships | app/api/analyze/route.ts:90-94 | The loop over one document's relationships continues the merge over that document's occurrences. |
| Aggregate.CombineTopics | app/api/analyze/route.ts:57-64 | The nested `forEach` loops over the topic map compute the combined topics. |
| Aggregate.CombineEntities | app/api/analyze/route.ts:67-86 | The nested loops over the entity map compute the combined entities. |
| Aggregate.CombineRelationships | app/api/analyze/route.ts:88-96 | The nested loops over the relationship map compute the combined relationships. |
| Aggregate.Combine | app/api/analyze/route.ts:55-97 | The three merges together produce the combined graph. |
| Aggregate.SkippedReplyListedNowhere | app/api/analyze/route.ts:58-96 | A document that contributes no item is listed in no topic's, entity's or relationship's `files`. |
| Provenance.DocsWithSpec | app/api/analyze/route.ts:58-61 | The reference list of documents for a key is strictly increasing. It contains exactly the indices of the analyses that have an item with that key. |
| Provenance.FilesAreDocuments | app/api/analyze/route.ts:61-64 | The index set built while streaming the occurrences equals that reference list. |
| Provenance.OccurrenceKeysSpec | app/api/analyze/route.ts:58-59 | The keys met while streaming are exactly the keys of the analyses' items. |
| Extraction.IsPdf | app/api/analyze-url/route.ts:29 | The PDF path is taken exactly when the content type contains `application/pdf`, or when the URL ends in `.pdf` in any letter case. |
| Extraction.FindFrom | app/api/analyze-url/route.ts:37 | The search returns the leftmost case-insensitive match at or after the start, or none. |
| Extraction.FindBlock | app/api/analyze-url/route.ts:37-38 | A block match starts at the leftmost possible opening marker. It ends at the nearest closing marker after it (the lazy `*?`). When there is no match, no block starts anywhere. |
| Extraction.RemoveBlocks | app/api/analyze-url/route.ts:37-38 | Removing blocks never lengthens the text and keeps only characters of the input. A text without a block comes back unchanged. |
| Extraction.RemoveBlocksSplits | app/api/analyze-url/route.ts:37-38 | When the text is a prefix where no block can start, then a block (opening marker, no closing marker, closing marker), then a rest, the result is the prefix followed by the removal applied to the rest. |
| Extraction.ReplaceTags | app/api/analyze-url/route.ts:39 | Tag replacement never lengthens the text. Every non-space character of the result comes from the input. |
| Extraction.ReplaceTagsPlainPrefix | app/api/analyze-url/route.ts:39 | Text before the first `<` is kept unchanged, and the replacement continues after it. |
| Extraction.ReplaceTagsTag | app/api/analyze-url/route.ts:39 | `<`, one or more characters other than `>`, then `>` become one space, and the replacement continues after the `>`. |
| Extraction.ReplaceTagsLoneLt | app/api/analyze-url/route.ts:39 | A `<` that opens no tag is kept: one directly followed by `>`, at the end, or with no `>` after the next character. |
| Extraction.ReplaceTagsOneTag | app/api/analyze-url/route.ts:39 | Plain text, one tag, then a rest: the text is kept, the tag becomes one space, and the rest is replaced in turn. |
| Extraction.ReplaceTagsKeepsPlainText | app/api/analyze-url/route.ts:39 | A text without `<` is unchanged by tag replacement. |
| Extraction.ReplaceTagsLeavesNoTag | app/api/analyze-url/route.ts:39 | After tag replacement, every `<` is followed directly by `>` or has no `>` after it. |
| Extraction.StripHtml | app/api/analyze/route.ts:48-51 | The stripped HTML contains no tag. |
| Extraction.StripHtmlKeepsPlainText | app/api/analyze/route.ts:48-51 | A text without `<` comes through the three replacements unchanged. |
| Extraction.ExtractText | app/api/analyze-url/route.ts:26-41 | A PDF is handed to the document parser as `application/pdf`. Otherwise the decoded HTML, stripped of tags (`StripHtml` of the decoded bytes), is the text, and it holds no tag. |
| Api.ChosenModel | app/api/analyze-url/route.ts:20 | The model is the given value when it is a string, and `openai/o4-mini` otherwise. |
| Api.Failure | app/api/analyze/route.ts:98-103 | An error is answered with status 500 and its message, or `Internal error` when the message is empty. |
| Api.DecimalRoundTrip | app/api/analyze-url/route.ts:24 | The decimal rendering of a status reads back as that status. |
| AnalyzeUrlRoute.MissingUrlFirst | app/api/analyze-url/route.ts:16-19 | A missing or empty URL gets 400 `Missing url`, whatever the collaborators would do. |
| AnalyzeUrlRoute.FetchFailureReportsStatus | app/api/analyze-url/route.ts:22-25 | A reply that is not ok gets 400 with `Failed to fetch URL: ` followed by the exact status. |
| AnalyzeUrlRoute.SuccessIsWrappedAnalysis | app/api/analyze-url/route.ts:42-59 | Status 200 means the fetch succeeded and was ok, the text was extracted, and the reply had its three arrays. The body is that analysis, wrapped, done with the chosen model. |
| AnalyzeUrlRoute.MissingArrayFails | app/api/analyze-url/route.ts:43-62 | A reply missing `topics`, `entities` or `relationships` makes `map` throw. The answer is 500 with the runtime's `TypeError` message. |
| AnalyzeUrlRoute.Wrap | app/api/analyze-url/route.ts:45-58 | Wrapping keeps the lengths and order of topics, entities and relationships. It copies every field and sets every `files` to `[0]`. |
| AnalyzeUrlRoute.WrapKeepsRepeats | app/api/analyze-url/route.ts:45 | Wrapping keeps a repeated topic twice. The multi-document merge keeps it once. |
| AnalyzeUrlRoute.WrapAgreesOnDistinctTopics | app/api/analyze-url/route.ts:45 | Without repeats, wrapping and merging one analysis give the same topics. |
| AnalyzeRoute.GetAll | app/api/analyze/route.ts:19 | A value is returned by `getAll` exactly when an entry with that name carries it. |
| AnalyzeRoute.GetAllConcat | app/api/analyze/route.ts:19 | `getAll` over two runs of entries returns the first run's values, then the second's. Order and repeats are kept. |
| AnalyzeRoute.GetAllSingle | app/api/analyze/route.ts:19 | One entry yields its value exactly when it has the name. |
| AnalyzeRoute.Get | app/api/analyze/route.ts:25-26 | `get` is absent exactly when no entry has that name. Otherwise the first entry with that name decides: a string entry gives its text, and any other entry gives a non-string. |
| AnalyzeRoute.Uploads | app/api/analyze/route.ts:20 | The uploads are exactly the `File` values. |
| AnalyzeRoute.UploadsConcat | app/api/analyze/route.ts:20 | The filter keeps the `File` values of two runs in order, repeats included. |
| AnalyzeRoute.CollectFiles | app/api/analyze/route.ts:29-33 | The file loop pushes each upload's analysis in order, or stops at the first error thrown. |
| AnalyzeRoute.CollectUrls | app/api/analyze/route.ts:35-54 | The URL loop appends the usable URLs' analyses after those already collected, or stops at the first error thrown. |
| AnalyzeRoute.Shaped | app/api/analyze/route.ts:59-90 | The merge's `forEach` calls succeed exactly when every reply has its arrays and every entity its `contexts`. Then each reply is the analysis it carries. Otherwise they throw the `forEach` `TypeError`. |
| AnalyzeRoute.Answer | app/api/analyze/route.ts:15-103 | A body that `req.formData()` rejects is answered 500 with the reader's message. A form gets the route's response. |
| AnalyzeRoute.Handle | app/api/analyze/route.ts:15-105 | The handler's loops give the route's response. |
| AnalyzeRoute.NoFilesFirst | app/api/analyze/route.ts:19-23 | Without a `File` entry the answer is 400 `No files uploaded`, whatever the collaborators would do. |
| AnalyzeRoute.CollectErrorStops | app/api/analyze/route.ts:98-103 | Once a document fails, the documents after it do not affect the result. |
| AnalyzeRoute.FilePositions | app/api/analyze/route.ts:29-33 | The file analyses are those of the uploads, position by position. |
| AnalyzeRoute.UrlPositions | app/api/analyze/route.ts:35-54 | The URL analyses are those of the usable URLs, position by position. A non-string entry or a reply that is not ok takes no position. |
| AnalyzeRoute.UsableUrls | app/api/analyze/route.ts:37-40 | A URL is usable exactly when it is a string entry whose fetch succeeded with an ok reply. |
| AnalyzeRoute.UsableUrlsConcat | app/api/analyze/route.ts:36-40 | The usable URLs of two runs are the first run's, then the second's, in form order. |
| AnalyzeRoute.Provenance | app/api/analyze/route.ts:28-97 | On status 200 every reply was well shaped, and the body is the merge of the gathered analyses. Those are the files' in upload order, then the usable URLs' in form order. |
| AnalyzeRoute.GatheredPositions | app/api/analyze/route.ts:28-54 | Whenever gathering succeeds, its analyses are the files' by position, then the usable URLs' by position. |
| AnalyzeRoute.MalformedReplyFailsRequest | app/api/analyze/route.ts:59-103 | Once every document is analysed, one reply that is not well shaped turns the whole request into a 500 with the `forEach` `TypeError`, whatever the other replies hold. The intended route answers 200 instead. |
| AnalyzeRoute.Tolerated | app/api/analyze/route.ts:59-94 | The intended reading of a reply: a well-shaped reply is the analysis it carries, a missing `contexts` reads as empty, and a reply without its arrays contributes nothing. |
| AnalyzeRoute.AllTolerated | app/api/analyze/route.ts:58-94 | Every reply is read as intended, in its own position. |
| AnalyzeRoute.RespondIntended | app/api/analyze/route.ts:15-105 | The intended route answers 200 exactly when there are files and every document is analysed. |
| AnalyzeRoute.IntendedAgreesOnWellShaped | app/api/analyze/route.ts:55-97 | When every reply is well shaped, the intended route answers exactly as the code does. |
| AnalyzeRoute.IntendedSkipsMalformed | app/api/analyze/route.ts:58-96 | In the intended route a reply without its arrays is answered 200, and its position is listed in no `files`. |
| Analyzer.SelectContent | lib/analyzer.ts:77-83 | When `choices` is a non-empty array whose first choice has a message, the content is that message's content: missing, `null`, a string or another value. In every other case it is `undefined`. |
| Analyzer.RawText | lib/analyzer.ts:87 | A string content is trimmed. `null` and `undefined` give the empty text. Any other value throws, because it has no `trim` method. |
| Analyzer.MatchFrom | lib/analyzer.ts:88 | A match is found only inside the text and only when the text ends with `}`. |
| Analyzer.JsonCandidateSpec | lib/analyzer.ts:88-89 | If the text has a `{` and ends with `}`, the candidate starts at the first `{`. Otherwise the candidate is the whole text. It is always a suffix, and a match starts with `{` and ends with `}`. |
| Analyzer.Analyze | lib/analyzer.ts:25-95 | The analysis succeeds exactly when the key is set, the reply is ok and the `try` block (trim, cut, parse) succeeds. The result is then that parse. A reply that is not ok gives exactly `OpenRouter API error: ` followed by the reply's text. Every error is one of the three messages. |
| Analyzer.MissingKeyBeforeRequest | lib/analyzer.ts:26-30 | Without an API key the result is the missing-key error, whatever the reply would be. |
| Analyzer.ParseErrorNamesContent | lib/analyzer.ts:86-93 | A failure inside the `try` block gives the parse-error prefix, then the failure's message. The message ends with `. Response was: ` and the content as concatenation renders it: `null` for `null` and `undefined` for a missing content. |
| Analyzer.NonStringContentFails | lib/analyzer.ts:79-93 | Content that is neither a string nor `null`/`undefined` fails before anything is parsed. The outcome does not depend on the parser, and the message starts with the prefix and the `TypeError`. |
| JsText.Trim | lib/analyzer.ts:87 | `trim` returns a slice of the text, with only white space cut on either side, that neither starts nor ends with white space. |
| Completer.ProcessData | components/network-graph.tsx:32-72 | The loops produce the completed graph, with placeholders typed by `Classify`, the corrected lookup of the Findings row. The caller's data is a value and is not changed. |
| Completer.Endpoints | components/network-graph.tsx:41-44 | The scan meets each relationship's source, then its target, in relationship order. |
| Completer.ScanReferenced | components/network-graph.tsx:40-44 | The scan builds the referenced names: each endpoint once, in the order first met. |
| Completer.MissingMembers | components/network-graph.tsx:37-47 | The missing names are distinct. They are exactly the relationship endpoints that are not entity names. |
| Completer.MissingFirstSeenOrder | components/network-graph.tsx:40-47 | The missing names are in the order the scan first meets them. |
| Completer.CompletedNames | components/network-graph.tsx:63-69 | After completion the entity names are the original names plus the missing ones. |
| Completer.CompletedIsClosed | components/network-graph.tsx:37-69 | After completion every relationship's source and target names an entity. |
| Completer.CompletedIdempotent | components/network-graph.tsx:32-72 | Completing an already completed graph changes nothing. |
| Completer.CompletedKeepsOriginals | components/network-graph.tsx:34-69 | The original entities come first, unchanged and in order. Then come placeholders, one per missing name, each with only a name and its type, none named like an original entity. Relationships are untouched. |
| Completer.ClassifyRange | components/network-graph.tsx:50-60 | A placeholder's type is one of the table's values or `concept`. |
| Completer.Classify | components/network-graph.tsx:50-64 | The corrected lookup: the table entry for the nine listed names, and `concept` for every other name. It agrees with the code except on names inherited from `Object.prototype`. |
| Completer.LookupAsWritten | components/network-graph.tsx:64 | The object lookup finds the table entries first, then the names inherited from `Object.prototype`. |
| Completer.ClassifyAsWrittenInheritedType | components/network-graph.tsx:64 | As written, `constructor` and `toString` get a function as their type, and `__proto__` gets an object. |
| Completer.ClassifyAgrees | components/network-graph.tsx:64 | For every name not inherited from `Object.prototype`, the code's lookup gives the string `Classify` gives. |
| GraphView.Radius | components/network-graph.tsx:124 | The radius is 15 exactly for `Bitcoin`, `Proof-of-Work` and `Blockchain`, and 10 otherwise. |
| GraphView.Nodes | components/network-graph.tsx:120-125 | There is one node per entity, in order, with the name as its id. |
| GraphView.Links | components/network-graph.tsx:127-131 | There is one link per relationship, in order, with its endpoints and type. |
| GraphView.LabelFontOfNode | components/network-graph.tsx:175-176 | A label is 12px bold exactly for the anchor names, and 10px normal otherwise. |
| GraphView.LinksResolve | components/network-graph.tsx:108 | On completed data, both ends of every link are node ids, so the link force never meets an unknown id. |
| GraphView.EntityTypesSpec | components/network-graph.tsx:134 | The legend types are the entities' types, each once, in first-occurrence order. |
| GraphView.LegendSpec | components/network-graph.tsx:263-265 | Every entity type has exactly one legend row, and row `i` is offset by `20*i`. |
| GraphView.MouseOverHighlightsIncident | components/network-graph.tsx:198-221 | Hovering a node highlights exactly the links touching it, and their labels, and dims every other link. Only the hovered circle changes. |
| GraphView.HoverThenLeave | components/network-graph.tsx:146-148 | After hover and mouse-out, circles and labels are as first drawn. Every link is left at `#999`/1.5/0.6 where it was drawn at width 2. |
| Drag.DragStarted | components/network-graph.tsx:305-309 | The node is pinned where it stands. When no other drag is active, the alpha target becomes 0.3 and the simulation runs. |
| Drag.Dragged | components/network-graph.tsx:311-314 | The pin follows the pointer. |
| Drag.DragEnded | components/network-graph.tsx:316-320 | The node is released. When no other drag is active, the alpha target becomes 0. |
| ViewFilter.AllIsIdentity | app/page.tsx:126-127 | `all` passes entities and relationships through unchanged. |
| ViewFilter.ApplyKeepsOrder | app/page.tsx:126-143 | Every filter keeps an order-preserving subsequence of unmodified items. |
| ViewFilter.ProvenanceFilters | app/page.tsx:128-136 | `uniqueA`, `uniqueB` and `shared` keep exactly the items whose own `files` is `[0]`, is `[1]`, or has more than one index. |
| ViewFilter.ProvenanceFiltersDisjoint | app/page.tsx:128-136 | No entity is in two of the `uniqueA`, `uniqueB` and `shared` selections. |
| ViewFilter.SecurityFilter | app/page.tsx:137-142 | `security` keeps every entity that shares its name with an entity whose lower-cased name or type contains `security`. It keeps the relationships with an endpoint among those names. |
| ViewFilter.SecurityNamesMembers | app/page.tsx:138-140 | A name is among the security names exactly when an entity whose name or type mentions security carries it. |
| ViewFilter.SecurityDropsEndpoint | app/page.tsx:137-145 | `security` can keep a relationship whose other endpoint it dropped. The completer then draws that endpoint as a `concept` placeholder. |
| ViewFilter.ToGraphData | app/page.tsx:144-145 | The view receives the filtered entities, in order, and the filtered relationships. |
| HomePage.Home.FilesSelected | app/page.tsx:37-41 | Selecting files stores them and clears the analysis and the error. |
| HomePage.Home.Analyze | app/page.tsx:43-68 | Without files nothing changes. Otherwise the page sends the files and the model, and the request settles with `loading` off. An ok reply shows its payload. Another reply shows its error, or `Analysis failed`. A thrown error shows its message. The page never shows both a payload and an error. |
| HomePage.AnalyzeForm | app/page.tsx:49-52 | The form holds one `file` entry per selected file, in order, then the model. |
| HomePage.FormRoundTrip | app/page.tsx:49-52 | The route reads back the selected files, the model and no URLs. |
| HomePage.RouteAnswersPage | app/page.tsx:53-56 | The route answers the page's form with one of three things: the merge of the files' analyses, the first failure, or the `TypeError` of a reply that is not well shaped. |
| HomePage.PageShowsRouteOutcome | app/page.tsx:57-62 | Through the route, the page shows the merged graph, the first failure's message, or the `TypeError`. It never shows the no-files error. |

## Left out

- The d3 force simulation, zoom, colour scale and SVG construction are not modelled. Node
  positions are inputs; only the pin bookkeeping of the drag handlers is modelled.
- React's effect lifecycle is not modelled. The network view processes its data only when it
  mounts (empty dependency list, components/network-graph.tsx:12-29). The model gives the
  completion of the data it is handed and does not claim that the drawn graph follows later
  filter changes.
- PDF text extraction (lib/documentParser.ts) is not part of this model: it is a parameter.
- The language-model HTTP request is not part of this model: its reply is an input.
- Remote `fetch`, `JSON.parse` and UTF-8 decoding are collaborators, given as functions.
- Collaborators are pure functions. Fetching the same URL twice, parsing the same bytes twice
  or analysing the same text twice gives the same answer both times; a remote service that
  answers differently on a second call is not modelled. No property of the model relies on
  this.
  Multipart parsing is not modelled. The analyze route receives its result: the form, or the
  message `req.formData()` rejected the body with.
- A parsed reply is modelled as an object whose three arrays, and each entity's `contexts`,
  are either present or missing. Other shapes are not modelled: a reply that is `null`, a field
  that is `null` or not an array, an item that is not an object, and a name, type or source
  field that is missing or not a string.
- The `TypeError` messages (`Api.ForEachOfUndefined`, `Api.MapOfUndefined`,
  `Analyzer.TrimNotAFunction`) are the wording of the Node.js runtime the routes declare. The
  source does not fix them.
- AnalyzeRoute.Handle: the `TypeError` that the merge loops throw on a missing array or a
  missing `contexts` is decided by `Shaped` before the merge runs, not partway through it. The
  response is the same, because the partly built maps are discarded with the exception.
- Analyzer.SelectContent: a `choices[0]` that is `null` throws a `TypeError` in the source.
  Here a choice is always an object.
- Analyzer.Analyze: a reply body that is not JSON is not modelled.
- AnalyzeUrlRoute.AnalyzeUrl: a `url` that is truthy but not a string is not modelled; the URL
  is an optional string. A request body that is not JSON is not modelled either. An entity
  whose `contexts` is missing is sent without that key in the source; the model sends an
  empty list.
- Completer.ProcessData: placeholders are typed with `Completer.Classify`. The code as written
  gives a name inherited from `Object.prototype` (such as `constructor`) a function or an
  object as its type. `Completer.ClassifyAsWritten` models that lookup, and the Findings row
  records it.
- JsText.Lower: `toLowerCase` is modelled for ASCII letters only. The model's two uses, the
  `.pdf` suffix and the `security` substring, compare against ASCII text.
- Drag.DragStarted: `simulation.restart()` is recorded only as the simulation running.
  `event.active` is the number of other active drags.
- HomePage.Home.Analyze: the intermediate `loading == true` state while the request is in
  flight is not observable, because the request is one call. React's batching of state
  updates is not modelled.
- The entity details panel, the model selector's option list, tooltips and the reset-zoom
  button are display only and are not modelled.

## Findings

| source | as written | input that shows it | evidently intended | confidence | as-written member | corrected member |
|---|---|---|---|---|---|---|
| app/api/analyze/route.ts:77 | the merge calls `forEach` on every reply's `topics`, `entities` and `relationships` and on every entity's `contexts` (lines 59, 69, 77, 90) without checking that they exist | two uploads whose second reply has an entity without `contexts`: the request is answered 500 `Cannot read properties of undefined (reading 'forEach')`, and the first document's analysis is lost | a missing `contexts` reads as empty; a reply without its arrays is skipped but keeps its position; the merge of the other documents is answered 200 | not executed; medium | AnalyzeRoute.MalformedReplyFailsRequest | AnalyzeRoute.RespondIntended |
| components/network-graph.tsx:64 | `entityTypeMap[node] \|\| "concept"` looks the name up on a plain object literal, so properties inherited from `Object.prototype` are found | a relationship endpoint named `constructor` (or `toString`, `__proto__`, ...) that no entity carries: its placeholder's type is a function (an object for `__proto__`), not `"concept"` | every name outside the nine-entry table gets `"concept"` | not executed; high | Completer.ClassifyAsWrittenInheritedType | Completer.Classify |
