/** `POST /api/analyze-url`: fetch one document, turn it into text, analyse it and return
    the analysis as a single-document graph. */
module AnalyzeUrlRoute {
  import opened Results
  import opened Ordered
  import opened KnowledgeGraph
  import opened Provenance
  import opened Aggregate
  import opened Extraction
  import opened Api

  const MissingUrl := "Missing url"
  const FetchFailedPrefix := "Failed to fetch URL: "

  /** The JSON request body `{ url, model }`; `url` is `None` when it is absent or falsy. */
  datatype UrlRequest = UrlRequest(url: Option<string>, model: Field)

  /** Every item of the one analysis, in order and unmerged, attributed to document 0. */
  function Wrap(a: Analysis): (g: CombinedGraph)
    ensures |g.topics| == |a.topics| && |g.entities| == |a.entities| && |g.relationships| == |a.relationships|
    ensures forall i :: 0 <= i < |a.topics| ==> g.topics[i] == Topic(a.topics[i], [0])
    ensures forall i :: 0 <= i < |a.entities| ==>
      var e := a.entities[i];
      g.entities[i] == Entity(e.name, e.kind, [0], e.definition, e.contexts)
    ensures forall i :: 0 <= i < |a.relationships| ==>
      var r := a.relationships[i];
      g.relationships[i] == Relationship(r.source, r.target, r.kind, [0])
  {
    CombinedGraph(
      seq(|a.topics|, i requires 0 <= i < |a.topics| => Topic(a.topics[i], [0])),
      seq(|a.entities|, i requires 0 <= i < |a.entities| =>
        var e := a.entities[i];
        Entity(e.name, e.kind, [0], e.definition, e.contexts)),
      seq(|a.relationships|, i requires 0 <= i < |a.relationships| =>
        var r := a.relationships[i];
        Relationship(r.source, r.target, r.kind, [0])))
  }

  /** The route's response. */
  function AnalyzeUrl(req: UrlRequest, svc: Services): (r: Response)
  {
    if req.url.None? || req.url.value == "" then Response(400, ErrorBody(MissingUrl))
    else
      var url := req.url.value;
      var model := ChosenModel(req.model);
      match svc.fetch(url)
      case Err(m) => Failure(m)
      case Ok(fetched) =>
        if !fetched.ok then Response(400, ErrorBody(FetchFailedPrefix + Decimal(fetched.status)))
        else
          match ExtractText(url, fetched, svc)
          case Err(m) => Failure(m)
          case Ok(text) =>
            match svc.analyze(text, model)
            case Err(m) => Failure(m)
            case Ok(reply) =>
              if !HasArrays(reply) then Failure(MapOfUndefined)
              else Response(200, GraphBody(Wrap(Filled(reply))))
  }

  /** A missing or empty url is answered before anything is fetched: the collaborators do
      not matter. */
  lemma MissingUrlFirst(req: UrlRequest, svc1: Services, svc2: Services)
    requires req.url.None? || req.url == Some("")
    ensures AnalyzeUrl(req, svc1) == AnalyzeUrl(req, svc2) == Response(400, ErrorBody(MissingUrl))
  {
  }

  /** A reply that is not ok is answered with status 400 and a message carrying the status. */
  lemma FetchFailureReportsStatus(req: UrlRequest, svc: Services)
    requires req.url.Some? && req.url.value != ""
    requires svc.fetch(req.url.value).Ok? && !svc.fetch(req.url.value).value.ok
    ensures var r := AnalyzeUrl(req, svc);
      && r.status == 400 && r.body.ErrorBody?
      && |r.body.error| > |FetchFailedPrefix|
      && r.body.error[..|FetchFailedPrefix|] == FetchFailedPrefix
      && DecimalValue(r.body.error[|FetchFailedPrefix|..]) == svc.fetch(req.url.value).value.status
  {
    var status := svc.fetch(req.url.value).value.status;
    var msg := FetchFailedPrefix + Decimal(status);
    assert msg[|FetchFailedPrefix|..] == Decimal(status);
    assert msg[..|FetchFailedPrefix|] == FetchFailedPrefix;
    DecimalRoundTrip(status);
  }

  /** A successful answer is the analysis of the document's text, wrapped, with the model
      chosen by the request; the reply had its three arrays. */
  lemma SuccessIsWrappedAnalysis(req: UrlRequest, svc: Services)
    requires AnalyzeUrl(req, svc).status == 200
    ensures req.url.Some? && svc.fetch(req.url.value).Ok?
    ensures var fetched := svc.fetch(req.url.value).value;
      var text := ExtractText(req.url.value, fetched, svc);
      && fetched.ok && text.Ok?
      && svc.analyze(text.value, ChosenModel(req.model)).Ok?
      && HasArrays(svc.analyze(text.value, ChosenModel(req.model)).value)
      && AnalyzeUrl(req, svc).body == GraphBody(Wrap(Filled(svc.analyze(text.value, ChosenModel(req.model)).value)))
  {
  }

  /** A reply missing one of its arrays makes `map` throw: status 500 with the `TypeError`. */
  lemma MissingArrayFails(req: UrlRequest, svc: Services)
    requires req.url.Some? && req.url.value != ""
    requires svc.fetch(req.url.value).Ok? && svc.fetch(req.url.value).value.ok
    requires var text := ExtractText(req.url.value, svc.fetch(req.url.value).value, svc);
      text.Ok? && svc.analyze(text.value, ChosenModel(req.model)).Ok?
      && !HasArrays(svc.analyze(text.value, ChosenModel(req.model)).value)
    ensures AnalyzeUrl(req, svc) == Response(500, ErrorBody(MapOfUndefined))
  {
  }

  /** Unlike the multi-document merge, wrapping does not merge repeated topics. */
  lemma WrapKeepsRepeats()
    ensures var a := Analysis(["Consensus", "Consensus"], [], []);
      && |Wrap(a).topics| == 2
      && Combined([a]).topics == [Topic("Consensus", [0])]
  {
    var a := Analysis(["Consensus", "Consensus"], [], []);
    var occs := Occurrences([a], TopicsOf);
    assert [a][..0] == [];
    assert occs == [("Consensus", 0), ("Consensus", 0)] by {
      assert occs == Occurrences([a][..0], TopicsOf) + Tagged(a.topics, 0);
    }
    assert occs[..1] == [("Consensus", 0)];
    assert [("Consensus", 0)][..0] == [];
    var m1 := TopicFold([("Consensus", 0)]);
    assert m1 == AddTopic(EmptyMap(), "Consensus", 0);
    assert m1.keys == ["Consensus"] && m1.vals["Consensus"] == [0];
    assert TopicFold(occs) == AddTopic(m1, "Consensus", 0);
  }

  /** When an analysis repeats nothing, wrapping it and merging it as the only document give
      the same topics. */
  lemma WrapAgreesOnDistinctTopics(a: Analysis)
    requires Distinct(a.topics)
    ensures Wrap(a).topics == Combined([a]).topics
  {
    var ts := Combined([a]).topics;
    SingleCombinedTopics(a);
    forall i | 0 <= i < |ts| ensures ts[i] == Topic(a.topics[i], [0]) {
      SingleTopicFiles(a, i);
      assert ts[i].name == a.topics[i];
      assert ts[i].files == [0];
    }
    WrapTopicsAre(a, ts);
  }

  /** Topics that list the analysis's own topics in order, each with file 0, are the wrapped ones. */
  lemma WrapTopicsAre(a: Analysis, ts: seq<Topic>)
    requires |ts| == |a.topics|
    requires forall i :: 0 <= i < |ts| ==> ts[i] == Topic(a.topics[i], [0])
    ensures Wrap(a).topics == ts
  {
  }

  /** Merging one document without repeats lists its topics in order, each with the files
      the merge attributes to it. */
  lemma SingleCombinedTopics(a: Analysis)
    requires Distinct(a.topics)
    ensures var ts := Combined([a]).topics;
      && |ts| == |a.topics|
      && forall i :: 0 <= i < |ts| ==> ts[i].name == a.topics[i] && ts[i].files == DocsWith([a], TopicsOf, TopicKey, a.topics[i])
  {
    CombinedTopics([a]);
    SingleTopics(a);
    DedupOfDistinct(a.topics);
  }

  lemma SingleTopicFiles(a: Analysis, i: nat)
    requires i < |a.topics|
    ensures DocsWith([a], TopicsOf, TopicKey, a.topics[i]) == [0]
  {
    DocsWithSingle(a, TopicsOf, TopicKey, a.topics[i]);
    assert KeysIn(TopicsOf(a), TopicKey)[i] == a.topics[i];
  }

  /** With one document, the stream of topic names is that document's list. */
  lemma SingleTopics(a: Analysis)
    ensures AllTopics([a]) == a.topics
  {
    assert [a][..0] == [];
    var occs := Occurrences([a], TopicsOf);
    assert occs == Occurrences([a][..0], TopicsOf) + Tagged(a.topics, 0);
  }

  /** With one document, every key present in it is attributed to document 0 alone. */
  lemma DocsWithSingle<T>(a: Analysis, pick: Analysis -> seq<T>, key: T -> string, k: string)
    ensures DocsWith([a], pick, key, k) == if k in KeysIn(pick(a), key) then [0] else []
  {
    assert [a][..0] == [];
  }
}
