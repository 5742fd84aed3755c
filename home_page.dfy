/** The page's state and its two handlers: choosing files, and sending them for analysis.
    The request travels through a given transport, which either delivers the route's
    response or throws with a message. */
module HomePage {
  import opened Results
  import opened Ordered
  import opened KnowledgeGraph
  import opened Api
  import opened Aggregate
  import opened AnalyzeRoute
  import opened ViewFilter

  /** What `fetch("/api/analyze", ...)` followed by `res.json()` ends in. */
  datatype Outcome = Delivered(response: Response) | Threw(message: string)

  const AnalysisFailed := "Analysis failed"

  /** `formData.append("file", file)` for every file, then `formData.append("model", model)`. */
  function AnalyzeForm(files: seq<Upload>, model: string): (form: Form)
    ensures |form| == |files| + 1
    ensures forall i :: 0 <= i < |files| ==> form[i] == ("file", FileValue(files[i]))
    ensures form[|files|] == ("model", TextValue(model))
  {
    seq(|files|, i requires 0 <= i < |files| => ("file", FileValue(files[i]))) + [("model", TextValue(model))]
  }

  /** `res.ok`. */
  predicate IsOk(status: nat)
  {
    200 <= status <= 299
  }

  /** The `analysis` and `error` a settled request leaves: the payload on an ok response;
      `payload.error || "Analysis failed"` on any other response; the exception's message when
      the request throws. */
  function Settle(outcome: Outcome): (s: (Option<Body>, Option<string>))
  {
    match outcome
    case Threw(m) => (None, Some(m))
    case Delivered(r) =>
      if IsOk(r.status) then (Some(r.body), None)
      else if r.body.ErrorBody? && r.body.error != "" then (None, Some(r.body.error))
      else (None, Some(AnalysisFailed))
  }

  /** The page's state. `analysis` holds the parsed payload of the last ok response. */
  class Home {
    var files: seq<Upload>
    var loading: bool
    var model: string
    var analysis: Option<Body>
    var filter: Choice
    var error: Option<string>

    constructor ()
      ensures files == [] && !loading && model == DefaultModel
      ensures analysis.None? && filter == All && error.None?
    {
      files := [];
      loading := false;
      model := DefaultModel;
      analysis := None;
      filter := All;
      error := None;
    }

    /** The analyse button is enabled. */
    predicate CanAnalyze()
      reads this
    {
      files != [] && !loading
    }

    /** `handleFilesSelected`: a new selection clears the analysis and the error. */
    method FilesSelected(selected: seq<Upload>)
      modifies this
      ensures files == selected && analysis.None? && error.None?
      ensures loading == old(loading) && model == old(model) && filter == old(filter)
    {
      files := selected;
      analysis := None;
      error := None;
    }

    /** `handleAnalyze`: nothing happens without files; otherwise the files and the model go
        out as one form, and once the request settles `loading` is off again and either the
        payload or an error message is shown, never both. */
    method Analyze(send: Form -> Outcome)
      modifies this
      ensures old(files) == [] ==>
        files == old(files) && loading == old(loading) && model == old(model)
        && analysis == old(analysis) && filter == old(filter) && error == old(error)
      ensures old(files) != [] ==>
        && (analysis, error) == Settle(send(AnalyzeForm(old(files), old(model))))
        && !loading
        && files == old(files) && model == old(model) && filter == old(filter)
      ensures old(files) != [] ==> analysis.None? != error.None?
    {
      if files == [] {
        return;
      }
      loading := true;
      error := None;
      analysis := None;
      var outcome := send(AnalyzeForm(files, model));
      match outcome {
        case Threw(m) =>
          error := Some(m);
        case Delivered(r) =>
          if IsOk(r.status) {
            analysis := Some(r.body);
          } else if r.body.ErrorBody? && r.body.error != "" {
            error := Some(r.body.error);
          } else {
            error := Some(AnalysisFailed);
          }
      }
      loading := false;
    }
  }

  // ---------------------------------------------------------------------------
  // The page and the route together.

  function FileValues(files: seq<Upload>): (vs: seq<FormValue>)
    ensures |vs| == |files|
    ensures forall i :: 0 <= i < |files| ==> vs[i] == FileValue(files[i])
  {
    seq(|files|, i requires 0 <= i < |files| => FileValue(files[i]))
  }

  /** The file entries the page appends come out of `getAll('file')` as they went in. */
  lemma {:induction false} FileEntriesRead(files: seq<Upload>, model: string)
    ensures GetAll(AnalyzeForm(files, model)[..|files|], "file") == FileValues(files)
    decreases |files|
  {
    var form := AnalyzeForm(files, model);
    if files != [] {
      var n := |files|;
      var p := files[..n - 1];
      FileEntriesRead(p, model);
      assert form[..n][..n - 1] == AnalyzeForm(p, model)[..n - 1];
      assert FileValues(files) == FileValues(p) + [FileValue(files[n - 1])];
    }
  }

  lemma {:induction false} UploadsOfFileValues(files: seq<Upload>)
    ensures Uploads(FileValues(files)) == files
    decreases |files|
  {
    if files != [] {
      var n := |files|;
      UploadsOfFileValues(files[..n - 1]);
      assert FileValues(files)[..n - 1] == FileValues(files[..n - 1]);
      assert files[..n - 1] + [files[n - 1]] == files;
    }
  }

  lemma {:induction false} ModelRead(files: seq<Upload>, model: string)
    ensures Get(AnalyzeForm(files, model), "model") == Str(model)
    decreases |files|
  {
    if files != [] {
      ModelRead(files[1..], model);
      assert AnalyzeForm(files, model)[1..] == AnalyzeForm(files[1..], model);
    }
  }

  /** The route reads back exactly what the page sends: the selected files, in order, the
      chosen model, and no URLs. */
  lemma FormRoundTrip(files: seq<Upload>, model: string)
    ensures Uploads(GetAll(AnalyzeForm(files, model), "file")) == files
    ensures Get(AnalyzeForm(files, model), "model") == Str(model)
    ensures GetAll(AnalyzeForm(files, model), "url") == []
  {
    var form := AnalyzeForm(files, model);
    FileEntriesRead(files, model);
    UploadsOfFileValues(files);
    assert GetAll(form, "file") == GetAll(form[..|files|], "file");
    ModelRead(files, model);
    NoUrls(files, model);
  }

  lemma NoUrls(files: seq<Upload>, model: string)
    ensures GetAll(AnalyzeForm(files, model), "url") == []
  {
    var form := AnalyzeForm(files, model);
    assert forall i :: 0 <= i < |form| ==> form[i].0 != "url";
    HeadIn(GetAll(form, "url"));
  }

  /** The analyze route's answer to the page's form: the merge of the selected files'
      analyses, the failure of the first one that fails, or the `TypeError` of a reply that
      is not well shaped. */
  lemma RouteAnswersPage(files: seq<Upload>, model: string, svc: Services)
    requires files != []
    ensures var g := Gathered(files, [], model, svc);
      Respond(AnalyzeForm(files, model), svc)
        == if g.Err? then Failure(g.error)
           else if Shaped(g.value).Err? then Failure(ForEachOfUndefined)
           else Response(200, GraphBody(Combined(Shaped(g.value).value)))
  {
    FormRoundTrip(files, model);
    assert ChosenModel(Get(AnalyzeForm(files, model), "model")) == model;
  }

  /** When the page's request reaches the analyze route, the page shows either the merged
      graph of the selected files, or the message of the first document that failed (`Internal
      error` when that message is empty), or the `TypeError` of a reply that is not well
      shaped; the no-files answer cannot occur. */
  lemma PageShowsRouteOutcome(files: seq<Upload>, model: string, svc: Services)
    requires files != []
    ensures var s := Settle(Delivered(Respond(AnalyzeForm(files, model), svc)));
      var g := Gathered(files, [], model, svc);
      && (g.Ok? && Shaped(g.value).Ok? ==> s == (Some(GraphBody(Combined(Shaped(g.value).value))), None))
      && (g.Ok? && Shaped(g.value).Err? ==> s == (None, Some(ForEachOfUndefined)))
      && (g.Err? ==> s == (None, Some(if g.error == "" then InternalError else g.error)))
  {
    RouteAnswersPage(files, model, svc);
  }
}
