/** `POST /api/analyze`: analyse every uploaded file, then every URL that can be fetched, and
    merge the analyses into one graph whose `files` lists are positions in that order. */
module AnalyzeRoute {
  import opened Results
  import opened Ordered
  import opened KnowledgeGraph
  import opened Aggregate
  import opened Extraction
  import opened Api

  const NoFiles := "No files uploaded"

  /** An uploaded file: its MIME type and its bytes. */
  datatype Upload = Upload(mimeType: string, bytes: seq<bv8>)

  /** A multipart form value. */
  datatype FormValue = FileValue(upload: Upload) | TextValue(text: string)

  /** The form's entries in order, each a field name and a value. */
  type Form = seq<(string, FormValue)>

  /** `formData.getAll(name)`: the values of the entries with that name, in order. */
  function GetAll(form: Form, name: string): (vs: seq<FormValue>)
    ensures |vs| <= |form|
    ensures forall v :: v in vs <==> exists i :: 0 <= i < |form| && form[i] == (name, v)
    decreases |form|
  {
    if form == [] then []
    else
      var p := form[..|form| - 1];
      var rest := GetAll(p, name);
      assert forall i :: 0 <= i < |p| ==> p[i] == form[i];
      rest + Named(form[|form| - 1], name)
  }

  /** The value one entry contributes to `getAll(name)`. */
  function Named(e: (string, FormValue), name: string): seq<FormValue>
  {
    if e.0 == name then [e.1] else []
  }

  /** `getAll` over two runs of entries is the values of the first run, then those of the
      second: the entries' order and repeats are kept. */
  lemma {:induction false} GetAllConcat(a: Form, b: Form, name: string)
    ensures GetAll(a + b, name) == GetAll(a, name) + GetAll(b, name)
    decreases |b|
  {
    if b == [] {
      assert a + b == a && GetAll(b, name) == [];
    } else {
      var b' := b[..|b| - 1];
      var x := b[|b| - 1];
      GetAllConcat(a, b', name);
      assert GetAll(a + b, name) == GetAll(a + b', name) + Named(x, name) by {
        var ab := a + b;
        assert ab[..|ab| - 1] == a + b' && ab[|ab| - 1] == x;
      }
      assert GetAll(b, name) == GetAll(b', name) + Named(x, name);
      AppendAssoc(GetAll(a, name), GetAll(b', name), Named(x, name));
    }
  }

  /** A single entry yields its value exactly when it has the name. */
  lemma GetAllSingle(e: (string, FormValue), name: string)
    ensures GetAll([e], name) == if e.0 == name then [e.1] else []
  {
    assert [e][..0] == [];
  }

  /** `formData.get(name)` seen through `typeof … === 'string'`: the first entry with that
      name decides. */
  function Get(form: Form, name: string): (f: Field)
    ensures f.Absent? <==> forall i :: 0 <= i < |form| ==> form[i].0 != name
    ensures !f.Absent? ==>
      exists i :: && 0 <= i < |form| && form[i].0 == name
                  && (forall k :: 0 <= k < i ==> form[k].0 != name)
                  && (f.Str? <==> form[i].1.TextValue?)
                  && (f.Str? ==> f.value == form[i].1.text)
    decreases |form|
  {
    if form == [] then Absent
    else if form[0].0 == name then (if form[0].1.TextValue? then Str(form[0].1.text) else NonString)
    else
      var f := Get(form[1..], name);
      assert forall i :: 1 <= i < |form| ==> form[1..][i - 1] == form[i];
      f
  }

  /** `uploadedItems.filter(item => item instanceof File)`. */
  function Uploads(vs: seq<FormValue>): (us: seq<Upload>)
    ensures |us| <= |vs|
    ensures forall u :: u in us <==> FileValue(u) in vs
    decreases |vs|
  {
    if vs == [] then []
    else
      var last := vs[|vs| - 1];
      assert vs == vs[..|vs| - 1] + [last];
      Uploads(vs[..|vs| - 1]) + UploadIn(last)
  }

  /** The upload one value contributes: the file itself, or nothing for a string. */
  function UploadIn(v: FormValue): seq<Upload>
  {
    if v.FileValue? then [v.upload] else []
  }

  /** The filter keeps the `File` values of two runs in order, repeats included. */
  lemma {:induction false} UploadsConcat(a: seq<FormValue>, b: seq<FormValue>)
    ensures Uploads(a + b) == Uploads(a) + Uploads(b)
    decreases |b|
  {
    if b == [] {
      assert a + b == a && Uploads(b) == [];
    } else {
      var b' := b[..|b| - 1];
      var x := b[|b| - 1];
      UploadsConcat(a, b');
      assert Uploads(a + b) == Uploads(a + b') + UploadIn(x) by {
        var ab := a + b;
        assert ab[..|ab| - 1] == a + b' && ab[|ab| - 1] == x;
      }
      assert Uploads(b) == Uploads(b') + UploadIn(x);
      AppendAssoc(Uploads(a), Uploads(b'), UploadIn(x));
    }
  }

  // ---------------------------------------------------------------------------
  // What one document contributes: an analysis, nothing (it is skipped), or the error that
  // ends the request.

  function FileAnalysis(u: Upload, model: string, svc: Services): Result<Parsed>
  {
    match svc.parseDocument(u.mimeType, u.bytes)
    case Err(m) => Err(m)
    case Ok(text) => svc.analyze(text, model)
  }

  function FileStep(model: string, svc: Services): Upload -> Result<Option<Parsed>>
  {
    u => match FileAnalysis(u, model, svc)
         case Err(m) => Err(m)
         case Ok(a) => Ok(Some(a))
  }

  /** A non-string entry and a reply that is not ok are skipped. */
  function UrlAnalysis(v: FormValue, model: string, svc: Services): Result<Option<Parsed>>
  {
    if !v.TextValue? then Ok(None)
    else
      match svc.fetch(v.text)
      case Err(m) => Err(m)
      case Ok(fetched) =>
        if !fetched.ok then Ok(None)
        else
          match ExtractText(v.text, fetched, svc)
          case Err(m) => Err(m)
          case Ok(text) =>
            match svc.analyze(text, model)
            case Err(m) => Err(m)
            case Ok(a) => Ok(Some(a))
  }

  function UrlStep(model: string, svc: Services): FormValue -> Result<Option<Parsed>>
  {
    v => UrlAnalysis(v, model, svc)
  }

  /** The analyses pushed while visiting `xs` in order, or the first error. */
  function Collect<T>(xs: seq<T>, step: T -> Result<Option<Parsed>>): Result<seq<Parsed>>
    decreases |xs|
  {
    if xs == [] then Ok([])
    else
      match Collect(xs[..|xs| - 1], step)
      case Err(m) => Err(m)
      case Ok(analyses) =>
        match step(xs[|xs| - 1])
        case Err(m) => Err(m)
        case Ok(None) => Ok(analyses)
        case Ok(Some(a)) => Ok(analyses + [a])
  }

  /** The file analyses followed by the URL analyses. */
  function Gathered(files: seq<Upload>, urls: seq<FormValue>, model: string, svc: Services): Result<seq<Parsed>>
  {
    match Collect(files, FileStep(model, svc))
    case Err(m) => Err(m)
    case Ok(fromFiles) =>
      match Collect(urls, UrlStep(model, svc))
      case Err(m) => Err(m)
      case Ok(fromUrls) => Ok(fromFiles + fromUrls)
  }

  /** The merge's `forEach` calls on the gathered replies: a missing array or a missing
      `contexts` throws; otherwise each reply is the analysis it carries. */
  function Shaped(replies: seq<Parsed>): (r: Result<seq<Analysis>>)
    ensures r.Ok? <==> forall i :: 0 <= i < |replies| ==> WellShaped(replies[i])
    ensures r.Err? ==> r.error == ForEachOfUndefined
    ensures r.Ok? ==> |r.value| == |replies| && forall i :: 0 <= i < |replies| ==> AsParsed(r.value[i]) == replies[i]
  {
    if forall i :: 0 <= i < |replies| ==> WellShaped(replies[i]) then
      Ok(seq(|replies|, i requires 0 <= i < |replies| => Filled(replies[i])))
    else Err(ForEachOfUndefined)
  }

  /** The route's response to a form. */
  function Respond(form: Form, svc: Services): Response
  {
    var files := Uploads(GetAll(form, "file"));
    if |files| == 0 then Response(400, ErrorBody(NoFiles))
    else
      match Gathered(files, GetAll(form, "url"), ChosenModel(Get(form, "model")), svc)
      case Err(m) => Failure(m)
      case Ok(replies) =>
        match Shaped(replies)
        case Err(m) => Failure(m)
        case Ok(analyses) => Response(200, GraphBody(Combined(analyses)))
  }

  /** The route's response to a request body, which `req.formData()` either reads as a form
      or rejects with a message. */
  function Answer(received: Result<Form>, svc: Services): (r: Response)
    ensures received.Err? ==> r == Failure(received.error)
    ensures received.Ok? ==> r == Respond(received.value, svc)
  {
    match received
    case Err(m) => Failure(m)
    case Ok(form) => Respond(form, svc)
  }

  // ---------------------------------------------------------------------------
  // The handler as written: loops that push onto `analyses`, any error ending the request.

  lemma CollectStep<T>(xs: seq<T>, i: nat, step: T -> Result<Option<Parsed>>)
    requires i < |xs|
    ensures Collect(xs[..i + 1], step) ==
      match Collect(xs[..i], step)
      case Err(m) => Err(m)
      case Ok(analyses) =>
        match step(xs[i])
        case Err(m) => Err(m)
        case Ok(None) => Ok(analyses)
        case Ok(Some(a)) => Ok(analyses + [a])
  {
    assert xs[..i + 1][..i] == xs[..i];
  }

  /** Once an error is met, the rest of the documents do not matter. */
  lemma {:induction false} CollectErrorStops<T>(xs: seq<T>, i: nat, step: T -> Result<Option<Parsed>>)
    requires i <= |xs| && Collect(xs[..i], step).Err?
    ensures Collect(xs, step) == Collect(xs[..i], step)
    decreases |xs| - i
  {
    if i < |xs| {
      CollectStep(xs, i, step);
      CollectErrorStops(xs, i + 1, step);
    } else {
      assert xs[..i] == xs;
    }
  }

  /** The loop over the uploads: each is parsed and analysed and its analysis pushed; the
      first error thrown ends the loop. */
  method CollectFiles(files: seq<Upload>, model: string, svc: Services) returns (r: Result<seq<Parsed>>)
    ensures r == Collect(files, FileStep(model, svc))
  {
    var analyses: seq<Parsed> := [];
    for i := 0 to |files|
      invariant Collect(files[..i], FileStep(model, svc)) == Ok(analyses)
    {
      CollectStep(files, i, FileStep(model, svc));
      var text := svc.parseDocument(files[i].mimeType, files[i].bytes);
      if text.Err? {
        CollectErrorStops(files, i + 1, FileStep(model, svc));
        return Err(text.error);
      }
      var a := svc.analyze(text.value, model);
      if a.Err? {
        CollectErrorStops(files, i + 1, FileStep(model, svc));
        return Err(a.error);
      }
      analyses := analyses + [a.value];
    }
    assert files[..|files|] == files;
    r := Ok(analyses);
  }

  /** The loop over the `url` entries, pushing onto `analyses`: entries that are not strings
      and replies that are not ok are skipped; the first error thrown ends the loop. */
  method CollectUrls(analyses: seq<Parsed>, entries: seq<FormValue>, model: string, svc: Services)
    returns (r: Result<seq<Parsed>>)
    ensures Collect(entries, UrlStep(model, svc)).Err? ==> r == Collect(entries, UrlStep(model, svc))
    ensures Collect(entries, UrlStep(model, svc)).Ok? ==> r == Ok(analyses + Collect(entries, UrlStep(model, svc)).value)
  {
    var all := analyses;
    ghost var fromUrls: seq<Parsed> := [];
    for j := 0 to |entries|
      invariant Collect(entries[..j], UrlStep(model, svc)) == Ok(fromUrls)
      invariant all == analyses + fromUrls
    {
      CollectStep(entries, j, UrlStep(model, svc));
      var u := entries[j];
      if !u.TextValue? {
        continue;
      }
      var fetched := svc.fetch(u.text);
      if fetched.Err? {
        CollectErrorStops(entries, j + 1, UrlStep(model, svc));
        return Err(fetched.error);
      }
      if !fetched.value.ok {
        continue;
      }
      var text := ExtractText(u.text, fetched.value, svc);
      if text.Err? {
        CollectErrorStops(entries, j + 1, UrlStep(model, svc));
        return Err(text.error);
      }
      var a := svc.analyze(text.value, model);
      if a.Err? {
        CollectErrorStops(entries, j + 1, UrlStep(model, svc));
        return Err(a.error);
      }
      all := all + [a.value];
      fromUrls := fromUrls + [a.value];
    }
    assert entries[..|entries|] == entries;
    r := Ok(all);
  }

  /** `POST /api/analyze`: reading the form, the checks, the two loops, the merge, and the
      `catch` that turns an error into a 500 response. */
  method Handle(received: Result<Form>, svc: Services) returns (resp: Response)
    ensures resp == Answer(received, svc)
  {
    if received.Err? {
      return Failure(received.error);
    }
    var form := received.value;
    var files := Uploads(GetAll(form, "file"));
    if |files| == 0 {
      return Response(400, ErrorBody(NoFiles));
    }
    var model := ChosenModel(Get(form, "model"));
    var collected := CollectFiles(files, model, svc);
    if collected.Err? {
      return Failure(collected.error);
    }
    collected := CollectUrls(collected.value, GetAll(form, "url"), model, svc);
    if collected.Err? {
      return Failure(collected.error);
    }
    var analyses := Shaped(collected.value);
    if analyses.Err? {
      return Failure(analyses.error);
    }
    var graph := Combine(analyses.value);
    resp := Response(200, GraphBody(graph));
  }

  // ---------------------------------------------------------------------------
  // Properties.

  /** Without an uploaded file the request is refused before anything is parsed, fetched or
      analysed. */
  lemma NoFilesFirst(form: Form, svc1: Services, svc2: Services)
    requires forall u :: FileValue(u) !in GetAll(form, "file")
    ensures Respond(form, svc1) == Respond(form, svc2) == Response(400, ErrorBody(NoFiles))
  {
    HeadIn(Uploads(GetAll(form, "file")));
  }

  /** The URLs that take a position: string entries whose reply is ok. */
  function UsableUrls(entries: seq<FormValue>, svc: Services): (us: seq<string>)
    ensures forall u :: u in us <==> TextValue(u) in entries && Reachable(svc, u)
  {
    var us := FlatMap(entries, UsableUrlOf(svc));
    assert forall u :: u in us <==> TextValue(u) in entries && Reachable(svc, u) by {
      forall u ensures u in us <==> TextValue(u) in entries && Reachable(svc, u) {
        FlatMapMembers(entries, UsableUrlOf(svc), u);
      }
    }
    us
  }

  /** The URL one entry contributes: its text when it is a string whose reply is ok. */
  function UsableUrl(v: FormValue, svc: Services): seq<string>
  {
    if v.TextValue? && Reachable(svc, v.text) then [v.text] else []
  }

  function UsableUrlOf(svc: Services): FormValue -> seq<string>
  {
    v => UsableUrl(v, svc)
  }

  /** The usable URLs of two runs of entries are those of the first run, then those of the
      second: form order and repeats are kept. */
  lemma UsableUrlsConcat(a: seq<FormValue>, b: seq<FormValue>, svc: Services)
    ensures UsableUrls(a + b, svc) == UsableUrls(a, svc) + UsableUrls(b, svc)
  {
    FlatMapConcat(a, b, UsableUrlOf(svc));
  }

  /** The analyses of the files are, position by position, those of the uploads. */
  lemma {:induction false} FilePositions(files: seq<Upload>, model: string, svc: Services)
    requires Collect(files, FileStep(model, svc)).Ok?
    ensures var analyses := Collect(files, FileStep(model, svc)).value;
      && |analyses| == |files|
      && forall i :: 0 <= i < |files| ==> FileAnalysis(files[i], model, svc) == Ok(analyses[i])
    decreases |files|
  {
    if files != [] {
      var p := files[..|files| - 1];
      FilePositions(p, model, svc);
      assert forall i :: 0 <= i < |p| ==> files[i] == p[i];
    }
  }

  /** The analyses of the URLs are, position by position, those of the usable URLs: a
      skipped entry takes no position. */
  lemma {:induction false} UrlPositions(entries: seq<FormValue>, model: string, svc: Services)
    requires Collect(entries, UrlStep(model, svc)).Ok?
    ensures var analyses := Collect(entries, UrlStep(model, svc)).value;
      var usable := UsableUrls(entries, svc);
      && |analyses| == |usable|
      && forall j :: 0 <= j < |usable| ==> UrlAnalysis(TextValue(usable[j]), model, svc) == Ok(Some(analyses[j]))
    decreases |entries|
  {
    if entries != [] {
      var p := entries[..|entries| - 1];
      UrlPositions(p, model, svc);
    }
  }

  /** `analyses` are the analyses of `files`, position by position, followed by those of the
      `usable` URLs, position by position. */
  predicate InUploadOrder(analyses: seq<Parsed>, files: seq<Upload>, usable: seq<string>, model: string, svc: Services)
  {
    && |analyses| == |files| + |usable|
    && (forall i :: 0 <= i < |files| ==> FileAnalysis(files[i], model, svc) == Ok(analyses[i]))
    && (forall j :: 0 <= j < |usable| ==> UrlAnalysis(TextValue(usable[j]), model, svc) == Ok(Some(analyses[|files| + j])))
  }

  /** On success every reply was well shaped, and the merged analyses are the files' in
      upload order, then the usable URLs' in form order. */
  lemma Provenance(form: Form, svc: Services)
    requires Respond(form, svc).status == 200
    ensures var files := Uploads(GetAll(form, "file"));
      var model := ChosenModel(Get(form, "model"));
      var g := Gathered(files, GetAll(form, "url"), model, svc);
      && g.Ok? && Shaped(g.value).Ok?
      && Respond(form, svc).body == GraphBody(Combined(Shaped(g.value).value))
      && InUploadOrder(g.value, files, UsableUrls(GetAll(form, "url"), svc), model, svc)
  {
    var files := Uploads(GetAll(form, "file"));
    var model := ChosenModel(Get(form, "model"));
    GatheredPositions(files, GetAll(form, "url"), model, svc);
  }

  /** The gathered analyses are the files' by position, then the usable URLs' by position. */
  lemma GatheredPositions(files: seq<Upload>, urls: seq<FormValue>, model: string, svc: Services)
    requires Gathered(files, urls, model, svc).Ok?
    ensures InUploadOrder(Gathered(files, urls, model, svc).value, files, UsableUrls(urls, svc), model, svc)
  {
    FilePositions(files, model, svc);
    UrlPositions(urls, model, svc);
    var fromFiles := Collect(files, FileStep(model, svc)).value;
    var fromUrls := Collect(urls, UrlStep(model, svc)).value;
    assert Gathered(files, urls, model, svc).value == fromFiles + fromUrls;
    ConcatInUploadOrder(fromFiles, fromUrls, files, UsableUrls(urls, svc), model, svc);
  }

  lemma ConcatInUploadOrder(fromFiles: seq<Parsed>, fromUrls: seq<Parsed>, files: seq<Upload>, usable: seq<string>,
                            model: string, svc: Services)
    requires |fromFiles| == |files|
    requires forall i :: 0 <= i < |files| ==> FileAnalysis(files[i], model, svc) == Ok(fromFiles[i])
    requires |fromUrls| == |usable|
    requires forall j :: 0 <= j < |usable| ==> UrlAnalysis(TextValue(usable[j]), model, svc) == Ok(Some(fromUrls[j]))
    ensures InUploadOrder(fromFiles + fromUrls, files, usable, model, svc)
  {
    var all := fromFiles + fromUrls;
    assert all[..|files|] == fromFiles && all[|files|..] == fromUrls;
    forall i | 0 <= i < |files| ensures FileAnalysis(files[i], model, svc) == Ok(all[i]) {
      assert all[i] == all[..|files|][i];
    }
    forall j | 0 <= j < |usable| ensures UrlAnalysis(TextValue(usable[j]), model, svc) == Ok(Some(all[|files| + j])) {
      assert all[|files| + j] == all[|files|..][j];
    }
  }

  // ---------------------------------------------------------------------------
  // A malformed reply. The merge reads `topics`, `entities`, every entity's `contexts` and
  // `relationships` without checking them, so one reply missing any of them ends the whole
  // request with a `TypeError`, losing every other document's analysis.

  /** As written: once every document is analysed, a single reply that is not well shaped
      turns the request into a 500, whatever the other replies hold. */
  lemma MalformedReplyFailsRequest(form: Form, svc: Services, k: nat)
    requires Uploads(GetAll(form, "file")) != []
    requires var g := Gathered(Uploads(GetAll(form, "file")), GetAll(form, "url"), ChosenModel(Get(form, "model")), svc);
      g.Ok? && k < |g.value| && !WellShaped(g.value[k])
    ensures Respond(form, svc) == Failure(ForEachOfUndefined)
    ensures Respond(form, svc).status == 500
    ensures RespondIntended(form, svc).status == 200
  {
  }

  /** A reply as the merge is meant to take it: a missing `contexts` read as empty, and a
      reply missing one of its arrays skipped while it keeps its position. */
  function Tolerated(p: Parsed): (a: Analysis)
    ensures WellShaped(p) ==> AsParsed(a) == p
    ensures !HasArrays(p) ==> a == Analysis([], [], [])
    ensures HasArrays(p) ==> a.topics == p.topics.value && a.relationships == p.relationships.value
  {
    if HasArrays(p) then Filled(p) else Analysis([], [], [])
  }

  function AllTolerated(replies: seq<Parsed>): (analyses: seq<Analysis>)
    ensures |analyses| == |replies|
    ensures forall i :: 0 <= i < |replies| ==> analyses[i] == Tolerated(replies[i])
  {
    seq(|replies|, i requires 0 <= i < |replies| => Tolerated(replies[i]))
  }

  /** The route as its design describes it: once every document is analysed, the merge
      always succeeds. */
  function RespondIntended(form: Form, svc: Services): (r: Response)
    ensures r.status == 200 <==>
      Uploads(GetAll(form, "file")) != []
      && Gathered(Uploads(GetAll(form, "file")), GetAll(form, "url"), ChosenModel(Get(form, "model")), svc).Ok?
  {
    var files := Uploads(GetAll(form, "file"));
    if |files| == 0 then Response(400, ErrorBody(NoFiles))
    else
      match Gathered(files, GetAll(form, "url"), ChosenModel(Get(form, "model")), svc)
      case Err(m) => Failure(m)
      case Ok(replies) => Response(200, GraphBody(Combined(AllTolerated(replies))))
  }

  /** When every reply is well shaped, the intended route answers as the code does. */
  lemma IntendedAgreesOnWellShaped(form: Form, svc: Services)
    requires var g := Gathered(Uploads(GetAll(form, "file")), GetAll(form, "url"), ChosenModel(Get(form, "model")), svc);
      g.Ok? ==> forall i :: 0 <= i < |g.value| ==> WellShaped(g.value[i])
    ensures RespondIntended(form, svc) == Respond(form, svc)
  {
    var files := Uploads(GetAll(form, "file"));
    var g := Gathered(files, GetAll(form, "url"), ChosenModel(Get(form, "model")), svc);
    if |files| > 0 && g.Ok? {
      var shaped := Shaped(g.value).value;
      forall i | 0 <= i < |g.value| ensures AllTolerated(g.value)[i] == shaped[i] {
        FilledAsParsed(shaped[i]);
      }
      assert AllTolerated(g.value) == shaped;
    }
  }

  /** In the intended route a reply without its arrays is skipped: its position is listed in
      no `files` of the merged graph, and the other positions are unchanged. */
  lemma IntendedSkipsMalformed(form: Form, svc: Services, k: nat)
    requires Uploads(GetAll(form, "file")) != []
    requires var g := Gathered(Uploads(GetAll(form, "file")), GetAll(form, "url"), ChosenModel(Get(form, "model")), svc);
      g.Ok? && k < |g.value| && !HasArrays(g.value[k])
    ensures RespondIntended(form, svc).status == 200
    ensures var graph := RespondIntended(form, svc).body.graph;
      && (forall t :: t in graph.topics ==> k !in t.files)
      && (forall e :: e in graph.entities ==> k !in e.files)
      && (forall r :: r in graph.relationships ==> k !in r.files)
  {
    var g := Gathered(Uploads(GetAll(form, "file")), GetAll(form, "url"), ChosenModel(Get(form, "model")), svc);
    SkippedReplyListedNowhere(AllTolerated(g.value), k);
  }
}
