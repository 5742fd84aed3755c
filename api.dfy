/** What the two analysis routes share: the JSON response, the collaborators they call
    (HTTP fetch, document parsing, UTF-8 decoding, the per-document analysis) as given
    functions, the model selection and the error message of the catch-all handler. */
module Api {
  import opened Results
  import opened KnowledgeGraph

  /** A JSON response body: either `{ error }` or the combined graph. */
  datatype Body = ErrorBody(error: string) | GraphBody(graph: CombinedGraph)
  datatype Response = Response(status: nat, body: Body)

  /** What `fetch` resolves to: the `ok` flag, the status, the `content-type` header if
      present, and the body bytes. */
  datatype Fetched = Fetched(ok: bool, status: nat, contentType: Option<string>, bytes: seq<bv8>)

  /** The collaborators, each either returning a value or throwing an error with a message:
      `fetch(url)`, `parseDocument(mimeType, buffer)`, `buffer.toString('utf-8')` and
      `analyzeDocument(text, model)`. */
  datatype Services = Services(
    fetch: string -> Result<Fetched>,
    parseDocument: (string, seq<bv8>) -> Result<string>,
    decodeUtf8: seq<bv8> -> string,
    analyze: (string, string) -> Result<Parsed>)

  /** Fetching `url` succeeds with an ok reply (a status from 200 to 299). */
  predicate Reachable(svc: Services, url: string)
  {
    svc.fetch(url).Ok? && svc.fetch(url).value.ok
  }

  /** A form or JSON field: absent, a string, or some other value. */
  datatype Field = Absent | Str(value: string) | NonString

  const DefaultModel := "openai/o4-mini"
  const InternalError := "Internal error"

  /** The `TypeError` messages of the Node.js runtime the routes declare, for `forEach` and
      `map` called on a missing array. */
  const ForEachOfUndefined := "Cannot read properties of undefined (reading 'forEach')"
  const MapOfUndefined := "Cannot read properties of undefined (reading 'map')"

  /** `typeof model === 'string' ? model : 'openai/o4-mini'`. */
  function ChosenModel(model: Field): (m: string)
    ensures model.Str? ==> m == model.value
    ensures !model.Str? ==> m == DefaultModel
  {
    if model.Str? then model.value else DefaultModel
  }

  /** The catch-all handler's response: status 500 with `err.message || 'Internal error'`. */
  function Failure(message: string): (r: Response)
    ensures r.status == 500 && r.body.ErrorBody?
    ensures message != "" ==> r.body.error == message
    ensures message == "" ==> r.body.error == InternalError
  {
    Response(500, ErrorBody(if message == "" then InternalError else message))
  }

  // ---------------------------------------------------------------------------
  // `${n}` for a non-negative integer.

  function DigitChar(d: nat): (c: char)
    requires d < 10
    ensures '0' <= c <= '9' && c as int - '0' as int == d
  {
    ('0' as int + d) as char
  }

  /** The decimal rendering of `n`, without leading zeros. */
  function Decimal(n: nat): (s: string)
    ensures |s| >= 1
    ensures forall i :: 0 <= i < |s| ==> '0' <= s[i] <= '9'
    ensures s[0] == '0' ==> n == 0
    decreases n
  {
    if n < 10 then [DigitChar(n)] else Decimal(n / 10) + [DigitChar(n % 10)]
  }

  /** The number a string of decimal digits denotes. */
  function DecimalValue(s: string): nat
    requires forall i :: 0 <= i < |s| ==> '0' <= s[i] <= '9'
    decreases |s|
  {
    if s == [] then 0
    else 10 * DecimalValue(s[..|s| - 1]) + (s[|s| - 1] as int - '0' as int)
  }

  /** Reading the rendering back gives the number: the message carries the status exactly. */
  lemma {:induction false} DecimalRoundTrip(n: nat)
    ensures DecimalValue(Decimal(n)) == n
    decreases n
  {
    if n >= 10 {
      DecimalRoundTrip(n / 10);
      var s := Decimal(n);
      assert s[..|s| - 1] == Decimal(n / 10);
    }
  }
}
