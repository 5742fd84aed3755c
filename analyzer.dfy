/** `analyzeDocument`: the checks around the language-model call and the sanitising of its
    reply into the JSON text that is parsed as the per-document analysis. The request itself
    is not modelled; its reply is an input. */
module Analyzer {
  import opened Results
  import opened JsText
  import opened KnowledgeGraph

  const MissingKeyMessage := "Missing OPENROUTER_API_KEY in environment"
  const ApiErrorPrefix := "OpenRouter API error: "
  const ParseErrorPrefix := "Failed to parse JSON from AI response: "

  /** The `TypeError` message of the Node.js runtime for `content?.trim()` on a value that is
      neither a string nor `null`/`undefined`. */
  const TrimNotAFunction := "content?.trim is not a function"

  /** `message.content` as the reply can carry it: missing, `null`, a string, or another
      value, held as the text string concatenation renders it as. */
  datatype Content = Undefined | Null | Text(text: string) | Other(rendered: string)

  /** `choices[i].message`, which may be missing. */
  datatype Message = Message(content: Content)
  datatype Choice = Choice(message: Option<Message>)

  /** What the analyzer reads of the HTTP reply: its `ok` flag, its body as text (read only
      when not ok), and `choices` when the parsed body holds an array there. */
  datatype Reply = Reply(ok: bool, errorText: string, choices: Option<seq<Choice>>)

  /** `Array.isArray(data.choices) && data.choices.length > 0 ? data.choices[0].message?.content : undefined`. */
  function SelectContent(choices: Option<seq<Choice>>): (content: Content)
    ensures !content.Undefined? ==>
      choices.Some? && |choices.value| > 0 && choices.value[0].message.Some?
      && content == choices.value[0].message.value.content
    ensures choices.Some? && |choices.value| > 0 && choices.value[0].message.Some? ==>
      content == choices.value[0].message.value.content
  {
    if choices.Some? && |choices.value| > 0 then
      match choices.value[0].message
      case None => Undefined
      case Some(m) => m.content
    else Undefined
  }

  /** `content?.trim() || ''`: the optional call yields `undefined` for `null` and `undefined`,
      and throws on a value that has no `trim` method. */
  function RawText(content: Content): (raw: Result<string>)
    ensures raw.Err? <==> content.Other?
    ensures raw.Err? ==> raw.error == TrimNotAFunction
    ensures content.Undefined? || content.Null? ==> raw == Ok([])
    ensures content.Text? ==> raw == Ok(Trim(content.text))
  {
    match content
    case Undefined => Ok("")
    case Null => Ok("")
    case Text(c) => Ok(Trim(c))
    case Other(_) => Err(TrimNotAFunction)
  }

  /** The value of `content` as string concatenation renders it. */
  function Shown(content: Content): string
  {
    match content
    case Undefined => "undefined"
    case Null => "null"
    case Text(c) => c
    case Other(r) => r
  }

  /** The match of `/\{[\s\S]*\}$/` that a scan from index `i` finds: the regular-expression
      engine tries each start in turn, and at a `{` the greedy `[\s\S]*` followed by `\}$`
      succeeds exactly when a `}` ends the text after it. */
  function MatchFrom(raw: string, i: nat): (m: Option<string>)
    ensures m.Some? ==> i < |raw| && raw[|raw| - 1] == '}'
    decreases |raw| - i
  {
    if i >= |raw| then None
    else if raw[i] == '{' && i < |raw| - 1 && raw[|raw| - 1] == '}' then Some(raw[i..])
    else MatchFrom(raw, i + 1)
  }

  /** `matched ? matched[0] : raw`. */
  function JsonCandidate(raw: string): (json: string)
  {
    match MatchFrom(raw, 0)
    case Some(m) => m
    case None => raw
  }

  /** The index of the first `{`. */
  function FirstBrace(raw: string): (i: nat)
    requires '{' in raw
    ensures i < |raw| && raw[i] == '{' && forall k :: 0 <= k < i ==> raw[k] != '{'
  {
    if raw[0] == '{' then 0
    else
      assert '{' in raw[1..] by {
        var j :| 0 <= j < |raw| && raw[j] == '{';
        assert raw[1..][j - 1] == '{';
      }
      1 + FirstBrace(raw[1..])
  }

  /** Before the first `{` the scan finds nothing. */
  lemma {:induction false} MatchFromSkip(raw: string, i: nat)
    requires '{' in raw && i <= FirstBrace(raw)
    ensures MatchFrom(raw, i) == MatchFrom(raw, FirstBrace(raw))
    decreases FirstBrace(raw) - i
  {
    if i < FirstBrace(raw) {
      MatchFromSkip(raw, i + 1);
    }
  }

  /** With no `{` from `i` on, the scan finds nothing. */
  lemma {:induction false} MatchFromNone(raw: string, i: nat)
    requires forall k :: i <= k < |raw| ==> raw[k] != '{'
    ensures MatchFrom(raw, i).None?
    decreases |raw| - i
  {
    if i < |raw| {
      MatchFromNone(raw, i + 1);
    }
  }

  /** The JSON candidate is the text from its first `{` on when the text has a `{` and ends
      with `}`, and the whole text otherwise; either way a suffix of the text, which starts
      with `{` and ends with `}` whenever the pattern matched. */
  lemma JsonCandidateSpec(raw: string)
    ensures '{' in raw && raw[|raw| - 1] == '}' ==> JsonCandidate(raw) == raw[FirstBrace(raw)..]
    ensures !('{' in raw && raw[|raw| - 1] == '}') ==> JsonCandidate(raw) == raw
    ensures |JsonCandidate(raw)| <= |raw| && JsonCandidate(raw) == raw[|raw| - |JsonCandidate(raw)|..]
    ensures MatchFrom(raw, 0).Some? ==>
      var j := JsonCandidate(raw);
      |j| >= 2 && j[0] == '{' && j[|j| - 1] == '}'
  {
    if '{' in raw {
      MatchFromSkip(raw, 0);
    } else {
      MatchFromNone(raw, 0);
    }
  }

  /** The `try` block: trim the content, cut out the JSON candidate, parse it. */
  function Attempt(content: Content, parse: string -> Result<Parsed>): Result<Parsed>
  {
    match RawText(content)
    case Err(e) => Err(e)
    case Ok(raw) => parse(JsonCandidate(raw))
  }

  /** `analyzeDocument(text, model)` for a given API key and reply, with `parse` standing for
      `JSON.parse` (an error carries the parser's message). */
  function Analyze(apiKey: Option<string>, reply: Reply, parse: string -> Result<Parsed>): (r: Result<Parsed>)
    ensures r.Ok? <==> apiKey.Some? && apiKey.value != "" && reply.ok
                       && Attempt(SelectContent(reply.choices), parse).Ok?
    ensures r.Ok? ==> r == Attempt(SelectContent(reply.choices), parse)
    ensures r.Err? ==> r.error == MissingKeyMessage || StartsWith(r.error, ApiErrorPrefix) || StartsWith(r.error, ParseErrorPrefix)
    ensures apiKey.Some? && apiKey.value != "" && !reply.ok ==> r == Err(ApiErrorPrefix + reply.errorText)
  {
    if apiKey.None? || apiKey.value == "" then Err(MissingKeyMessage)
    else if !reply.ok then
      assert (ApiErrorPrefix + reply.errorText)[..|ApiErrorPrefix|] == ApiErrorPrefix;
      Err(ApiErrorPrefix + reply.errorText)
    else
      var content := SelectContent(reply.choices);
      match Attempt(content, parse)
      case Ok(a) => Ok(a)
      case Err(e) =>
        StartsWithAppend(ParseErrorPrefix, e + ". Response was: " + Shown(content));
        Err(ParseFailure(e, content))
  }

  /** `"Failed to parse JSON from AI response: " + err.message + ". Response was: " + content`. */
  function ParseFailure(e: string, content: Content): string
  {
    (ParseErrorPrefix + e) + (". Response was: " + Shown(content))
  }

  /** Without an API key the reply is never consulted: the outcome is the same error
      whatever the service would have answered. */
  lemma MissingKeyBeforeRequest(apiKey: Option<string>, r1: Reply, r2: Reply, p1: string -> Result<Parsed>, p2: string -> Result<Parsed>)
    requires apiKey.None? || apiKey == Some("")
    ensures Analyze(apiKey, r1, p1) == Analyze(apiKey, r2, p2) == Err(MissingKeyMessage)
  {
  }

  /** A failure inside the `try` block reports the failure's message and the reply's content,
      rendered as concatenation renders it: `null` and `undefined` by name. */
  lemma ParseErrorNamesContent(apiKey: string, reply: Reply, parse: string -> Result<Parsed>)
    requires apiKey != "" && reply.ok
    requires Attempt(SelectContent(reply.choices), parse).Err?
    ensures Analyze(Some(apiKey), reply, parse).Err?
    ensures var msg := Analyze(Some(apiKey), reply, parse).error;
      var content := SelectContent(reply.choices);
      && StartsWith(msg, ParseErrorPrefix + Attempt(content, parse).error)
      && EndsWith(msg, ". Response was: " + Shown(content))
      && (content.Null? ==> EndsWith(msg, ". Response was: null"))
      && (content.Undefined? ==> EndsWith(msg, ". Response was: undefined"))
      && (content.Text? ==> EndsWith(msg, ". Response was: " + content.text))
  {
    var content := SelectContent(reply.choices);
    var head := ParseErrorPrefix + Attempt(content, parse).error;
    var tail := ". Response was: " + Shown(content);
    StartsWithAppend(head, tail);
    EndsWithAppend(head, tail);
  }

  /** Content that is neither a string nor `null`/`undefined` fails before anything is parsed:
      the outcome does not depend on the parser, and the message names the `TypeError`. */
  lemma NonStringContentFails(apiKey: string, reply: Reply, p1: string -> Result<Parsed>, p2: string -> Result<Parsed>)
    requires apiKey != "" && reply.ok && SelectContent(reply.choices).Other?
    ensures Analyze(Some(apiKey), reply, p1) == Analyze(Some(apiKey), reply, p2)
    ensures Analyze(Some(apiKey), reply, p1).Err?
    ensures StartsWith(Analyze(Some(apiKey), reply, p1).error, ParseErrorPrefix + TrimNotAFunction)
  {
    var head := ParseErrorPrefix + TrimNotAFunction;
    var tail := ". Response was: " + Shown(SelectContent(reply.choices));
    StartsWithAppend(head, tail);
  }
}
