/** The values that flow through the pipeline: one analysis per source document as the
    extraction service returns it, and the combined graph the aggregator builds, where
    every item lists the provenance indices (`files`) of the documents it came from.
    A field the source calls `type` is called `kind` here (`type` is a Dafny keyword). */
module KnowledgeGraph {
  import opened Results

  /** One sentence in which an entity occurs, with its optional section title. */
  datatype Context = Context(sentence: string, section: Option<string>)

  datatype RawEntity = RawEntity(name: string, kind: string, definition: string, contexts: seq<Context>)

  datatype RawRelationship = RawRelationship(source: string, target: string, kind: string)

  /** What the extraction service returns for one document. */
  datatype Analysis = Analysis(topics: seq<string>, entities: seq<RawEntity>, relationships: seq<RawRelationship>)

  datatype Topic = Topic(name: string, files: seq<nat>)

  datatype Entity = Entity(name: string, kind: string, files: seq<nat>, definition: string, contexts: seq<Context>)

  datatype Relationship = Relationship(source: string, target: string, kind: string, files: seq<nat>)

  /** The body of a successful analysis response. */
  datatype CombinedGraph = CombinedGraph(topics: seq<Topic>, entities: seq<Entity>, relationships: seq<Relationship>)

  // ---------------------------------------------------------------------------
  // A reply as `JSON.parse` leaves it. Nothing checks its shape: each of the three arrays,
  // and each entity's `contexts`, may be missing (`undefined`).

  datatype ParsedEntity = ParsedEntity(name: string, kind: string, definition: string, contexts: Option<seq<Context>>)

  datatype Parsed = Parsed(topics: Option<seq<string>>, entities: Option<seq<ParsedEntity>>, relationships: Option<seq<RawRelationship>>)

  /** The reply has its three arrays. */
  predicate HasArrays(p: Parsed)
  {
    p.topics.Some? && p.entities.Some? && p.relationships.Some?
  }

  /** The reply has its three arrays and every entity has its contexts. */
  predicate WellShaped(p: Parsed)
  {
    HasArrays(p) && forall e :: e in p.entities.value ==> e.contexts.Some?
  }

  /** The reply that carries exactly the analysis `a`. */
  function AsParsed(a: Analysis): (p: Parsed)
    ensures WellShaped(p)
    ensures p.topics == Some(a.topics) && p.relationships == Some(a.relationships)
    ensures |p.entities.value| == |a.entities|
    ensures forall i :: 0 <= i < |a.entities| ==>
      var e := a.entities[i];
      p.entities.value[i] == ParsedEntity(e.name, e.kind, e.definition, Some(e.contexts))
  {
    Parsed(Some(a.topics),
      Some(seq(|a.entities|, i requires 0 <= i < |a.entities| =>
        var e := a.entities[i];
        ParsedEntity(e.name, e.kind, e.definition, Some(e.contexts)))),
      Some(a.relationships))
  }

  /** The analysis a reply with its three arrays stands for, a missing `contexts` read as
      empty. */
  function Filled(p: Parsed): (a: Analysis)
    requires HasArrays(p)
    ensures WellShaped(p) ==> AsParsed(a) == p
    ensures a.topics == p.topics.value && a.relationships == p.relationships.value
    ensures |a.entities| == |p.entities.value|
    ensures forall i :: 0 <= i < |a.entities| ==>
      var e := p.entities.value[i];
      && a.entities[i].name == e.name && a.entities[i].kind == e.kind
      && a.entities[i].definition == e.definition
      && (e.contexts.Some? ==> a.entities[i].contexts == e.contexts.value)
      && (e.contexts.None? ==> a.entities[i].contexts == [])
  {
    var es := p.entities.value;
    var a := Analysis(p.topics.value,
      seq(|es|, i requires 0 <= i < |es| =>
        var e := es[i];
        RawEntity(e.name, e.kind, e.definition, if e.contexts.Some? then e.contexts.value else [])),
      p.relationships.value);
    assert WellShaped(p) ==> AsParsed(a).entities.value == es by {
      if WellShaped(p) {
        forall i | 0 <= i < |es| ensures AsParsed(a).entities.value[i] == es[i] {
          assert es[i] in es;
        }
      }
    }
    a
  }

  /** Reading back the reply that carries an analysis gives that analysis. */
  lemma FilledAsParsed(a: Analysis)
    ensures Filled(AsParsed(a)) == a
  {
    var b := Filled(AsParsed(a));
    assert b.entities == a.entities;
  }
}
