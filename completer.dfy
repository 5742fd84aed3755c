/** `processData` of the network view: before the graph is drawn, every name a relationship
    mentions but no entity carries gets a placeholder entity, so that every link has both of
    its nodes. */
module Completer {
  import opened Ordered
  import opened KnowledgeGraph

  /** An entity of the view: one from the combined graph, or a placeholder that carries only
      a name and a type. */
  datatype Node = Given(entity: Entity) | Placeholder(name: string, kind: string)
  {
    function Name(): string
    {
      if Given? then entity.name else name
    }

    function Kind(): string
    {
      if Given? then entity.kind else kind
    }
  }

  /** What the view draws: its entities and its relationships. */
  datatype GraphData = GraphData(entities: seq<Node>, relationships: seq<Relationship>)

  /** `new Set(entities.map(entity => entity.name))`. */
  function NameSet(nodes: seq<Node>): set<string>
  {
    set i | 0 <= i < |nodes| :: nodes[i].Name()
  }

  /** The names in the order the scan meets them: source, then target, per relationship. */
  function Endpoints(rels: seq<Relationship>): (e: seq<string>)
    ensures |e| == 2 * |rels|
    ensures forall i :: 0 <= i < |rels| ==> e[2 * i] == rels[i].source && e[2 * i + 1] == rels[i].target
    decreases |rels|
  {
    if rels == [] then []
    else
      var r := rels[|rels| - 1];
      Endpoints(rels[..|rels| - 1]) + [r.source, r.target]
  }

  /** `allReferencedNodes`: the set the scan builds, in insertion order. */
  function Referenced(rels: seq<Relationship>): seq<string>
  {
    Dedup(Endpoints(rels))
  }

  /** `node => !entityNames.has(node)`. */
  function NotIn(names: set<string>): string -> bool
  {
    n => n !in names
  }

  /** `missingNodes`. */
  function Missing(d: GraphData): seq<string>
  {
    Filter(Referenced(d.relationships), NotIn(NameSet(d.entities)))
  }

  // ---------------------------------------------------------------------------
  // The type of a placeholder.

  /** `entityTypeMap`: the nine names with a type of their own. */
  const TypeTable: map<string, string> := map[
    "Blockchain" := "data structure",
    "Network" := "infrastructure",
    "Consensus" := "protocol mechanism",
    "Incentive (block reward)" := "protocol mechanism",
    "Disk pruning" := "technique",
    "Simplified Payment Verification" := "technique",
    "Block headers" := "data structure",
    "Privacy" := "concept",
    "Public keys" := "cryptographic primitive"
  ]

  const DefaultKind := "concept"

  /** The type a placeholder for `name` gets: its table entry, else `"concept"`. This is the
      lookup restricted to the table's own entries (see `ClassifyAsWritten`). */
  function Classify(name: string): (t: string)
    ensures name in TypeTable ==> t == TypeTable[name]
    ensures name !in TypeTable ==> t == DefaultKind
  {
    if name in TypeTable then TypeTable[name] else DefaultKind
  }

  /** Every type a placeholder can get is one of the table's five values or `concept`. */
  lemma ClassifyRange(name: string)
    ensures Classify(name) in {"data structure", "infrastructure", "protocol mechanism", "technique",
                               "cryptographic primitive", "concept"}
  {
  }

  /** A JavaScript value, as far as the property lookup can return one. */
  datatype JsValue = JsUndefined | JsString(s: string) | JsFunction(property: string) | JsObject

  /** The properties every plain object literal inherits from `Object.prototype`. All are
      functions except `__proto__`, whose value is `Object.prototype` itself. */
  const InheritedNames: set<string> := {
    "constructor", "hasOwnProperty", "isPrototypeOf", "propertyIsEnumerable", "toLocaleString",
    "toString", "valueOf", "__defineGetter__", "__defineSetter__", "__lookupGetter__",
    "__lookupSetter__", "__proto__"
  }

  /** `entityTypeMap[node]` on the object literal: own entries first, then inherited ones. */
  function LookupAsWritten(name: string): (v: JsValue)
    ensures name in TypeTable ==> v == JsString(TypeTable[name])
    ensures name !in TypeTable && name !in InheritedNames ==> v == JsUndefined
  {
    if name in TypeTable then JsString(TypeTable[name])
    else if name == "__proto__" then JsObject
    else if name in InheritedNames then JsFunction(name)
    else JsUndefined
  }

  /** JavaScript truthiness of the values above. */
  predicate Truthy(v: JsValue)
  {
    match v
    case JsUndefined => false
    case JsString(s) => s != ""
    case JsFunction(_) => true
    case JsObject => true
  }

  /** `entityTypeMap[node] || "concept"` as the code evaluates it. */
  function ClassifyAsWritten(name: string): (v: JsValue)
  {
    var found := LookupAsWritten(name);
    if Truthy(found) then found else JsString(DefaultKind)
  }

  /** A relationship endpoint named `constructor`, `toString` or `__proto__` gets a function
      or an object as its type instead of `"concept"`. */
  lemma ClassifyAsWrittenInheritedType()
    ensures ClassifyAsWritten("constructor") == JsFunction("constructor")
    ensures ClassifyAsWritten("toString") == JsFunction("toString")
    ensures ClassifyAsWritten("__proto__") == JsObject
    ensures Classify("constructor") == Classify("toString") == Classify("__proto__") == DefaultKind
  {
  }

  /** For every other name the code's lookup and `Classify` agree, and the result is a string. */
  lemma ClassifyAgrees(name: string)
    requires name !in InheritedNames
    ensures ClassifyAsWritten(name) == JsString(Classify(name))
  {
  }

  // ---------------------------------------------------------------------------
  // The completed graph.

  /** One placeholder per missing name, typed by `Classify`. */
  function Placeholders(names: seq<string>): (ps: seq<Node>)
    ensures |ps| == |names|
    ensures forall i :: 0 <= i < |names| ==> ps[i] == Placeholder(names[i], Classify(names[i]))
  {
    seq(|names|, i requires 0 <= i < |names| => Placeholder(names[i], Classify(names[i])))
  }

  /** What `processData` returns: the entities, then a placeholder for each missing name; the
      relationships as they were. */
  function Completed(d: GraphData): GraphData
  {
    GraphData(d.entities + Placeholders(Missing(d)), d.relationships)
  }

  /** `processData(rawData)`. The deep copy is a value here: the caller's data is not
      changed. */
  method ProcessData(raw: GraphData) returns (processed: GraphData)
    ensures processed == Completed(raw)
  {
    var entities := raw.entities;
    var relationships := raw.relationships;
    var entityNames := NameSet(entities);
    var referenced := ScanReferenced(relationships);
    var missing := Filter(referenced, NotIn(entityNames));
    for i := 0 to |missing|
      invariant entities == raw.entities + Placeholders(missing[..i])
    {
      PlaceholdersStep(missing, i);
      entities := entities + [Placeholder(missing[i], Classify(missing[i]))];
    }
    assert missing[..|missing|] == missing;
    processed := GraphData(entities, relationships);
  }

  /** The scan over the relationships that adds each source, then each target, to
      `allReferencedNodes`. */
  method ScanReferenced(relationships: seq<Relationship>) returns (referenced: seq<string>)
    ensures referenced == Referenced(relationships)
  {
    referenced := [];
    for i := 0 to |relationships|
      invariant referenced == Dedup(Endpoints(relationships[..i]))
    {
      var rel := relationships[i];
      ReferencedStep(relationships, i);
      referenced := SetAdd(referenced, rel.source);
      referenced := SetAdd(referenced, rel.target);
    }
    assert relationships[..|relationships|] == relationships;
  }

  lemma PlaceholdersStep(names: seq<string>, i: nat)
    requires i < |names|
    ensures Placeholders(names[..i + 1]) == Placeholders(names[..i]) + [Placeholder(names[i], Classify(names[i]))]
  {
  }

  /** One more relationship adds its source, then its target, to the referenced names. */
  lemma ReferencedStep(rels: seq<Relationship>, i: nat)
    requires i < |rels|
    ensures Dedup(Endpoints(rels[..i + 1])) == SetAdd(SetAdd(Dedup(Endpoints(rels[..i])), rels[i].source), rels[i].target)
  {
    var e := Endpoints(rels[..i]);
    assert rels[..i + 1][..i] == rels[..i];
    assert Endpoints(rels[..i + 1]) == (e + [rels[i].source]) + [rels[i].target];
    DedupSnoc(e + [rels[i].source], rels[i].target);
    DedupSnoc(e, rels[i].source);
  }

  // ---------------------------------------------------------------------------
  // Properties.

  /** A name is in the endpoint stream exactly when some relationship has it as its source
      or its target. */
  lemma {:induction false} EndpointsMembers(rels: seq<Relationship>, n: string)
    ensures n in Endpoints(rels) <==> exists i :: 0 <= i < |rels| && (rels[i].source == n || rels[i].target == n)
    decreases |rels|
  {
    if rels != [] {
      var p := rels[..|rels| - 1];
      var r := rels[|rels| - 1];
      EndpointsMembers(p, n);
      assert Endpoints(rels) == Endpoints(p) + [r.source, r.target];
      if exists i :: 0 <= i < |rels| && (rels[i].source == n || rels[i].target == n) {
        var i :| 0 <= i < |rels| && (rels[i].source == n || rels[i].target == n);
        if i < |p| {
          assert p[i] == rels[i];
        }
      }
      if exists i :: 0 <= i < |p| && (p[i].source == n || p[i].target == n) {
        var i :| 0 <= i < |p| && (p[i].source == n || p[i].target == n);
        assert rels[i] == p[i];
      }
    }
  }

  /** The missing names: each listed once, each an endpoint of some relationship and the name
      of no entity, and every such name is listed. */
  lemma MissingMembers(d: GraphData)
    ensures Distinct(Missing(d))
    ensures forall n :: n in Missing(d) <==>
      (n !in NameSet(d.entities)
       && exists i :: 0 <= i < |d.relationships| && (d.relationships[i].source == n || d.relationships[i].target == n))
  {
    FilterDistinct(Referenced(d.relationships), NotIn(NameSet(d.entities)));
    forall n ensures n in Missing(d) <==>
      (n !in NameSet(d.entities)
       && exists i :: 0 <= i < |d.relationships| && (d.relationships[i].source == n || d.relationships[i].target == n))
    {
      EndpointsMembers(d.relationships, n);
    }
  }

  /** The missing names are listed in the order in which the scan (source before target,
      relationship by relationship) first meets them. */
  lemma MissingFirstSeenOrder(d: GraphData, i: nat, j: nat)
    requires i < j < |Missing(d)|
    ensures Missing(d)[i] in Endpoints(d.relationships) && Missing(d)[j] in Endpoints(d.relationships)
    ensures FirstIndex(Endpoints(d.relationships), Missing(d)[i]) < FirstIndex(Endpoints(d.relationships), Missing(d)[j])
  {
    var e := Endpoints(d.relationships);
    var s := Dedup(e);
    forall a, b | 0 <= a < b < |s| ensures FirstIndex(e, s[a]) < FirstIndex(e, s[b]) {
      DedupFirstOccurrenceOrder(e, a, b);
    }
    FilterKeepsOrder(e, s, NotIn(NameSet(d.entities)), i, j);
  }

  /** Filtering a list that is ordered by first occurrence in `e` keeps it so ordered. */
  lemma FilterKeepsOrder(e: seq<string>, s: seq<string>, p: string -> bool, i: nat, j: nat)
    requires forall x :: x in s ==> x in e
    requires forall a, b :: 0 <= a < b < |s| ==> FirstIndex(e, s[a]) < FirstIndex(e, s[b])
    requires i < j < |Filter(s, p)|
    ensures Filter(s, p)[i] in e && Filter(s, p)[j] in e
    ensures FirstIndex(e, Filter(s, p)[i]) < FirstIndex(e, Filter(s, p)[j])
  {
    FilterPicksInOrder(s, p, i, j);
    var a, b :| 0 <= a < b < |s| && Filter(s, p)[i] == s[a] && Filter(s, p)[j] == s[b];
    assert s[a] in s && s[b] in s;
  }

  /** The entities of the completed graph carry exactly the original names and the missing
      ones. */
  lemma CompletedNames(d: GraphData)
    ensures NameSet(Completed(d).entities) == NameSet(d.entities) + set n | n in Missing(d)
  {
    NameSetAppend(d.entities, Placeholders(Missing(d)));
    PlaceholderNames(Missing(d));
  }

  lemma NameSetAppend(xs: seq<Node>, ys: seq<Node>)
    ensures NameSet(xs + ys) == NameSet(xs) + NameSet(ys)
  {
    var all := xs + ys;
    forall n | n in NameSet(all) ensures n in NameSet(xs) || n in NameSet(ys) {
      var k :| 0 <= k < |all| && all[k].Name() == n;
      if k >= |xs| {
        assert all[k] == ys[k - |xs|];
      } else {
        assert all[k] == xs[k];
      }
    }
    forall n | n in NameSet(xs) ensures n in NameSet(all) {
      var k :| 0 <= k < |xs| && xs[k].Name() == n;
      assert all[k] == xs[k];
    }
    forall n | n in NameSet(ys) ensures n in NameSet(all) {
      var k :| 0 <= k < |ys| && ys[k].Name() == n;
      assert all[|xs| + k] == ys[k];
    }
  }

  lemma PlaceholderNames(names: seq<string>)
    ensures NameSet(Placeholders(names)) == set n | n in names
  {
    var ps := Placeholders(names);
    forall n | n in names ensures n in NameSet(ps) {
      var k :| 0 <= k < |names| && names[k] == n;
      assert ps[k].Name() == n;
    }
  }

  /** After completion every relationship's source and target names an entity. */
  lemma CompletedIsClosed(d: GraphData)
    ensures forall r :: r in Completed(d).relationships ==>
      r.source in NameSet(Completed(d).entities) && r.target in NameSet(Completed(d).entities)
  {
    CompletedNames(d);
    MissingMembers(d);
    forall r | r in d.relationships
      ensures r.source in NameSet(Completed(d).entities) && r.target in NameSet(Completed(d).entities)
    {
      var i :| 0 <= i < |d.relationships| && d.relationships[i] == r;
      assert r.source in NameSet(d.entities) || r.source in Missing(d);
      assert r.target in NameSet(d.entities) || r.target in Missing(d);
    }
  }

  /** Completing a completed graph adds nothing. */
  lemma CompletedIdempotent(d: GraphData)
    ensures Completed(Completed(d)) == Completed(d)
  {
    var c := Completed(d);
    CompletedIsClosed(d);
    forall n | n in Referenced(c.relationships) ensures !NotIn(NameSet(c.entities))(n) {
      EndpointsMembers(c.relationships, n);
      var i :| 0 <= i < |c.relationships| && (c.relationships[i].source == n || c.relationships[i].target == n);
      assert c.relationships[i] in c.relationships;
    }
    FilterKeepsNone(Referenced(c.relationships), NotIn(NameSet(c.entities)));
    assert Missing(c) == [];
    assert c.entities + [] == c.entities;
  }

  /** The original entities stay first, unchanged and in order; what follows them are the
      placeholders, one per missing name, each with only a name and its `Classify` type, none
      sharing a name with an original entity; the relationships are untouched. */
  lemma CompletedKeepsOriginals(d: GraphData)
    ensures var c := Completed(d);
      && |c.entities| == |d.entities| + |Missing(d)|
      && c.entities[..|d.entities|] == d.entities
      && c.relationships == d.relationships
      && forall k :: |d.entities| <= k < |c.entities| ==>
           var n := c.entities[k];
           && n.Placeholder?
           && n.name == Missing(d)[k - |d.entities|]
           && n.kind == Classify(n.name)
           && n.name !in NameSet(d.entities)
  {
    MissingMembers(d);
  }
}
