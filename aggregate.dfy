/** The merge at the end of the multi-document analysis route: per-document topics,
    entities and relationships are folded into insertion-ordered maps keyed by topic name,
    entity name and the joined relationship key, each value keeping the indices of the
    documents that contributed it. */
module Aggregate {
  import opened Ordered
  import opened KnowledgeGraph
  import opened Provenance

  function TopicsOf(a: Analysis): seq<string> { a.topics }
  function EntitiesOf(a: Analysis): seq<RawEntity> { a.entities }
  function RelationshipsOf(a: Analysis): seq<RawRelationship> { a.relationships }

  function TopicKey(t: string): string { t }
  function EntityKey(e: RawEntity): string { e.name }

  /** The relationship map's key, `${source}||${target}||${type}`. */
  function RelKey(r: RawRelationship): string
  {
    r.source + "||" + r.target + "||" + r.kind
  }

  /** What the entity map holds for a name. */
  datatype EntityInfo = EntityInfo(kind: string, files: seq<nat>, definition: string, contexts: seq<Context>)

  type TopicTable = OrderedMap<string, seq<nat>>
  type EntityTable = OrderedMap<string, EntityInfo>
  type RelationshipTable = OrderedMap<string, Relationship>

  // ---------------------------------------------------------------------------
  // One step of each merge, and the merges as left folds over the occurrence stream.

  /** `if (!topicMap.has(t)) topicMap.set(t, new Set()); topicMap.get(t)!.add(idx);` */
  function AddTopic(m: TopicTable, t: string, idx: nat): (r: TopicTable)
    requires m.Valid()
    ensures r.Valid() && r.keys == SetAdd(m.keys, t)
    ensures r.vals[t] == SetAdd(if t in m.vals then m.vals[t] else [], idx)
    ensures forall u :: u != t ==> (u in r.vals <==> u in m.vals) && (u in m.vals ==> r.vals[u] == m.vals[u])
  {
    var m1 := if t in m.vals then m else Put(m, t, []);
    Put(m1, t, SetAdd(m1.vals[t], idx))
  }

  /** Creates the entry from the first occurrence, then records the document and appends the contexts. */
  function AddEntity(m: EntityTable, e: RawEntity, idx: nat): (r: EntityTable)
    requires m.Valid()
    ensures r.Valid() && r.keys == SetAdd(m.keys, e.name)
    ensures var old_ := if e.name in m.vals then m.vals[e.name] else EntityInfo(e.kind, [], e.definition, []);
      r.vals[e.name] == old_.(files := SetAdd(old_.files, idx), contexts := old_.contexts + e.contexts)
    ensures forall u :: u != e.name ==> (u in r.vals <==> u in m.vals) && (u in m.vals ==> r.vals[u] == m.vals[u])
  {
    var m1 := if e.name in m.vals then m else Put(m, e.name, EntityInfo(e.kind, [], e.definition, []));
    var info := m1.vals[e.name];
    Put(m1, e.name, info.(files := SetAdd(info.files, idx), contexts := info.contexts + e.contexts))
  }

  /** Creates the entry from the first occurrence of the key, then records the document. */
  function AddRelationship(m: RelationshipTable, r: RawRelationship, idx: nat): (res: RelationshipTable)
    requires m.Valid()
    ensures res.Valid() && res.keys == SetAdd(m.keys, RelKey(r))
    ensures var old_ := if RelKey(r) in m.vals then m.vals[RelKey(r)] else Relationship(r.source, r.target, r.kind, []);
      res.vals[RelKey(r)] == old_.(files := SetAdd(old_.files, idx))
    ensures forall u :: u != RelKey(r) ==> (u in res.vals <==> u in m.vals) && (u in m.vals ==> res.vals[u] == m.vals[u])
  {
    var key := RelKey(r);
    var m1 := if key in m.vals then m else Put(m, key, Relationship(r.source, r.target, r.kind, []));
    var rel := m1.vals[key];
    Put(m1, key, rel.(files := SetAdd(rel.files, idx)))
  }

  function TopicFold(occs: seq<(string, nat)>): (m: TopicTable)
    ensures m.Valid()
    decreases |occs|
  {
    if occs == [] then EmptyMap()
    else AddTopic(TopicFold(occs[..|occs| - 1]), occs[|occs| - 1].0, occs[|occs| - 1].1)
  }

  function EntityFold(occs: seq<(RawEntity, nat)>): (m: EntityTable)
    ensures m.Valid()
    decreases |occs|
  {
    if occs == [] then EmptyMap()
    else AddEntity(EntityFold(occs[..|occs| - 1]), occs[|occs| - 1].0, occs[|occs| - 1].1)
  }

  function RelationshipFold(occs: seq<(RawRelationship, nat)>): (m: RelationshipTable)
    ensures m.Valid()
    decreases |occs|
  {
    if occs == [] then EmptyMap()
    else AddRelationship(RelationshipFold(occs[..|occs| - 1]), occs[|occs| - 1].0, occs[|occs| - 1].1)
  }

  // ---------------------------------------------------------------------------
  // The maps turned into the response arrays, in key order.

  function TopicList(m: TopicTable): (ts: seq<Topic>)
    requires m.Valid()
    ensures |ts| == |m.keys|
    ensures forall i :: 0 <= i < |ts| ==> ts[i].name == m.keys[i] && ts[i].files == m.vals[m.keys[i]]
  {
    seq(|m.keys|, i requires 0 <= i < |m.keys| => Topic(m.keys[i], m.vals[m.keys[i]]))
  }

  function EntityList(m: EntityTable): (es: seq<Entity>)
    requires m.Valid()
    ensures |es| == |m.keys|
    ensures forall i :: 0 <= i < |es| ==>
      var info := m.vals[m.keys[i]];
      es[i] == Entity(m.keys[i], info.kind, info.files, info.definition, info.contexts)
  {
    seq(|m.keys|, i requires 0 <= i < |m.keys| =>
      var info := m.vals[m.keys[i]];
      Entity(m.keys[i], info.kind, info.files, info.definition, info.contexts))
  }

  function RelationshipList(m: RelationshipTable): (rs: seq<Relationship>)
    requires m.Valid()
    ensures |rs| == |m.keys|
    ensures forall i :: 0 <= i < |rs| ==> rs[i] == m.vals[m.keys[i]]
  {
    seq(|m.keys|, i requires 0 <= i < |m.keys| => m.vals[m.keys[i]])
  }

  /** The combined graph the route returns for a list of analyses. */
  function Combined(analyses: seq<Analysis>): CombinedGraph
  {
    CombinedGraph(
      TopicList(TopicFold(Occurrences(analyses, TopicsOf))),
      EntityList(EntityFold(Occurrences(analyses, EntitiesOf))),
      RelationshipList(RelationshipFold(Occurrences(analyses, RelationshipsOf))))
  }

  // ---------------------------------------------------------------------------
  // Reference definitions for what each fold accumulates.

  /** The first occurrence in the stream whose key is `k`. */
  function FirstWithKey<T>(occs: seq<(T, nat)>, key: T -> string, k: string): T
    requires k in OccurrenceKeys(occs, key)
  {
    occs[FirstIndex(OccurrenceKeys(occs, key), k)].0
  }

  /** The contexts of every occurrence of the entity name `n`, in stream order, repeats kept. */
  function ContextsOf(occs: seq<(RawEntity, nat)>, n: string): seq<Context>
    decreases |occs|
  {
    if occs == [] then []
    else ContextsOf(occs[..|occs| - 1], n) + (if occs[|occs| - 1].0.name == n then occs[|occs| - 1].0.contexts else [])
  }

  lemma KeysPrefix<T>(occs: seq<(T, nat)>, key: T -> string)
    requires occs != []
    ensures OccurrenceKeys(occs, key)[..|occs| - 1] == OccurrenceKeys(occs[..|occs| - 1], key)
    ensures OccurrenceKeys(occs, key)[|occs| - 1] == key(occs[|occs| - 1].0)
    ensures OccurrenceKeys(occs, key) == OccurrenceKeys(occs[..|occs| - 1], key) + [key(occs[|occs| - 1].0)]
  {
  }

  /** No occurrence has key `k`: nothing was recorded for it. */
  lemma {:induction false} AbsentKey<T>(occs: seq<(T, nat)>, key: T -> string, k: string)
    requires k !in OccurrenceKeys(occs, key)
    ensures IndicesOf(occs, key, k) == []
    decreases |occs|
  {
    if occs != [] {
      var p := occs[..|occs| - 1];
      KeysPrefix(occs, key);
      AbsentKey(p, key, k);
    }
  }

  lemma {:induction false} AbsentName(occs: seq<(RawEntity, nat)>, n: string)
    requires n !in OccurrenceKeys(occs, EntityKey)
    ensures ContextsOf(occs, n) == []
    decreases |occs|
  {
    if occs != [] {
      var p := occs[..|occs| - 1];
      KeysPrefix(occs, EntityKey);
      AbsentName(p, n);
    }
  }

  /** The first occurrence of a key is the one in the stream's prefix, if there is one
      there, and otherwise the last occurrence. */
  lemma FirstWithKeyStep<T>(occs: seq<(T, nat)>, key: T -> string, k: string)
    requires occs != [] && k in OccurrenceKeys(occs, key)
    ensures var p := occs[..|occs| - 1];
      if k in OccurrenceKeys(p, key) then FirstWithKey(occs, key, k) == FirstWithKey(p, key, k)
      else FirstWithKey(occs, key, k) == occs[|occs| - 1].0
  {
    var p := occs[..|occs| - 1];
    KeysPrefix(occs, key);
    var ks := OccurrenceKeys(occs, key);
    if k in OccurrenceKeys(p, key) {
      FirstIndexAppend(OccurrenceKeys(p, key), ks[|ks| - 1], k);
    } else {
      FirstIndexUnique(ks, k, |p|);
    }
  }

  // ---------------------------------------------------------------------------
  // What each fold holds.

  /** The topic map's keys are the distinct topic names in stream order. */
  lemma {:induction false} TopicFoldKeys(occs: seq<(string, nat)>)
    ensures TopicFold(occs).keys == Dedup(OccurrenceKeys(occs, TopicKey))
    decreases |occs|
  {
    if occs != [] {
      var p := occs[..|occs| - 1];
      TopicFoldKeys(p);
      KeysPrefix(occs, TopicKey);
      var ks := OccurrenceKeys(occs, TopicKey);
      assert Dedup(ks) == SetAdd(Dedup(ks[..|ks| - 1]), ks[|ks| - 1]);
    }
  }

  lemma {:induction false} TopicFoldHas(occs: seq<(string, nat)>, t: string)
    ensures t in TopicFold(occs).vals <==> t in OccurrenceKeys(occs, TopicKey)
    decreases |occs|
  {
    if occs != [] {
      var p := occs[..|occs| - 1];
      assert TopicFold(occs) == AddTopic(TopicFold(p), occs[|occs| - 1].0, occs[|occs| - 1].1);
      TopicFoldHas(p, t);
      KeysPrefix(occs, TopicKey);
    }
  }

  /** A topic's set of files is the ordered set of the indices it occurred with. */
  lemma {:induction false} TopicFoldFiles(occs: seq<(string, nat)>, t: string)
    ensures t in TopicFold(occs).vals ==> TopicFold(occs).vals[t] == Dedup(IndicesOf(occs, TopicKey, t))
    decreases |occs|
  {
    if occs != [] {
      var p := occs[..|occs| - 1];
      var t', idx := occs[|occs| - 1].0, occs[|occs| - 1].1;
      var m := TopicFold(p);
      assert TopicFold(occs) == AddTopic(m, t', idx);
      TopicFoldFiles(p, t);
      TopicFoldHas(p, t);
      if t == t' {
        if t !in m.vals {
          AbsentKey(p, TopicKey, t);
        }
        assert IndicesOf(occs, TopicKey, t) == IndicesOf(p, TopicKey, t) + [idx];
        DedupSnoc(IndicesOf(p, TopicKey, t), idx);
      } else {
        assert IndicesOf(occs, TopicKey, t) == IndicesOf(p, TopicKey, t);
      }
    }
  }

  /** The entity map's keys are the distinct entity names in stream order. */
  lemma {:induction false} EntityFoldKeys(occs: seq<(RawEntity, nat)>)
    ensures EntityFold(occs).keys == Dedup(OccurrenceKeys(occs, EntityKey))
    decreases |occs|
  {
    if occs != [] {
      var p := occs[..|occs| - 1];
      EntityFoldKeys(p);
      KeysPrefix(occs, EntityKey);
      var ks := OccurrenceKeys(occs, EntityKey);
      assert Dedup(ks) == SetAdd(Dedup(ks[..|ks| - 1]), ks[|ks| - 1]);
    }
  }

  lemma {:induction false} EntityFoldHas(occs: seq<(RawEntity, nat)>, n: string)
    ensures n in EntityFold(occs).vals <==> n in OccurrenceKeys(occs, EntityKey)
    decreases |occs|
  {
    if occs != [] {
      var p := occs[..|occs| - 1];
      assert EntityFold(occs) == AddEntity(EntityFold(p), occs[|occs| - 1].0, occs[|occs| - 1].1);
      EntityFoldHas(p, n);
      KeysPrefix(occs, EntityKey);
    }
  }

  /** An entity's files are the ordered set of the indices it occurred with. */
  lemma {:induction false} EntityFoldFiles(occs: seq<(RawEntity, nat)>, n: string)
    ensures n in EntityFold(occs).vals ==> EntityFold(occs).vals[n].files == Dedup(IndicesOf(occs, EntityKey, n))
    decreases |occs|
  {
    if occs != [] {
      var p := occs[..|occs| - 1];
      var o := occs[|occs| - 1];
      var m := EntityFold(p);
      assert EntityFold(occs) == AddEntity(m, o.0, o.1);
      EntityFoldFiles(p, n);
      EntityFoldHas(p, n);
      if o.0.name == n {
        if n !in m.vals {
          AbsentKey(p, EntityKey, n);
        }
        assert IndicesOf(occs, EntityKey, n) == IndicesOf(p, EntityKey, n) + [o.1];
        DedupSnoc(IndicesOf(p, EntityKey, n), o.1);
      } else {
        assert IndicesOf(occs, EntityKey, n) == IndicesOf(p, EntityKey, n);
      }
    }
  }

  /** An entity's contexts are those of all its occurrences, in stream order. */
  lemma {:induction false} EntityFoldContexts(occs: seq<(RawEntity, nat)>, n: string)
    ensures n in EntityFold(occs).vals ==> EntityFold(occs).vals[n].contexts == ContextsOf(occs, n)
    decreases |occs|
  {
    if occs != [] {
      var p := occs[..|occs| - 1];
      var o := occs[|occs| - 1];
      var m := EntityFold(p);
      assert EntityFold(occs) == AddEntity(m, o.0, o.1);
      EntityFoldContexts(p, n);
      EntityFoldHas(p, n);
      if o.0.name == n {
        if n !in m.vals {
          AbsentName(p, n);
        }
        assert ContextsOf(occs, n) == ContextsOf(p, n) + o.0.contexts;
      } else {
        assert ContextsOf(occs, n) == ContextsOf(p, n);
      }
    }
  }

  /** An entity's type and definition are those of its first occurrence. */
  lemma {:induction false} EntityFoldFirst(occs: seq<(RawEntity, nat)>, n: string)
    ensures n in EntityFold(occs).vals ==>
      && n in OccurrenceKeys(occs, EntityKey)
      && EntityFold(occs).vals[n].kind == FirstWithKey(occs, EntityKey, n).kind
      && EntityFold(occs).vals[n].definition == FirstWithKey(occs, EntityKey, n).definition
    decreases |occs|
  {
    EntityFoldHas(occs, n);
    if occs != [] && n in EntityFold(occs).vals {
      var p := occs[..|occs| - 1];
      var o := occs[|occs| - 1];
      var m := EntityFold(p);
      assert EntityFold(occs) == AddEntity(m, o.0, o.1);
      EntityFoldFirst(p, n);
      EntityFoldHas(p, n);
      FirstWithKeyStep(occs, EntityKey, n);
    }
  }

  /** The relationship map's keys are the distinct joined keys in stream order. */
  lemma {:induction false} RelationshipFoldKeys(occs: seq<(RawRelationship, nat)>)
    ensures RelationshipFold(occs).keys == Dedup(OccurrenceKeys(occs, RelKey))
    decreases |occs|
  {
    if occs != [] {
      var p := occs[..|occs| - 1];
      RelationshipFoldKeys(p);
      KeysPrefix(occs, RelKey);
      var ks := OccurrenceKeys(occs, RelKey);
      assert Dedup(ks) == SetAdd(Dedup(ks[..|ks| - 1]), ks[|ks| - 1]);
    }
  }

  lemma {:induction false} RelationshipFoldHas(occs: seq<(RawRelationship, nat)>, k: string)
    ensures k in RelationshipFold(occs).vals <==> k in OccurrenceKeys(occs, RelKey)
    decreases |occs|
  {
    if occs != [] {
      var p := occs[..|occs| - 1];
      assert RelationshipFold(occs) == AddRelationship(RelationshipFold(p), occs[|occs| - 1].0, occs[|occs| - 1].1);
      RelationshipFoldHas(p, k);
      KeysPrefix(occs, RelKey);
    }
  }

  /** A relationship's files are the ordered set of the indices its key occurred with. */
  lemma {:induction false} RelationshipFoldFiles(occs: seq<(RawRelationship, nat)>, k: string)
    ensures k in RelationshipFold(occs).vals ==> RelationshipFold(occs).vals[k].files == Dedup(IndicesOf(occs, RelKey, k))
    decreases |occs|
  {
    if occs != [] {
      var p := occs[..|occs| - 1];
      var o := occs[|occs| - 1];
      var m := RelationshipFold(p);
      assert RelationshipFold(occs) == AddRelationship(m, o.0, o.1);
      RelationshipFoldFiles(p, k);
      RelationshipFoldHas(p, k);
      if RelKey(o.0) == k {
        if k !in m.vals {
          AbsentKey(p, RelKey, k);
        }
        assert IndicesOf(occs, RelKey, k) == IndicesOf(p, RelKey, k) + [o.1];
        DedupSnoc(IndicesOf(p, RelKey, k), o.1);
      } else {
        assert IndicesOf(occs, RelKey, k) == IndicesOf(p, RelKey, k);
      }
    }
  }

  /** A relationship's endpoints and type are those of the first occurrence of its key. */
  lemma {:induction false} RelationshipFoldFirst(occs: seq<(RawRelationship, nat)>, k: string)
    ensures k in RelationshipFold(occs).vals ==>
      && k in OccurrenceKeys(occs, RelKey)
      && var first := FirstWithKey(occs, RelKey, k);
      RelationshipFold(occs).vals[k] == Relationship(first.source, first.target, first.kind, RelationshipFold(occs).vals[k].files)
    decreases |occs|
  {
    RelationshipFoldHas(occs, k);
    if occs != [] && k in RelationshipFold(occs).vals {
      var p := occs[..|occs| - 1];
      var o := occs[|occs| - 1];
      var m := RelationshipFold(p);
      assert RelationshipFold(occs) == AddRelationship(m, o.0, o.1);
      RelationshipFoldFirst(p, k);
      RelationshipFoldHas(p, k);
      FirstWithKeyStep(occs, RelKey, k);
    }
  }

  // ---------------------------------------------------------------------------
  // The combined graph, stated without the maps.

  /** Every topic any analysis lists, in the order the merge meets them, repeats kept. */
  function AllTopics(analyses: seq<Analysis>): seq<string>
  {
    OccurrenceKeys(Occurrences(analyses, TopicsOf), TopicKey)
  }

  function AllEntityNames(analyses: seq<Analysis>): seq<string>
  {
    OccurrenceKeys(Occurrences(analyses, EntitiesOf), EntityKey)
  }

  function AllRelKeys(analyses: seq<Analysis>): seq<string>
  {
    OccurrenceKeys(Occurrences(analyses, RelationshipsOf), RelKey)
  }

  /** The combined topics are the distinct topic names in order of first mention, each with
      the ascending indices of the analyses that list it. */
  lemma CombinedTopics(analyses: seq<Analysis>)
    ensures var ts := Combined(analyses).topics;
      && |ts| == |Dedup(AllTopics(analyses))|
      && forall i :: 0 <= i < |ts| ==>
        && ts[i].name == Dedup(AllTopics(analyses))[i]
        && ts[i].files == DocsWith(analyses, TopicsOf, TopicKey, ts[i].name)
  {
    var occs := Occurrences(analyses, TopicsOf);
    var m := TopicFold(occs);
    var ts := Combined(analyses).topics;
    assert ts == TopicList(m);
    TopicFoldKeys(occs);
    forall i | 0 <= i < |ts|
      ensures ts[i].files == DocsWith(analyses, TopicsOf, TopicKey, ts[i].name)
    {
      var t := m.keys[i];
      assert ts[i].name == t && ts[i].files == m.vals[t];
      TopicFoldFiles(occs, t);
      FilesAreDocuments(analyses, TopicsOf, TopicKey, t);
    }
  }

  /** The combined entities are the distinct names in order of first mention. */
  lemma CombinedEntityNames(analyses: seq<Analysis>)
    ensures var es := Combined(analyses).entities;
      && |es| == |Dedup(AllEntityNames(analyses))|
      && forall i :: 0 <= i < |es| ==> es[i].name == Dedup(AllEntityNames(analyses))[i]
  {
    EntityFoldKeys(Occurrences(analyses, EntitiesOf));
  }

  /** Each combined entity takes its type and definition from its first mention, the contexts
      of every mention in order, and the ascending indices of the analyses that mention it. */
  lemma CombinedEntity(analyses: seq<Analysis>, i: nat)
    requires i < |Combined(analyses).entities|
    ensures var e := Combined(analyses).entities[i];
      var occs := Occurrences(analyses, EntitiesOf);
      && e.name in AllEntityNames(analyses)
      && e.kind == FirstWithKey(occs, EntityKey, e.name).kind
      && e.definition == FirstWithKey(occs, EntityKey, e.name).definition
      && e.contexts == ContextsOf(occs, e.name)
      && e.files == DocsWith(analyses, EntitiesOf, EntityKey, e.name)
  {
    var occs := Occurrences(analyses, EntitiesOf);
    var m := EntityFold(occs);
    var n := m.keys[i];
    assert Combined(analyses).entities[i].name == n;
    EntityFoldFirst(occs, n);
    EntityFoldContexts(occs, n);
    EntityFoldFiles(occs, n);
    FilesAreDocuments(analyses, EntitiesOf, EntityKey, n);
  }

  /** The combined relationships are one per distinct joined key, in order of first mention,
      each with the endpoints and type of that first mention and the ascending indices of the
      analyses that mention the key. */
  lemma CombinedRelationships(analyses: seq<Analysis>)
    ensures var rs := Combined(analyses).relationships;
      var occs := Occurrences(analyses, RelationshipsOf);
      var keys := Dedup(AllRelKeys(analyses));
      && |rs| == |keys|
      && forall i :: 0 <= i < |rs| ==>
        && keys[i] in AllRelKeys(analyses)
        && rs[i].source == FirstWithKey(occs, RelKey, keys[i]).source
        && rs[i].target == FirstWithKey(occs, RelKey, keys[i]).target
        && rs[i].kind == FirstWithKey(occs, RelKey, keys[i]).kind
        && rs[i].files == DocsWith(analyses, RelationshipsOf, RelKey, keys[i])
  {
    var occs := Occurrences(analyses, RelationshipsOf);
    var rs := Combined(analyses).relationships;
    var keys := Dedup(AllRelKeys(analyses));
    RelationshipFoldKeys(occs);
    forall i | 0 <= i < |rs|
      ensures keys[i] in AllRelKeys(analyses)
      ensures rs[i].source == FirstWithKey(occs, RelKey, keys[i]).source
      ensures rs[i].target == FirstWithKey(occs, RelKey, keys[i]).target
      ensures rs[i].kind == FirstWithKey(occs, RelKey, keys[i]).kind
      ensures rs[i].files == DocsWith(analyses, RelationshipsOf, RelKey, keys[i])
    {
      RelationshipFoldFirst(occs, keys[i]);
      RelationshipFoldFiles(occs, keys[i]);
      FilesAreDocuments(analyses, RelationshipsOf, RelKey, keys[i]);
    }
  }

  // ---------------------------------------------------------------------------
  // The joined relationship key.

  /** With the same endpoints, two relationships share a key exactly when they share a type. */
  lemma RelKeySameEndpoints(r1: RawRelationship, r2: RawRelationship)
    requires r1.source == r2.source && r1.target == r2.target
    ensures RelKey(r1) == RelKey(r2) <==> r1.kind == r2.kind
  {
    var prefix := r1.source + "||" + r1.target + "||";
    assert RelKey(r1) == prefix + r1.kind && RelKey(r2) == prefix + r2.kind;
    if RelKey(r1) == RelKey(r2) {
      assert r1.kind == RelKey(r1)[|prefix|..];
      assert r2.kind == RelKey(r2)[|prefix|..];
    }
  }

  /** The key does not separate names that contain the separator: two different
      relationships from one document are merged into one. */
  lemma RelKeyConflates()
    ensures var r1 := RawRelationship("a||b", "c", "uses");
      var r2 := RawRelationship("a", "b||c", "uses");
      && r1 != r2
      && RelKey(r1) == RelKey(r2)
      && Combined([Analysis([], [], [r1, r2])]).relationships == [Relationship("a||b", "c", "uses", [0])]
  {
    var r1 := RawRelationship("a||b", "c", "uses");
    var r2 := RawRelationship("a", "b||c", "uses");
    var k := RelKey(r1);
    assert RelKey(r1) == RelKey(r2);
    var a := [Analysis([], [], [r1, r2])];
    assert a[..0] == [];
    var occs := Occurrences(a, RelationshipsOf);
    assert occs == [(r1, 0), (r2, 0)] by {
      assert occs == Occurrences(a[..0], RelationshipsOf) + Tagged([r1, r2], 0);
    }
    var m0 := RelationshipFold([]);
    assert [(r1, 0)][..0] == [];
    var m1 := RelationshipFold([(r1, 0)]);
    assert m1 == AddRelationship(m0, r1, 0);
    assert m1.keys == [k];
    assert m1.vals[k] == Relationship("a||b", "c", "uses", [0]);
    assert occs[..1] == [(r1, 0)];
    var m2 := RelationshipFold(occs);
    assert m2 == AddRelationship(m1, r2, 0);
    assert m2.keys == [k];
    assert m2.vals[k] == Relationship("a||b", "c", "uses", [0]);
  }

  // ---------------------------------------------------------------------------
  // The merge as the route performs it: nested loops over the analyses and their items,
  // updating the maps in place.

  /** One more item of the current analysis extends the stream by one occurrence. */
  lemma StreamStep<T>(before: seq<(T, nat)>, items: seq<T>, j: nat, idx: nat)
    requires j < |items|
    ensures before + Tagged(items[..j + 1], idx) == (before + Tagged(items[..j], idx)) + [(items[j], idx)]
  {
    assert Tagged(items[..j + 1], idx) == Tagged(items[..j], idx) + [(items[j], idx)];
  }

  lemma SliceStep<T>(s: seq<T>, c: nat)
    requires c < |s|
    ensures s[..c + 1] == s[..c] + [s[c]]
  {
  }

  lemma OccurrencesSnoc<T>(analyses: seq<Analysis>, idx: nat, pick: Analysis -> seq<T>)
    requires idx < |analyses|
    ensures Occurrences(analyses[..idx + 1], pick) == Occurrences(analyses[..idx], pick) + Tagged(pick(analyses[idx]), idx)
  {
    assert analyses[..idx + 1][..idx] == analyses[..idx];
  }

  lemma TopicFoldSnoc(xs: seq<(string, nat)>, o: (string, nat))
    ensures TopicFold(xs + [o]) == AddTopic(TopicFold(xs), o.0, o.1)
  {
    assert (xs + [o])[..|xs|] == xs;
  }

  lemma EntityFoldSnoc(xs: seq<(RawEntity, nat)>, o: (RawEntity, nat))
    ensures EntityFold(xs + [o]) == AddEntity(EntityFold(xs), o.0, o.1)
  {
    assert (xs + [o])[..|xs|] == xs;
  }

  lemma RelationshipFoldSnoc(xs: seq<(RawRelationship, nat)>, o: (RawRelationship, nat))
    ensures RelationshipFold(xs + [o]) == AddRelationship(RelationshipFold(xs), o.0, o.1)
  {
    assert (xs + [o])[..|xs|] == xs;
  }

  /** `more.forEach(ctx => list.push(ctx))`: appends, in order, keeping repeats. */
  method PushAll(list: seq<Context>, more: seq<Context>) returns (r: seq<Context>)
    ensures r == list + more
  {
    r := list;
    for c := 0 to |more|
      invariant r == list + more[..c]
    {
      r := r + [more[c]];
      SliceStep(more, c);
    }
    assert more[..|more|] == more;
  }

  /** One topic of document `idx`: `if (!topicMap.has(t)) topicMap.set(t, new Set());
      topicMap.get(t)!.add(idx)`. */
  method RecordTopic(m: TopicTable, t: string, idx: nat) returns (m': TopicTable)
    requires m.Valid()
    ensures m' == AddTopic(m, t, idx)
  {
    m' := m;
    if t !in m'.vals {
      m' := Put(m', t, []);
    }
    m' := Put(m', t, SetAdd(m'.vals[t], idx));
  }

  /** `a.topics.forEach(...)` for document `idx`: the map goes on folding the stream. */
  method RecordTopics(m: TopicTable, items: seq<string>, idx: nat, ghost before: seq<(string, nat)>)
    returns (m': TopicTable)
    requires m == TopicFold(before)
    ensures m' == TopicFold(before + Tagged(items, idx))
  {
    m' := m;
    assert before + Tagged(items[..0], idx) == before;
    for j := 0 to |items|
      invariant m' == TopicFold(before + Tagged(items[..j], idx))
    {
      StreamStep(before, items, j, idx);
      TopicFoldSnoc(before + Tagged(items[..j], idx), (items[j], idx));
      m' := RecordTopic(m', items[j], idx);
    }
    assert items[..|items|] == items;
  }

  method CombineTopics(analyses: seq<Analysis>) returns (topics: seq<Topic>)
    ensures topics == Combined(analyses).topics
  {
    var topicMap: TopicTable := EmptyMap();
    for idx := 0 to |analyses|
      invariant topicMap == TopicFold(Occurrences(analyses[..idx], TopicsOf))
    {
      topicMap := RecordTopics(topicMap, analyses[idx].topics, idx, Occurrences(analyses[..idx], TopicsOf));
      OccurrencesSnoc(analyses, idx, TopicsOf);
    }
    assert analyses[..|analyses|] == analyses;
    topics := TopicList(topicMap);
  }

  /** One entity of document `idx`: create the entry from this occurrence if the name is
      new, then record the document and push the contexts. */
  method RecordEntity(m: EntityTable, e: RawEntity, idx: nat) returns (m': EntityTable)
    requires m.Valid()
    ensures m' == AddEntity(m, e, idx)
  {
    m' := m;
    if e.name !in m'.vals {
      m' := Put(m', e.name, EntityInfo(e.kind, [], e.definition, []));
    }
    var info := m'.vals[e.name];
    info := info.(files := SetAdd(info.files, idx));
    var contexts := PushAll(info.contexts, e.contexts);
    info := info.(contexts := contexts);
    m' := Put(m', e.name, info);
  }

  /** `a.entities.forEach(...)` for document `idx`. */
  method RecordEntities(m: EntityTable, items: seq<RawEntity>, idx: nat, ghost before: seq<(RawEntity, nat)>)
    returns (m': EntityTable)
    requires m == EntityFold(before)
    ensures m' == EntityFold(before + Tagged(items, idx))
  {
    m' := m;
    assert before + Tagged(items[..0], idx) == before;
    for j := 0 to |items|
      invariant m' == EntityFold(before + Tagged(items[..j], idx))
    {
      StreamStep(before, items, j, idx);
      EntityFoldSnoc(before + Tagged(items[..j], idx), (items[j], idx));
      m' := RecordEntity(m', items[j], idx);
    }
    assert items[..|items|] == items;
  }

  method CombineEntities(analyses: seq<Analysis>) returns (entities: seq<Entity>)
    ensures entities == Combined(analyses).entities
  {
    var entityMap: EntityTable := EmptyMap();
    for idx := 0 to |analyses|
      invariant entityMap == EntityFold(Occurrences(analyses[..idx], EntitiesOf))
    {
      entityMap := RecordEntities(entityMap, analyses[idx].entities, idx, Occurrences(analyses[..idx], EntitiesOf));
      OccurrencesSnoc(analyses, idx, EntitiesOf);
    }
    assert analyses[..|analyses|] == analyses;
    entities := EntityList(entityMap);
  }

  /** One relationship of document `idx`: create the entry under the joined key from this
      occurrence if the key is new, then record the document. */
  method RecordRelationship(m: RelationshipTable, r: RawRelationship, idx: nat) returns (m': RelationshipTable)
    requires m.Valid()
    ensures m' == AddRelationship(m, r, idx)
  {
    m' := m;
    var key := r.source + "||" + r.target + "||" + r.kind;
    if key !in m'.vals {
      m' := Put(m', key, Relationship(r.source, r.target, r.kind, []));
    }
    var rel := m'.vals[key];
    m' := Put(m', key, rel.(files := SetAdd(rel.files, idx)));
  }

  /** `a.relationships.forEach(...)` for document `idx`. */
  method RecordRelationships(m: RelationshipTable, items: seq<RawRelationship>, idx: nat,
                             ghost before: seq<(RawRelationship, nat)>)
    returns (m': RelationshipTable)
    requires m == RelationshipFold(before)
    ensures m' == RelationshipFold(before + Tagged(items, idx))
  {
    m' := m;
    assert before + Tagged(items[..0], idx) == before;
    for j := 0 to |items|
      invariant m' == RelationshipFold(before + Tagged(items[..j], idx))
    {
      StreamStep(before, items, j, idx);
      RelationshipFoldSnoc(before + Tagged(items[..j], idx), (items[j], idx));
      m' := RecordRelationship(m', items[j], idx);
    }
    assert items[..|items|] == items;
  }

  method CombineRelationships(analyses: seq<Analysis>) returns (relationships: seq<Relationship>)
    ensures relationships == Combined(analyses).relationships
  {
    var relMap: RelationshipTable := EmptyMap();
    for idx := 0 to |analyses|
      invariant relMap == RelationshipFold(Occurrences(analyses[..idx], RelationshipsOf))
    {
      relMap := RecordRelationships(relMap, analyses[idx].relationships, idx, Occurrences(analyses[..idx], RelationshipsOf));
      OccurrencesSnoc(analyses, idx, RelationshipsOf);
    }
    assert analyses[..|analyses|] == analyses;
    relationships := RelationshipList(relMap);
  }

  /** The route's merge: the combined graph of the collected analyses. */
  method Combine(analyses: seq<Analysis>) returns (g: CombinedGraph)
    ensures g == Combined(analyses)
  {
    var topics := CombineTopics(analyses);
    var entities := CombineEntities(analyses);
    var relationships := CombineRelationships(analyses);
    g := CombinedGraph(topics, entities, relationships);
  }

  /** A document that contributes nothing is listed in no `files`. */
  lemma SkippedReplyListedNowhere(analyses: seq<Analysis>, k: nat)
    requires k < |analyses| && analyses[k] == Analysis([], [], [])
    ensures forall t :: t in Combined(analyses).topics ==> k !in t.files
    ensures forall e :: e in Combined(analyses).entities ==> k !in e.files
    ensures forall r :: r in Combined(analyses).relationships ==> k !in r.files
  {
    SkippedInTopics(analyses, k);
    SkippedInEntities(analyses, k);
    SkippedInRelationships(analyses, k);
  }

  /** A document without items of a kind is not among the documents carrying any key. */
  lemma NotAmongDocs<T>(analyses: seq<Analysis>, pick: Analysis -> seq<T>, key: T -> string, k: nat, name: string)
    requires k < |analyses| && KeysIn(pick(analyses[k]), key) == []
    ensures k !in DocsWith(analyses, pick, key, name)
  {
    DocsWithSpec(analyses, pick, key, name);
  }

  lemma SkippedInTopics(analyses: seq<Analysis>, k: nat)
    requires k < |analyses| && analyses[k] == Analysis([], [], [])
    ensures forall t :: t in Combined(analyses).topics ==> k !in t.files
  {
    var ts := Combined(analyses).topics;
    CombinedTopics(analyses);
    assert KeysIn(TopicsOf(analyses[k]), TopicKey) == [];
    forall t | t in ts ensures k !in t.files {
      NotAmongDocs(analyses, TopicsOf, TopicKey, k, t.name);
    }
  }

  lemma SkippedInEntities(analyses: seq<Analysis>, k: nat)
    requires k < |analyses| && analyses[k] == Analysis([], [], [])
    ensures forall e :: e in Combined(analyses).entities ==> k !in e.files
  {
    var es := Combined(analyses).entities;
    forall e | e in es ensures k !in e.files {
      var i :| 0 <= i < |es| && es[i] == e;
      SkippedEntityAt(analyses, k, i);
    }
  }

  lemma SkippedEntityAt(analyses: seq<Analysis>, k: nat, i: nat)
    requires k < |analyses| && analyses[k] == Analysis([], [], [])
    requires i < |Combined(analyses).entities|
    ensures k !in Combined(analyses).entities[i].files
  {
    var e := Combined(analyses).entities[i];
    CombinedEntity(analyses, i);
    assert KeysIn(EntitiesOf(analyses[k]), EntityKey) == [];
    NotAmongDocs(analyses, EntitiesOf, EntityKey, k, e.name);
  }

  lemma SkippedInRelationships(analyses: seq<Analysis>, k: nat)
    requires k < |analyses| && analyses[k] == Analysis([], [], [])
    ensures forall r :: r in Combined(analyses).relationships ==> k !in r.files
  {
    var rs := Combined(analyses).relationships;
    var keys := Dedup(AllRelKeys(analyses));
    CombinedRelationships(analyses);
    assert KeysIn(RelationshipsOf(analyses[k]), RelKey) == [];
    forall r | r in rs ensures k !in r.files {
      var i :| 0 <= i < |rs| && rs[i] == r;
      assert r.files == DocsWith(analyses, RelationshipsOf, RelKey, keys[i]);
      NotAmongDocs(analyses, RelationshipsOf, RelKey, k, keys[i]);
    }
  }
}
