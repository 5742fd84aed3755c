/** The page's filter over the combined graph: which entities and relationships are handed
    to the network view for each choice of the filter menu. */
module ViewFilter {
  import opened Ordered
  import opened JsText
  import opened KnowledgeGraph
  import opened Completer

  datatype Choice = All | UniqueA | UniqueB | Shared | Security

  /** What is handed to the view. */
  datatype View = View(entities: seq<Entity>, relationships: seq<Relationship>)

  /** `x.files.length === 1 && x.files[0] === doc`: found in document `doc` alone. */
  predicate OnlyIn(files: seq<nat>, doc: nat)
  {
    |files| == 1 && files[0] == doc
  }

  /** `x.files.length > 1`. */
  predicate InSeveral(files: seq<nat>)
  {
    |files| > 1
  }

  /** `e.name.toLowerCase().includes('security') || e.type.toLowerCase().includes('security')`. */
  predicate IsSecurity(e: Entity)
  {
    Contains(Lower(e.name), "security") || Contains(Lower(e.kind), "security")
  }

  function Names(es: seq<Entity>): (ns: seq<string>)
    ensures |ns| == |es|
    ensures forall i :: 0 <= i < |es| ==> ns[i] == es[i].name
  {
    seq(|es|, i requires 0 <= i < |es| => es[i].name)
  }

  /** `secNames`. */
  function SecurityNames(es: seq<Entity>): seq<string>
  {
    Names(Filter(es, IsSecurity))
  }

  /** The filter block of the page. */
  function Apply(choice: Choice, g: CombinedGraph): View
  {
    var ents := g.entities;
    var rels := g.relationships;
    match choice
    case All => View(ents, rels)
    case UniqueA => View(Filter(ents, (e: Entity) => OnlyIn(e.files, 0)), Filter(rels, (r: Relationship) => OnlyIn(r.files, 0)))
    case UniqueB => View(Filter(ents, (e: Entity) => OnlyIn(e.files, 1)), Filter(rels, (r: Relationship) => OnlyIn(r.files, 1)))
    case Shared => View(Filter(ents, (e: Entity) => InSeveral(e.files)), Filter(rels, (r: Relationship) => InSeveral(r.files)))
    case Security =>
      var secNames := SecurityNames(ents);
      View(Filter(ents, (e: Entity) => e.name in secNames), Filter(rels, (r: Relationship) => r.source in secNames || r.target in secNames))
  }

  /** The data the network view starts from. */
  function ToGraphData(v: View): (d: GraphData)
    ensures |d.entities| == |v.entities| && d.relationships == v.relationships
    ensures forall i :: 0 <= i < |v.entities| ==> d.entities[i] == Given(v.entities[i])
  {
    GraphData(seq(|v.entities|, i requires 0 <= i < |v.entities| => Given(v.entities[i])), v.relationships)
  }

  /** `all` hands the graph over as it is. */
  lemma AllIsIdentity(g: CombinedGraph)
    ensures Apply(All, g) == View(g.entities, g.relationships)
  {
  }

  /** Every filter keeps a subsequence of the entities and of the relationships: nothing is
      changed, added or reordered. */
  lemma ApplyKeepsOrder(choice: Choice, g: CombinedGraph)
    ensures IsSubsequence(Apply(choice, g).entities, g.entities)
    ensures IsSubsequence(Apply(choice, g).relationships, g.relationships)
  {
    if choice == All {
      SubsequenceRefl(g.entities);
      SubsequenceRefl(g.relationships);
    }
  }

  lemma {:induction false} SubsequenceRefl<T>(s: seq<T>)
    ensures IsSubsequence(s, s)
    decreases |s|
  {
    if s != [] {
      SubsequenceRefl(s[..|s| - 1]);
    }
  }

  /** `uniqueA`, `uniqueB` and `shared` keep exactly the entities and relationships whose own
      `files` is `[0]`, is `[1]`, or has more than one index; a relationship is judged by its
      own files, not by those of its endpoints. */
  lemma ProvenanceFilters(g: CombinedGraph)
    ensures forall e :: e in Apply(UniqueA, g).entities <==> e in g.entities && e.files == [0]
    ensures forall r :: r in Apply(UniqueA, g).relationships <==> r in g.relationships && r.files == [0]
    ensures forall e :: e in Apply(UniqueB, g).entities <==> e in g.entities && e.files == [1]
    ensures forall r :: r in Apply(UniqueB, g).relationships <==> r in g.relationships && r.files == [1]
    ensures forall e :: e in Apply(Shared, g).entities <==> e in g.entities && |e.files| > 1
    ensures forall r :: r in Apply(Shared, g).relationships <==> r in g.relationships && |r.files| > 1
  {
    forall e: Entity ensures OnlyIn(e.files, 0) <==> e.files == [0] {
      if OnlyIn(e.files, 0) { assert e.files == [e.files[0]]; }
    }
    forall e: Entity ensures OnlyIn(e.files, 1) <==> e.files == [1] {
      if OnlyIn(e.files, 1) { assert e.files == [e.files[0]]; }
    }
    forall r: Relationship ensures OnlyIn(r.files, 0) <==> r.files == [0] {
      if OnlyIn(r.files, 0) { assert r.files == [r.files[0]]; }
    }
    forall r: Relationship ensures OnlyIn(r.files, 1) <==> r.files == [1] {
      if OnlyIn(r.files, 1) { assert r.files == [r.files[0]]; }
    }
  }

  /** No entity is in two of the `uniqueA`, `uniqueB` and `shared` selections. */
  lemma ProvenanceFiltersDisjoint(g: CombinedGraph, e: Entity)
    ensures !(e in Apply(UniqueA, g).entities && e in Apply(UniqueB, g).entities)
    ensures !(e in Apply(UniqueA, g).entities && e in Apply(Shared, g).entities)
    ensures !(e in Apply(UniqueB, g).entities && e in Apply(Shared, g).entities)
  {
  }

  /** Some entity of `es` whose name or type mentions security is named `n`. */
  predicate SecurityNamed(es: seq<Entity>, n: string)
  {
    exists k :: 0 <= k < |es| && IsSecurity(es[k]) && es[k].name == n
  }

  /** `security` keeps the entities that share a name with an entity whose name or type
      mentions security, in either case, and the relationships with at least one endpoint
      among those names. */
  lemma SecurityFilter(g: CombinedGraph)
    ensures forall e :: e in Apply(Security, g).entities <==> e in g.entities && SecurityNamed(g.entities, e.name)
    ensures forall r :: r in Apply(Security, g).relationships <==>
      r in g.relationships && (SecurityNamed(g.entities, r.source) || SecurityNamed(g.entities, r.target))
  {
    var names := SecurityNames(g.entities);
    var v := Apply(Security, g);
    SecurityNamesMembers(g.entities);
    assert v.entities == Filter(g.entities, (e: Entity) => e.name in names);
    assert v.relationships == Filter(g.relationships, (r: Relationship) => r.source in names || r.target in names);
  }

  /** A name is among `secNames` exactly when some security entity carries it. */
  lemma SecurityNamesMembers(es: seq<Entity>)
    ensures forall n :: n in SecurityNames(es) <==> SecurityNamed(es, n)
  {
    var sec := Filter(es, IsSecurity);
    var names := SecurityNames(es);
    forall n ensures n in names <==> SecurityNamed(es, n) {
      if n in names {
        var j :| 0 <= j < |names| && names[j] == n;
        assert sec[j] in sec;
        var k :| 0 <= k < |es| && es[k] == sec[j];
      }
      if SecurityNamed(es, n) {
        var k :| 0 <= k < |es| && IsSecurity(es[k]) && es[k].name == n;
        assert es[k] in sec;
        var j :| 0 <= j < |sec| && sec[j] == es[k];
        assert names[j] == n;
      }
    }
  }

  /** `security` can keep a relationship whose other endpoint it dropped; the view then
      draws that endpoint as a placeholder whose type comes from the fallback table, not
      from the entity the graph had. */
  lemma SecurityDropsEndpoint()
    ensures var guard := Entity("Security model", "concept", [0], "", []);
      var coin := Entity("Bitcoin", "currency", [0], "", []);
      var rel := Relationship("Security model", "Bitcoin", "protects", [0]);
      var v := Apply(Security, CombinedGraph([], [guard, coin], [rel]));
      && v == View([guard], [rel])
      && Completed(ToGraphData(v)).entities == [Given(guard), Placeholder("Bitcoin", "concept")]
  {
    var guard := Entity("Security model", "concept", [0], "", []);
    var coin := Entity("Bitcoin", "currency", [0], "", []);
    var rel := Relationship("Security model", "Bitcoin", "protects", [0]);
    SecurityKeepsOneSide(guard, coin, rel);
    PlaceholderForDropped(guard, rel);
  }

  lemma SecurityKeepsOneSide(guard: Entity, coin: Entity, rel: Relationship)
    requires guard == Entity("Security model", "concept", [0], "", [])
    requires coin == Entity("Bitcoin", "currency", [0], "", [])
    requires rel == Relationship("Security model", "Bitcoin", "protects", [0])
    ensures Apply(Security, CombinedGraph([], [guard, coin], [rel])) == View([guard], [rel])
  {
    OnlyGuardIsSecurity(guard, coin);
    var names := SecurityNames([guard, coin]);
    var v := Apply(Security, CombinedGraph([], [guard, coin], [rel]));
    assert v.entities == Filter([guard, coin], (e: Entity) => e.name in names);
    assert v.relationships == Filter([rel], (r: Relationship) => r.source in names || r.target in names);
    assert v.entities == [guard] by {
      FilterTwo(guard, coin, (e: Entity) => e.name in names);
      FilterOne(guard, (e: Entity) => e.name in names);
    }
    assert v.relationships == [rel] by {
      FilterOne(rel, (r: Relationship) => r.source in names || r.target in names);
    }
  }

  lemma OnlyGuardIsSecurity(guard: Entity, coin: Entity)
    requires guard == Entity("Security model", "concept", [0], "", [])
    requires coin == Entity("Bitcoin", "currency", [0], "", [])
    ensures SecurityNames([guard, coin]) == ["Security model"]
  {
    GuardIsSecurity(guard);
    CoinIsNotSecurity(coin);
    FilterTwo(guard, coin, IsSecurity);
    FilterOne(guard, IsSecurity);
  }

  lemma GuardIsSecurity(guard: Entity)
    requires guard == Entity("Security model", "concept", [0], "", [])
    ensures IsSecurity(guard)
  {
    assert OccursAt(Lower(guard.name), "security", 0);
  }

  lemma CoinIsNotSecurity(coin: Entity)
    requires coin == Entity("Bitcoin", "currency", [0], "", [])
    ensures !IsSecurity(coin)
  {
    assert !OccursAt(Lower(coin.kind), "security", 0) by {
      assert Lower(coin.kind)[0..8][0] == 'c';
    }
  }

  lemma PlaceholderForDropped(guard: Entity, rel: Relationship)
    requires guard == Entity("Security model", "concept", [0], "", [])
    requires rel == Relationship("Security model", "Bitcoin", "protects", [0])
    ensures Completed(ToGraphData(View([guard], [rel]))).entities == [Given(guard), Placeholder("Bitcoin", "concept")]
  {
    var d := ToGraphData(View([guard], [rel]));
    assert d.entities == [Given(guard)];
    MissingOfDropped(guard, rel);
    BitcoinIsConcept();
    CompletedOneMissing(d, "Bitcoin");
  }

  lemma CompletedOneMissing(d: GraphData, n: string)
    requires Missing(d) == [n]
    ensures Completed(d).entities == d.entities + [Placeholder(n, Classify(n))]
  {
    assert Placeholders([n]) == [Placeholder(n, Classify(n))];
  }

  lemma MissingOfDropped(guard: Entity, rel: Relationship)
    requires guard == Entity("Security model", "concept", [0], "", [])
    requires rel == Relationship("Security model", "Bitcoin", "protects", [0])
    ensures Missing(ToGraphData(View([guard], [rel]))) == ["Bitcoin"]
  {
    var d := ToGraphData(View([guard], [rel]));
    assert d.entities == [Given(guard)];
    assert NameSet(d.entities) == {"Security model"} by {
      assert d.entities[0].Name() == "Security model";
    }
    var e := Endpoints([rel]);
    assert [rel][..0] == [];
    assert e == ["Security model", "Bitcoin"];
    DedupOfDistinct(e);
    FilterTwo("Security model", "Bitcoin", NotIn({"Security model"}));
    FilterOne("Security model", NotIn({"Security model"}));
  }

  lemma BitcoinIsConcept()
    ensures Classify("Bitcoin") == "concept"
  {
    assert |"Bitcoin"| == 7;
    assert "Bitcoin" !in TypeTable;
  }

  lemma FilterOne<T(!new)>(x: T, p: T -> bool)
    ensures Filter([x], p) == if p(x) then [x] else []
  {
    assert [x][..0] == [];
  }

  lemma FilterTwo<T(!new)>(x: T, y: T, p: T -> bool)
    ensures Filter([x, y], p) == Filter([x], p) + if p(y) then [y] else []
  {
    assert [x, y][..1] == [x];
  }
}
