/** The network view's pure rules: the node and link records handed to the drawing, the
    radius and label rule, the list of types behind the colour legend, and the styles the
    hover handlers give to links, link labels and node circles. The force simulation and
    the drawing itself are not part of this model. */
module GraphView {
  import opened Ordered
  import opened KnowledgeGraph
  import opened Completer

  /** A node as the simulation receives it; its `id` is its name. */
  datatype ViewNode = ViewNode(id: string, name: string, kind: string, radius: nat)

  /** A link; after the link force has resolved it, its ends are the nodes whose `id` is
      `source` and `target`. */
  datatype ViewLink = ViewLink(source: string, target: string, kind: string)

  const AnchorNames: seq<string> := ["Bitcoin", "Proof-of-Work", "Blockchain"]

  /** The radius of a node: 15 for the three anchor names, 10 for every other name. */
  function Radius(name: string): (r: nat)
    ensures r == 15 || r == 10
    ensures r == 15 <==> name in AnchorNames
  {
    if name in AnchorNames then 15 else 10
  }

  function NodeOf(e: Node): (v: ViewNode)
    ensures v.id == v.name == e.Name() && v.kind == e.Kind()
  {
    ViewNode(e.Name(), e.Name(), e.Kind(), Radius(e.Name()))
  }

  /** `entities.map(entity => ({ id, name, type, radius }))`. */
  function Nodes(entities: seq<Node>): (vs: seq<ViewNode>)
    ensures |vs| == |entities|
    ensures forall i :: 0 <= i < |entities| ==> vs[i] == NodeOf(entities[i])
  {
    seq(|entities|, i requires 0 <= i < |entities| => NodeOf(entities[i]))
  }

  /** `relationships.map(rel => ({ source, target, type }))`. */
  function Links(rels: seq<Relationship>): (ls: seq<ViewLink>)
    ensures |ls| == |rels|
    ensures forall i :: 0 <= i < |rels| ==> ls[i] == ViewLink(rels[i].source, rels[i].target, rels[i].kind)
  {
    seq(|rels|, i requires 0 <= i < |rels| => ViewLink(rels[i].source, rels[i].target, rels[i].kind))
  }

  /** The font of a node's label. */
  datatype Font = Font(size: string, weight: string)

  function LabelFont(radius: nat): Font
  {
    if radius > 10 then Font("12px", "bold") else Font("10px", "normal")
  }

  /** A node's label is 12px bold exactly for the anchor names, and 10px normal otherwise. */
  lemma LabelFontOfNode(e: Node)
    ensures LabelFont(NodeOf(e).radius) == Font("12px", "bold") <==> e.Name() in AnchorNames
    ensures LabelFont(NodeOf(e).radius) == Font("10px", "normal") <==> e.Name() !in AnchorNames
  {
  }

  /** The ids of a list of nodes. */
  function Ids(vs: seq<ViewNode>): set<string>
  {
    set i | 0 <= i < |vs| :: vs[i].id
  }

  /** On the completed data every link finds both of its nodes, so the link force never meets
      an unknown id. */
  lemma LinksResolve(d: GraphData)
    ensures var c := Completed(d);
      forall l :: l in Links(c.relationships) ==> l.source in Ids(Nodes(c.entities)) && l.target in Ids(Nodes(c.entities))
  {
    var c := Completed(d);
    CompletedIsClosed(d);
    assert Ids(Nodes(c.entities)) == NameSet(c.entities) by {
      var vs := Nodes(c.entities);
      forall n | n in NameSet(c.entities) ensures n in Ids(vs) {
        var k :| 0 <= k < |c.entities| && c.entities[k].Name() == n;
        assert vs[k].id == n;
      }
      forall n | n in Ids(vs) ensures n in NameSet(c.entities) {
        var k :| 0 <= k < |vs| && vs[k].id == n;
        assert c.entities[k].Name() == n;
      }
    }
    forall l | l in Links(c.relationships)
      ensures l.source in NameSet(c.entities) && l.target in NameSet(c.entities)
    {
      var k :| 0 <= k < |c.relationships| && Links(c.relationships)[k] == l;
      assert c.relationships[k] in c.relationships;
    }
  }

  // ---------------------------------------------------------------------------
  // The legend.

  function Kinds(entities: seq<Node>): (ks: seq<string>)
    ensures |ks| == |entities|
    ensures forall i :: 0 <= i < |entities| ==> ks[i] == entities[i].Kind()
  {
    seq(|entities|, i requires 0 <= i < |entities| => entities[i].Kind())
  }

  /** `[...new Set(entities.map(e => e.type))]`. */
  function EntityTypes(entities: seq<Node>): seq<string>
  {
    Dedup(Kinds(entities))
  }

  /** The types listed are the types of the entities, each once, in the order in which the
      entities first show them. */
  lemma EntityTypesSpec(entities: seq<Node>)
    ensures Distinct(EntityTypes(entities))
    ensures forall t :: t in EntityTypes(entities) <==> exists i :: 0 <= i < |entities| && entities[i].Kind() == t
    ensures forall i, j :: 0 <= i < j < |EntityTypes(entities)| ==>
      FirstIndex(Kinds(entities), EntityTypes(entities)[i]) < FirstIndex(Kinds(entities), EntityTypes(entities)[j])
  {
    var ks := Kinds(entities);
    forall t | exists i :: 0 <= i < |entities| && entities[i].Kind() == t ensures t in ks {
      var i :| 0 <= i < |entities| && entities[i].Kind() == t;
      assert ks[i] == t;
    }
    forall i, j | 0 <= i < j < |EntityTypes(entities)|
      ensures FirstIndex(ks, EntityTypes(entities)[i]) < FirstIndex(ks, EntityTypes(entities)[j])
    {
      DedupFirstOccurrenceOrder(ks, i, j);
    }
  }

  /** One legend row: its type and its vertical offset. */
  datatype LegendRow = LegendRow(kind: string, offset: nat)

  /** `entityTypes.forEach((type, i) => ... translate(0, ${i * 20}) ...)`. */
  function Legend(entities: seq<Node>): (rows: seq<LegendRow>)
    ensures |rows| == |EntityTypes(entities)|
  {
    var types := EntityTypes(entities);
    seq(|types|, i requires 0 <= i < |types| => LegendRow(types[i], i * 20))
  }

  /** Every entity's type has exactly one legend row; rows are 20 units apart, the first at 0. */
  lemma LegendSpec(entities: seq<Node>)
    ensures forall i :: 0 <= i < |entities| ==>
      exists k :: 0 <= k < |Legend(entities)| && Legend(entities)[k].kind == entities[i].Kind()
    ensures forall k, m :: 0 <= k < m < |Legend(entities)| ==> Legend(entities)[k].kind != Legend(entities)[m].kind
    ensures forall k :: 0 <= k < |Legend(entities)| ==> Legend(entities)[k].offset == 20 * k
  {
    var rows := Legend(entities);
    var types := EntityTypes(entities);
    EntityTypesSpec(entities);
    forall i | 0 <= i < |entities|
      ensures exists k :: 0 <= k < |rows| && rows[k].kind == entities[i].Kind()
    {
      assert entities[i].Kind() in types;
      var k :| 0 <= k < |types| && types[k] == entities[i].Kind();
      assert rows[k].kind == types[k];
    }
    forall k, m | 0 <= k < m < |rows| ensures rows[k].kind != rows[m].kind {
      assert rows[k].kind == types[k] && rows[m].kind == types[m];
    }
  }

  // ---------------------------------------------------------------------------
  // Hover highlighting.

  datatype LinkStyle = LinkStyle(stroke: string, width: real, opacity: real)
  datatype LabelStyle = LabelStyle(weight: string, fill: string, size: string)
  datatype CircleStyle = CircleStyle(stroke: string, width: real)

  /** The styles of every link, every link label and every node circle. */
  datatype Styles = Styles(links: seq<LinkStyle>, labels: seq<LabelStyle>, circles: seq<CircleStyle>)

  const InitialLink := LinkStyle("#999", 2.0, 0.6)
  const HighlightedLink := LinkStyle("#ff6600", 3.0, 1.0)
  const DimmedLink := LinkStyle("#999", 1.5, 0.3)
  const ResetLink := LinkStyle("#999", 1.5, 0.6)
  /** A link label as drawn: weight unset, which renders as normal. */
  const PlainLabel := LabelStyle("normal", "#666", "8px")
  const HighlightedLabel := LabelStyle("bold", "#ff6600", "10px")
  const PlainCircle := CircleStyle("#fff", 1.5)
  const HoveredCircle := CircleStyle("#ff6600", 3.0)

  /** A link touches the node with id `id`. */
  predicate Incident(l: ViewLink, id: string)
  {
    l.source == id || l.target == id
  }

  /** The styles as the graph is first drawn. */
  function InitialStyles(nodes: seq<ViewNode>, links: seq<ViewLink>): Styles
  {
    Styles(seq(|links|, _ => InitialLink), seq(|links|, _ => PlainLabel), seq(|nodes|, _ => PlainCircle))
  }

  /** The styles after the pointer enters node `k`. */
  function MouseOver(s: Styles, nodes: seq<ViewNode>, links: seq<ViewLink>, k: nat): Styles
    requires k < |nodes| == |s.circles|
  {
    var id := nodes[k].id;
    Styles(
      seq(|links|, i requires 0 <= i < |links| => if Incident(links[i], id) then HighlightedLink else DimmedLink),
      seq(|links|, i requires 0 <= i < |links| => if Incident(links[i], id) then HighlightedLabel else PlainLabel),
      s.circles[k := HoveredCircle])
  }

  /** The styles after the pointer leaves node `k`. */
  function MouseOut(s: Styles, k: nat): Styles
    requires k < |s.circles|
  {
    Styles(seq(|s.links|, _ => ResetLink), seq(|s.labels|, _ => PlainLabel), s.circles[k := PlainCircle])
  }

  /** Hovering a node highlights exactly the links that touch it, and their labels, and dims
      every other link; of the circles only the hovered one changes. */
  lemma MouseOverHighlightsIncident(s: Styles, nodes: seq<ViewNode>, links: seq<ViewLink>, k: nat)
    requires k < |nodes| == |s.circles|
    ensures var h := MouseOver(s, nodes, links, k);
      && |h.links| == |h.labels| == |links|
      && (forall i :: 0 <= i < |links| ==>
            (h.links[i] == HighlightedLink <==> Incident(links[i], nodes[k].id))
            && (h.links[i] == DimmedLink <==> !Incident(links[i], nodes[k].id))
            && (h.labels[i] == HighlightedLabel <==> Incident(links[i], nodes[k].id)))
      && h.circles[k] == HoveredCircle
      && forall j :: 0 <= j < |nodes| && j != k ==> h.circles[j] == s.circles[j]
  {
  }

  /** Entering and leaving a node puts the circles and link labels back as they were drawn,
      but leaves every link at width 1.5 where it was drawn at width 2. */
  lemma HoverThenLeave(nodes: seq<ViewNode>, links: seq<ViewLink>, k: nat)
    requires k < |nodes|
    ensures var s0 := InitialStyles(nodes, links);
      var s1 := MouseOut(MouseOver(s0, nodes, links, k), k);
      && s1.circles == s0.circles
      && s1.labels == s0.labels
      && (forall i :: 0 <= i < |links| ==> s1.links[i] == ResetLink && s0.links[i] == InitialLink)
      && (links != [] ==> s1.links != s0.links)
  {
    var s0 := InitialStyles(nodes, links);
    var s1 := MouseOut(MouseOver(s0, nodes, links, k), k);
    if links != [] {
      assert s1.links[0].width != s0.links[0].width;
    }
  }
}
