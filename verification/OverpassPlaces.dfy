/** Places: the region that a query's boxes and around filter come to, and which
    ways and relations have a part in it, worked out upwards or downwards. */
module OverpassPlaces {
  import opened Wrappers
  import opened Osm
  import opened Ql
  import opened OverpassMeaning
  import opened MapSource

  // ----- Boxes -----

  lemma IntersectIsBoth(a: Bbox, b: Bbox, n: Element)
    ensures InBox(Intersect(a, b), n) <==> InBox(a, n) && InBox(b, n)
  {
  }

  lemma {:induction false} IntersectAllIsAll(boxes: seq<Bbox>, n: Element)
    requires |boxes| > 0
    ensures InBox(IntersectAll(boxes), n) <==> forall i :: 0 <= i < |boxes| ==> InBox(boxes[i], n)
  {
    if |boxes| > 1 {
      var init := boxes[..|boxes| - 1];
      IntersectAllIsAll(init, n);
      IntersectIsBoth(IntersectAll(init), boxes[|boxes| - 1], n);
      assert forall i :: 0 <= i < |init| ==> init[i] == boxes[i];
    }
  }

  /** A node is in the common area exactly when it is in every box. */
  lemma CommonBoxIsAll(boxes: seq<Bbox>, n: Element)
    requires |boxes| > 0
    ensures (forall i :: 0 <= i < |boxes| ==> InBox(boxes[i], n)) <==>
      CommonBox(boxes).Some? && InBox(CommonBox(boxes).value, n)
  {
    IntersectAllIsAll(boxes, n);
  }

  lemma {:induction false} FilterBoxesAre(filters: seq<Filter>, n: Element)
    ensures (forall i :: 0 <= i < |FilterBoxes(filters)| ==> InBox(FilterBoxes(filters)[i], n)) <==>
      forall f :: f in filters && f.BboxQuery? ==> InBox((f.south, f.west, f.north, f.east), n)
    ensures |FilterBoxes(filters)| > 0 <==> exists f :: f in filters && f.BboxQuery?
  {
    if |filters| > 0 {
      var init, f := filters[..|filters| - 1], filters[|filters| - 1];
      FilterBoxesAre(init, n);
      var boxes, before := FilterBoxes(filters), FilterBoxes(init);
      assert filters == init + [f];
      assert forall i :: 0 <= i < |before| ==> boxes[i] == before[i];
      assert f.BboxQuery? ==> boxes[|before|] == (f.south, f.west, f.north, f.east);
    }
  }

  /** A node is in the common area of a query's boxes exactly when it is in each of them. */
  lemma BoxesAre(globalBbox: Option<Bbox>, filters: seq<Filter>, n: Element)
    ensures
      var boxes := Boxes(globalBbox, filters);
      && (|boxes| > 0 <==> globalBbox.Some? || exists f :: f in filters && f.BboxQuery?)
      && ((|boxes| > 0 ==> CommonBox(boxes).Some? && InBox(CommonBox(boxes).value, n)) <==>
            (globalBbox.Some? ==> InBox(globalBbox.value, n)) &&
            forall f :: f in filters && f.BboxQuery? ==> InBox((f.south, f.west, f.north, f.east), n))
  {
    var boxes, before := Boxes(globalBbox, filters), FilterBoxes(filters);
    FilterBoxesAre(filters, n);
    assert forall i :: 0 <= i < |before| ==> boxes[i] == before[i];
    assert globalBbox.Some? ==> boxes[|before|] == globalBbox.value;
    if |boxes| > 0 {
      CommonBoxIsAll(boxes, n);
    }
  }

  // ----- The region of a query -----

  function Arounds(filters: seq<Filter>): seq<Filter> {
    if |filters| == 0 then []
    else
      Arounds(filters[..|filters| - 1]) + (if filters[|filters| - 1].Around? then [filters[|filters| - 1]] else [])
  }

  lemma {:induction false} AroundsAre(filters: seq<Filter>)
    ensures forall f :: f in Arounds(filters) <==> f in filters && f.Around?
  {
    if |filters| > 0 {
      AroundsAre(filters[..|filters| - 1]);
      assert filters == filters[..|filters| - 1] + [filters[|filters| - 1]];
    }
  }

  /** The region that a query looks in, if it names a place at all. */
  ghost predicate IsRegionOf(w: World, env: Env, globalBbox: Option<Bbox>, filters: seq<Filter>, region: Option<Region>)
    requires EnvInMap(w.data, env)
  {
    var boxes, arounds := Boxes(globalBbox, filters), Arounds(filters);
    && |arounds| <= 1
    && (|boxes| > 0 ==> CommonBox(boxes).Some?)
    && (forall i :: 0 <= i < |arounds| ==> arounds[i].Around?)
    && region ==
      if |boxes| == 0 && |arounds| == 0 then None
      else Some(Region(CommonBox(boxes),
                       if |arounds| > 0 then Some((arounds[0].radius, Positions(w, env, arounds[0]))) else None))
  }

  /** A node is in the region exactly when it meets every place the query names. */
  lemma RegionIsPlaces(w: World, env: Env, globalBbox: Option<Bbox>, filters: seq<Filter>, region: Option<Region>,
                       n: Element)
    requires EnvInMap(w.data, env) && IsRegionOf(w, env, globalBbox, filters, region)
    ensures region.Some? <==> NamesPlace(globalBbox, filters)
    ensures region.Some? ==> (InRegion(w, region.value, n) <==> InPlace(w, env, globalBbox, filters, n))
  {
    BoxesAre(globalBbox, filters, n);
    AroundsAre(filters);
    var arounds := Arounds(filters);
    assert |arounds| > 0 ==> arounds[0] in arounds;
    assert forall f :: f in arounds ==> f == arounds[0];
  }

  /** Boxes with nothing in common, or nothing to be near, leave no place to be. */
  lemma NoPlaceToBe(w: World, env: Env, globalBbox: Option<Bbox>, filters: seq<Filter>, n: Element)
    requires EnvInMap(w.data, env)
    requires
      || (|Boxes(globalBbox, filters)| > 0 && CommonBox(Boxes(globalBbox, filters)).None?)
      || (exists f :: f in filters && f.Around? && Positions(w, env, f) == {})
    ensures NamesPlace(globalBbox, filters) && !InPlace(w, env, globalBbox, filters, n)
  {
    BoxesAre(globalBbox, filters, n);
  }

  // ----- Having a part in a region -----

  ghost predicate PartIn(w: World, region: Region, kind: Kind, e: Element) {
    exists n :: n in NodesOf(w.data, kind, e) && n in w.data.node && InRegion(w, region, w.data.node[n])
  }

  /** The nodes of a region. */
  ghost function NodesIn(w: World, region: Region): set<int> {
    set n | n in w.data.node && InRegion(w, region, w.data.node[n])
  }

  /** A way with one of some nodes. */
  predicate UsesAny(way: Element, nodes: set<int>) {
    exists i :: 0 <= i < |way.refs| && way.refs[i] in nodes
  }

  /** A relation with one of some nodes, or with a way that has one. */
  predicate ReachesAny(m: MapData, relation: Element, nodes: set<int>) {
    exists i :: 0 <= i < |relation.members| &&
      (if relation.members[i].kind.Node? then relation.members[i].ref in nodes
       else relation.members[i].kind.Way? && relation.members[i].ref in m.way
            && UsesAny(m.way[relation.members[i].ref], nodes))
  }

  /** Enough of a region's nodes: those that any of an object's parts could be. */
  ghost predicate Covers(w: World, region: Region, nodes: set<int>, parts: set<int>) {
    && nodes <= NodesIn(w, region)
    && NodesIn(w, region) * parts <= nodes
  }

  lemma WayHasPart(w: World, region: Region, way: Element, nodes: set<int>)
    requires Covers(w, region, nodes, LiveRefs(w.data, way))
    ensures UsesAny(way, nodes) <==> PartIn(w, region, Way, way)
  {
    if UsesAny(way, nodes) {
      var i :| 0 <= i < |way.refs| && way.refs[i] in nodes;
      var n := way.refs[i];
      assert n in NodesIn(w, region) && n in NodesOf(w.data, Way, way);
      assert n in w.data.node && InRegion(w, region, w.data.node[n]);
    }
    if PartIn(w, region, Way, way) {
      var n :| n in NodesOf(w.data, Way, way) && n in w.data.node && InRegion(w, region, w.data.node[n]);
      assert n in NodesIn(w, region) * LiveRefs(w.data, way) && n in nodes;
      var i :| 0 <= i < |way.refs| && way.refs[i] == n;
      assert way.refs[i] in nodes;
    }
  }

  lemma RelationHasPart(w: World, region: Region, relation: Element, nodes: set<int>)
    requires Covers(w, region, nodes, NodesOf(w.data, Relation, relation))
    ensures ReachesAny(w.data, relation, nodes) <==> PartIn(w, region, Relation, relation)
  {
    var m := w.data;
    if ReachesAny(m, relation, nodes) {
      var i :| 0 <= i < |relation.members| &&
        (if relation.members[i].kind.Node? then relation.members[i].ref in nodes
         else relation.members[i].kind.Way? && relation.members[i].ref in m.way
              && UsesAny(m.way[relation.members[i].ref], nodes));
      var c := relation.members[i];
      if c.kind.Node? {
        assert c.ref in NodesIn(w, region) && c.ref in NodesOf(m, Relation, relation);
      } else {
        var j :| 0 <= j < |m.way[c.ref].refs| && m.way[c.ref].refs[j] in nodes;
        var n := m.way[c.ref].refs[j];
        assert n in NodesIn(w, region) && n in LiveRefs(m, m.way[c.ref]);
        assert n in NodesOf(m, Relation, relation);
      }
    }
    if PartIn(w, region, Relation, relation) {
      PartReached(w, region, relation, nodes);
    }
  }

  lemma PartReached(w: World, region: Region, relation: Element, nodes: set<int>)
    requires Covers(w, region, nodes, NodesOf(w.data, Relation, relation))
    requires PartIn(w, region, Relation, relation)
    ensures ReachesAny(w.data, relation, nodes)
  {
    var m := w.data;
    var n :| n in NodesOf(m, Relation, relation) && n in m.node && InRegion(w, region, m.node[n]);
    assert n in NodesIn(w, region) * NodesOf(m, Relation, relation) && n in nodes;
    if i :| 0 <= i < |relation.members| && relation.members[i].kind == Node && relation.members[i].ref == n {
      assert relation.members[i].ref in nodes;
    } else {
      var i :| 0 <= i < |relation.members| && relation.members[i].kind == Way && relation.members[i].ref in m.way
        && n in LiveRefs(m, m.way[relation.members[i].ref]);
      var way := m.way[relation.members[i].ref];
      var j :| 0 <= j < |way.refs| && way.refs[j] == n;
      assert UsesAny(way, nodes);
    }
  }

  /** Working up from a region's nodes finds exactly the ways with a part in it. */
  lemma ReachedWays(w: World, region: Region, id: int)
    requires id in w.data.way
    ensures id in WaysOfNodes(w.data, NodesIn(w, region)) <==> PartIn(w, region, Way, w.data.way[id])
  {
    WayHasPart(w, region, w.data.way[id], NodesIn(w, region));
  }

  /** Relations found from those nodes, and from the ways through them, are exactly the relations
      with a part inside. */
  lemma ReachedRelations(w: World, region: Region, id: int)
    requires id in w.data.relation
    ensures
      var nodes := NodesIn(w, region);
      id in RelationsOf(w.data, Node, nodes) + RelationsOf(w.data, Way, WaysOfNodes(w.data, nodes)) <==>
      PartIn(w, region, Relation, w.data.relation[id])
  {
    var m, nodes, e := w.data, NodesIn(w, region), w.data.relation[id];
    RelationHasPart(w, region, e, nodes);
    if ReachesAny(m, e, nodes) {
      var i :| 0 <= i < |e.members| &&
        (if e.members[i].kind.Node? then e.members[i].ref in nodes
         else e.members[i].kind.Way? && e.members[i].ref in m.way && UsesAny(m.way[e.members[i].ref], nodes));
      if e.members[i].kind.Node? {
        assert HasMemberAmong(e, Node, nodes);
      } else {
        assert e.members[i].ref in WaysOfNodes(m, nodes);
        assert HasMemberAmong(e, Way, WaysOfNodes(m, nodes));
      }
    }
  }
}
