/** Which positions are read for objects: to draw them, or to measure a distance from them. */
module Shapes {
  import opened Wrappers
  import opened Osm
  import opened Sets
  import opened Ql
  import opened OverpassMeaning
  import opened OverpassScript
  import opened MapSource

  lemma MemberWaysAreFew(m: MapData, limits: Limits, relations: set<int>, known: set<int>)
    ensures Roomy(m, limits) ==> |MembersOf(m, relations, Way, None) - known| <= limits.maxElements
  {
    if Roomy(m, limits) {
      assert MembersOf(m, relations, Way, None) <= MembersOf(m, m.relation.Keys, Way, None);
      SubsetSize(MembersOf(m, relations, Way, None) - known, Known(m).way);
    }
  }

  lemma NeededAreFew(m: MapData, limits: Limits, ways: set<int>, memberWays: set<int>, relations: set<int>, coords: set<int>)
    ensures Roomy(m, limits) ==>
      |MembersOf(m, relations, Node, None) + RefsOf(m, ways) + RefsOf(m, memberWays) - coords| <= limits.maxElements
  {
    if Roomy(m, limits) {
      assert MembersOf(m, relations, Node, None) <= MembersOf(m, m.relation.Keys, Node, None);
      assert RefsOf(m, ways) <= RefsOf(m, m.way.Keys) && RefsOf(m, memberWays) <= RefsOf(m, m.way.Keys);
      SubsetSize(MembersOf(m, relations, Node, None) + RefsOf(m, ways) + RefsOf(m, memberWays) - coords, Known(m).node);
    }
  }

  /** The shape of the given ways and relations of a set: the nodes with a position, and the ways
      with their nodes. */
  method ResolveGeometry(source: Source, s: Ids, ways: set<int>, relations: set<int>) returns (r: Result<Shape, QueryError>)
    ensures r.Success? ==> r.value == ShapeOf(source.w.data, s, ways, relations)
    ensures r.Failure? ==> r.error == TooManyElements && !Roomy(source.w.data, source.limits)
  {
    hide MembersOf, RefsOf, Roomy;
    var m, limits := source.w.data, source.limits;
    var memberWays := MembersOf(m, relations, Way, None);
    var missingWays := memberWays - s.way;
    MemberWaysAreFew(m, limits, relations, s.way);
    if |missingWays| > limits.maxElements {
      return Failure(TooManyElements);
    }
    var read := source.ByIds(Way, missingWays);
    var known := s.way + read.GetOr({}); // So few can always be read
    var needed := MembersOf(m, relations, Node, None) + RefsOf(m, ways) + RefsOf(m, memberWays * known) - s.node;
    NeededAreFew(m, limits, ways, memberWays * known, relations, s.node);
    if |needed| > limits.maxElements {
      return Failure(TooManyElements);
    }
    var nodes := source.ByIds(Node, needed);
    assert known == s.way + (memberWays * m.way.Keys);
    var shape := Shape(s.node + nodes.GetOr({}), known);
    assert shape.coords == ShapeOf(m, s, ways, relations).coords;
    return Success(shape);
  }

  // ----- Measuring from a set -----

  function PositionOf(m: MapData, n: int): Position
    requires n in m.node
  {
    (m.node[n].lat, m.node[n].lon)
  }

  predicate ShapeInMap(m: MapData, shape: Shape) {
    shape.coords <= m.node.Keys && shape.ways <= m.way.Keys
  }

  function WayPoints(m: MapData, shape: Shape, refs: seq<int>): set<Position>
    requires ShapeInMap(m, shape)
  {
    set ref | ref in refs && ref in shape.coords :: PositionOf(m, ref)
  }

  /** The positions that the shape has for one object. */
  function ElementPoints(m: MapData, shape: Shape, kind: Kind, e: Element): set<Position>
    requires ShapeInMap(m, shape)
  {
    match kind
    case Node => {(e.lat, e.lon)}
    case Way => WayPoints(m, shape, e.refs)
    case Relation =>
      (set i | 0 <= i < |e.members| && e.members[i].kind == Node && e.members[i].ref in shape.coords
        :: PositionOf(m, e.members[i].ref)) +
      (set i, p | 0 <= i < |e.members| && e.members[i].kind == Way && e.members[i].ref in shape.ways
        && p in WayPoints(m, shape, m.way[e.members[i].ref].refs) :: p)
  }

  /** The positions of an object's nodes. */
  ghost function PointsOf(m: MapData, kind: Kind, e: Element): set<Position> {
    set n | n in NodesOf(m, kind, e) && n in m.node :: PositionOf(m, n)
  }

  /** A shape knows of an object what there is to know. */
  ghost predicate Shows(m: MapData, shape: Shape, kind: Kind, e: Element) {
    && NodesOf(m, kind, e) * m.node.Keys <= shape.coords
    && (kind.Relation? ==> forall i :: 0 <= i < |e.members| && e.members[i].kind == Way && e.members[i].ref in m.way ==>
          e.members[i].ref in shape.ways)
  }

  lemma WayPointsAre(m: MapData, shape: Shape, way: Element)
    requires ShapeInMap(m, shape) && LiveRefs(m, way) <= shape.coords
    ensures forall p :: p in WayPoints(m, shape, way.refs) <==>
      exists n :: n in LiveRefs(m, way) && PositionOf(m, n) == p
  {
    forall p | p in WayPoints(m, shape, way.refs)
      ensures exists n :: n in LiveRefs(m, way) && PositionOf(m, n) == p
    {
      var n :| n in way.refs && n in shape.coords && PositionOf(m, n) == p;
      assert n in LiveRefs(m, way);
    }
    forall n | n in LiveRefs(m, way)
      ensures PositionOf(m, n) in WayPoints(m, shape, way.refs)
    {
    }
  }

  lemma ElementPointsAre(m: MapData, shape: Shape, kind: Kind, id: int)
    requires WellFormed(m) && id in m.Of(kind) && ShapeInMap(m, shape) && Shows(m, shape, kind, m.Of(kind)[id])
    ensures ElementPoints(m, shape, kind, m.Of(kind)[id]) == PointsOf(m, kind, m.Of(kind)[id])
  {
    var e := m.Of(kind)[id];
    if kind.Way? {
      WayPointsAre(m, shape, e);
    } else if kind.Relation? {
      forall p | p in ElementPoints(m, shape, kind, e)
        ensures p in PointsOf(m, kind, e)
      {
        RelationPointIs(m, shape, e, p);
      }
      forall n | n in NodesOf(m, kind, e) && n in m.node
        ensures PositionOf(m, n) in ElementPoints(m, shape, kind, e)
      {
        RelationHasPoint(m, shape, e, n);
      }
    }
  }

  lemma RelationPointIs(m: MapData, shape: Shape, e: Element, p: Position)
    requires ShapeInMap(m, shape) && p in ElementPoints(m, shape, Relation, e)
    ensures p in PointsOf(m, Relation, e)
  {
    var nodes := set i | 0 <= i < |e.members| && e.members[i].kind == Node && e.members[i].ref in shape.coords
      :: PositionOf(m, e.members[i].ref);
    if p in nodes {
      var i :| 0 <= i < |e.members| && e.members[i].kind == Node && e.members[i].ref in shape.coords
        && PositionOf(m, e.members[i].ref) == p;
      assert e.members[i].ref in NodesOf(m, Relation, e);
    } else {
      var i :| 0 <= i < |e.members| && e.members[i].kind == Way && e.members[i].ref in shape.ways
        && p in WayPoints(m, shape, m.way[e.members[i].ref].refs);
      var way := m.way[e.members[i].ref];
      var n :| n in way.refs && n in shape.coords && PositionOf(m, n) == p;
      assert n in LiveRefs(m, way);
      assert n in NodesOf(m, Relation, e);
    }
  }

  lemma RelationHasPoint(m: MapData, shape: Shape, e: Element, n: int)
    requires ShapeInMap(m, shape) && Shows(m, shape, Relation, e)
    requires n in NodesOf(m, Relation, e) && n in m.node
    ensures PositionOf(m, n) in ElementPoints(m, shape, Relation, e)
  {
    assert n in shape.coords;
    if i :| 0 <= i < |e.members| && e.members[i].kind == Node && e.members[i].ref == n {
      assert PositionOf(m, e.members[i].ref) in ElementPoints(m, shape, Relation, e);
    } else {
      var i :| 0 <= i < |e.members| && e.members[i].kind == Way && e.members[i].ref in m.way
        && n in LiveRefs(m, m.way[e.members[i].ref]);
      assert n in m.way[e.members[i].ref].refs;
      assert PositionOf(m, n) in WayPoints(m, shape, m.way[e.members[i].ref].refs);
    }
  }

  lemma RelationShown(m: MapData, s: Ids, e: Element)
    requires WellFormed(m) && InMap(m, s) && e.id in s.relation && m.relation[e.id] == e
    ensures Shows(m, ShapeOf(m, s, s.way, s.relation), Relation, e)
  {
    var shape := ShapeOf(m, s, s.way, s.relation);
    var memberWays := MembersOf(m, s.relation, Way, None);
    forall i | 0 <= i < |e.members|
      ensures e.members[i].ref in MembersOf(m, s.relation, e.members[i].kind, None)
    {
      assert RoleFits(None, e.members[i]);
    }
    forall n | n in NodesOf(m, Relation, e) && n in m.node
      ensures n in shape.coords
    {
      if !(exists i :: 0 <= i < |e.members| && e.members[i].kind == Node && e.members[i].ref == n) {
        var i :| 0 <= i < |e.members| && e.members[i].kind == Way && e.members[i].ref in m.way
          && n in LiveRefs(m, m.way[e.members[i].ref]);
        assert e.members[i].ref in memberWays * shape.ways;
        assert n in RefsOf(m, memberWays * shape.ways);
      }
    }
  }

  /** The shape of a whole set shows each of its objects. */
  lemma ShapeShows(m: MapData, s: Ids, kind: Kind, id: int)
    requires WellFormed(m) && InMap(m, s) && id in s.Of(kind)
    ensures ShapeInMap(m, ShapeOf(m, s, s.way, s.relation))
    ensures id in m.Of(kind) && Shows(m, ShapeOf(m, s, s.way, s.relation), kind, m.Of(kind)[id])
  {
    var e := m.Of(kind)[id];
    if kind.Way? {
      forall n | n in LiveRefs(m, e)
        ensures n in RefsOf(m, s.way)
      {
        assert id in s.way && id in m.way && n in m.way[id].refs;
      }
    } else if kind.Relation? {
      RelationShown(m, s, e);
    }
  }

  ghost function PointsOfAll(m: MapData, s: Ids, seen: set<(Kind, int)>): set<Position> {
    set x, p | x in seen && x.1 in s.Of(x.0) && x.1 in m.Of(x.0) && p in PointsOf(m, x.0, m.Of(x.0)[x.1]) :: p
  }

  function Everything(s: Ids): set<(Kind, int)> {
    (set id | id in s.node :: (Node, id)) + (set id | id in s.way :: (Way, id)) + (set id | id in s.relation :: (Relation, id))
  }

  lemma AllPointsArePositions(w: World, env: Env, f: Filter, s: Ids)
    requires f.Around? && f.position.None? && EnvInMap(w.data, env) && s == GetSet(env, f.from)
    ensures PointsOfAll(w.data, s, Everything(s)) == Positions(w, env, f)
  {
    var m := w.data;
    forall p | p in PointsOfAll(m, s, Everything(s))
      ensures p in Positions(w, env, f)
    {
      var x :| x in Everything(s) && x.1 in s.Of(x.0) && x.1 in m.Of(x.0) && p in PointsOf(m, x.0, m.Of(x.0)[x.1]);
      var n :| n in NodesOf(m, x.0, m.Of(x.0)[x.1]) && n in m.node && PositionOf(m, n) == p;
    }
    forall p | p in Positions(w, env, f)
      ensures p in PointsOfAll(m, s, Everything(s))
    {
      var k, id, n :| id in s.Of(k) && id in m.Of(k) && n in NodesOf(m, k, m.Of(k)[id]) && n in m.node
        && (m.node[n].lat, m.node[n].lon) == p;
      assert (k, id) in Everything(s);
      assert PositionOf(m, n) in PointsOf(m, k, m.Of(k)[id]);
    }
  }

  lemma OneMorePoint(m: MapData, s: Ids, seen: set<(Kind, int)>, x: (Kind, int))
    requires x.1 in s.Of(x.0) && x.1 in m.Of(x.0)
    ensures PointsOfAll(m, s, seen + {x}) == PointsOfAll(m, s, seen) + PointsOf(m, x.0, m.Of(x.0)[x.1])
  {
    hide PointsOf;
  }

  lemma {:induction false} ImageIsFew(m: MapData, nodes: set<int>)
    requires nodes <= m.node.Keys
    ensures |set n | n in nodes :: PositionOf(m, n)| <= |nodes|
    decreases |nodes|
  {
    var image := set n | n in nodes :: PositionOf(m, n);
    if nodes == {} {
      assert image == {};
    } else {
      var x := AnyOf(nodes);
      ImageIsFew(m, nodes - {x});
      var rest := set n | n in nodes - {x} :: PositionOf(m, n);
      assert image == rest + {PositionOf(m, x)};
    }
  }

  lemma PositionsAreFew(w: World, env: Env, f: Filter)
    requires f.Around? && f.position.None? && EnvInMap(w.data, env)
    ensures |Positions(w, env, f)| <= |w.data.node|
  {
    var m := w.data;
    ImageIsFew(m, m.node.Keys);
    var all := set n | n in m.node.Keys :: PositionOf(m, n);
    assert Positions(w, env, f) <= all;
    SubsetSize(Positions(w, env, f), all);
    assert |m.node| == |m.node.Keys|;
  }

  /** The set Positions of an around filter, or an error if it is too large. */
  method AroundPositions(source: Source, env: Env, f: Filter) returns (r: Result<set<Position>, QueryError>)
    requires f.Around? && WellFormed(source.w.data) && EnvInMap(source.w.data, env)
    ensures r.Success? ==> r.value == Positions(source.w, env, f)
    ensures r.Failure? ==>
      || (r.error == TooManyElements && !Roomy(source.w.data, source.limits))
      || (r.error == TooManyPositions && |source.w.data.node| > AROUND_POSITIONS_MAXIMUM)
  {
    if f.position.Some? {
      return Success({f.position.value});
    }
    hide ShapeOf, PointsOf, Positions, Roomy, PointsOfAll, Everything, ShapeInMap;
    var s := GetSet(env, f.from);
    var shape :- ResolveGeometry(source, s, s.way, s.relation);
    var positions := PointsOfEach(source.w.data, s, shape);
    AllPointsArePositions(source.w, env, f, s);
    PositionsAreFew(source.w, env, f);
    if |positions| > AROUND_POSITIONS_MAXIMUM {
      return Failure(TooManyPositions);
    }
    return Success(positions);
  }

  /** The positions of each of a set's objects. */
  method PointsOfEach(m: MapData, s: Ids, shape: Shape) returns (positions: set<Position>)
    requires WellFormed(m) && InMap(m, s) && shape == ShapeOf(m, s, s.way, s.relation)
    ensures positions == PointsOfAll(m, s, Everything(s))
  {
    hide ShapeOf, PointsOf, Shows, ElementPoints, PointsOfAll, ShapeInMap, WellFormed, InMap, Everything;
    positions := {};
    var rest := Everything(s);
    ghost var seen: set<(Kind, int)> := {};
    NoPoints(m, s);
    while rest != {}
      invariant seen + rest == Everything(s)
      invariant positions == PointsOfAll(m, s, seen)
      decreases |rest|
    {
      var x := Pick(rest);
      EverythingIsIn(m, s, x);
      ShapeShows(m, s, x.0, x.1);
      ElementPointsAre(m, shape, x.0, x.1);
      OneMorePoint(m, s, seen, x);
      positions := positions + ElementPoints(m, shape, x.0, m.Of(x.0)[x.1]);
      rest, seen := rest - {x}, seen + {x};
    }
    assert seen == Everything(s);
  }

  lemma NoPoints(m: MapData, s: Ids)
    ensures PointsOfAll(m, s, {}) == {}
  {
  }

  lemma EverythingIsIn(m: MapData, s: Ids, x: (Kind, int))
    requires InMap(m, s) && x in Everything(s)
    ensures x.1 in s.Of(x.0) && x.1 in m.Of(x.0)
  {
  }
}
