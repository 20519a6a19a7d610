/** What a query's answer holds, object by object and filter by filter, in terms
    of the map's own fields. */
module OverpassAnswers {
  import opened Wrappers
  import opened Osm
  import opened Ql
  import opened OverpassMeaning
  import opened OverpassPlaces
  import opened MapSource
  import opened Querying

  // ----- Links -----

  /** A member of a kind and ID, in the role that is asked for, if any is. */
  ghost predicate HasPart(e: Element, kind: Kind, id: int, role: Option<string>) {
    exists i :: 0 <= i < |e.members| && e.members[i].kind == kind && e.members[i].ref == id
      && (role == None || role == Some(e.members[i].role))
  }

  /** What each link leads to from a set: w from its ways to their nodes; r from its
      relations to their members; bn, bw and br from its nodes, ways and relations to
      the relations that have one as a member, and bn to the ways through one too. */
  ghost predicate LeadsTo(m: MapData, s: Ids, link: Link, role: Option<string>, kind: Kind, id: int) {
    match link
    case W => kind == Node && exists w :: w in s.way && w in m.way && id in m.way[w].refs
    case R => exists r :: r in s.relation && r in m.relation && HasPart(m.relation[r], kind, id, role)
    case Bn =>
      || (kind == Way && id in m.way && exists n :: n in s.node && n in m.way[id].refs)
      || (kind == Relation && id in m.relation && exists n :: n in s.node && HasPart(m.relation[id], Node, n, role))
    case Bw => kind == Relation && id in m.relation && exists w :: w in s.way && HasPart(m.relation[id], Way, w, role)
    case Br => kind == Relation && id in m.relation && exists r :: r in s.relation && HasPart(m.relation[id], Relation, r, role)
  }

  lemma MembersAre(m: MapData, relations: set<int>, kind: Kind, role: Option<string>, id: int)
    ensures id in MembersOf(m, relations, kind, role) <==>
      exists r :: r in relations && r in m.relation && HasPart(m.relation[r], kind, id, role)
  {
    if id in MembersOf(m, relations, kind, role) {
      var r, i :| r in relations && r in m.relation && 0 <= i < |m.relation[r].members|
        && m.relation[r].members[i].kind == kind && RoleFits(role, m.relation[r].members[i])
        && m.relation[r].members[i].ref == id;
      assert HasPart(m.relation[r], kind, id, role);
    }
  }

  lemma HoldsAnyIs(e: Element, kind: Kind, ids: set<int>, role: Option<string>)
    ensures HoldsAny(e, kind, ids, role) <==> exists x :: x in ids && HasPart(e, kind, x, role)
  {
    if HoldsAny(e, kind, ids, role) {
      var i :| 0 <= i < |e.members| && e.members[i].kind == kind && e.members[i].ref in ids && RoleFits(role, e.members[i]);
      assert HasPart(e, kind, e.members[i].ref, role);
    }
    if x :| x in ids && HasPart(e, kind, x, role) {
      var i :| 0 <= i < |e.members| && e.members[i].kind == kind && e.members[i].ref == x
        && (role == None || role == Some(e.members[i].role));
      assert RoleFits(role, e.members[i]);
    }
  }

  lemma WaysAre(m: MapData, nodes: set<int>, id: int)
    ensures id in WaysOfNodes(m, nodes) <==> id in m.way && exists n :: n in nodes && n in m.way[id].refs
  {
    if id in WaysOfNodes(m, nodes) {
      var i :| 0 <= i < |m.way[id].refs| && m.way[id].refs[i] in nodes;
      assert m.way[id].refs[i] in m.way[id].refs;
    }
    if id in m.way && exists n :: n in nodes && n in m.way[id].refs {
      var n :| n in nodes && n in m.way[id].refs;
      var i :| 0 <= i < |m.way[id].refs| && m.way[id].refs[i] == n;
    }
  }

  /** A filter by link allows exactly what the link leads to. */
  lemma LinkedIs(m: MapData, s: Ids, link: Link, role: Option<string>, kind: Kind, id: int)
    ensures id in Linked(m, s, link, role, kind) <==> LeadsTo(m, s, link, role, kind, id)
  {
    hide HasPart, HoldsAny, WaysOfNodes;
    match link
    case W =>
    case R => MembersAre(m, s.relation, kind, role, id);
    case Bn =>
      WaysAre(m, s.node, id);
      if id in m.relation {
        HoldsAnyIs(m.relation[id], Node, s.node, role);
      }
    case Bw =>
      if id in m.relation {
        HoldsAnyIs(m.relation[id], Way, s.way, role);
      }
    case Br =>
      if id in m.relation {
        HoldsAnyIs(m.relation[id], Relation, s.relation, role);
      }
  }

  // ----- Places -----

  predicate Holds(b: Bbox, lat: real, lon: real) {
    b.0 <= lat && lat <= b.2 && b.1 <= lon && lon <= b.3
  }

  /** A point is in the box of the script, and in that of each filter that has one. */
  predicate InEveryBox(globalBbox: Option<Bbox>, filters: seq<Filter>, lat: real, lon: real) {
    && (globalBbox.Some? ==> Holds(globalBbox.value, lat, lon))
    && (forall f :: f in filters && f.BboxQuery? ==> Holds((f.south, f.west, f.north, f.east), lat, lon))
  }

  /** A live node is part of an object: the node itself, one of a way, or one of a
      relation or of a live way in it. */
  ghost predicate PartNode(m: MapData, kind: Kind, id: int, n: int)
    requires id in m.Of(kind)
  {
    n in m.node &&
    match kind
    case Node => n == id
    case Way => n in m.way[id].refs
    case Relation =>
      || HasPart(m.relation[id], Node, n, None)
      || exists w :: w in m.way && HasPart(m.relation[id], Way, w, None) && n in m.way[w].refs
  }

  /** A point that an around filter measures from: the one that it gives, or a node
      that is part of an object of its set. */
  ghost predicate IsCentre(m: MapData, env: Env, f: Filter, p: Position)
    requires f.Around?
  {
    if f.position.Some? then p == f.position.value
    else exists kind: Kind, id, n :: f.from in env && id in env[f.from].Of(kind) && id in m.Of(kind)
           && PartNode(m, kind, id, n) && p == (m.node[n].lat, m.node[n].lon)
  }

  ghost predicate IsNear(w: World, env: Env, f: Filter, n: Element)
    requires f.Around?
  {
    exists p :: IsCentre(w.data, env, f, p) && w.near(f.radius, p, n)
  }

  /** A box is what all boxes of a query have in common, and not nothing. */
  ghost predicate IsCommon(globalBbox: Option<Bbox>, filters: seq<Filter>, b: Bbox) {
    && b.0 <= b.2 && b.1 <= b.3
    && forall lat, lon :: Holds(b, lat, lon) <==> InEveryBox(globalBbox, filters, lat, lon)
  }

  /** An object satisfies the places of a query. It has a node in every box and near a centre
      of every around filter; or, on a map that stores boxes and for a query of
      boxes alone, a way's or relation's box meets what these have in common. */
  ghost predicate IsThere(w: World, env: Env, globalBbox: Option<Bbox>, filters: seq<Filter>, kind: Kind, id: int)
    requires id in w.data.Of(kind)
  {
    || (globalBbox == None && forall f :: f in filters ==> !f.BboxQuery? && !f.Around?)
    || if kind != Node && w.storesBoxes && (forall f :: f in filters ==> !f.Around?) then
         exists b :: IsCommon(globalBbox, filters, b) && w.boxMeets(b, w.data.Of(kind)[id])
       else
         exists n :: PartNode(w.data, kind, id, n)
           && InEveryBox(globalBbox, filters, w.data.node[n].lat, w.data.node[n].lon)
           && forall f :: f in filters && f.Around? ==> IsNear(w, env, f, w.data.node[n])
  }

  lemma PartsAre(m: MapData, kind: Kind, id: int, n: int)
    requires WellFormed(m) && id in m.Of(kind)
    ensures n in NodesOf(m, kind, m.Of(kind)[id]) && n in m.node <==> PartNode(m, kind, id, n)
  {
    if kind.Relation? {
      RelationPartsAre(m, m.relation[id], n);
    }
  }

  lemma RelationPartsAre(m: MapData, e: Element, n: int)
    ensures n in NodesOf(m, Relation, e) && n in m.node <==>
      n in m.node && (HasPart(e, Node, n, None) || exists w :: w in m.way && HasPart(e, Way, w, None) && n in m.way[w].refs)
  {
    if n in m.node && n in NodesOf(m, Relation, e) && !HasPart(e, Node, n, None) {
      var i :| 0 <= i < |e.members| && e.members[i].kind == Way && e.members[i].ref in m.way
        && n in LiveRefs(m, m.way[e.members[i].ref]);
      assert HasPart(e, Way, e.members[i].ref, None);
    }
    if w :| n in m.node && w in m.way && HasPart(e, Way, w, None) && n in m.way[w].refs {
      assert n in LiveRefs(m, m.way[w]);
    }
  }

  lemma CentresAre(w: World, env: Env, f: Filter, p: Position)
    requires WellFormed(w.data) && EnvInMap(w.data, env) && f.Around?
    ensures p in Positions(w, env, f) <==> IsCentre(w.data, env, f, p)
  {
    hide PartNode, NodesOf, WellFormed, EnvInMap;
    forall kind: Kind, id, n | id in w.data.Of(kind)
      ensures n in NodesOf(w.data, kind, w.data.Of(kind)[id]) && n in w.data.node <==> PartNode(w.data, kind, id, n)
    {
      PartsAre(w.data, kind, id, n);
    }
    if f.position.None? && p in Positions(w, env, f) {
      var kind: Kind, id, n :| id in GetSet(env, f.from).Of(kind) && id in w.data.Of(kind)
        && n in NodesOf(w.data, kind, w.data.Of(kind)[id]) && n in w.data.node
        && (w.data.node[n].lat, w.data.node[n].lon) == p;
      InSomeSet(env, f.from, kind, id);
      assert PartNode(w.data, kind, id, n);
    }
    if f.position.None? && IsCentre(w.data, env, f, p) {
      var kind: Kind, id, n :| f.from in env && id in env[f.from].Of(kind) && id in w.data.Of(kind)
        && PartNode(w.data, kind, id, n) && p == (w.data.node[n].lat, w.data.node[n].lon);
      assert n in NodesOf(w.data, kind, w.data.Of(kind)[id]) && n in w.data.node;
    }
  }

  lemma InSomeSet(env: Env, name: string, kind: Kind, id: int)
    ensures id in GetSet(env, name).Of(kind) <==> name in env && id in env[name].Of(kind)
  {
  }

  lemma NearIs(w: World, env: Env, f: Filter, n: Element)
    requires WellFormed(w.data) && EnvInMap(w.data, env) && f.Around?
    ensures NearAny(w, f.radius, Positions(w, env, f), n) <==> IsNear(w, env, f, n)
  {
    hide IsCentre, Positions, WellFormed, EnvInMap;
    forall p
      ensures p in Positions(w, env, f) <==> IsCentre(w.data, env, f, p)
    {
      CentresAre(w, env, f, p);
    }
  }

  lemma InPlaceIs(w: World, env: Env, globalBbox: Option<Bbox>, filters: seq<Filter>, n: Element)
    requires WellFormed(w.data) && EnvInMap(w.data, env)
    ensures InPlace(w, env, globalBbox, filters, n) <==>
      InEveryBox(globalBbox, filters, n.lat, n.lon) && forall f :: f in filters && f.Around? ==> IsNear(w, env, f, n)
  {
    hide IsNear, Positions, NearAny, WellFormed, EnvInMap;
    forall f | f in filters && f.Around?
      ensures NearAny(w, f.radius, Positions(w, env, f), n) <==> IsNear(w, env, f, n)
    {
      NearIs(w, env, f, n);
    }
  }

  /** A node at a point. */
  function At(lat: real, lon: real): Element {
    Element(Node, 0, 0, 0, map[], lat, lon, [], [])
  }

  lemma CommonIs(globalBbox: Option<Bbox>, filters: seq<Filter>, b: Bbox)
    requires globalBbox.Some? || exists f :: f in filters && f.BboxQuery?
    ensures CommonBox(Boxes(globalBbox, filters)) == Some(b) <==> IsCommon(globalBbox, filters, b)
  {
    var common := CommonBox(Boxes(globalBbox, filters));
    forall lat, lon
      ensures InEveryBox(globalBbox, filters, lat, lon) <==> common.Some? && Holds(common.value, lat, lon)
    {
      BoxesAre(globalBbox, filters, At(lat, lon));
      hide Boxes, CommonBox;
      assert InEveryBox(globalBbox, filters, lat, lon) <==>
        (globalBbox.Some? ==> InBox(globalBbox.value, At(lat, lon)))
        && forall f :: f in filters && f.BboxQuery? ==> InBox((f.south, f.west, f.north, f.east), At(lat, lon));
    }
    CommonIsProper(globalBbox, filters);
    hide Boxes, CommonBox, InEveryBox;
    if IsCommon(globalBbox, filters, b) {
      assert Holds(b, b.0, b.1) && Holds(b, b.2, b.3);
      var c := common.value;
      assert Holds(c, c.0, c.1) && Holds(c, c.2, c.3);
      assert Holds(c, b.0, b.1) && Holds(c, b.2, b.3);
      assert Holds(b, c.0, c.1) && Holds(b, c.2, c.3);
    }
  }

  lemma CommonIsProper(globalBbox: Option<Bbox>, filters: seq<Filter>)
    ensures
      var common := CommonBox(Boxes(globalBbox, filters));
      common.Some? ==> common.value.0 <= common.value.2 && common.value.1 <= common.value.3
  {
  }

  lemma PlacesAre(w: World, env: Env, globalBbox: Option<Bbox>, filters: seq<Filter>, kind: Kind, id: int)
    requires WellFormed(w.data) && EnvInMap(w.data, env) && id in w.data.Of(kind)
    ensures MeetsPlaces(w, env, globalBbox, filters, kind, id) <==> IsThere(w, env, globalBbox, filters, kind, id)
  {
    hide InPlace, InEveryBox, IsNear, PartNode, NodesOf, WellFormed, EnvInMap, CommonBox, Boxes, IsCommon;
    if NamesPlace(globalBbox, filters) {
      if !kind.Node? && w.storesBoxes && (forall f :: f in filters ==> !f.Around?) {
        forall b
          ensures CommonBox(Boxes(globalBbox, filters)) == Some(b) <==> IsCommon(globalBbox, filters, b)
        {
          CommonIs(globalBbox, filters, b);
        }
      } else {
        forall n
          ensures n in NodesOf(w.data, kind, w.data.Of(kind)[id]) && n in w.data.node <==> PartNode(w.data, kind, id, n)
        {
          PartsAre(w.data, kind, id, n);
        }
        forall n | n in w.data.node
          ensures InPlace(w, env, globalBbox, filters, w.data.node[n]) <==>
            InEveryBox(globalBbox, filters, w.data.node[n].lat, w.data.node[n].lon)
            && forall f :: f in filters && f.Around? ==> IsNear(w, env, f, w.data.node[n])
        {
          InPlaceIs(w, env, globalBbox, filters, w.data.node[n]);
        }
      }
    }
  }

  // ----- Answers -----

  /** An object meets a filter, each kind of them by its own fields; a filter by
      names is also met through the accounts of those names. */
  ghost predicate Satisfies(w: World, env: Env, f: Filter, kind: Kind, id: int)
    requires id in w.data.Of(kind)
  {
    match f
    case HasKv(_, _, _, _) => w.meets(f, w.data.Of(kind)[id])
    case Newer(_) => w.meets(f, w.data.Of(kind)[id])
    case Changed(_, _) => w.meets(f, w.data.Of(kind)[id])
    case User(uids, names) => w.meets(User(if names == [] then uids else uids + w.accounts(names), names), w.data.Of(kind)[id])
    case IdQuery(ids) => id in ids
    case ItemFilter(from) => from in env && id in env[from].Of(kind)
    case RecurseFilter(link, from, role) => from in env && LeadsTo(w.data, env[from], link, role, kind, id)
    case BboxQuery(_, _, _, _) => true
    case Around(_, _, _) => true
  }

  lemma SatisfiesIs(w: World, env: Env, f: Filter, kind: Kind, id: int)
    requires id in w.data.Of(kind)
    ensures MeetsFilter(w, env, f, kind, id) <==> Satisfies(w, env, f, kind, id)
  {
    hide LeadsTo, Linked;
    if f.RecurseFilter? {
      LinkedIs(w.data, GetSet(env, f.from), f.link, f.role, kind, id);
      if f.from !in env {
        NothingLeads(w.data, f.link, f.role, kind, id);
      }
    }
    if f.ItemFilter? {
      InSomeSet(env, f.from, kind, id);
    }
  }

  lemma NothingLeads(m: MapData, link: Link, role: Option<string>, kind: Kind, id: int)
    ensures !LeadsTo(m, NONE, link, role, kind, id)
  {
  }

  /** A query's answer: exactly the live objects of the kinds asked for that satisfy
      every filter and are where it looks. */
  lemma AnswerIs(w: World, env: Env, globalBbox: Option<Bbox>, types: seq<Kind>, filters: seq<Filter>, kind: Kind, id: int)
    requires WellFormed(w.data) && EnvInMap(w.data, env)
    ensures id in QueryMeaning(w, env, globalBbox, types, filters).Of(kind) <==>
      && kind in types && id in w.data.Of(kind)
      && (forall f :: f in filters ==> Satisfies(w, env, f, kind, id))
      && IsThere(w, env, globalBbox, filters, kind, id)
  {
    hide MeetsFilter, Satisfies, MeetsPlaces, IsThere, WellFormed, EnvInMap;
    if id in w.data.Of(kind) {
      forall f
        ensures MeetsFilter(w, env, f, kind, id) <==> Satisfies(w, env, f, kind, id)
      {
        SatisfiesIs(w, env, f, kind, id);
      }
      PlacesAre(w, env, globalBbox, filters, kind, id);
    }
  }

  // ----- Refusals -----

  lemma {:induction false} OneUser(filters: seq<Filter>)
    ensures UserFilters(filters) == 0 <==> forall f :: f in filters ==> !f.User?
    ensures UserFilters(filters) <= 1 <==> forall i, j :: 0 <= i < j < |filters| ==> !(filters[i].User? && filters[j].User?)
  {
    if |filters| > 0 {
      var init, f := filters[..|filters| - 1], filters[|filters| - 1];
      OneUser(init);
      assert filters == init + [f];
      assert forall i :: 0 <= i < |init| ==> init[i] == filters[i] && init[i] in init;
      if f.User? && UserFilters(init) > 0 {
        var g :| g in init && g.User?;
        var i :| 0 <= i < |init| && init[i] == g;
        assert filters[i].User? && filters[|init|].User?;
      }
    }
  }

  lemma {:induction false} OneAround(filters: seq<Filter>)
    ensures |Arounds(filters)| == 0 <==> forall f :: f in filters ==> !f.Around?
    ensures |Arounds(filters)| <= 1 <==> forall i, j :: 0 <= i < j < |filters| ==> !(filters[i].Around? && filters[j].Around?)
  {
    if |filters| > 0 {
      var init, f := filters[..|filters| - 1], filters[|filters| - 1];
      OneAround(init);
      assert filters == init + [f];
      assert forall i :: 0 <= i < |init| ==> init[i] == filters[i] && init[i] in init;
      if f.Around? && |Arounds(init)| > 0 {
        var g :| g in init && g.Around?;
        var i :| 0 <= i < |init| && init[i] == g;
        assert filters[i].Around? && filters[|init|].Around?;
      }
    }
  }

  /** Queries are answered unless two of their filters are by user, or two by
      distance. */
  lemma SupportedIs(filters: seq<Filter>)
    ensures Supported(filters) <==> forall i, j :: 0 <= i < j < |filters| ==>
      !(filters[i].User? && filters[j].User?) && !(filters[i].Around? && filters[j].Around?)
  {
    OneUser(filters);
    OneAround(filters);
    hide UserFilters, Arounds;
  }

  /** What a query can start from besides a place: a key, a key with one value,
      IDs, a set or a link. */
  lemma SelectiveIs(filters: seq<Filter>)
    ensures Selective(filters) <==>
      exists f :: f in filters && (f.IdQuery? || f.ItemFilter? || f.RecurseFilter? || (f.HasKv? && f.mode in {Exists, Equals}))
  {
  }

  /** Why a query may be refused: two of its filters are by user or by distance; it has
      neither a place nor anything else to start from; it has only a place, which is
      too large; its centres are too many; or the map is not small, or a kind is asked
      for twice. */
  lemma RefusalIs(w: World, env: Env, globalBbox: Option<Bbox>, types: seq<Kind>, filters: seq<Filter>, limits: Limits,
                  error: QueryError)
    requires EnvInMap(w.data, env) && MayRefuse(w, env, globalBbox, types, filters, limits, error)
    ensures
      match error
      case Unsupported =>
        exists i, j :: 0 <= i < j < |filters|
          && ((filters[i].User? && filters[j].User?) || (filters[i].Around? && filters[j].Around?))
      case NotSelective =>
        globalBbox == None && forall f :: f in filters ==>
          !f.BboxQuery? && !f.Around? && !f.IdQuery? && !f.ItemFilter? && !f.RecurseFilter?
          && !(f.HasKv? && f.mode in {Exists, Equals})
      case AreaTooLarge =>
        && (forall f :: f in filters ==>
              !f.IdQuery? && !f.ItemFilter? && !f.RecurseFilter? && !(f.HasKv? && f.mode in {Exists, Equals}))
        && (globalBbox.Some? || exists f :: f in filters && (f.BboxQuery? || f.Around?))
        && exists region :: w.area(region) > limits.areaMaximum
      case TooManyPositions => |w.data.node| > 5000
      case TooManyElements =>
        !Roomy(w.data, limits) || exists i, j :: 0 <= i < j < |types| && types[i] == types[j]
      case Unrunnable => false
  {
    hide Roomy, UserFilters, Arounds;
    match error
    case Unsupported =>
      SupportedIs(filters);
    case NotSelective =>
      SelectiveIs(filters);
    case AreaTooLarge =>
      SelectiveIs(filters);
      var region :| IsRegionOf(w, env, globalBbox, filters, Some(region)) && w.area(region) > limits.areaMaximum;
      OneRegion(w, env, globalBbox, filters, Some(region), limits);
    case TooManyPositions =>
    case TooManyElements =>
    case Unrunnable =>
  }

  /** How large a map is, by all IDs in it: those of its objects, and those they refer
      to. No query of a map within the limits is refused for its size. */
  lemma RoomyIs(m: MapData, limits: Limits, nodes: set<int>, ways: set<int>, relations: set<int>)
    requires forall id :: id in nodes <==>
      id in m.node || (exists w :: w in m.way && id in m.way[w].refs) || IsMember(m, Node, id)
    requires forall id :: id in ways <==> id in m.way || IsMember(m, Way, id)
    requires forall id :: id in relations <==> id in m.relation || IsMember(m, Relation, id)
    ensures Roomy(m, limits) <==>
      |nodes| + |ways| + 2 * |relations| <= limits.maxElements && |nodes| + |ways| + 2 * |relations| <= 20000
  {
    hide Known, IsMember;
    forall id
      ensures id in Known(m).node <==> id in nodes
      ensures id in Known(m).way <==> id in ways
      ensures id in Known(m).relation <==> id in relations
    {
      KnownIs(m, id);
    }
    assert Known(m).node == nodes && Known(m).way == ways && Known(m).relation == relations;
  }

  lemma KnownIs(m: MapData, id: int)
    ensures id in Known(m).node <==>
      id in m.node || (exists w :: w in m.way && id in m.way[w].refs) || IsMember(m, Node, id)
    ensures id in Known(m).way <==> id in m.way || IsMember(m, Way, id)
    ensures id in Known(m).relation <==> id in m.relation || IsMember(m, Relation, id)
  {
    MembersAre(m, m.relation.Keys, Node, None, id);
    MembersAre(m, m.relation.Keys, Way, None, id);
    MembersAre(m, m.relation.Keys, Relation, None, id);
    hide MembersOf, HasPart;
  }

  ghost predicate IsMember(m: MapData, kind: Kind, id: int) {
    exists r :: r in m.relation && HasPart(m.relation[r], kind, id, None)
  }
}
