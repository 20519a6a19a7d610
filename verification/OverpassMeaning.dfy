/** What an Overpass query means: sets of objects, without limits, search
    strategies or caches. */
module OverpassMeaning {
  import opened Wrappers
  import opened Osm
  import opened Ql

  type Position = (real, real)

  /** The map that a query reads, and what it leaves to the database: whether an
      object meets a tag, user or time condition, whether a node is near a
      position, whether a stored box overlaps an area, how large a region is,
      and the accounts of user names. */
  datatype World = World(
    data: MapData,
    meets: (Filter, Element) -> bool,
    near: (real, Position, Element) -> bool,
    storesBoxes: bool,
    boxMeets: (Bbox, Element) -> bool,
    area: Region -> real,
    accounts: seq<string> -> seq<int>)

  /** A part of the plane: the points in a box, the points within a radius of one of several
      centres, or those in both. */
  datatype Region = Region(bbox: Option<Bbox>, around: Option<(real, set<Position>)>)

  type Env = map<string, Ids>

  const NONE: Ids := PerKind({}, {}, {})

  function GetSet(env: Env, name: string): Ids {
    if name in env then env[name] else NONE
  }

  function Put(env: Env, name: Option<string>, ids: Ids): Env {
    if name.Some? then env[name.value := ids] else env
  }

  function Join(a: Ids, b: Ids): Ids {
    PerKind(a.node + b.node, a.way + b.way, a.relation + b.relation)
  }

  function Size(a: Ids): nat {
    |a.node| + |a.way| + |a.relation|
  }

  /** All IDs of a set belong to live objects. */
  ghost predicate InMap(m: MapData, a: Ids) {
    a.node <= m.node.Keys && a.way <= m.way.Keys && a.relation <= m.relation.Keys
  }

  ghost predicate EnvInMap(m: MapData, env: Env) {
    forall n :: n in env ==> InMap(m, env[n])
  }

  // ----- Places -----

  predicate InBox(b: Bbox, n: Element) {
    b.0 <= n.lat <= b.2 && b.1 <= n.lon <= b.3
  }

  predicate NearAny(w: World, radius: real, positions: set<Position>, n: Element) {
    exists p :: p in positions && w.near(radius, p, n)
  }

  /** The nodes whose positions make up an object: itself, a way's nodes, or a
      relation's nodes and those of its member ways. */
  ghost function NodesOf(m: MapData, k: Kind, e: Element): set<int> {
    match k
    case Node => {e.id}
    case Way => LiveRefs(m, e)
    case Relation =>
      (set i | 0 <= i < |e.members| && e.members[i].kind == Node && e.members[i].ref in m.node :: e.members[i].ref) +
      (set i, n | 0 <= i < |e.members| && e.members[i].kind == Way && e.members[i].ref in m.way
          && n in LiveRefs(m, m.way[e.members[i].ref]) :: n)
  }

  function LiveRefs(m: MapData, way: Element): set<int> {
    set ref | ref in way.refs && ref in m.node
  }

  /** The centres of an around filter: its own position, or all live nodes that the objects of its
      set consist of. */
  ghost function Positions(w: World, env: Env, f: Filter): set<Position>
    requires f.Around? && EnvInMap(w.data, env)
  {
    if f.position.Some? then {f.position.value}
    else
      var s := GetSet(env, f.from);
      set k: Kind, id, n | id in s.Of(k) && id in w.data.Of(k) && n in NodesOf(w.data, k, w.data.Of(k)[id])
        && n in w.data.node :: (w.data.node[n].lat, w.data.node[n].lon)
  }

  /** A node meets every place that a query names. */
  ghost predicate InPlace(w: World, env: Env, globalBbox: Option<Bbox>, filters: seq<Filter>, n: Element)
    requires EnvInMap(w.data, env)
  {
    && (globalBbox.Some? ==> InBox(globalBbox.value, n))
    && (forall f :: f in filters && f.BboxQuery? ==> InBox((f.south, f.west, f.north, f.east), n))
    && (forall f :: f in filters && f.Around? ==> NearAny(w, f.radius, Positions(w, env, f), n))
  }

  ghost predicate NamesPlace(globalBbox: Option<Bbox>, filters: seq<Filter>) {
    globalBbox.Some? || exists f :: f in filters && (f.BboxQuery? || f.Around?)
  }

  // ----- Filters -----

  predicate IsCondition(f: Filter) {
    f.HasKv? || f.User? || f.Newer? || f.Changed?
  }

  /** A user filter that gives names is widened by the IDs that accounts has for them. */
  function WithAccountIds(w: World, f: Filter): Filter {
    if f.User? && |f.names| > 0 then User(f.uids + w.accounts(f.names), f.names) else f
  }

  predicate RoleFits(role: Option<string>, m: Member) {
    role.None? || m.role == role.value
  }

  /** The members of one kind, with the role if one is given, of some relations. */
  function MembersOf(m: MapData, relations: set<int>, kind: Kind, role: Option<string>): set<int> {
    set r, i | r in relations && r in m.relation && 0 <= i < |m.relation[r].members|
      && m.relation[r].members[i].kind == kind && RoleFits(role, m.relation[r].members[i]) :: m.relation[r].members[i].ref
  }

  function RefsOf(m: MapData, ways: set<int>): set<int> {
    set w, ref | w in ways && w in m.way && ref in m.way[w].refs :: ref
  }

  predicate HoldsAny(e: Element, kind: Kind, ids: set<int>, role: Option<string>) {
    exists i :: 0 <= i < |e.members| && e.members[i].kind == kind && e.members[i].ref in ids && RoleFits(role, e.members[i])
  }

  function LinkKind(link: Link): Kind {
    match link
    case Bn => Node
    case Bw => Way
    case _ => Relation
  }

  /** What a link of some kind leads to from a set, with a role if one is asked for. */
  function Linked(m: MapData, s: Ids, link: Link, role: Option<string>, kind: Kind): set<int> {
    match link
    case W => if kind.Node? then RefsOf(m, s.way) else {}
    case R => MembersOf(m, s.relation, kind, role)
    case _ =>
      if kind.Way? && link.Bn? then WaysOfNodes(m, s.node)
      else if kind.Relation? then
        set r | r in m.relation && HoldsAny(m.relation[r], LinkKind(link), s.Of(LinkKind(link)), role)
      else {}
  }

  /** Whether a filter that names IDs, a set or a link allows an object. */
  ghost predicate MeetsIdentity(m: MapData, env: Env, f: Filter, kind: Kind, id: int) {
    match f
    case IdQuery(ids) => id in ids
    case ItemFilter(s) => id in GetSet(env, s).Of(kind)
    case RecurseFilter(link, s, role) => id in Linked(m, GetSet(env, s), link, role, kind)
    case _ => true
  }

  /** An object meets a filter that is not about where it is. */
  ghost predicate MeetsFilter(w: World, env: Env, f: Filter, kind: Kind, id: int)
    requires id in w.data.Of(kind)
  {
    && MeetsIdentity(w.data, env, f, kind, id)
    && (IsCondition(f) ==> w.meets(WithAccountIds(w, f), w.data.Of(kind)[id]))
  }

  /** An object satisfies all places of a query. A node has to be in each. A way or relation has to
      have a node in all of them at once; only where boxes are stored, and no place is an around
      filter, does its box decide. */
  ghost predicate MeetsPlaces(w: World, env: Env, globalBbox: Option<Bbox>, filters: seq<Filter>, kind: Kind, id: int)
    requires EnvInMap(w.data, env) && id in w.data.Of(kind)
  {
    !NamesPlace(globalBbox, filters) ||
    (if !kind.Node? && w.storesBoxes && (forall f :: f in filters ==> !f.Around?) then
       var box := CommonBox(Boxes(globalBbox, filters));
       box.Some? && w.boxMeets(box.value, w.data.Of(kind)[id])
     else
       exists n :: n in NodesOf(w.data, kind, w.data.Of(kind)[id]) && n in w.data.node
                   && InPlace(w, env, globalBbox, filters, w.data.node[n]))
  }

  /** The boxes a query names, in its filters and then its setting. */
  function Boxes(globalBbox: Option<Bbox>, filters: seq<Filter>): seq<Bbox> {
    FilterBoxes(filters) + (if globalBbox.Some? then [globalBbox.value] else [])
  }

  function FilterBoxes(filters: seq<Filter>): seq<Bbox> {
    if |filters| == 0 then []
    else
      var f := filters[|filters| - 1];
      FilterBoxes(filters[..|filters| - 1]) + (if f.BboxQuery? then [(f.south, f.west, f.north, f.east)] else [])
  }

  function Max(a: real, b: real): real {
    if a < b then b else a
  }

  function Min(a: real, b: real): real {
    if b < a then b else a
  }

  function Intersect(a: Bbox, b: Bbox): Bbox {
    (Max(a.0, b.0), Max(a.1, b.1), Min(a.2, b.2), Min(a.3, b.3))
  }

  function IntersectAll(boxes: seq<Bbox>): Bbox
    requires |boxes| > 0
  {
    if |boxes| == 1 then boxes[0] else Intersect(IntersectAll(boxes[..|boxes| - 1]), boxes[|boxes| - 1])
  }

  /** The area common to some boxes, if there is any. */
  function CommonBox(boxes: seq<Bbox>): Option<Bbox> {
    if |boxes| == 0 then None
    else
      var b := IntersectAll(boxes);
      if b.0 > b.2 || b.1 > b.3 then None else Some(b)
  }

  /** A query: the objects of the kinds asked for that meet every filter. */
  ghost function QueryKind(w: World, env: Env, globalBbox: Option<Bbox>, filters: seq<Filter>, kind: Kind): set<int>
    requires EnvInMap(w.data, env)
  {
    set id | id in w.data.Of(kind) && (forall f :: f in filters ==> MeetsFilter(w, env, f, kind, id))
      && MeetsPlaces(w, env, globalBbox, filters, kind, id)
  }

  ghost function QueryMeaning(w: World, env: Env, globalBbox: Option<Bbox>, types: seq<Kind>, filters: seq<Filter>): Ids
    requires EnvInMap(w.data, env)
  {
    PerKind(if Node in types then QueryKind(w, env, globalBbox, filters, Node) else {},
            if Way in types then QueryKind(w, env, globalBbox, filters, Way) else {},
            if Relation in types then QueryKind(w, env, globalBbox, filters, Relation) else {})
  }
}
