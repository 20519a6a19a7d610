/** Running one query: where it looks, whether it may, and what it finds. */
module Querying {
  import opened Wrappers
  import opened Osm
  import opened Sets
  import opened Ql
  import opened OverpassMeaning
  import opened OverpassPlaces
  import opened MapSource
  import opened RegionSearch
  import opened QueryParts
  import opened Shapes

  function UserFilters(filters: seq<Filter>): nat {
    if |filters| == 0 then 0
    else UserFilters(filters[..|filters| - 1]) + (if filters[|filters| - 1].User? then 1 else 0)
  }

  /** Queries that this server answers at all. */
  predicate Supported(filters: seq<Filter>) {
    UserFilters(filters) <= 1 && |Arounds(filters)| <= 1
  }

  /** A tag filter on a key alone, or on a key with one value. */
  predicate IsIndexed(f: Filter) {
    f.HasKv? && (f.mode.Exists? || f.mode.Equals?)
  }

  predicate Indexed(filters: seq<Filter>) {
    exists f :: f in filters && IsIndexed(f)
  }

  /** A query with something to start from other than a place. */
  predicate Selective(filters: seq<Filter>) {
    Indexed(filters) || exists f :: f in filters && IsIdentity(f)
  }

  /** The filters of a query that look at an object's tags, users and times, in order. */
  function Conditions(w: World, filters: seq<Filter>): seq<Filter> {
    if |filters| == 0 then []
    else
      var f := filters[|filters| - 1];
      Conditions(w, filters[..|filters| - 1]) + (if IsCondition(f) then [WithAccountIds(w, f)] else [])
  }

  lemma {:induction false} ConditionsAre(w: World, filters: seq<Filter>, e: Element)
    ensures (forall i :: 0 <= i < |Conditions(w, filters)| ==> w.meets(Conditions(w, filters)[i], e)) <==>
      forall f :: f in filters && IsCondition(f) ==> w.meets(WithAccountIds(w, f), e)
  {
    if |filters| > 0 {
      var init, f := filters[..|filters| - 1], filters[|filters| - 1];
      ConditionsAre(w, init, e);
      var all, before := Conditions(w, filters), Conditions(w, init);
      assert filters == init + [f];
      assert forall i :: 0 <= i < |before| ==> all[i] == before[i];
      assert IsCondition(f) ==> all[|before|] == WithAccountIds(w, f);
    }
  }

  // ----- What is searched for is what is meant -----

  /** An object meets every filter that is not about where it is. */
  ghost predicate MeetsAll(w: World, env: Env, filters: seq<Filter>, kind: Kind, id: int) {
    id in w.data.Of(kind) && forall f :: f in filters ==> MeetsFilter(w, env, f, kind, id)
  }

  lemma MeetsAllIs(w: World, env: Env, filters: seq<Filter>, kind: Kind, ids: Option<set<int>>, id: int)
    requires AllowedBy(w.data, env, filters, kind, ids)
    ensures MeetsAll(w, env, filters, kind, id) <==> id in Found(w, kind, Conditions(w, filters), None, ids)
  {
    hide Linked;
    if id in w.data.Of(kind) {
      ConditionsAre(w, filters, w.data.Of(kind)[id]);
      if ids.None? {
        forall f | f in filters
          ensures MeetsIdentity(w.data, env, f, kind, id)
        {
          NoIdentityMeets(w.data, env, f, kind, id);
        }
      }
    }
  }

  lemma NodePlaces(w: World, env: Env, globalBbox: Option<Bbox>, filters: seq<Filter>, region: Option<Region>, id: int)
    requires WellFormed(w.data) && EnvInMap(w.data, env) && IsRegionOf(w, env, globalBbox, filters, region)
    requires id in w.data.node
    ensures MeetsPlaces(w, env, globalBbox, filters, Node, id) <==> DatabaseMeets(w, Node, region, w.data.node[id])
  {
    hide InPlace, InRegion, IsRegionOf, NamesPlace;
    RegionIsPlaces(w, env, globalBbox, filters, region, w.data.node[id]);
    assert id in w.data.Of(Node) && w.data.Of(Node)[id].id == id;
    assert NodesOf(w.data, Node, w.data.node[id]) == {id};
  }

  lemma PartPlaces(w: World, env: Env, globalBbox: Option<Bbox>, filters: seq<Filter>, region: Region, kind: Kind, id: int)
    requires EnvInMap(w.data, env) && IsRegionOf(w, env, globalBbox, filters, Some(region))
    requires id in w.data.Of(kind) && !kind.Node? && !(region.around.None? && w.storesBoxes)
    ensures MeetsPlaces(w, env, globalBbox, filters, kind, id) <==> PartIn(w, region, kind, w.data.Of(kind)[id])
  {
    AroundsMatter(w, env, globalBbox, filters, region);
    forall n | n in w.data.node
      ensures InRegion(w, region, w.data.node[n]) <==> InPlace(w, env, globalBbox, filters, w.data.node[n])
      ensures NamesPlace(globalBbox, filters)
    {
      RegionIsPlaces(w, env, globalBbox, filters, Some(region), w.data.node[n]);
    }
    NamesAPlace(w, env, globalBbox, filters, region);
    hide InPlace, InRegion, IsRegionOf, NamesPlace, NodesOf;
  }

  lemma NamesAPlace(w: World, env: Env, globalBbox: Option<Bbox>, filters: seq<Filter>, region: Region)
    requires EnvInMap(w.data, env) && IsRegionOf(w, env, globalBbox, filters, Some(region))
    ensures NamesPlace(globalBbox, filters)
  {
    RegionIsPlaces(w, env, globalBbox, filters, Some(region), Element(Node, 0, 0, 0, map[], 0.0, 0.0, [], []));
  }

  lemma AroundsMatter(w: World, env: Env, globalBbox: Option<Bbox>, filters: seq<Filter>, region: Region)
    requires EnvInMap(w.data, env) && IsRegionOf(w, env, globalBbox, filters, Some(region))
    ensures region.around.None? <==> forall f :: f in filters ==> !f.Around?
  {
    AroundsAre(filters);
    var arounds := Arounds(filters);
    assert |arounds| > 0 ==> arounds[0] in arounds;
  }

  lemma BoxPlaces(w: World, env: Env, globalBbox: Option<Bbox>, filters: seq<Filter>, region: Region, kind: Kind, id: int)
    requires EnvInMap(w.data, env) && IsRegionOf(w, env, globalBbox, filters, Some(region))
    requires id in w.data.Of(kind) && !kind.Node? && region.around.None? && w.storesBoxes
    ensures MeetsPlaces(w, env, globalBbox, filters, kind, id) <==>
      DatabaseMeets(w, kind, Some(region), w.data.Of(kind)[id])
  {
    AroundsMatter(w, env, globalBbox, filters, region);
    NamesAPlace(w, env, globalBbox, filters, region);
    hide NamesPlace, NodesOf;
  }

  lemma AnyPlaces(w: World, env: Env, globalBbox: Option<Bbox>, filters: seq<Filter>, kind: Kind, id: int)
    requires EnvInMap(w.data, env) && IsRegionOf(w, env, globalBbox, filters, None)
    requires id in w.data.Of(kind)
    ensures MeetsPlaces(w, env, globalBbox, filters, kind, id)
  {
    RegionIsPlaces(w, env, globalBbox, filters, None, w.data.Of(kind)[id]);
  }

  /** The one search that suits a kind and a region finds what the query means. */
  ghost function ToFind(w: World, kind: Kind, conditions: seq<Filter>, region: Option<Region>, ids: Option<set<int>>): set<int> {
    if kind.Node? || region.None? || (region.value.around.None? && w.storesBoxes) then
      Found(w, kind, conditions, region, ids)
    else
      PartMatches(w, kind, conditions, region.value, ids)
  }

  lemma ToFindIsMeant(w: World, env: Env, globalBbox: Option<Bbox>, filters: seq<Filter>, region: Option<Region>,
                      kind: Kind, ids: Option<set<int>>)
    requires WellFormed(w.data) && EnvInMap(w.data, env) && IsRegionOf(w, env, globalBbox, filters, region)
    requires AllowedBy(w.data, env, filters, kind, ids)
    ensures ToFind(w, kind, Conditions(w, filters), region, ids) == QueryKind(w, env, globalBbox, filters, kind)
  {
    forall id
      ensures id in ToFind(w, kind, Conditions(w, filters), region, ids) <==>
        id in QueryKind(w, env, globalBbox, filters, kind)
    {
      OneFoundIsMeant(w, env, globalBbox, filters, region, kind, ids, id);
    }
  }

  lemma OneFoundIsMeant(w: World, env: Env, globalBbox: Option<Bbox>, filters: seq<Filter>, region: Option<Region>,
                        kind: Kind, ids: Option<set<int>>, id: int)
    requires WellFormed(w.data) && EnvInMap(w.data, env) && IsRegionOf(w, env, globalBbox, filters, region)
    requires AllowedBy(w.data, env, filters, kind, ids)
    ensures id in ToFind(w, kind, Conditions(w, filters), region, ids) <==>
      id in QueryKind(w, env, globalBbox, filters, kind)
  {
    MeetsAllIs(w, env, filters, kind, ids, id);
    hide MeetsFilter, MeetsPlaces, AllowedBy, IsRegionOf, PartIn, DatabaseMeets, Conditions;
    if id in w.data.Of(kind) {
      if region.None? {
        AnyPlaces(w, env, globalBbox, filters, kind, id);
        NoRegionMeets(w, kind, w.data.Of(kind)[id]);
      } else if kind.Node? {
        NodePlaces(w, env, globalBbox, filters, region, id);
        NoRegionMeets(w, kind, w.data.Of(kind)[id]);
      } else if region.value.around.None? && w.storesBoxes {
        BoxPlaces(w, env, globalBbox, filters, region.value, kind, id);
        NoRegionMeets(w, kind, w.data.Of(kind)[id]);
      } else {
        PartPlaces(w, env, globalBbox, filters, region.value, kind, id);
      }
    }
  }

  lemma NoRegionMeets(w: World, kind: Kind, e: Element)
    ensures DatabaseMeets(w, kind, None, e)
  {
  }

  /** Where there is no place to be, there is nothing. */
  lemma NowhereIsNothing(w: World, env: Env, globalBbox: Option<Bbox>, types: seq<Kind>, filters: seq<Filter>)
    requires EnvInMap(w.data, env)
    requires
      || (|Boxes(globalBbox, filters)| > 0 && CommonBox(Boxes(globalBbox, filters)).None?)
      || (exists f :: f in filters && f.Around? && Positions(w, env, f) == {})
    ensures QueryMeaning(w, env, globalBbox, types, filters) == NONE
  {
    hide CommonBox, Boxes, Positions, MeetsFilter;
    forall kind, id | id in w.data.Of(kind)
      ensures !MeetsPlaces(w, env, globalBbox, filters, kind, id)
    {
      NothingHere(w, env, globalBbox, filters, kind, id);
    }
    forall kind
      ensures QueryKind(w, env, globalBbox, filters, kind) == {}
    {
      if QueryKind(w, env, globalBbox, filters, kind) != {} {
        var x := AnyOf(QueryKind(w, env, globalBbox, filters, kind));
        assert false;
      }
    }
  }

  lemma NothingHere(w: World, env: Env, globalBbox: Option<Bbox>, filters: seq<Filter>, kind: Kind, id: int)
    requires EnvInMap(w.data, env) && id in w.data.Of(kind)
    requires
      || (|Boxes(globalBbox, filters)| > 0 && CommonBox(Boxes(globalBbox, filters)).None?)
      || (exists f :: f in filters && f.Around? && Positions(w, env, f) == {})
    ensures !MeetsPlaces(w, env, globalBbox, filters, kind, id)
  {
    forall n | n in w.data.node
      ensures !InPlace(w, env, globalBbox, filters, w.data.node[n])
    {
      NoPlaceToBe(w, env, globalBbox, filters, w.data.node[n]);
    }
    NoPlaceToBe(w, env, globalBbox, filters, w.data.Of(kind)[id]);
    hide InPlace, NamesPlace, NodesOf, CommonBox, Boxes, Positions;
  }

  // ----- The region of a query -----

  datatype Place = Nowhere | In(region: Option<Region>)

  /** The region that all places come to: none, the whole plane, or something between. */
  method WhereToLook(source: Source, env: Env, globalBbox: Option<Bbox>, filters: seq<Filter>)
      returns (r: Result<Place, QueryError>)
    requires WellFormed(source.w.data) && EnvInMap(source.w.data, env)
    ensures r == Failure(Unsupported) <==> |Arounds(filters)| > 1
    ensures r.Success? && r.value.In? ==> IsRegionOf(source.w, env, globalBbox, filters, r.value.region)
    ensures r.Success? && r.value.Nowhere? ==>
      NamesPlace(globalBbox, filters) && forall types :: QueryMeaning(source.w, env, globalBbox, types, filters) == NONE
    ensures !NamesPlace(globalBbox, filters) ==> r.Success?
    ensures r.Failure? && r.error != Unsupported ==>
      || (r.error == TooManyElements && !Roomy(source.w.data, source.limits))
      || (r.error == TooManyPositions && |source.w.data.node| > AROUND_POSITIONS_MAXIMUM)
  {
    hide QueryMeaning, Positions, Roomy, CommonBox, Boxes, Arounds;
    var w := source.w;
    var bbox := CommonBox(Boxes(globalBbox, filters));
    var arounds := Arounds(filters);
    AroundsAre(filters);
    if |arounds| > 0 {
      PlacesAreNamed(globalBbox, filters);
    }
    if |arounds| > 1 {
      return Failure(Unsupported);
    }
    var around: Option<(real, set<Position>)> := None;
    if |arounds| == 1 {
      assert arounds[0] in arounds;
      var positions :- AroundPositions(source, env, arounds[0]);
      around := Some((arounds[0].radius, positions));
    }
    if (|Boxes(globalBbox, filters)| > 0 && bbox.None?) || (around.Some? && around.value.1 == {}) {
      forall types
        ensures QueryMeaning(w, env, globalBbox, types, filters) == NONE
      {
        NowhereIsNothing(w, env, globalBbox, types, filters);
      }
      PlacesAreNamed(globalBbox, filters);
      return Success(Nowhere);
    }
    NoBoxes(globalBbox, filters);
    return Success(In(if bbox.None? && around.None? then None else Some(Region(bbox, around))));
  }

  lemma PlacesAreNamed(globalBbox: Option<Bbox>, filters: seq<Filter>)
    requires |Boxes(globalBbox, filters)| > 0 || |Arounds(filters)| > 0
    ensures NamesPlace(globalBbox, filters)
  {
    BoxesAre(globalBbox, filters, Element(Node, 0, 0, 0, map[], 0.0, 0.0, [], []));
    AroundsAre(filters);
    if |Arounds(filters)| > 0 {
      assert Arounds(filters)[0] in Arounds(filters);
    }
  }

  lemma NoBoxes(globalBbox: Option<Bbox>, filters: seq<Filter>)
    ensures |Boxes(globalBbox, filters)| == 0 ==> CommonBox(Boxes(globalBbox, filters)).None?
  {
  }

  // ----- Finding -----

  /** The IDs of a kind that QueryMeaning holds. */
  method FindKind(searcher: Searcher, env: Env, ghost globalBbox: Option<Bbox>, filters: seq<Filter>, conditions: seq<Filter>,
                  region: Option<Region>, kind: Kind)
      returns (r: Result<set<int>, QueryError>)
    requires searcher.Valid() && WellFormed(searcher.source.w.data) && EnvInMap(searcher.source.w.data, env)
    requires IsRegionOf(searcher.source.w, env, globalBbox, filters, region)
    requires conditions == Conditions(searcher.source.w, filters)
    modifies searcher`regionCache
    ensures searcher.Valid()
    ensures r.Success? ==> r.value == QueryKind(searcher.source.w, env, globalBbox, filters, kind)
    ensures r.Failure? ==> r.error == TooManyElements && !searcher.Small()
  {
    hide Found, QueryKind, PartMatches, Roomy, CacheOk, AllowedBy, IsRegionOf, WellFormed, EnvInMap, Conditions, Indexed;
    var source := searcher.source;
    var ids :- CandidateIds(source, env, filters, kind);
    ToFindIsMeant(source.w, env, globalBbox, filters, region, kind, ids);
    if ids.Some? && |ids.value| == 0 {
      NoneAllowed(source.w, env, globalBbox, filters, kind, ids);
      return Success({});
    }
    searcher.FoundAreFew(kind, conditions, region, ids);
    if kind.Node? || region.None? {
      r := source.Query(kind, conditions, region, ids, None);
    } else if region.value.around.None? && source.w.storesBoxes {
      HasBox(source.w, env, globalBbox, filters, region.value);
      r := source.Query(kind, conditions, region, ids, None);
    } else {
      r := searcher.InRegion(kind, conditions, region.value, ids, Indexed(filters) || ids.Some?);
    }
  }

  lemma NoneAllowed(w: World, env: Env, globalBbox: Option<Bbox>, filters: seq<Filter>, kind: Kind, ids: Option<set<int>>)
    requires EnvInMap(w.data, env) && AllowedBy(w.data, env, filters, kind, ids) && ids == Some({})
    ensures QueryKind(w, env, globalBbox, filters, kind) == {}
  {
    hide MeetsPlaces, AllowedBy, MeetsFilter;
    forall id
      ensures id !in QueryKind(w, env, globalBbox, filters, kind)
    {
      MeetsAllIs(w, env, filters, kind, ids, id);
    }
  }

  lemma HasBox(w: World, env: Env, globalBbox: Option<Bbox>, filters: seq<Filter>, region: Region)
    requires EnvInMap(w.data, env) && IsRegionOf(w, env, globalBbox, filters, Some(region)) && region.around.None?
    ensures region.bbox.Some?
  {
  }

  // ----- Queries -----

  predicate Distinct(types: seq<Kind>) {
    forall i, j :: 0 <= i < j < |types| ==> types[i] != types[j]
  }

  /** What a query has found of the first of its kinds. */
  ghost function MeaningOfFirst(w: World, env: Env, globalBbox: Option<Bbox>, types: seq<Kind>, filters: seq<Filter>, i: nat): Ids
    requires EnvInMap(w.data, env) && i <= |types|
  {
    QueryMeaning(w, env, globalBbox, types[..i], filters)
  }

  lemma MeaningOfNext(w: World, env: Env, globalBbox: Option<Bbox>, types: seq<Kind>, filters: seq<Filter>, i: nat)
    requires EnvInMap(w.data, env) && i < |types|
    ensures
      var before, found := MeaningOfFirst(w, env, globalBbox, types, filters, i), QueryKind(w, env, globalBbox, filters, types[i]);
      && MeaningOfFirst(w, env, globalBbox, types, filters, i + 1) == before.With(types[i], before.Of(types[i]) + found)
      && (Distinct(types) ==> before.Of(types[i]) == {})
  {
    hide QueryKind;
    assert types[..i + 1] == types[..i] + [types[i]];
    forall k: Kind
      ensures k in types[..i + 1] <==> k in types[..i] || k == types[i]
    {
    }
    var found := QueryKind(w, env, globalBbox, filters, types[i]);
    assert found + found == found && {} + found == found;
    if Distinct(types) {
      assert types[i] !in types[..i];
    }
  }

  lemma MeaningIsSmall(w: World, env: Env, globalBbox: Option<Bbox>, types: seq<Kind>, filters: seq<Filter>, limits: Limits)
    requires EnvInMap(w.data, env)
    ensures InMap(w.data, QueryMeaning(w, env, globalBbox, types, filters))
    ensures Roomy(w.data, limits) ==> Size(QueryMeaning(w, env, globalBbox, types, filters)) <= limits.maxElements
  {
    hide MeetsFilter, MeetsPlaces;
    InMapIsSmall(w.data, QueryMeaning(w, env, globalBbox, types, filters), limits);
  }

  lemma InMapIsSmall(m: MapData, s: Ids, limits: Limits)
    requires InMap(m, s)
    ensures Roomy(m, limits) ==> Size(s) <= limits.maxElements
  {
    if Roomy(m, limits) {
      SubsetSize(s.node, Known(m).node);
      SubsetSize(s.way, Known(m).way);
      SubsetSize(s.relation, Known(m).relation);
    }
  }

  /** Adding what was found of one kind, and counting it. */
  lemma AddedSize(s: Ids, kind: Kind, found: set<int>)
    ensures Size(s.With(kind, s.Of(kind) + found)) <= Size(s) + |found|
    ensures s.Of(kind) == {} ==> Size(s.With(kind, s.Of(kind) + found)) == Size(s) + |found|
  {
    assert s.Of(kind) + found == s.Of(kind) + (found - s.Of(kind));
    SubsetSize(found - s.Of(kind), found);
    if s.Of(kind) == {} {
      assert s.Of(kind) + found == found;
    }
  }

  /** The area of a query with nothing but a place to start from is too large. */
  ghost predicate TooWide(w: World, env: Env, globalBbox: Option<Bbox>, filters: seq<Filter>, limits: Limits)
    requires EnvInMap(w.data, env)
  {
    exists region :: IsRegionOf(w, env, globalBbox, filters, Some(region)) && w.area(region) > limits.areaMaximum
  }

  /** Why a query may be refused. */
  ghost predicate MayRefuse(w: World, env: Env, globalBbox: Option<Bbox>, types: seq<Kind>, filters: seq<Filter>, limits: Limits,
                            error: QueryError)
    requires EnvInMap(w.data, env)
  {
    match error
    case Unsupported => !Supported(filters)
    case NotSelective => !Selective(filters) && !NamesPlace(globalBbox, filters)
    case AreaTooLarge => !Selective(filters) && TooWide(w, env, globalBbox, filters, limits)
    case TooManyPositions => |w.data.node| > AROUND_POSITIONS_MAXIMUM
    case TooManyElements => !Roomy(w.data, limits) || !Distinct(types)
    case Unrunnable => false
  }

  lemma RefusedSearch(w: World, env: Env, globalBbox: Option<Bbox>, types: seq<Kind>, filters: seq<Filter>, limits: Limits,
                      region: Option<Region>)
    requires EnvInMap(w.data, env) && !Selective(filters) && IsRegionOf(w, env, globalBbox, filters, region)
    ensures region.None? ==> MayRefuse(w, env, globalBbox, types, filters, limits, NotSelective)
    ensures region.Some? && w.area(region.value) > limits.areaMaximum ==>
      MayRefuse(w, env, globalBbox, types, filters, limits, AreaTooLarge)
  {
    RegionIsPlaces(w, env, globalBbox, filters, region, Element(Node, 0, 0, 0, map[], 0.0, 0.0, [], []));
    hide IsRegionOf;
  }

  /** What a query finds: exactly what it means, or an error, whichever way the
      search goes and whatever earlier searches left in the cache. */
  method Query(searcher: Searcher, env: Env, globalBbox: Option<Bbox>, types: seq<Kind>, filters: seq<Filter>)
      returns (r: Result<Ids, QueryError>)
    requires searcher.Valid() && WellFormed(searcher.source.w.data) && EnvInMap(searcher.source.w.data, env)
    modifies searcher`regionCache
    ensures searcher.Valid()
    ensures r.Success? ==> r.value == QueryMeaning(searcher.source.w, env, globalBbox, types, filters)
    ensures r.Failure? ==> MayRefuse(searcher.source.w, env, globalBbox, types, filters, searcher.limits, r.error)
    ensures !Supported(filters) ==> r == Failure(Unsupported)
    ensures Supported(filters) && !Selective(filters) && !NamesPlace(globalBbox, filters) ==> r == Failure(NotSelective)
    ensures r.Success? && !Selective(filters) && TooWide(searcher.source.w, env, globalBbox, filters, searcher.limits) ==>
      r.value == NONE
  {
    hide QueryMeaning, CacheOk, IsRegionOf, WellFormed, EnvInMap, Conditions, Selective, Roomy, TooWide, Distinct, NamesPlace;
    var w, limits := searcher.source.w, searcher.limits;
    if UserFilters(filters) > 1 {
      return Failure(Unsupported);
    }
    var place :- WhereToLook(searcher.source, env, globalBbox, filters);
    if place.Nowhere? {
      return Success(NONE);
    }
    var region := place.region;
    OneRegion(w, env, globalBbox, filters, region, limits);
    if !Selective(filters) {
      RefusedSearch(w, env, globalBbox, types, filters, limits, region);
      if region.None? {
        return Failure(NotSelective);
      }
      if w.area(region.value) > limits.areaMaximum {
        return Failure(AreaTooLarge);
      }
    }
    r := FindKinds(searcher, env, globalBbox, types, filters, region);
  }

  lemma OneRegion(w: World, env: Env, globalBbox: Option<Bbox>, filters: seq<Filter>, region: Option<Region>, limits: Limits)
    requires EnvInMap(w.data, env) && IsRegionOf(w, env, globalBbox, filters, region)
    ensures region.Some? <==> NamesPlace(globalBbox, filters)
    ensures TooWide(w, env, globalBbox, filters, limits) <==> region.Some? && w.area(region.value) > limits.areaMaximum
  {
    RegionIsPlaces(w, env, globalBbox, filters, region, Element(Node, 0, 0, 0, map[], 0.0, 0.0, [], []));
  }

  method FindKinds(searcher: Searcher, env: Env, ghost globalBbox: Option<Bbox>, types: seq<Kind>, filters: seq<Filter>,
                   region: Option<Region>)
      returns (r: Result<Ids, QueryError>)
    requires searcher.Valid() && WellFormed(searcher.source.w.data) && EnvInMap(searcher.source.w.data, env)
    requires IsRegionOf(searcher.source.w, env, globalBbox, filters, region)
    modifies searcher`regionCache
    ensures searcher.Valid()
    ensures r.Success? ==> r.value == QueryMeaning(searcher.source.w, env, globalBbox, types, filters)
    ensures r.Failure? ==> r.error == TooManyElements && !(searcher.Small() && Distinct(types))
  {
    hide QueryMeaning, QueryKind, CacheOk, IsRegionOf, WellFormed, EnvInMap, Conditions, Roomy, Distinct, MeaningOfFirst;
    var w, limits := searcher.source.w, searcher.limits;
    var conditions := Conditions(w, filters);
    var result := NONE;
    var total := 0;
    NothingMeant(w, env, globalBbox, types, filters);
    for i := 0 to |types|
      invariant searcher.Valid()
      invariant result == MeaningOfFirst(w, env, globalBbox, types, filters, i)
      invariant Distinct(types) ==> total == Size(result)
    {
      var found :- FindKind(searcher, env, globalBbox, filters, conditions, region, types[i]);
      MeaningOfNext(w, env, globalBbox, types, filters, i);
      AddedSize(result, types[i], found);
      result := result.With(types[i], result.Of(types[i]) + found);
      total := total + |found|;
      FirstIsSmall(w, env, globalBbox, types, filters, i + 1, limits);
      if total > limits.maxElements {
        return Failure(TooManyElements);
      }
    }
    AllAreMeant(w, env, globalBbox, types, filters);
    return Success(result);
  }

  lemma NothingMeant(w: World, env: Env, globalBbox: Option<Bbox>, types: seq<Kind>, filters: seq<Filter>)
    requires EnvInMap(w.data, env)
    ensures MeaningOfFirst(w, env, globalBbox, types, filters, 0) == NONE
    ensures Size(NONE) == 0
  {
  }

  lemma FirstIsSmall(w: World, env: Env, globalBbox: Option<Bbox>, types: seq<Kind>, filters: seq<Filter>, i: nat, limits: Limits)
    requires EnvInMap(w.data, env) && i <= |types|
    ensures Roomy(w.data, limits) ==> Size(MeaningOfFirst(w, env, globalBbox, types, filters, i)) <= limits.maxElements
  {
    MeaningIsSmall(w, env, globalBbox, types[..i], filters, limits);
  }

  lemma AllAreMeant(w: World, env: Env, globalBbox: Option<Bbox>, types: seq<Kind>, filters: seq<Filter>)
    requires EnvInMap(w.data, env)
    ensures MeaningOfFirst(w, env, globalBbox, types, filters, |types|) == QueryMeaning(w, env, globalBbox, types, filters)
  {
    assert types[..|types|] == types;
  }
}
