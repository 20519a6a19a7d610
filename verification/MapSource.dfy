/** Reading objects of the map for a query, within its limits. */
module MapSource {
  import opened Wrappers
  import opened Osm
  import opened Sets
  import opened Ql
  import opened OverpassMeaning

  const TAG_FIRST_MAXIMUM: nat := 20000
  const REGION_FIRST_MAXIMUM: nat := 2000
  const AROUND_POSITIONS_MAXIMUM: nat := 5000

  datatype Limits = Limits(maxElements: nat, areaMaximum: real)

  datatype QueryError = TooManyElements | Unsupported | NotSelective | AreaTooLarge | TooManyPositions | Unrunnable

  predicate InRegion(w: World, region: Region, n: Element) {
    && (region.bbox.Some? ==> InBox(region.bbox.value, n))
    && (region.around.Some? ==> NearAny(w, region.around.value.0, region.around.value.1, n))
  }

  /** What the database looks at of a region: a node's position, or a stored box. */
  predicate DatabaseMeets(w: World, kind: Kind, region: Option<Region>, e: Element) {
    region.None? ||
    (if kind.Node? then InRegion(w, region.value, e)
     else region.value.bbox.Some? && w.boxMeets(region.value.bbox.value, e))
  }

  /** Exactly the live objects of a kind that satisfy all the conditions, the region, and the list
      of IDs, where given. */
  function Found(w: World, kind: Kind, conditions: seq<Filter>, region: Option<Region>, ids: Option<set<int>>): set<int> {
    set id | id in w.data.Of(kind) && (ids.Some? ==> id in ids.value)
      && (forall i :: 0 <= i < |conditions| ==> w.meets(conditions[i], w.data.Of(kind)[id]))
      && DatabaseMeets(w, kind, region, w.data.Of(kind)[id])
  }

  /** All IDs that the map knows of: of live objects, and those they refer to. */
  ghost function Known(m: MapData): Ids {
    PerKind(m.node.Keys + RefsOf(m, m.way.Keys) + MembersOf(m, m.relation.Keys, Node, None),
            m.way.Keys + MembersOf(m, m.relation.Keys, Way, None),
            m.relation.Keys + MembersOf(m, m.relation.Keys, Relation, None))
  }

  /** A map so small that no query of it comes up against a limit. */
  ghost predicate Roomy(m: MapData, limits: Limits) {
    var k := Known(m);
    var total := |k.node| + |k.way| + 2 * |k.relation|;
    total <= limits.maxElements && total <= TAG_FIRST_MAXIMUM
  }

  class Source {
    const w: World
    const limits: Limits

    constructor (w: World, limits: Limits)
      ensures this.w == w && this.limits == limits
    {
      this.w := w;
      this.limits := limits;
    }

    /** The database's search: any of the matches, as many as limit allows. An
        empty list of IDs does not restrict it. */
    method OverpassQuery(kind: Kind, conditions: seq<Filter>, region: Option<Region>, idList: set<int>, limit: nat)
        returns (found: set<int>)
      ensures
        var all := Found(w, kind, conditions, region, if idList == {} then None else Some(idList));
        found <= all && |found| == if |all| <= limit then |all| else limit
    {
      var rest := Found(w, kind, conditions, region, if idList == {} then None else Some(idList));
      ghost var all := rest;
      found := {};
      while |found| < limit && rest != {}
        invariant found + rest == all && found !! rest && |found| <= limit
        decreases |rest|
      {
        var id := Pick(rest);
        found, rest := found + {id}, rest - {id};
      }
      assert |found + rest| == |found| + |rest|;
    }

    lemma NoneOfNone(kind: Kind, conditions: seq<Filter>, region: Option<Region>)
      ensures Found(w, kind, conditions, region, Some({})) == {}
    {
      var found := Found(w, kind, conditions, region, Some({}));
      if found != {} {
        var x := AnyOf(found);
        assert false;
      }
    }

    /** Either everything that Found names, or an error: never a part of it. The maximum is
        maxElements if none is given. */
    method Query(kind: Kind, conditions: seq<Filter>, region: Option<Region>, ids: Option<set<int>>, maximum: Option<nat>)
        returns (r: Result<set<int>, QueryError>)
      requires kind.Node? || region.None? || (region.value.bbox.Some? && region.value.around.None?)
      ensures
        var all := Found(w, kind, conditions, region, ids);
        r == if |all| <= maximum.GetOr(limits.maxElements) then Success(all) else Failure(TooManyElements)
    {
      ghost var all := Found(w, kind, conditions, region, ids);
      if ids.Some? && |ids.value| == 0 {
        NoneOfNone(kind, conditions, region);
        return Success({});
      }
      var most := maximum.GetOr(limits.maxElements);
      var found := OverpassQuery(kind, conditions, region, ids.GetOr({}), most + 1);
      if |found| > most {
        return Failure(TooManyElements);
      }
      SubsetSize(found, all);
      return Success(found);
    }

    /** As Query, of IDs alone and with a maximum that each caller names. */
    method QueryIds(kind: Kind, conditions: seq<Filter>, region: Option<Region>, ids: Option<set<int>>, maximum: nat)
        returns (r: Result<set<int>, QueryError>)
      requires kind.Node? || region.None? || (region.value.bbox.Some? && region.value.around.None?)
      ensures
        var all := Found(w, kind, conditions, region, ids);
        r == if |all| <= maximum then Success(all) else Failure(TooManyElements)
    {
      ghost var all := Found(w, kind, conditions, region, ids);
      if ids.Some? && |ids.value| == 0 {
        NoneOfNone(kind, conditions, region);
        return Success({});
      }
      var found := OverpassQuery(kind, conditions, region, ids.GetOr({}), maximum + 1);
      if |found| > maximum {
        return Failure(TooManyElements);
      }
      SubsetSize(found, all);
      return Success(found);
    }

    method ByIds(kind: Kind, ids: set<int>) returns (r: Result<set<int>, QueryError>)
      ensures
        r == if |ids| <= 10 * limits.maxElements then Success(ids * w.data.Of(kind).Keys) else Failure(TooManyElements)
    {
      if |ids| == 0 {
        assert ids == {} && {} * w.data.Of(kind).Keys == {};
        return Success({});
      }
      if |ids| > 10 * limits.maxElements {
        return Failure(TooManyElements);
      }
      return Success(ids * w.data.Of(kind).Keys);
    }
  }
}
