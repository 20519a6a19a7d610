/** Two ways to find the ways and relations with a part in a region, and a cache that both use: they
    give the same set. */
module RegionSearch {
  import opened Wrappers
  import opened Osm
  import opened Sets
  import opened Ql
  import opened OverpassMeaning
  import opened MapSource
  import opened OverpassPlaces

  /** What each strategy has to find: the ways or relations with a part in the
      region that meet the conditions, among some IDs if these are given. */
  ghost function PartMatches(w: World, kind: Kind, conditions: seq<Filter>, region: Region, ids: Option<set<int>>)
    : set<int>
  {
    set id | id in Found(w, kind, conditions, None, ids) && PartIn(w, region, kind, w.data.Of(kind)[id])
  }

  type RegionParts = (set<int>, set<int>)

  /** What the cache keeps of a region: NodesIn, and the ways that have one of them. */
  ghost function PartsOf(w: World, region: Region): RegionParts {
    (NodesIn(w, region), WaysOfNodes(w.data, NodesIn(w, region)))
  }

  ghost predicate CacheOk(w: World, cache: map<Region, RegionParts>) {
    forall r :: r in cache ==> cache[r] == PartsOf(w, r)
  }

  // ----- What is found is what is meant -----

  lemma FoundNodes(w: World, region: Region, ids: Option<set<int>>)
    ensures Found(w, Node, [], Some(region), ids) ==
      if ids.Some? then NodesIn(w, region) * ids.value else NodesIn(w, region)
  {
    var found, nodes := Found(w, Node, [], Some(region), ids), NodesIn(w, region);
    forall n
      ensures n in found <==> n in nodes && (ids.Some? ==> n in ids.value)
    {
    }
  }

  lemma FoundAmong(w: World, kind: Kind, conditions: seq<Filter>, wanted: set<int>)
    requires wanted <= w.data.Of(kind).Keys
    ensures conditions == [] ==> Found(w, kind, conditions, None, Some(wanted)) == wanted
    ensures wanted == {} ==> Found(w, kind, conditions, None, Some(wanted)) == {}
  {
    if conditions == [] {
      forall id
        ensures id in Found(w, kind, conditions, None, Some(wanted)) <==> id in wanted
      {
      }
    }
    if wanted == {} && Found(w, kind, conditions, None, Some(wanted)) != {} {
      var x := AnyOf(Found(w, kind, conditions, None, Some(wanted)));
      assert false;
    }
  }

  /** All ways, or all relations, that have a part in a region. */
  ghost function Reached(w: World, kind: Kind, region: Region): set<int> {
    set id | id in w.data.Of(kind) && PartIn(w, region, kind, w.data.Of(kind)[id])
  }

  /** The ways, or the relations, that a region's nodes and their ways are in. */
  function CandidatesOf(w: World, kind: Kind, parts: RegionParts): set<int> {
    if kind.Relation? then RelationsOf(w.data, Node, parts.0) + RelationsOf(w.data, Way, parts.1) else parts.1
  }

  lemma CandidatesAreReached(w: World, kind: Kind, region: Region)
    requires !kind.Node?
    ensures CandidatesOf(w, kind, PartsOf(w, region)) == Reached(w, kind, region)
  {
    forall id | id in w.data.Of(kind)
      ensures id in CandidatesOf(w, kind, PartsOf(w, region)) <==> id in Reached(w, kind, region)
    {
      if kind.Relation? {
        ReachedRelations(w, region, id);
      } else {
        ReachedWays(w, region, id);
      }
    }
  }

  lemma WantedAreMatches(w: World, kind: Kind, conditions: seq<Filter>, region: Region, ids: Option<set<int>>)
    ensures
      var reached := Reached(w, kind, region);
      var wanted := if ids.None? then reached else reached * ids.value;
      wanted <= w.data.Of(kind).Keys
      && Found(w, kind, conditions, None, Some(wanted)) == PartMatches(w, kind, conditions, region, ids)
  {
    var reached := Reached(w, kind, region);
    var wanted := if ids.None? then reached else reached * ids.value;
    forall id
      ensures id in Found(w, kind, conditions, None, Some(wanted)) <==> id in PartMatches(w, kind, conditions, region, ids)
    {
    }
  }

  // ----- Sizes -----

  lemma KnownIsRoomy(m: MapData, limits: Limits, kind: Kind, s: set<int>)
    requires Roomy(m, limits) && s <= Known(m).Of(kind)
    ensures |s| <= limits.maxElements && |s| <= TAG_FIRST_MAXIMUM
  {
    SubsetSize(s, Known(m).Of(kind));
  }

  lemma KnownLive(m: MapData)
    ensures InMap(m, PerKind(m.node.Keys, m.way.Keys, m.relation.Keys))
    ensures forall k: Kind :: m.Of(k).Keys <= Known(m).Of(k)
  {
    forall k: Kind
      ensures m.Of(k).Keys <= Known(m).Of(k)
    {
    }
  }

  class Searcher {
    const source: Source
    const limits: Limits
    var regionCache: map<Region, RegionParts>

    constructor (source: Source, limits: Limits)
      requires source.limits == limits
      ensures this.source == source && this.limits == limits && Valid()
    {
      this.source, this.limits, regionCache := source, limits, map[];
    }

    ghost predicate Valid()
      reads this
    {
      source.limits == limits && CacheOk(source.w, regionCache)
    }

    /** A map without limits to come up against. */
    ghost predicate Small() {
      Roomy(source.w.data, limits)
    }

    /** Gives PartsOf the region. Only a call with a maximum may give nothing, and only one without
        may fail. */
    method AroundRegion(region: Region, maximum: Option<nat>) returns (r: Result<Option<RegionParts>, QueryError>)
      requires Valid()
      modifies this`regionCache
      ensures Valid()
      ensures r.Success? && r.value.Some? ==> r.value.value == PartsOf(source.w, region)
      ensures r.Success? && r.value.None? ==> maximum.Some?
      ensures r.Failure? ==> maximum.None? && r.error == TooManyElements && !Small()
    {
      hide PartsOf, NodesIn, Found, Roomy;
      if region !in regionCache {
        var most := maximum.GetOr(10 * limits.maxElements);
        var found := source.QueryIds(Node, [], Some(region), None, most);
        FoundNodes(source.w, region, None);
        if found.Failure? {
          if maximum.Some? {
            return Success(None);
          }
          NodesInAreFew(region);
          return Failure(TooManyElements);
        }
        var ways := WaysOfNodes(source.w.data, found.value);
        if |ways| > limits.maxElements {
          if maximum.Some? {
            return Success(None);
          }
          WaysAreFew(found.value);
          return Failure(TooManyElements);
        }
        PartsAre(region);
        regionCache := regionCache[region := (found.value, ways)];
      }
      return Success(Some(regionCache[region]));
    }

    lemma PartsAre(region: Region)
      ensures PartsOf(source.w, region) == (NodesIn(source.w, region), WaysOfNodes(source.w.data, NodesIn(source.w, region)))
    {
    }

    lemma NodesInAreFew(region: Region)
      ensures Small() ==> |NodesIn(source.w, region)| <= limits.maxElements
    {
      if Small() {
        KnownLive(source.w.data);
        assert NodesIn(source.w, region) <= source.w.data.Of(Node).Keys;
        KnownIsRoomy(source.w.data, limits, Node, NodesIn(source.w, region));
      }
    }

    lemma WaysAreFew(nodes: set<int>)
      ensures Small() ==> |WaysOfNodes(source.w.data, nodes)| <= limits.maxElements
    {
      if Small() {
        KnownLive(source.w.data);
        assert WaysOfNodes(source.w.data, nodes) <= source.w.data.Of(Way).Keys;
        KnownIsRoomy(source.w.data, limits, Way, WaysOfNodes(source.w.data, nodes));
      }
    }

    /** The set PartMatches, found from PartsOf the region. */
    method ReachedFromRegion(kind: Kind, conditions: seq<Filter>, region: Region, ids: Option<set<int>>)
        returns (r: Result<set<int>, QueryError>)
      requires Valid() && !kind.Node?
      modifies this`regionCache
      ensures Valid()
      ensures r.Success? ==> r.value == PartMatches(source.w, kind, conditions, region, ids)
      ensures r.Failure? ==> r.error == TooManyElements && !Small()
    {
      hide PartsOf, CandidatesOf, Reached, Found, PartMatches, Roomy, CacheOk, RelationsOf;
      var around :- AroundRegion(region, None);
      var (nodes, ways) := around.value;
      CandidatesAreReached(source.w, kind, region);
      if kind.Relation? {
        var ofNodes, ofWays := RelationsOf(source.w.data, Node, nodes), RelationsOf(source.w.data, Way, ways);
        if |ofNodes| + |ofWays| > limits.maxElements {
          RelationsAreFew(nodes, ways);
          return Failure(TooManyElements);
        }
      }
      var byId := CandidatesOf(source.w, kind, (nodes, ways));
      var wanted := if ids.None? then byId else byId * ids.value;
      WantedAreMatches(source.w, kind, conditions, region, ids);
      FoundAmong(source.w, kind, conditions, wanted);
      if |conditions| == 0 || |wanted| == 0 {
        return Success(wanted);
      }
      FoundAreFew(kind, conditions, None, Some(wanted));
      r := source.Query(kind, conditions, None, Some(wanted), None);
    }

    lemma RelationsAreFew(nodes: set<int>, ways: set<int>)
      ensures Small() ==>
        |RelationsOf(source.w.data, Node, nodes)| + |RelationsOf(source.w.data, Way, ways)| <= limits.maxElements
    {
      var live := source.w.data.relation.Keys;
      SubsetSize(RelationsOf(source.w.data, Node, nodes), live);
      SubsetSize(RelationsOf(source.w.data, Way, ways), live);
      SubsetSize(live, Known(source.w.data).relation);
    }

    lemma FoundAreFew(kind: Kind, conditions: seq<Filter>, region: Option<Region>, ids: Option<set<int>>)
      ensures Small() ==>
        |Found(source.w, kind, conditions, region, ids)| <= limits.maxElements
        && |Found(source.w, kind, conditions, region, ids)| <= TAG_FIRST_MAXIMUM
    {
      if Small() {
        KnownLive(source.w.data);
        assert Found(source.w, kind, conditions, region, ids) <= source.w.data.Of(kind).Keys;
        KnownIsRoomy(source.w.data, limits, kind, Found(source.w, kind, conditions, region, ids));
      }
    }

    /** The subset of found that has a part in the region, found from the nodes of its objects. */
    method HavingPartInRegion(kind: Kind, found: set<int>, region: Region) returns (r: Result<set<int>, QueryError>)
      requires Valid() && !kind.Node? && found <= source.w.data.Of(kind).Keys
      ensures r.Success? ==>
        r.value == set id | id in found && PartIn(source.w, region, kind, source.w.data.Of(kind)[id])
      ensures r.Failure? ==> r.error == TooManyElements && !Small()
    {
      hide Found, Roomy, CacheOk, PartIn, UsesAny, ReachesAny, MembersOf, RefsOf;
      var m := source.w.data;
      var wayRefs: set<int> := {}; // The member ways whose nodes are known
      var nodeIds: set<int>;
      if kind.Relation? {
        var memberWays := MembersOf(m, found, Way, None);
        MembersAreFew(found, Way);
        if |memberWays| > 10 * limits.maxElements {
          return Failure(TooManyElements);
        }
        var ways := source.ByIds(Way, memberWays);
        wayRefs := ways.GetOr({}); // So few can always be read
        nodeIds := MembersOf(m, found, Node, None) + RefsOf(m, wayRefs);
      } else {
        nodeIds := RefsOf(m, found);
      }
      PartsAreFew(kind, found, nodeIds);
      if |nodeIds| > 10 * limits.maxElements {
        return Failure(TooManyElements);
      }
      FoundNodes(source.w, region, Some(nodeIds));
      SubsetSize(NodesIn(source.w, region) * nodeIds, nodeIds);
      var found' := source.QueryIds(Node, [], Some(region), Some(nodeIds), |nodeIds|);
      var inside := found'.GetOr({}); // No more are found than are asked about
      var kept := set id | id in found &&
        (if kind.Way? then UsesAny(m.way[id], inside) else ReachesAny(m, m.relation[id], inside));
      forall id | id in found
        ensures (if kind.Way? then UsesAny(m.way[id], inside) else ReachesAny(m, m.relation[id], inside))
          <==> PartIn(source.w, region, kind, m.Of(kind)[id])
      {
        InsideCovers(kind, found, region, id);
        if kind.Way? {
          WayHasPart(source.w, region, m.way[id], inside);
        } else {
          RelationHasPart(source.w, region, m.relation[id], inside);
        }
      }
      return Success(kept);
    }

    /** The nodes looked up hold all those that some ways' or relations' parts could be. */
    ghost function NodesToLookUp(kind: Kind, found: set<int>): set<int> {
      var m := source.w.data;
      if kind.Way? then RefsOf(m, found)
      else MembersOf(m, found, Node, None) + RefsOf(m, MembersOf(m, found, Way, None) * m.way.Keys)
    }

    lemma InsideCovers(kind: Kind, found: set<int>, region: Region, id: int)
      requires !kind.Node? && id in found && found <= source.w.data.Of(kind).Keys
      ensures Covers(source.w, region, NodesIn(source.w, region) * NodesToLookUp(kind, found),
                     NodesOf(source.w.data, kind, source.w.data.Of(kind)[id]))
    {
      var m, e := source.w.data, source.w.data.Of(kind)[id];
      forall n | n in NodesOf(m, kind, e)
        ensures n in NodesToLookUp(kind, found)
      {
        if kind.Way? {
          assert n in RefsOf(m, found);
        } else if i :| 0 <= i < |e.members| && e.members[i].kind == Node && e.members[i].ref == n {
          assert RoleFits(None, e.members[i]);
          assert n in MembersOf(m, found, Node, None);
        } else {
          var i :| 0 <= i < |e.members| && e.members[i].kind == Way && e.members[i].ref in m.way
            && n in LiveRefs(m, m.way[e.members[i].ref]);
          assert RoleFits(None, e.members[i]);
          assert e.members[i].ref in MembersOf(m, found, Way, None) * m.way.Keys;
        }
      }
    }

    lemma MembersAreFew(relations: set<int>, kind: Kind)
      ensures Small() ==> |MembersOf(source.w.data, relations, kind, None)| <= limits.maxElements
    {
      if Small() {
        var m := source.w.data;
        assert MembersOf(m, relations, kind, None) <= MembersOf(m, m.relation.Keys, kind, None);
        assert MembersOf(m, relations, kind, None) <= Known(m).Of(kind);
        KnownIsRoomy(m, limits, kind, MembersOf(m, relations, kind, None));
      }
    }

    lemma PartsAreFew(kind: Kind, found: set<int>, nodeIds: set<int>)
      ensures Small() && nodeIds == NodesToLookUp(kind, found) ==> |nodeIds| <= limits.maxElements
    {
      if Small() && nodeIds == NodesToLookUp(kind, found) {
        var m := source.w.data;
        assert nodeIds <= Known(m).Of(Node);
        KnownIsRoomy(m, limits, Node, nodeIds);
      }
    }

    /** The set PartMatches, whichever of the strategies is chosen. */
    method InRegion(kind: Kind, conditions: seq<Filter>, region: Region, ids: Option<set<int>>, selective: bool)
        returns (r: Result<set<int>, QueryError>)
      requires Valid() && !kind.Node?
      modifies this`regionCache
      ensures Valid()
      ensures r.Success? ==> r.value == PartMatches(source.w, kind, conditions, region, ids)
      ensures r.Failure? ==> r.error == TooManyElements && !Small()
    {
      hide PartsOf, Found, Roomy, CacheOk, PartIn;
      var small := source.w.area(region) <= limits.areaMaximum;
      if selective {
        if small {
          var around := AroundRegion(region, Some(REGION_FIRST_MAXIMUM));
          if around.Success? && around.value.Some? {
            r := ReachedFromRegion(kind, conditions, region, ids);
            return;
          }
        }
        var most := if limits.maxElements < TAG_FIRST_MAXIMUM then limits.maxElements else TAG_FIRST_MAXIMUM;
        var found := source.Query(kind, conditions, None, ids, Some(most));
        FoundAreFew(kind, conditions, None, ids);
        if found.Success? {
          FoundAreLive(source.w, kind, conditions, ids);
          r := HavingPartInRegion(kind, found.value, region);
          return;
        }
        if !small {
          return Failure(TooManyElements);
        }
      }
      r := ReachedFromRegion(kind, conditions, region, ids);
    }
  }

  lemma FoundAreLive(w: World, kind: Kind, conditions: seq<Filter>, ids: Option<set<int>>)
    ensures Found(w, kind, conditions, None, ids) <= w.data.Of(kind).Keys
  {
  }
}
