/** What each kind of statement gives, object by object: its result, the sets that
    it leaves under their names, and what it prints. */
module ScriptAnswers {
  import opened Wrappers
  import opened Osm
  import opened Ql
  import opened OverpassMeaning
  import opened OverpassRecursion
  import opened OverpassScript
  import opened OverpassAnswers

  /** A result is under its name, and every other set is as it was. */
  ghost predicate Names(before: Env, after: Env, name: string, result: Ids) {
    && name in after && after[name] == result
    && forall n :: n != name ==> (n in after <==> n in before) && (n in after ==> after[n] == before[n])
  }

  ghost predicate Nothing(result: Ids) {
    forall kind: Kind, id :: id !in result.Of(kind)
  }

  /** The set of a name; it is empty if there is none. */
  function SetNamed(env: Env, name: string): Ids {
    if name in env then env[name] else PerKind({}, {}, {})
  }

  // ----- Queries, items and differences -----

  lemma QueryIs(w: World, globalBbox: Option<Bbox>, env: Env, st: Statement)
    requires EnvInMap(w.data, env) && st.Query?
    ensures
      var r := Run(w, globalBbox, env, st);
      && r.result == QueryMeaning(w, env, globalBbox, st.types, st.filters)
      && Names(env, r.env, st.into, r.result) && r.output == []
  {
    hide QueryMeaning;
  }

  /** An item's result is the set that it names, or nothing without one of that name. */
  lemma ItemIs(w: World, globalBbox: Option<Bbox>, env: Env, st: Statement)
    requires EnvInMap(w.data, env) && st.Item?
    ensures
      var r := Run(w, globalBbox, env, st);
      && r.result == SetNamed(env, st.from)
      && (if st.itemInto.Some? then Names(env, r.env, st.itemInto.value, r.result) else r.env == env)
      && r.output == []
  {
  }

  /** An object is in a difference exactly if it is in the first side's result, and
      not in the second's, which runs with the sets that the first has left. */
  lemma DifferenceIs(w: World, globalBbox: Option<Bbox>, env: Env, st: Statement, kind: Kind, id: int)
    requires EnvInMap(w.data, env) && st.Difference?
    ensures
      var r := Run(w, globalBbox, env, st);
      var a := Run(w, globalBbox, env, st.first);
      var b := Run(w, globalBbox, a.env, st.second);
      && (id in r.result.Of(kind) <==> id in a.result.Of(kind) && id !in b.result.Of(kind))
      && Names(b.env, r.env, st.into, r.result) && r.output == a.output + b.output
  {
  }

  // ----- Unions -----

  /** The sets that the first children of a union leave. */
  ghost function EnvAfter(w: World, globalBbox: Option<Bbox>, env: Env, statements: seq<Statement>, i: nat): (r: Env)
    requires EnvInMap(w.data, env) && i <= |statements|
    ensures EnvInMap(w.data, r)
  {
    if i == 0 then env else Run(w, globalBbox, EnvAfter(w, globalBbox, env, statements, i - 1), statements[i - 1]).env
  }

  /** The i-th child of a union, with the sets that those before it have left. */
  ghost function Child(w: World, globalBbox: Option<Bbox>, env: Env, statements: seq<Statement>, i: nat): Outcome
    requires EnvInMap(w.data, env) && i < |statements|
  {
    Run(w, globalBbox, EnvAfter(w, globalBbox, env, statements, i), statements[i])
  }

  ghost function OutputAfter(w: World, globalBbox: Option<Bbox>, env: Env, statements: seq<Statement>, i: nat): seq<Output>
    requires EnvInMap(w.data, env) && i <= |statements|
  {
    if i == 0 then []
    else OutputAfter(w, globalBbox, env, statements, i - 1) + Child(w, globalBbox, env, statements, i - 1).output
  }

  ghost predicate InChild(w: World, globalBbox: Option<Bbox>, env: Env, statements: seq<Statement>, i: nat, kind: Kind, id: int)
    requires EnvInMap(w.data, env) && i < |statements|
  {
    id in Child(w, globalBbox, env, statements, i).result.Of(kind)
  }

  lemma {:induction false} FirstChildren(w: World, globalBbox: Option<Bbox>, env: Env, statements: seq<Statement>, i: nat,
                                         kind: Kind, id: int)
    requires EnvInMap(w.data, env) && i <= |statements|
    ensures
      var r := RunAll(w, globalBbox, env, statements[..i]);
      && (id in r.result.Of(kind) <==> exists k :: 0 <= k < i && InChild(w, globalBbox, env, statements, k, kind, id))
      && r.env == EnvAfter(w, globalBbox, env, statements, i) && r.output == OutputAfter(w, globalBbox, env, statements, i)
  {
    hide Run, EnvInMap;
    if i > 0 {
      FirstChildren(w, globalBbox, env, statements, i - 1, kind, id);
      assert statements[..i][..i - 1] == statements[..i - 1];
      var r := RunAll(w, globalBbox, env, statements[..i]);
      if id in r.result.Of(kind) && !InChild(w, globalBbox, env, statements, i - 1, kind, id) {
        assert id in RunAll(w, globalBbox, env, statements[..i - 1]).result.Of(kind);
      }
    }
  }

  /** An object is in a union exactly if it is in some child's result; the children
      run one after another, each with the sets that those before it have left. */
  lemma UnionIs(w: World, globalBbox: Option<Bbox>, env: Env, st: Statement, kind: Kind, id: int)
    requires EnvInMap(w.data, env) && st.Union?
    ensures
      var r := Run(w, globalBbox, env, st);
      var n := |st.statements|;
      && (id in r.result.Of(kind) <==> exists k :: 0 <= k < n && InChild(w, globalBbox, env, st.statements, k, kind, id))
      && Names(EnvAfter(w, globalBbox, env, st.statements, n), r.env, st.into, r.result)
      && r.output == OutputAfter(w, globalBbox, env, st.statements, n)
  {
    hide Run, RunAll, EnvAfter, OutputAfter, InChild, EnvInMap;
    var n := |st.statements|;
    FirstChildren(w, globalBbox, env, st.statements, n, kind, id);
    assert st.statements[..n] == st.statements;
    UnionStores(w, globalBbox, env, st);
  }

  lemma UnionStores(w: World, globalBbox: Option<Bbox>, env: Env, st: Statement)
    requires EnvInMap(w.data, env) && st.Union?
    ensures
      var r, all := Run(w, globalBbox, env, st), RunAll(w, globalBbox, env, st.statements);
      r.result == all.result && r.output == all.output && Names(all.env, r.env, st.into, r.result)
  {
    hide RunAll;
  }

  // ----- Recursion -----

  /** A live way is a member of one of some relations. */
  ghost predicate MemberWay(m: MapData, relations: set<int>, way: int) {
    way in m.way && exists r :: r in relations && r in m.relation && HasPart(m.relation[r], Way, way, None)
  }

  /** A live node is one of a set's ways, or of its relations or their member ways. */
  ghost predicate NodeBelow(m: MapData, ways: set<int>, relations: set<int>, n: int) {
    && n in m.node
    && (|| (exists way :: way in ways && way in m.way && n in m.way[way].refs)
        || (exists r :: r in relations && r in m.relation && HasPart(m.relation[r], Node, n, None))
        || exists way :: MemberWay(m, relations, way) && n in m.way[way].refs)
  }

  /** A live way goes through a node of a set. */
  ghost predicate WayAbove(m: MapData, nodes: set<int>, way: int) {
    way in m.way && exists n :: n in nodes && n in m.way[way].refs
  }

  /** A live relation holds a node or way of a set, or a way through one of its nodes. */
  ghost predicate RelationAbove(m: MapData, s: Ids, r: int) {
    && r in m.relation
    && (|| (exists n :: n in s.node && HasPart(m.relation[r], Node, n, None))
        || exists way :: (way in s.way || WayAbove(m, s.node, way)) && HasPart(m.relation[r], Way, way, None))
  }

  lemma BelowIs(m: MapData, s: Ids, relations: set<int>, id: int)
    ensures
      var below := Below(m, s, relations);
      && (id in below.way <==> MemberWay(m, relations, id))
      && (id in below.node <==> NodeBelow(m, s.way, relations, id))
      && below.relation == {}
  {
    hide HasPart, MembersOf;
    forall x
      ensures x in MembersOf(m, relations, Way, None) <==>
        exists r :: r in relations && r in m.relation && HasPart(m.relation[r], Way, x, None)
    {
      MembersAre(m, relations, Way, None, x);
    }
    MembersAre(m, relations, Node, None, id);
    var ways := MembersOf(m, relations, Way, None) * m.way.Keys;
    assert forall x :: x in ways <==> MemberWay(m, relations, x);
    assert id in RefsOf(m, s.way + ways) <==> exists x :: x in s.way + ways && x in m.way && id in m.way[x].refs;
    if x :| x in s.way + ways && x in m.way && id in m.way[x].refs {
      assert x in s.way || MemberWay(m, relations, x);
    }
    if x :| x in s.way && x in m.way && id in m.way[x].refs {
      assert x in s.way + ways;
    }
    if x :| MemberWay(m, relations, x) && id in m.way[x].refs {
      assert x in s.way + ways;
    }
  }

  lemma HoldersAre(m: MapData, kind: Kind, ids: set<int>, r: int)
    ensures r in RelationsOf(m, kind, ids) <==> r in m.relation && exists x :: x in ids && HasPart(m.relation[r], kind, x, None)
  {
    if r in m.relation {
      if HasMemberAmong(m.relation[r], kind, ids) {
        var i :| 0 <= i < |m.relation[r].members| && m.relation[r].members[i].kind == kind && m.relation[r].members[i].ref in ids;
        assert HasPart(m.relation[r], kind, m.relation[r].members[i].ref, None);
      }
      if x :| x in ids && HasPart(m.relation[r], kind, x, None) {
        var i :| 0 <= i < |m.relation[r].members| && m.relation[r].members[i].kind == kind && m.relation[r].members[i].ref == x;
      }
    }
  }

  lemma AboveIs(m: MapData, s: Ids, id: int)
    ensures id in WaysOfNodes(m, s.node) <==> WayAbove(m, s.node, id)
    ensures id in RelationsOf(m, Node, s.node) + RelationsOf(m, Way, s.way + WaysOfNodes(m, s.node)) <==> RelationAbove(m, s, id)
  {
    hide HasPart, WaysOfNodes, RelationsOf;
    forall x
      ensures x in WaysOfNodes(m, s.node) <==> WayAbove(m, s.node, x)
    {
      WaysAre(m, s.node, x);
    }
    var ways := s.way + WaysOfNodes(m, s.node);
    HoldersAre(m, Node, s.node, id);
    HoldersAre(m, Way, ways, id);
    hide WayAbove;
    assert forall x :: x in ways <==> x in s.way || WayAbove(m, s.node, x);
  }

  /** What a recursion gives of a set. Downwards, the live nodes of its ways and
      relations, and the live member ways; with `>>`, of all relations below as
      well, and these. Upwards, the ways through its nodes and the relations that
      hold any of its nodes or ways, or a way through its nodes; with `<<`, all
      relations above these as well. */
  lemma RecurseIs(w: World, globalBbox: Option<Bbox>, env: Env, st: Statement, id: int)
    requires EnvInMap(w.data, env) && st.Recurse?
    ensures
      var m, s := w.data, SetNamed(env, st.from);
      var r := Run(w, globalBbox, env, st);
      && Names(env, r.env, st.into, r.result) && r.output == []
      && match st.kind
         case Down =>
           && (id in r.result.node <==> NodeBelow(m, s.way, s.relation, id))
           && (id in r.result.way <==> MemberWay(m, s.relation, id)) && id !in r.result.relation
         case DownRel =>
           && (id in r.result.node <==> NodeBelow(m, s.way, DownClosure(m, s.relation), id))
           && (id in r.result.way <==> MemberWay(m, DownClosure(m, s.relation), id))
           && (id in r.result.relation <==> id in DownClosure(m, s.relation))
         case Up =>
           && id !in r.result.node && (id in r.result.way <==> WayAbove(m, s.node, id))
           && (id in r.result.relation <==> RelationAbove(m, s, id))
         case UpRel =>
           && id !in r.result.node && (id in r.result.way <==> WayAbove(m, s.node, id))
           && (id in r.result.relation <==>
                 id in UpClosure(m, s.relation + set x | x in m.relation && RelationAbove(m, s, x)))
  {
    var m, s := w.data, SetNamed(env, st.from);
    hide Below, DownClosure, UpClosure, NodeBelow, MemberWay, WayAbove, RelationAbove, WaysOfNodes, RelationsOf, InMap, EnvInMap;
    BelowIs(m, s, if st.kind.Down? then s.relation else DownClosure(m, s.relation), id);
    AboveIs(m, s, id);
    DirectAre(m, s);
  }

  lemma DirectAre(m: MapData, s: Ids)
    ensures RelationsOf(m, Node, s.node) + RelationsOf(m, Way, s.way + WaysOfNodes(m, s.node)) ==
      set x | x in m.relation && RelationAbove(m, s, x)
  {
    hide WaysOfNodes, RelationsOf, RelationAbove;
    var direct := RelationsOf(m, Node, s.node) + RelationsOf(m, Way, s.way + WaysOfNodes(m, s.node));
    var above := set x | x in m.relation && RelationAbove(m, s, x);
    forall x
      ensures x in direct <==> x in above
    {
      AboveIs(m, s, x);
      AboveAreLive(m, s, x);
    }
  }

  lemma AboveAreLive(m: MapData, s: Ids, x: int)
    ensures RelationAbove(m, s, x) ==> x in m.relation
  {
  }

  // ----- Printing -----

  /** What an out statement prints, apart from what drawing needs: with count, how
      many objects of each kind its set has; otherwise objects of it in order, all
      of them or the first so many. */
  lemma PrintIs(w: World, globalBbox: Option<Bbox>, env: Env, st: Statement)
    requires EnvInMap(w.data, env) && st.Print?
    ensures
      var s := SetNamed(env, st.from);
      var all := |s.node| + |s.way| + |s.relation|;
      var r := Run(w, globalBbox, env, st);
      && r.env == env && Nothing(r.result) && |r.output| == 1 && r.output[0].statement == st
      && (if st.mode == Count then
            && r.output[0].Counts?
            && r.output[0].sizes.node == |s.node| && r.output[0].sizes.way == |s.way| && r.output[0].sizes.relation == |s.relation|
          else
            && r.output[0].Listed? && (r.output[0].shape.Some? <==> st.geometry.Some?)
            && IsFirst(s, r.output[0].ordered)
            && |r.output[0].ordered| == if st.limit.Some? && st.limit.value < all then st.limit.value else all)
  {
    var s := SetNamed(env, st.from);
    InOrderIs(s);
    FirstAreFirst(s, InOrder(s), |FirstOf(InOrder(s), st.limit)|);
    assert InOrder(s)[..|InOrder(s)|] == InOrder(s);
    hide InOrder, IsFirst, ShapeOf;
  }

  /** Objects of a set in order, each once: nodes, then ways, then relations, by
      rising ID; and no other of the set comes before any of them. */
  ghost predicate IsFirst(s: Ids, ordered: seq<(Kind, int)>) {
    && (forall i :: 0 <= i < |ordered| ==> ordered[i].1 in s.Of(ordered[i].0))
    && (forall i, j :: 0 <= i < j < |ordered| ==> Earlier(ordered[i], ordered[j]))
    && (forall i, kind: Kind, id :: 0 <= i < |ordered| && id in s.Of(kind) && (kind, id) !in ordered ==>
          Earlier(ordered[i], (kind, id)))
  }

  predicate Earlier(x: (Kind, int), y: (Kind, int)) {
    || (x.0 == Node && y.0 != Node) || (x.0 == Way && y.0 == Relation)
    || (x.0 == y.0 && x.1 < y.1)
  }

  lemma EarlierIs(x: (Kind, int), y: (Kind, int))
    ensures Before(x, y) <==> Earlier(x, y)
  {
  }

  lemma FirstAreFirst(s: Ids, all: seq<(Kind, int)>, n: nat)
    requires Listing(all) && n <= |all| && forall x :: x in all <==> x.1 in s.Of(x.0)
    ensures IsFirst(s, all[..n])
  {
    var ordered := all[..n];
    forall i, j | 0 <= i < j < |all|
      ensures Earlier(all[i], all[j])
    {
      EarlierIs(all[i], all[j]);
    }
    forall i | 0 <= i < n
      ensures ordered[i].1 in s.Of(ordered[i].0)
    {
      assert all[i] in all;
    }
    forall i, kind: Kind, id | 0 <= i < n && id in s.Of(kind) && (kind, id) !in ordered
      ensures Earlier(ordered[i], (kind, id))
    {
      assert (kind, id) in all;
      var j :| 0 <= j < |all| && all[j] == (kind, id);
      assert forall k :: 0 <= k < n ==> all[k] == ordered[k] && ordered[k] in ordered;
    }
  }

  // ----- Drawing -----

  /** What drawing the printed objects needs: the positions of the set's nodes, of
      the printed relations' nodes, of the printed ways' nodes, and of those of the
      printed relations' member ways; and the shape of these ways. */
  lemma ShapeIs(m: MapData, s: Ids, ways: set<int>, relations: set<int>, id: int)
    ensures
      var shape := ShapeOf(m, s, ways, relations);
      && (id in shape.ways <==> id in s.way || MemberWay(m, relations, id))
      && (id in shape.coords <==>
            || id in s.node
            || (id in m.node && exists r :: r in relations && r in m.relation && HasPart(m.relation[r], Node, id, None))
            || (id in m.node && exists x :: x in ways && x in m.way && id in m.way[x].refs)
            || (id in m.node && exists x :: MemberWay(m, relations, x) && id in m.way[x].refs))
  {
    hide HasPart, MembersOf;
    forall x
      ensures x in MembersOf(m, relations, Way, None) <==>
        exists r :: r in relations && r in m.relation && HasPart(m.relation[r], Way, x, None)
    {
      MembersAre(m, relations, Way, None, x);
    }
    MembersAre(m, relations, Node, None, id);
    var members := MembersOf(m, relations, Way, None);
    var known := s.way + (members * m.way.Keys);
    assert forall x :: x in members && x in m.way <==> MemberWay(m, relations, x);
    RefsAre(m, ways, id);
    RefsAre(m, members * known, id);
    assert forall x :: x in members * known && x in m.way <==> MemberWay(m, relations, x);
    hide RefsOf, MemberWay;
  }

  lemma RefsAre(m: MapData, ways: set<int>, id: int)
    ensures id in RefsOf(m, ways) <==> exists x :: x in ways && x in m.way && id in m.way[x].refs
  {
  }
}
