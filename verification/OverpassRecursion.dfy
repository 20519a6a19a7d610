/** The recursion statements, on any graph of relations: cyclic, and with
    members that do not exist. */
module OverpassRecursion {
  import opened Wrappers
  import opened Osm
  import opened Sets
  import opened Ql
  import opened OverpassMeaning

  /** Each relation of a chain exists and has the next as a member; the last may not exist. */
  ghost predicate Chain(m: MapData, p: seq<int>) {
    |p| > 0 && forall i :: 0 < i < |p| ==> Link(m, p, i)
  }

  ghost predicate Link(m: MapData, p: seq<int>, i: nat)
    requires 0 < i < |p|
  {
    p[i - 1] in m.relation && HasMember(m.relation[p[i - 1]], Relation, p[i])
  }

  /** b is a, or below it. */
  ghost predicate Reaches(m: MapData, a: int, b: int) {
    exists p :: Chain(m, p) && p[0] == a && p[|p| - 1] == b
  }

  ghost function DownClosure(m: MapData, s: set<int>): set<int> {
    set b | b in m.relation && exists a :: a in s && Reaches(m, a, b)
  }

  ghost function UpClosure(m: MapData, s: set<int>): set<int> {
    set a | a in m.relation && exists b :: b in s && Reaches(m, a, b)
  }

  /** The existing members of a set of relations are in it. */
  ghost predicate ClosedDown(m: MapData, t: set<int>) {
    forall r, c :: r in t && r in m.relation && c in m.relation && HasMember(m.relation[r], Relation, c) ==> c in t
  }

  /** The existing relations that have one of a set of relations as a member are in it. */
  ghost predicate ClosedUp(m: MapData, t: set<int>) {
    forall r, c :: c in t && r in m.relation && HasMember(m.relation[r], Relation, c) ==> r in t
  }

  lemma ReachesSelf(m: MapData, a: int)
    ensures Reaches(m, a, a)
  {
    assert Chain(m, [a]);
  }

  lemma ReachesBelow(m: MapData, a: int, r: int, c: int)
    requires Reaches(m, a, r) && r in m.relation && HasMember(m.relation[r], Relation, c)
    ensures Reaches(m, a, c)
  {
    var p :| Chain(m, p) && p[0] == a && p[|p| - 1] == r;
    var q := p + [c];
    assert forall i :: 0 < i < |p| ==> Link(m, p, i) ==> Link(m, q, i);
    assert Chain(m, q) && q[0] == a && q[|q| - 1] == c;
  }

  lemma ReachesAbove(m: MapData, r: int, c: int, b: int)
    requires r in m.relation && HasMember(m.relation[r], Relation, c) && Reaches(m, c, b)
    ensures Reaches(m, r, b)
  {
    var p :| Chain(m, p) && p[0] == c && p[|p| - 1] == b;
    var q := [r] + p;
    forall i | 0 < i < |q|
      ensures Link(m, q, i)
    {
      assert i > 1 ==> Link(m, p, i - 1);
    }
    assert Chain(m, q) && q[0] == r && q[|q| - 1] == b;
  }

  lemma {:induction false} ChainStaysDown(m: MapData, p: seq<int>, t: set<int>, i: nat)
    requires Chain(m, p) && p[0] in t && ClosedDown(m, t) && i < |p| && p[i] in m.relation
    ensures p[i] in t
  {
    if i > 0 {
      assert Link(m, p, i);
      ChainStaysDown(m, p, t, i - 1);
      var r, c := p[i - 1], p[i];
      assert r in t && r in m.relation && c in m.relation && HasMember(m.relation[r], Relation, c);
    }
  }

  lemma {:induction false} ChainStaysUp(m: MapData, p: seq<int>, t: set<int>, i: nat)
    requires Chain(m, p) && p[|p| - 1] in t && ClosedUp(m, t) && i < |p|
    ensures p[i] in t
    decreases |p| - i
  {
    if i < |p| - 1 {
      ChainStaysUp(m, p, t, i + 1);
      assert Link(m, p, i + 1);
      var r, c := p[i], p[i + 1];
      assert r in m.relation && HasMember(m.relation[r], Relation, c);
    }
  }

  /** What is reached downwards is a closed set that holds the start, and the least one. */
  lemma DownClosureIsClosed(m: MapData, s: set<int>)
    requires s <= m.relation.Keys
    ensures s <= DownClosure(m, s) && ClosedDown(m, DownClosure(m, s))
  {
    forall a | a in s
      ensures a in DownClosure(m, s)
    {
      ReachesSelf(m, a);
    }
    forall r, c | r in DownClosure(m, s) && c in m.relation && HasMember(m.relation[r], Relation, c)
      ensures c in DownClosure(m, s)
    {
      var a :| a in s && Reaches(m, a, r);
      ReachesBelow(m, a, r, c);
    }
  }

  lemma DownClosureWithin(m: MapData, s: set<int>, t: set<int>)
    requires s <= t && ClosedDown(m, t)
    ensures DownClosure(m, s) <= t
  {
    forall b | b in DownClosure(m, s)
      ensures b in t
    {
      var a :| a in s && Reaches(m, a, b);
      var p :| Chain(m, p) && p[0] == a && p[|p| - 1] == b;
      ChainStaysDown(m, p, t, |p| - 1);
    }
  }

  /** And what is reached upwards likewise. */
  lemma UpClosureIsClosed(m: MapData, s: set<int>)
    requires s <= m.relation.Keys
    ensures s <= UpClosure(m, s) && ClosedUp(m, UpClosure(m, s))
  {
    forall a | a in s
      ensures a in UpClosure(m, s)
    {
      ReachesSelf(m, a);
    }
    forall r, c | c in UpClosure(m, s) && r in m.relation && HasMember(m.relation[r], Relation, c)
      ensures r in UpClosure(m, s)
    {
      var b :| b in s && Reaches(m, c, b);
      ReachesAbove(m, r, c, b);
    }
  }

  lemma UpClosureWithin(m: MapData, s: set<int>, t: set<int>)
    requires s <= t && ClosedUp(m, t)
    ensures UpClosure(m, s) <= t
  {
    forall a | a in UpClosure(m, s)
      ensures a in t
    {
      var b :| b in s && Reaches(m, a, b);
      var p :| Chain(m, p) && p[0] == a && p[|p| - 1] == b;
      ChainStaysUp(m, p, t, 0);
    }
  }

  // ----- The statements -----

  /** Ways that are members of some relations, and their nodes with the relations' own. */
  ghost function Below(m: MapData, s: Ids, relations: set<int>): Ids {
    var ways := MembersOf(m, relations, Way, None) * m.way.Keys;
    PerKind((MembersOf(m, relations, Node, None) + RefsOf(m, s.way + ways)) * m.node.Keys, ways, {})
  }

  ghost function RecurseMeaning(m: MapData, kind: RecurseType, s: Ids): Ids {
    match kind
    case Down => Below(m, s, s.relation)
    case DownRel => Below(m, s, DownClosure(m, s.relation)).(relation := DownClosure(m, s.relation))
    case _ =>
      var ways := WaysOfNodes(m, s.node);
      var direct := RelationsOf(m, Node, s.node) + RelationsOf(m, Way, s.way + ways);
      PerKind({}, ways, if kind.Up? then direct else UpClosure(m, s.relation + direct))
  }

  ghost predicate InEveryClosedDown(m: MapData, s: int, r: int) {
    forall t :: s in t && ClosedDown(m, t) ==> r in t
  }

  ghost predicate InEveryClosedUp(m: MapData, r: int, s: int) {
    forall t :: r in t && ClosedUp(m, t) ==> s in t
  }

  /** Downwards and upwards are dual: r is below s, that is in every set closed
      downwards that holds s, exactly when s is in every set closed upwards that
      holds r, that is above r. */
  lemma DownAndUpAreDual(m: MapData, r: int, s: int)
    requires r in m.relation && s in m.relation
    ensures
      var below := r in RecurseMeaning(m, DownRel, PerKind({}, {}, {s})).relation;
      && (below <==> InEveryClosedDown(m, s, r))
      && (below <==> InEveryClosedUp(m, r, s))
      && (below <==> s in RecurseMeaning(m, UpRel, PerKind({}, {}, {r})).relation)
  {
    NothingHoldsNone(m);
    assert {r} + ({} + {}) == {r};
    DownOfOne(m, s, r);
    UpOfOne(m, r, s);
  }

  lemma DownOfOne(m: MapData, s: int, r: int)
    requires s in m.relation
    ensures r in DownClosure(m, {s}) <==> InEveryClosedDown(m, s, r)
  {
    hide DownClosure, ClosedDown;
    DownClosureIsClosed(m, {s});
    assert s in {s};
    if r in DownClosure(m, {s}) {
      forall t | s in t && ClosedDown(m, t)
        ensures r in t
      {
        DownClosureWithin(m, {s}, t);
      }
    }
  }

  lemma UpOfOne(m: MapData, r: int, s: int)
    requires r in m.relation
    ensures s in UpClosure(m, {r}) <==> InEveryClosedUp(m, r, s)
  {
    hide UpClosure, ClosedUp;
    UpClosureIsClosed(m, {r});
    assert r in {r};
    if s in UpClosure(m, {r}) {
      forall t | r in t && ClosedUp(m, t)
        ensures s in t
      {
        UpClosureWithin(m, {r}, t);
      }
    }
  }

  lemma NothingHoldsNone(m: MapData)
    ensures RelationsOf(m, Node, {}) == {} && RelationsOf(m, Way, {}) == {} && WaysOfNodes(m, {}) == {}
    ensures RelationsOf(m, Way, {} + {}) == {}
  {
    if RelationsOf(m, Node, {}) != {} {
      var x := AnyOf(RelationsOf(m, Node, {}));
      assert false;
    }
    if RelationsOf(m, Way, {}) != {} {
      var x := AnyOf(RelationsOf(m, Way, {}));
      assert false;
    }
    if WaysOfNodes(m, {}) != {} {
      var x := AnyOf(WaysOfNodes(m, {}));
      assert false;
    }
    var none: set<int> := {};
    assert none + none == none;
  }

  /** Everything that a set's objects are made of, as far as it exists, is in it. */
  ghost predicate Complete(m: MapData, u: Ids) {
    && (forall w :: w in u.way && w in m.way ==> LiveRefs(m, m.way[w]) <= u.node)
    && (forall r, i :: r in u.relation && r in m.relation && 0 <= i < |m.relation[r].members| ==>
          HoldsMember(m, u, m.relation[r].members[i]))
  }

  predicate HoldsMember(m: MapData, u: Ids, c: Member) {
    c.ref in m.Of(c.kind) ==> c.ref in u.Of(c.kind)
  }

  /** A query's result united with its >> . */
  ghost function WithDownRel(m: MapData, q: Ids): Ids {
    Join(q, RecurseMeaning(m, DownRel, q))
  }

  lemma WayNodesAreBelow(m: MapData, q: Ids, closure: set<int>, w: int)
    requires w in m.way && w in q.way + Below(m, q, closure).way
    ensures LiveRefs(m, m.way[w]) <= Below(m, q, closure).node
  {
    var ways := q.way + Below(m, q, closure).way;
    forall n | n in LiveRefs(m, m.way[w])
      ensures n in RefsOf(m, ways)
    {
    }
  }

  lemma WithDownRelParts(m: MapData, q: Ids)
    requires InMap(m, q)
    ensures
      var below := Below(m, q, DownClosure(m, q.relation));
      WithDownRel(m, q) == PerKind(q.node + below.node, q.way + below.way, DownClosure(m, q.relation))
  {
    DownClosureIsClosed(m, q.relation);
    BelowHasNoRelations(m, q, DownClosure(m, q.relation));
    hide DownClosure, Below;
    assert q.relation + DownClosure(m, q.relation) == DownClosure(m, q.relation);
  }

  lemma BelowHasNoRelations(m: MapData, q: Ids, relations: set<int>)
    ensures Below(m, q, relations).relation == {}
  {
  }

  /** A query's result united with its >> is complete. */
  lemma WithDownRelIsComplete(m: MapData, q: Ids)
    requires InMap(m, q)
    ensures Complete(m, WithDownRel(m, q)) && InMap(m, WithDownRel(m, q))
  {
    var closure := DownClosure(m, q.relation);
    DownClosureIsClosed(m, q.relation);
    assert closure <= m.relation.Keys;
    WithDownRelParts(m, q);
    ClosedIsComplete(m, q, closure, WithDownRel(m, q));
  }

  lemma ClosedIsComplete(m: MapData, q: Ids, closure: set<int>, u: Ids)
    requires InMap(m, q) && ClosedDown(m, closure) && closure <= m.relation.Keys
    requires u == PerKind(q.node + Below(m, q, closure).node, q.way + Below(m, q, closure).way, closure)
    ensures Complete(m, u) && InMap(m, u)
  {
    hide DownClosure, Below, ClosedDown, LiveRefs;
    BelowInMap(m, q, closure);
    forall w | w in u.way && w in m.way
      ensures LiveRefs(m, m.way[w]) <= u.node
    {
      WayNodesAreBelow(m, q, closure, w);
    }
    forall r, i | r in u.relation && r in m.relation && 0 <= i < |m.relation[r].members|
      ensures HoldsMember(m, u, m.relation[r].members[i])
    {
      MemberIsBelow(m, q, closure, r, i);
    }
  }

  lemma BelowInMap(m: MapData, q: Ids, closure: set<int>)
    ensures InMap(m, Below(m, q, closure))
  {
  }

  lemma MemberIsBelow(m: MapData, q: Ids, closure: set<int>, r: int, i: nat)
    requires ClosedDown(m, closure) && r in closure && r in m.relation && i < |m.relation[r].members|
    ensures
      var c := m.relation[r].members[i];
      c.ref in m.Of(c.kind) ==> c.ref in (if c.kind.Relation? then closure else Below(m, q, closure).Of(c.kind))
  {
    var c := m.relation[r].members[i];
    assert HasMember(m.relation[r], c.kind, c.ref);
    assert RoleFits(None, c);
    assert c.ref in MembersOf(m, closure, c.kind, None);
  }

  /** And it is the least complete set that holds the query's result. */
  lemma WithDownRelIsLeast(m: MapData, q: Ids, t: Ids)
    requires Within(q, t) && Complete(m, t)
    ensures Within(WithDownRel(m, q), t)
  {
    CompleteIsClosedDown(m, t);
    DownClosureWithin(m, q.relation, t.relation);
    CompleteHoldsBelow(m, q, t, DownClosure(m, q.relation));
  }

  lemma CompleteIsClosedDown(m: MapData, t: Ids)
    requires Complete(m, t)
    ensures ClosedDown(m, t.relation)
  {
    forall r, c | r in t.relation && r in m.relation && c in m.relation && HasMember(m.relation[r], Relation, c)
      ensures c in t.relation
    {
      var i :| 0 <= i < |m.relation[r].members| && m.relation[r].members[i].kind == Relation
        && m.relation[r].members[i].ref == c;
      assert HoldsMember(m, t, m.relation[r].members[i]);
    }
  }

  lemma CompleteHoldsMembers(m: MapData, t: Ids, relations: set<int>, kind: Kind, c: int)
    requires Complete(m, t) && relations <= t.relation
    requires c in MembersOf(m, relations, kind, None) && c in m.Of(kind)
    ensures c in t.Of(kind)
  {
    var r, i :| r in relations && r in m.relation && 0 <= i < |m.relation[r].members|
      && m.relation[r].members[i].kind == kind && m.relation[r].members[i].ref == c;
    assert HoldsMember(m, t, m.relation[r].members[i]);
  }

  lemma CompleteHoldsBelow(m: MapData, q: Ids, t: Ids, relations: set<int>)
    requires Within(q, t) && Complete(m, t) && relations <= t.relation
    ensures Within(Below(m, q, relations), t)
  {
    var ways := MembersOf(m, relations, Way, None) * m.way.Keys;
    forall w | w in ways
      ensures w in t.way
    {
      CompleteHoldsMembers(m, t, relations, Way, w);
    }
    forall n | n in Below(m, q, relations).node
      ensures n in t.node
    {
      if n in MembersOf(m, relations, Node, None) {
        CompleteHoldsMembers(m, t, relations, Node, n);
      } else {
        var w :| w in q.way + ways && w in m.way && n in m.way[w].refs;
        assert n in LiveRefs(m, m.way[w]);
      }
    }
  }
}
