/** The loops of the recursion statements, which end on cyclic graphs too and
    find exactly the relations reached. */
module Recursing {
  import opened Wrappers
  import opened Osm
  import opened Sets
  import opened Ql
  import opened OverpassMeaning
  import opened OverpassRecursion
  import opened MapSource

  /** Some existing relations, all reached downwards from the start, and what is
      still to be looked up: every existing member not among them. */
  ghost predicate GoingDown(m: MapData, start: set<int>, relations: set<int>, pending: set<int>) {
    && start <= relations <= DownClosure(m, start)
    && pending <= MembersOf(m, relations, Relation, None) && pending !! relations
    && (MembersOf(m, relations, Relation, None) * m.relation.Keys) <= relations + pending
  }

  lemma MembersAreBelow(m: MapData, start: set<int>, relations: set<int>, c: int)
    requires relations <= DownClosure(m, start)
    requires c in MembersOf(m, relations, Relation, None) && c in m.relation
    ensures c in DownClosure(m, start)
  {
    var r, i :| r in relations && r in m.relation && 0 <= i < |m.relation[r].members|
      && m.relation[r].members[i].kind == Relation && m.relation[r].members[i].ref == c;
    assert HasMember(m.relation[r], Relation, c);
    var a :| a in start && Reaches(m, a, r);
    ReachesBelow(m, a, r, c);
  }

  lemma MembersOfBoth(m: MapData, a: set<int>, b: set<int>, kind: Kind)
    ensures MembersOf(m, a + b, kind, None) == MembersOf(m, a, kind, None) + MembersOf(m, b, kind, None)
  {
    forall c
      ensures c in MembersOf(m, a + b, kind, None) <==> c in MembersOf(m, a, kind, None) + MembersOf(m, b, kind, None)
    {
    }
  }

  lemma MembersOfNone(m: MapData, kind: Kind)
    ensures MembersOf(m, {}, kind, None) == {}
  {
    if MembersOf(m, {}, kind, None) != {} {
      var x := AnyOf(MembersOf(m, {}, kind, None));
      assert false;
    }
  }

  lemma DownStarts(m: MapData, start: set<int>)
    requires start <= m.relation.Keys
    ensures GoingDown(m, start, start, Unseen(m, start, start))
  {
    DownClosureIsClosed(m, start);
  }

  lemma DownNext(m: MapData, start: set<int>, relations: set<int>, pending: set<int>)
    requires GoingDown(m, start, relations, pending)
    ensures
      var found := pending * m.relation.Keys;
      GoingDown(m, start, relations + found, Unseen(m, found, relations + found))
  {
    var found := pending * m.relation.Keys;
    MembersOfBoth(m, relations, found, Relation);
    forall c | c in found
      ensures c in DownClosure(m, start)
    {
      MembersAreBelow(m, start, relations, c);
    }
  }

  lemma DownEnds(m: MapData, start: set<int>, relations: set<int>)
    requires start <= m.relation.Keys && GoingDown(m, start, relations, {})
    ensures relations == DownClosure(m, start)
  {
    forall r, c | r in relations && r in m.relation && c in m.relation && HasMember(m.relation[r], Relation, c)
      ensures c in relations
    {
      var i :| 0 <= i < |m.relation[r].members| && m.relation[r].members[i].kind == Relation
        && m.relation[r].members[i].ref == c;
      assert RoleFits(None, m.relation[r].members[i]);
      assert c in MembersOf(m, relations, Relation, None) * m.relation.Keys;
    }
    DownClosureWithin(m, start, relations);
  }

  /** Some existing relations, all reached upwards from the start, and those of
      them whose parents have not been looked up. */
  ghost predicate GoingUp(m: MapData, start: set<int>, relations: set<int>, pending: set<int>) {
    && start <= relations <= UpClosure(m, start)
    && pending <= relations
    && RelationsOf(m, Relation, relations - pending) <= relations
  }

  lemma ParentsAreAbove(m: MapData, start: set<int>, relations: set<int>, r: int)
    requires relations <= UpClosure(m, start) && r in RelationsOf(m, Relation, relations)
    ensures r in UpClosure(m, start)
  {
    var i :| 0 <= i < |m.relation[r].members| && m.relation[r].members[i].kind == Relation
      && m.relation[r].members[i].ref in relations;
    var c := m.relation[r].members[i].ref;
    assert HasMember(m.relation[r], Relation, c);
    var b :| b in start && Reaches(m, c, b);
    ReachesAbove(m, r, c, b);
  }

  lemma UpStarts(m: MapData, start: set<int>)
    requires start <= m.relation.Keys
    ensures GoingUp(m, start, start, start)
  {
    UpClosureIsClosed(m, start);
    assert start - start == {};
    if RelationsOf(m, Relation, {}) != {} {
      var x := AnyOf(RelationsOf(m, Relation, {}));
      assert false;
    }
  }

  lemma UpNext(m: MapData, start: set<int>, relations: set<int>, pending: set<int>)
    requires GoingUp(m, start, relations, pending)
    ensures
      var found := RelationsOf(m, Relation, pending) - relations;
      GoingUp(m, start, relations + found, found)
  {
    var found := RelationsOf(m, Relation, pending) - relations;
    forall r | r in found
      ensures r in UpClosure(m, start)
    {
      assert HasMemberAmong(m.relation[r], Relation, relations);
      ParentsAreAbove(m, start, relations, r);
    }
    assert relations + found - found == relations;
    forall r | r in RelationsOf(m, Relation, relations)
      ensures r in relations + found
    {
      if HasMemberAmong(m.relation[r], Relation, pending) {
        assert r in RelationsOf(m, Relation, pending);
      } else {
        assert HasMemberAmong(m.relation[r], Relation, relations - pending);
        assert r in RelationsOf(m, Relation, relations - pending);
      }
    }
  }

  lemma UpEnds(m: MapData, start: set<int>, relations: set<int>)
    requires start <= m.relation.Keys && GoingUp(m, start, relations, {})
    ensures relations == UpClosure(m, start)
  {
    assert relations - {} == relations;
    forall r, c | c in relations && r in m.relation && HasMember(m.relation[r], Relation, c)
      ensures r in relations
    {
      assert HasMemberAmong(m.relation[r], Relation, relations);
      assert r in RelationsOf(m, Relation, relations);
    }
    UpClosureWithin(m, start, relations);
  }

  lemma LiveAreFew(m: MapData, limits: Limits, s: set<int>)
    requires Roomy(m, limits) && s <= m.relation.Keys
    ensures |s| <= limits.maxElements
  {
    SubsetSize(s, Known(m).relation);
  }

  lemma MembersKnown(m: MapData, limits: Limits, s: set<int>, kind: Kind)
    requires Roomy(m, limits)
    ensures |MembersOf(m, s, kind, None)| <= limits.maxElements
  {
    assert MembersOf(m, s, kind, None) <= MembersOf(m, m.relation.Keys, kind, None);
    SubsetSize(MembersOf(m, s, kind, None), Known(m).Of(kind));
  }

  /** Adding to a part of a finite set leaves less of it outside. */
  lemma LessIsLeft(all: set<int>, part: set<int>, more: set<int>)
    requires more <= all && more !! part && more != {}
    ensures |all - (part + more)| < |all - part|
  {
    var x := AnyOf(more);
    SubsetSize(all - (part + more), all - part - {x});
  }

  /** The relations not found yet. */
  ghost function Left(m: MapData, relations: set<int>): nat {
    |m.relation.Keys - relations|
  }

  /** The members of what was just found that have not been looked up. */
  function Unseen(m: MapData, found: set<int>, relations: set<int>): set<int> {
    MembersOf(m, found, Relation, None) - relations
  }

  lemma DownFinds(m: MapData, start: set<int>, relations: set<int>, pending: set<int>)
    requires GoingDown(m, start, relations, pending) && pending * m.relation.Keys != {}
    ensures Left(m, relations + (pending * m.relation.Keys)) < Left(m, relations)
  {
    assert (pending * m.relation.Keys) !! relations;
    hide GoingDown, MembersOf;
    LessIsLeft(m.relation.Keys, relations, pending * m.relation.Keys);
  }

  lemma NothingUnseen(m: MapData, relations: set<int>)
    ensures relations + {} == relations && Unseen(m, {}, relations) == {}
  {
    MembersOfNone(m, Relation);
    hide MembersOf;
  }

  /** A step downwards: fewer relations are left to find or, if nothing was found, nothing is pending. */
  lemma DownShrinks(m: MapData, start: set<int>, relations: set<int>, pending: set<int>)
    requires GoingDown(m, start, relations, pending) && pending != {}
    ensures
      var found := pending * m.relation.Keys;
      || Left(m, relations + found) < Left(m, relations)
      || (Left(m, relations + found) == Left(m, relations) && |Unseen(m, found, relations + found)| < |pending|)
  {
    hide *;
    var found := pending * m.relation.Keys;
    if found != {} {
      DownFinds(m, start, relations, pending);
    } else {
      NothingUnseen(m, relations);
      var x := AnyOf(pending);
    }
  }

  lemma PendingAreFew(m: MapData, limits: Limits, found: set<int>, relations: set<int>)
    ensures Roomy(m, limits) ==> |Unseen(m, found, relations)| <= limits.maxElements
  {
    if Roomy(m, limits) {
      MembersKnown(m, limits, found, Relation);
      SubsetSize(Unseen(m, found, relations), MembersOf(m, found, Relation, None));
    }
  }

  lemma RelationsAreFew(m: MapData, limits: Limits, start: set<int>, relations: set<int>, pending: set<int>)
    requires GoingDown(m, start, relations, pending)
    ensures Roomy(m, limits) ==> |relations| <= limits.maxElements
  {
    assert relations <= m.relation.Keys;
    if Roomy(m, limits) {
      LiveAreFew(m, limits, relations);
    }
  }

  /** A state of the loop downwards, with nothing that a small map would refuse. */
  ghost predicate CanGoDown(source: Source, start: set<int>, relations: set<int>, pending: set<int>) {
    && GoingDown(source.w.data, start, relations, pending)
    && (Roomy(source.w.data, source.limits) ==> |pending| <= source.limits.maxElements)
  }

  /** One turn of the loop downwards. */
  method LookUpMembers(source: Source, ghost start: set<int>, relations: set<int>, pending: set<int>)
      returns (r: Result<(set<int>, set<int>), QueryError>)
    requires CanGoDown(source, start, relations, pending) && pending != {}
    ensures r.Failure? ==> r.error == TooManyElements && !Roomy(source.w.data, source.limits)
    ensures r.Success? ==>
      && CanGoDown(source, start, r.value.0, r.value.1)
      && (Left(source.w.data, r.value.0) < Left(source.w.data, relations)
          || (Left(source.w.data, r.value.0) == Left(source.w.data, relations) && |r.value.1| < |pending|))
  {
    hide Unseen, MembersOf, DownClosure, Roomy, GoingDown, Left;
    var m := source.w.data;
    var found := source.ByIds(Relation, pending);
    if found.Failure? {
      return Failure(TooManyElements);
    }
    DownNext(m, start, relations, pending);
    DownShrinks(m, start, relations, pending);
    var next := relations + found.value;
    RelationsAreFew(m, source.limits, start, next, Unseen(m, found.value, next));
    if |next| > source.limits.maxElements {
      return Failure(TooManyElements);
    }
    PendingAreFew(m, source.limits, found.value, next);
    return Success((next, Unseen(m, found.value, next)));
  }

  /** The downward closure of some relations. It ends because every relation is looked up at most
      once. */
  method FollowDown(source: Source, start: set<int>) returns (r: Result<set<int>, QueryError>)
    requires start <= source.w.data.relation.Keys
    ensures r.Success? ==> r.value == DownClosure(source.w.data, start)
    ensures r.Failure? ==> r.error == TooManyElements && !Roomy(source.w.data, source.limits)
  {
    hide Unseen, MembersOf, DownClosure, Roomy, GoingDown, Left;
    var m := source.w.data;
    var relations, pending := start, Unseen(m, start, start);
    DownStarts(m, start);
    PendingAreFew(m, source.limits, start, start);
    while pending != {}
      invariant CanGoDown(source, start, relations, pending)
      decreases Left(m, relations), |pending|
    {
      var next := LookUpMembers(source, start, relations, pending);
      if next.Failure? {
        return Failure(TooManyElements);
      }
      relations, pending := next.value.0, next.value.1;
    }
    DownEnds(m, start, relations);
    return Success(relations);
  }

  /** The upward closure of some relations. Together with the ways found before, it has to fit the
      limit. */
  method FollowUp(source: Source, start: set<int>, ways: set<int>) returns (r: Result<set<int>, QueryError>)
    requires start <= source.w.data.relation.Keys && ways <= source.w.data.way.Keys
    ensures r.Success? ==> r.value == UpClosure(source.w.data, start)
    ensures r.Failure? ==> r.error == TooManyElements && !Roomy(source.w.data, source.limits)
  {
    var m := source.w.data;
    var relations, pending := start, start;
    UpStarts(m, start);
    hide RelationsOf, UpClosure, Roomy, GoingUp;
    while pending != {}
      invariant GoingUp(m, start, relations, pending)
      decreases |m.relation.Keys - relations|, |pending|
    {
      var found := RelationsOf(m, Relation, pending) - relations;
      UpNext(m, start, relations, pending);
      UpShrinks(m, start, relations, pending);
      relations := relations + found;
      ResultIsSmall(m, source.limits, ways, start, relations, found);
      if |ways| + |relations| > source.limits.maxElements {
        return Failure(TooManyElements);
      }
      pending := found;
    }
    UpEnds(m, start, relations);
    return Success(relations);
  }

  lemma UpShrinks(m: MapData, start: set<int>, relations: set<int>, pending: set<int>)
    requires GoingUp(m, start, relations, pending) && pending != {}
    ensures
      var found := RelationsOf(m, Relation, pending) - relations;
      || |m.relation.Keys - (relations + found)| < |m.relation.Keys - relations|
      || (|m.relation.Keys - (relations + found)| == |m.relation.Keys - relations| && |found| < |pending|)
  {
    var found := RelationsOf(m, Relation, pending) - relations;
    if found != {} {
      LessIsLeft(m.relation.Keys, relations, found);
    } else {
      assert relations + found == relations;
      var x := AnyOf(pending);
    }
  }

  lemma ResultIsSmall(m: MapData, limits: Limits, ways: set<int>, start: set<int>, relations: set<int>, pending: set<int>)
    requires ways <= m.way.Keys && GoingUp(m, start, relations, pending)
    ensures Roomy(m, limits) ==> |ways| + |relations| <= limits.maxElements
  {
    assert relations <= m.relation.Keys;
    if Roomy(m, limits) {
      SubsetSize(ways, Known(m).way);
      SubsetSize(relations, Known(m).relation);
    }
  }

  /** recurse: what the four recursion statements give for a set. */
  method Recurse(source: Source, kind: RecurseType, s: Ids) returns (r: Result<Ids, QueryError>)
    requires InMap(source.w.data, s)
    ensures r.Success? ==> r.value == RecurseMeaning(source.w.data, kind, s)
    ensures r.Failure? ==> r.error == TooManyElements && !Roomy(source.w.data, source.limits)
  {
    var m, limits := source.w.data, source.limits;
    if kind.Down? || kind.DownRel? {
      var relations := s.relation;
      if kind.DownRel? {
        relations :- FollowDown(source, s.relation);
      }
      r := RecurseDown(source, kind, s, relations);
      return;
    }
    var ways := WaysOfNodes(m, s.node);
    var relations := RelationsOf(m, Node, s.node) + RelationsOf(m, Way, s.way + ways);
    if kind.UpRel? {
      relations :- FollowUp(source, s.relation + relations, ways);
    }
    return Success(PerKind({}, ways, relations));
  }

  method RecurseDown(source: Source, kind: RecurseType, s: Ids, relations: set<int>) returns (r: Result<Ids, QueryError>)
    requires InMap(source.w.data, s) && (kind.Down? || kind.DownRel?)
    requires relations == if kind.DownRel? then DownClosure(source.w.data, s.relation) else s.relation
    ensures r.Success? ==> r.value == RecurseMeaning(source.w.data, kind, s)
    ensures r.Failure? ==> r.error == TooManyElements && !Roomy(source.w.data, source.limits)
  {
    var m, limits := source.w.data, source.limits;
    DownAreFew(m, limits, s, relations);
    assert relations <= m.relation.Keys;
    hide MembersOf, RefsOf, DownClosure, Roomy, Known;
    var ways :- source.ByIds(Way, MembersOf(m, relations, Way, None));
    var nodeIds := MembersOf(m, relations, Node, None) + RefsOf(m, s.way + ways);
    var result := if kind.DownRel? then relations else {};
    if |nodeIds| + |ways| + |result| > limits.maxElements {
      return Failure(TooManyElements);
    }
    var nodes := source.ByIds(Node, nodeIds); // So few can always be read
    return Success(PerKind(nodes.GetOr({}), ways, result));
  }

  lemma DownAreFew(m: MapData, limits: Limits, s: Ids, relations: set<int>)
    requires relations <= m.relation.Keys && InMap(m, s)
    ensures Roomy(m, limits) ==>
      var ways := MembersOf(m, relations, Way, None) * m.way.Keys;
      && |MembersOf(m, relations, Way, None)| <= limits.maxElements
      && |MembersOf(m, relations, Node, None) + RefsOf(m, s.way + ways)| + |ways| + |relations| <= limits.maxElements
  {
    if Roomy(m, limits) {
      var ways := MembersOf(m, relations, Way, None) * m.way.Keys;
      MembersKnown(m, limits, relations, Way);
      KnownBelow(m, s, relations);
      SubsetSize(MembersOf(m, relations, Node, None) + RefsOf(m, s.way + ways), Known(m).node);
      SubsetSize(ways, Known(m).way);
      SubsetSize(relations, Known(m).relation);
    }
  }

  lemma KnownBelow(m: MapData, s: Ids, relations: set<int>)
    requires relations <= m.relation.Keys && InMap(m, s)
    ensures
      var ways := MembersOf(m, relations, Way, None) * m.way.Keys;
      MembersOf(m, relations, Node, None) + RefsOf(m, s.way + ways) <= Known(m).node
  {
  }
}
