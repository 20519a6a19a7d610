/** Which objects a delete block may delete: none that a surviving way or
    relation still uses. */
module Deletion {
  import opened Osm
  import opened Sets

  /** Deleting these leaves no live way or relation referring to a deleted object. */
  ghost predicate Safe(m: MapData, d: Ids) {
    && (forall w, i :: w in m.way && w !in d.way && 0 <= i < |m.way[w].refs| ==> m.way[w].refs[i] !in d.node)
    && (forall r, i :: r in m.relation && r !in d.relation && 0 <= i < |m.relation[r].members| ==>
          m.relation[r].members[i].ref !in d.Of(m.relation[r].members[i].kind))
  }

  /** Of some objects of one kind, those that a relation not being deleted uses. */
  ghost function UsedByRelations(m: MapData, kind: Kind, ids: set<int>, deleted: set<int>): set<int> {
    set c | c in ids && exists r :: r in m.relation && r !in deleted && HasMember(m.relation[r], kind, c)
  }

  /** Of some nodes, those that a way not being deleted uses. */
  ghost function UsedByWays(m: MapData, ids: set<int>, deleted: set<int>): set<int> {
    set n | n in ids && exists w :: w in m.way && w !in deleted && n in m.way[w].refs
  }

  /** Relations to delete, once none of them is used by one that is kept. */
  ghost function KeepRelations(m: MapData, ids: set<int>): (kept: set<int>)
    ensures kept <= ids
    decreases |ids|
  {
    var used := UsedByRelations(m, Relation, ids, ids);
    if used == {} then ids
    else
      SubsetShrinks(ids, used);
      KeepRelations(m, ids - used)
  }

  lemma SubsetShrinks(ids: set<int>, used: set<int>)
    requires used <= ids && used != {}
    ensures |ids - used| < |ids|
  {
    SubsetSize(ids - used, ids);
    var x := AnyOf(used);
    assert x !in ids - used;
  }

  lemma KeepLess(m: MapData, ids: set<int>)
    requires UsedByRelations(m, Relation, ids, ids) != {}
    ensures KeepRelations(m, ids) == KeepRelations(m, ids - UsedByRelations(m, Relation, ids, ids))
    ensures KeepRelations(m, ids) != ids
  {
    var used := UsedByRelations(m, Relation, ids, ids);
    SubsetShrinks(ids, used);
    SubsetSize(KeepRelations(m, ids), ids - used);
  }

  /** What is left to delete of a request under if-unused. */
  ghost function Unused(m: MapData, d: Ids): Ids {
    var relations := KeepRelations(m, d.relation);
    var ways := d.way - UsedByRelations(m, Way, d.way, relations);
    var nodes := d.node - UsedByWays(m, d.node, ways);
    PerKind(nodes - UsedByRelations(m, Node, nodes, relations), ways, relations)
  }

  // ----- It is the greatest safe part of the request -----

  lemma {:induction false} KeptRelationsUnused(m: MapData, ids: set<int>)
    ensures UsedByRelations(m, Relation, KeepRelations(m, ids), KeepRelations(m, ids)) == {}
    decreases |ids|
  {
    var used := UsedByRelations(m, Relation, ids, ids);
    if used != {} {
      SubsetShrinks(ids, used);
      KeptRelationsUnused(m, ids - used);
    }
  }

  lemma {:induction false} KeptRelationsGreatest(m: MapData, ids: set<int>, d: Ids)
    requires Safe(m, d) && d.relation <= ids
    ensures d.relation <= KeepRelations(m, ids)
    decreases |ids|
  {
    var used := UsedByRelations(m, Relation, ids, ids);
    if used != {} {
      forall c | c in d.relation
        ensures c !in used
      {
        SafeFromRelations(m, d, Relation, ids, c);
      }
      SubsetShrinks(ids, used);
      KeptRelationsGreatest(m, ids - used, d);
    }
  }

  /** Nothing in a safe set is used by a relation outside any larger set. */
  lemma SafeFromRelations(m: MapData, d: Ids, kind: Kind, deleted: set<int>, c: int)
    requires Safe(m, d) && c in d.Of(kind) && d.relation <= deleted
    ensures forall ids :: c !in UsedByRelations(m, kind, ids, deleted)
  {
    forall r | r in m.relation && r !in deleted
      ensures !HasMember(m.relation[r], kind, c)
    {
    }
  }

  lemma SafeFromWays(m: MapData, d: Ids, deleted: set<int>, n: int)
    requires Safe(m, d) && n in d.node && d.way <= deleted
    ensures forall ids :: n !in UsedByWays(m, ids, deleted)
  {
    forall w | w in m.way && w !in deleted
      ensures n !in m.way[w].refs
    {
    }
  }

  lemma UnusedIsSafe(m: MapData, d: Ids)
    ensures Safe(m, Unused(m, d)) && Within(Unused(m, d), d)
  {
    var u := Unused(m, d);
    KeptRelationsUnused(m, d.relation);
    forall w, i | w in m.way && w !in u.way && 0 <= i < |m.way[w].refs|
      ensures m.way[w].refs[i] !in u.node
    {
      assert m.way[w].refs[i] in m.way[w].refs;
    }
    forall r, i | r in m.relation && r !in u.relation && 0 <= i < |m.relation[r].members|
      ensures m.relation[r].members[i].ref !in u.Of(m.relation[r].members[i].kind)
    {
      var c := m.relation[r].members[i];
      assert HasMember(m.relation[r], c.kind, c.ref);
      assert c.ref !in UsedByRelations(m, Relation, u.relation, u.relation);
    }
  }

  /** What if-unused deletes is the greatest safe part of the request. */
  lemma UnusedIsGreatest(m: MapData, d: Ids, safe: Ids)
    requires Safe(m, safe) && Within(safe, d)
    ensures Within(safe, Unused(m, d))
  {
    var u := Unused(m, d);
    KeptRelationsGreatest(m, d.relation, safe);
    forall w | w in safe.way
      ensures w in u.way
    {
      SafeFromRelations(m, safe, Way, u.relation, w);
    }
    forall n | n in safe.node
      ensures n in u.node
    {
      SafeFromRelations(m, safe, Node, u.relation, n);
      SafeFromWays(m, safe, u.way, n);
    }
  }

  /** Nothing has to be kept exactly when the whole request is safe. */
  lemma UnusedIsAllExactlyWhenSafe(m: MapData, d: Ids)
    ensures Safe(m, d) <==> Unused(m, d) == d
  {
    UnusedIsSafe(m, d);
    if Safe(m, d) {
      UnusedIsGreatest(m, d, d);
      var u := Unused(m, d);
      assert u.node == d.node && u.way == d.way && u.relation == d.relation;
    }
  }
}
