/** upload_block and upload, which rewrite a block's objects in place and run
    in one transaction. */
module ChangesetUpload {
  import opened Wrappers
  import opened Osm
  import opened Sets
  import opened Changeset
  import Deletion

  /** The objects of one block of an upload. */
  class Block {
    var nodes: seq<Element>
    var ways: seq<Element>
    var relations: seq<Element>

    constructor (b: Objects)
      ensures Value() == b
    {
      nodes, ways, relations := b.node, b.way, b.relation;
    }

    ghost function Value(): Objects
      reads this
    {
      PerKind(nodes, ways, relations)
    }
  }

  /** The transaction of an upload: the map as it leaves it so far, and the IDs
      created for its placeholders. */
  class Transaction {
    var store: Store
    var created: Created

    constructor (store: Store)
      ensures this.store == store && created == PerKind(map[], map[], map[])
    {
      this.store := store;
      created := PerKind(map[], map[], map[]);
    }
  }

  // ----- The checks -----

  method CheckObjects(action: Action, objs: seq<Element>) returns (good: bool)
    ensures good <==> forall e :: e in objs ==> GoodObject(action, e)
  {
    for i := 0 to |objs|
      invariant forall k :: 0 <= k < i ==> GoodObject(action, objs[k])
    {
      if !GoodObject(action, objs[i]) {
        return false;
      }
    }
    return true;
  }

  method SetVersions(action: Action, objs: seq<Element>) returns (objs': seq<Element>)
    ensures objs' == VersionedAll(action, objs)
  {
    objs' := objs;
    for i := 0 to |objs|
      invariant |objs'| == |objs|
      invariant forall k :: 0 <= k < i ==> objs'[k] == Versioned(action, objs[k])
      invariant forall k :: i <= k < |objs| ==> objs'[k] == objs[k]
    {
      objs' := objs'[i := objs'[i].(version := if action.Create? then 1 else objs'[i].version + 1)];
    }
  }

  method CheckWays(action: Action, s: Settings, ways: seq<Element>) returns (good: bool)
    ensures good <==> forall e :: e in ways ==> GoodWay(action, s, e)
  {
    for i := 0 to |ways|
      invariant forall k :: 0 <= k < i ==> GoodWay(action, s, ways[k])
    {
      assert ways[i] in ways;
      if !action.Delete? && |ways[i].refs| < 2 {
        assert !GoodWay(action, s, ways[i]);
        return false;
      }
      if |ways[i].refs| > s.wayNodesMaximum {
        return false;
      }
    }
    return true;
  }

  method CheckRelations(s: Settings, relations: seq<Element>) returns (good: bool)
    ensures good <==> forall e :: e in relations ==> |e.members| <= s.relationMembersMaximum
  {
    for i := 0 to |relations|
      invariant forall k :: 0 <= k < i ==> |relations[k].members| <= s.relationMembersMaximum
    {
      if |relations[i].members| > s.relationMembersMaximum {
        return false;
      }
    }
    return true;
  }

  method CheckChangeset(changeset: int, objs: seq<Element>) returns (good: bool)
    ensures good <==> forall e :: e in objs ==> e.changeset == changeset
  {
    for i := 0 to |objs|
      invariant forall k :: 0 <= k < i ==> objs[k].changeset == changeset
    {
      if objs[i].changeset != changeset {
        return false;
      }
    }
    return true;
  }

  method CheckUnique(objs: seq<Element>) returns (unique: bool)
    ensures unique <==> UniqueIds(objs)
  {
    var seen: set<int> := {};
    for i := 0 to |objs|
      invariant UniqueIds(objs[..i])
      invariant forall k :: 0 <= k < i ==> objs[k].id in seen
      invariant forall id :: id in seen ==> exists k :: 0 <= k < i && objs[k].id == id
    {
      if objs[i].id in seen {
        return false;
      }
      seen := seen + {objs[i].id};
    }
    assert objs[..|objs|] == objs;
    return true;
  }

  method CheckVersions(m: MapData, objs: seq<Element>) returns (good: bool)
    ensures good <==> forall e :: e in objs ==> VersionFits(m, e)
  {
    for i := 0 to |objs|
      invariant forall k :: 0 <= k < i ==> VersionFits(m, objs[k])
    {
      if !VersionFits(m, objs[i]) {
        return false;
      }
    }
    return true;
  }

  method WayNodeIds(ways: seq<Element>) returns (ids: set<int>)
    ensures ids == WayNodes(ways)
  {
    ids := {};
    for i := 0 to |ways|
      invariant forall k :: 0 <= k < i ==> RefsOf(ways[k]) <= ids
      invariant ids <= WayNodes(ways)
    {
      assert ways[i] in ways;
      assert forall ref :: ref in RefsOf(ways[i]) ==> ref in WayNodes(ways);
      ids := ids + RefsOf(ways[i]);
    }
  }

  method MemberIds(relations: seq<Element>, kind: Kind) returns (ids: set<int>)
    ensures ids == RelationMembers(relations, kind)
  {
    ids := {};
    for i := 0 to |relations|
      invariant forall k :: 0 <= k < i ==> MembersOf(relations[k], kind) <= ids
      invariant ids <= RelationMembers(relations, kind)
    {
      ids := ids + MembersOf(relations[i], kind);
    }
  }

  /** The IDs of a kind that the block has objects of or that its ways and relations name. */
  method ReferencedIds(b: Objects, kind: Kind) returns (ids: set<int>)
    ensures ids == Referenced(b, kind)
  {
    ids := IdsOf(b.Of(kind));
    if kind.Node? {
      var nodes := WayNodeIds(b.way);
      ids := ids + nodes;
    }
    var members := MemberIds(b.relation, kind);
    ids := ids + members;
  }

  /** Look up the positive IDs, and compare what is found with what was asked for. */
  method CheckFound(m: MapData, b: Objects, kind: Kind) returns (found: bool)
    ensures found <==> AllFound(m, b, kind)
  {
    var ids := ReferencedIds(b, kind);
    var positive := set id | id in ids && id > 0;
    var present := positive * m.Of(kind).Keys;
    found := positive == present;
    if !found {
      var id := Outside(positive, present);
      assert id in Referenced(b, kind) && id > 0 && id !in m.Of(kind);
    } else {
      forall id | id in Referenced(b, kind) && id > 0
        ensures id in m.Of(kind)
      {
        assert id in positive;
      }
    }
  }

  // ----- Deleting -----

  /** The objects among ids that stay in use: each with one relation outside deleted that has it as
      a member. */
  method UsedInRelations(m: MapData, kind: Kind, ids: set<int>, deleted: set<int>) returns (used: map<int, int>)
    ensures used.Keys == Deletion.UsedByRelations(m, kind, ids, deleted) <= ids
    ensures forall c :: c in used ==> used[c] in m.relation && used[c] !in deleted && HasMember(m.relation[used[c]], kind, c)
  {
    used := map[];
    var parents := RelationsOf(m, kind, ids);
    while parents != {}
      invariant parents <= RelationsOf(m, kind, ids)
      invariant used.Keys <= ids
      invariant forall c :: c in used ==>
        used[c] in m.relation && used[c] !in deleted && HasMember(m.relation[used[c]], kind, c)
      invariant forall r, c :: r in m.relation && r !in deleted && c in ids && HasMember(m.relation[r], kind, c) ==>
        r in parents || c in used
      decreases |parents|
    {
      var r := Pick(parents);
      parents := parents - {r};
      if r in deleted {
        continue;
      }
      var parent := m.relation[r];
      for i := 0 to |parent.members|
        invariant used.Keys <= ids
        invariant forall c :: c in used ==>
          used[c] in m.relation && used[c] !in deleted && HasMember(m.relation[used[c]], kind, c)
        invariant forall r', c :: r' in m.relation && r' !in deleted && c in ids && HasMember(m.relation[r'], kind, c) ==>
          r' in parents || r' == r || c in used
        invariant forall k :: 0 <= k < i && parent.members[k].kind == kind && parent.members[k].ref in ids ==>
          parent.members[k].ref in used
      {
        var c := parent.members[i];
        if c.kind == kind && c.ref in ids {
          assert HasMember(m.relation[r], kind, c.ref);
          used := used[c.ref := r];
        }
      }
    }
    forall c | c in Deletion.UsedByRelations(m, kind, ids, deleted)
      ensures c in used
    {
      var r :| r in m.relation && r !in deleted && HasMember(m.relation[r], kind, c);
      assert r !in parents;
    }
    forall c | c in used
      ensures c in Deletion.UsedByRelations(m, kind, ids, deleted)
    {
      assert c in used.Keys;
      var r := used[c];
      assert r in m.relation && r !in deleted && HasMember(m.relation[r], kind, c);
    }
  }

  /** As UsedInRelations, for nodes and the ways that run through them. */
  method UsedInWays(m: MapData, ids: set<int>, deleted: set<int>) returns (used: map<int, int>)
    ensures used.Keys == Deletion.UsedByWays(m, ids, deleted) <= ids
    ensures forall c :: c in used ==> used[c] in m.way && used[c] !in deleted && c in m.way[used[c]].refs
  {
    used := map[];
    var parents := WaysOfNodes(m, ids);
    while parents != {}
      invariant parents <= WaysOfNodes(m, ids)
      invariant used.Keys <= ids
      invariant forall c :: c in used ==> used[c] in m.way && used[c] !in deleted && c in m.way[used[c]].refs
      invariant forall w, c :: w in m.way && w !in deleted && c in ids && c in m.way[w].refs ==> w in parents || c in used
      decreases |parents|
    {
      var w := Pick(parents);
      parents := parents - {w};
      if w in deleted {
        continue;
      }
      var parent := m.way[w];
      for i := 0 to |parent.refs|
        invariant used.Keys <= ids
        invariant forall c :: c in used ==> used[c] in m.way && used[c] !in deleted && c in m.way[used[c]].refs
        invariant forall w', c :: w' in m.way && w' !in deleted && c in ids && c in m.way[w'].refs ==>
          w' in parents || w' == w || c in used
        invariant forall k :: 0 <= k < i && parent.refs[k] in ids ==> parent.refs[k] in used
      {
        if parent.refs[i] in ids {
          used := used[parent.refs[i] := w];
        }
      }
    }
    forall c | c in Deletion.UsedByWays(m, ids, deleted)
      ensures c in used
    {
      var w :| w in m.way && w !in deleted && c in m.way[w].refs;
      assert w !in parents;
    }
    forall c | c in used
      ensures c in Deletion.UsedByWays(m, ids, deleted)
    {
      assert c in used.Keys;
      var w := used[c];
      assert w in m.way && w !in deleted && c in m.way[w].refs;
    }
  }

  /** The objects that are not in a dictionary, in their order. */
  method Without(objs: seq<Element>, used: map<int, int>) returns (kept: seq<Element>)
    ensures kept == Only(objs, IdsOf(objs) - used.Keys)
  {
    kept := [];
    for i := 0 to |objs|
      invariant kept == Only(objs[..i], IdsOf(objs) - used.Keys)
    {
      assert objs[..i + 1][..i] == objs[..i];
      if objs[i].id !in used {
        kept := kept + [objs[i]];
      }
    }
    assert objs[..|objs|] == objs;
  }

  lemma KeepStep(m: MapData, relations: seq<Element>, left: seq<Element>, used: set<int>)
    requires left == Only(relations, IdsOf(left)) && IdsOf(left) <= IdsOf(relations)
    requires used == Deletion.UsedByRelations(m, Relation, IdsOf(left), IdsOf(left)) <= IdsOf(left) && used != {}
    ensures
      var next := Only(left, IdsOf(left) - used);
      && next == Only(relations, IdsOf(next)) && IdsOf(next) <= IdsOf(relations)
      && Deletion.KeepRelations(m, IdsOf(next)) == Deletion.KeepRelations(m, IdsOf(left))
      && |IdsOf(next)| < |IdsOf(left)|
      && Deletion.KeepRelations(m, IdsOf(left)) != IdsOf(left)
  {
    hide IdsOf, Only, Deletion.UsedByRelations;
    var ids := IdsOf(left);
    Deletion.SubsetShrinks(ids, used);
    OnlyIds(left, ids - used);
    OnlyOnly(relations, ids, ids - used);
    assert ids * (ids - used) == ids - used;
    Deletion.KeepLess(m, ids);
  }

  /** With if-unused, the part of the relations that KeepRelations leaves; otherwise all of them, or
      a refusal. */
  method KeepUsedRelations(m: MapData, relations: seq<Element>, ifUnused: bool)
      returns (r: Result<seq<Element>, Rejection>)
    ensures
      var ids := IdsOf(relations);
      var rest := Deletion.KeepRelations(m, ids);
      r == (if ifUnused then Success(Only(relations, rest))
            else if rest != ids then Failure(StillUsed(Relation))
            else Success(relations))
  {
    hide IdsOf, Only, Deletion.UsedByRelations;
    var left := relations;
    OnlyAll(relations, IdsOf(relations));
    while true
      invariant ifUnused || left == relations
      invariant left == Only(relations, IdsOf(left)) && IdsOf(left) <= IdsOf(relations)
      invariant Deletion.KeepRelations(m, IdsOf(left)) == Deletion.KeepRelations(m, IdsOf(relations))
      decreases |IdsOf(left)|
    {
      var used := UsedInRelations(m, Relation, IdsOf(left), IdsOf(left));
      if |used| == 0 {
        assert used.Keys == {};
        return Success(left);
      }
      assert used.Keys != {};
      KeepStep(m, relations, left, used.Keys);
      if !ifUnused {
        return Failure(StillUsed(Relation));
      }
      left := Without(left, used);
    }
  }

  /** One of the checks that follow, whose result is not checked again. */
  method KeepUsed(kind: Kind, objs: seq<Element>, used: map<int, int>, ifUnused: bool)
      returns (r: Result<seq<Element>, Rejection>)
    requires used.Keys <= IdsOf(objs)
    ensures
      r == (if ifUnused then Success(Only(objs, IdsOf(objs) - used.Keys))
            else if used.Keys != {} then Failure(StillUsed(kind))
            else Success(objs))
  {
    if |used| > 0 {
      assert used.Keys != {};
      if !ifUnused {
        return Failure(StillUsed(kind));
      }
      var kept := Without(objs, used);
      return Success(kept);
    }
    assert used.Keys == {};
    OnlyAll(objs, IdsOf(objs) - used.Keys);
    return Success(objs);
  }

  /** What DeleteBlock leaves of the nodes: those that no remaining way, and then no remaining
      relation, uses. */
  method DeleteNodes(m: MapData, block: Block, deletedWays: set<int>, deletedRelations: set<int>, ifUnused: bool)
      returns (r: Result<(), Rejection>)
    modifies block`nodes
    ensures
      var nodes, ids := old(block.nodes), IdsOf(old(block.nodes));
      var afterWays := ids - Deletion.UsedByWays(m, ids, deletedWays);
      var rest := afterWays - Deletion.UsedByRelations(m, Node, afterWays, deletedRelations);
      if ifUnused then r.Success? && block.nodes == Only(nodes, rest)
      else if rest != ids then r == Failure(StillUsed(Node))
      else r.Success? && block.nodes == nodes
  {
    hide IdsOf, Only, Deletion.UsedByRelations, Deletion.UsedByWays;
    var ids := IdsOf(block.nodes);
    var used := UsedInWays(m, ids, deletedWays);
    var nodes :- KeepUsed(Node, block.nodes, used, ifUnused);
    OnlyIds(block.nodes, ids - used.Keys);
    block.nodes := nodes;

    var left := IdsOf(nodes);
    assert left == ids - used.Keys;
    used := UsedInRelations(m, Node, left, deletedRelations);
    nodes :- KeepUsed(Node, block.nodes, used, ifUnused);
    OnlyOnly(old(block.nodes), left, left - used.Keys);
    assert left * (left - used.Keys) == left - used.Keys;
    block.nodes := nodes;
    r := Success(());
  }

  /** The delete branch of upload_block. */
  method DeleteBranch(m: MapData, block: Block, ifUnused: bool) returns (r: Result<(), Rejection>)
    modifies block
    ensures
      match DeleteBlock(m, old(block.Value()), ifUnused)
      case Success(b) => r.Success? && block.Value() == b
      case Failure(e) => r == Failure(e)
  {
    hide IdsOf, Only, Deletion.UsedByRelations, Deletion.UsedByWays;
    var ids := IdsOf(block.relations);
    var relations :- KeepUsedRelations(m, block.relations, ifUnused);
    OnlyIds(block.relations, Deletion.KeepRelations(m, ids));
    assert ids * Deletion.KeepRelations(m, ids) == Deletion.KeepRelations(m, ids);
    block.relations := relations;
    var deleted := IdsOf(relations);

    ids := IdsOf(block.ways);
    var used := UsedInRelations(m, Way, ids, deleted);
    var ways :- KeepUsed(Way, block.ways, used, ifUnused);
    OnlyIds(block.ways, ids - used.Keys);
    assert ids * (ids - used.Keys) == ids - used.Keys;
    block.ways := ways;

    r := DeleteNodes(m, block, IdsOf(block.ways), deleted, ifUnused);
  }

  // ----- A block, and an upload -----

  /** The checks of upload_block, in their order. The first of them sets the
      versions to be stored, so a refused block may have been changed. */
  method CheckBlock(m: MapData, s: Settings, action: Action, block: Block, changeset: int)
      returns (error: Option<Rejection>)
    requires !action.Other?
    modifies block
    ensures
      var b := old(block.Value());
      && error == CheckError(m, s, action, b, VersionedBlock(action, b), changeset)
      && (error.None? ==> block.Value() == VersionedBlock(action, b))
  {
    hide GoodObject, GoodWay, UniqueIds, AllFound, VersionFits, VersionedAll;
    ghost var b := block.Value();
    ghost var v := VersionedBlock(action, b);
    var good := CheckObjects(action, block.nodes);
    if !good { OfKind(b, Node); return Some(BadObject); }
    good := CheckObjects(action, block.ways);
    if !good { OfKind(b, Way); return Some(BadObject); }
    good := CheckObjects(action, block.relations);
    if !good { OfKind(b, Relation); return Some(BadObject); }

    block.nodes := SetVersions(action, block.nodes);
    block.ways := SetVersions(action, block.ways);
    block.relations := SetVersions(action, block.relations);
    assert block.Value() == v;

    good := CheckWays(action, s, block.ways);
    if !good { return Some(BadWay); }
    good := CheckRelations(s, block.relations);
    if !good { return Some(TooManyMembers); }

    good := CheckChangeset(changeset, block.nodes);
    if !good { OfKind(v, Node); return Some(WrongChangeset); }
    good := CheckChangeset(changeset, block.ways);
    if !good { OfKind(v, Way); return Some(WrongChangeset); }
    good := CheckChangeset(changeset, block.relations);
    if !good { OfKind(v, Relation); return Some(WrongChangeset); }

    good := CheckUnique(block.nodes);
    if !good { OfKind(v, Node); return Some(NotUnique); }
    good := CheckUnique(block.ways);
    if !good { OfKind(v, Way); return Some(NotUnique); }
    good := CheckUnique(block.relations);
    if !good { OfKind(v, Relation); return Some(NotUnique); }

    var objects := PerKind(block.nodes, block.ways, block.relations);
    good := CheckFound(m, objects, Node);
    if !good { return Some(NotFound(Node)); }
    good := CheckFound(m, objects, Way);
    if !good { return Some(NotFound(Way)); }
    good := CheckFound(m, objects, Relation);
    if !good { return Some(NotFound(Relation)); }

    good := CheckVersions(m, block.nodes);
    if !good { return Some(WrongVersion(Node)); }
    good := CheckVersions(m, block.ways);
    if !good { return Some(WrongVersion(Way)); }
    good := CheckVersions(m, block.relations);
    if !good { return Some(WrongVersion(Relation)); }
    return None;
  }

  lemma OfKind(b: Objects, k: Kind)
    ensures b.Of(k) == (match k case Node => b.node case Way => b.way case Relation => b.relation)
  {
  }

  method AllReferTo(alive: Ids, objs: seq<Element>) returns (all: bool)
    ensures all <==> forall e :: e in objs ==> RefersTo(alive, e)
  {
    for i := 0 to |objs|
      invariant forall k :: 0 <= k < i ==> RefersTo(alive, objs[k])
    {
      if !RefersTo(alive, objs[i]) {
        return false;
      }
    }
    return true;
  }

  method StoreBlock(t: Transaction, action: Action, block: Block) returns (ok: bool)
    modifies t
    ensures
      match StoreObjects(old(t.store), old(t.created), action, block.Value())
      case None => !ok && unchanged(t)
      case Some(r) => ok && t.store == r.0 && t.created == r.1
  {
    hide RefersTo, ResolvedAll, AllocateAll, Stored, Record;
    var s, b := t.store, PerKind(block.nodes, block.ways, block.relations);
    var created := if action.Create? then AllocateAll(t.created, b, s.next) else t.created;
    var r := PerKind(ResolvedAll(created, b.node), ResolvedAll(created, b.way), ResolvedAll(created, b.relation));
    var alive := Alive(s.live, r);
    OfKind(r, Node);
    OfKind(r, Way);
    OfKind(r, Relation);
    var nodes := AllReferTo(alive, r.node);
    var ways := AllReferTo(alive, r.way);
    var relations := AllReferTo(alive, r.relation);
    if !nodes || !ways || !relations {
      return false;
    }
    t.store := Store(
      PerKind(Stored(s.live.node, action, r.node), Stored(s.live.way, action, r.way),
              Stored(s.live.relation, action, r.relation)),
      PerKind(Record(s.history.node, r.node), Record(s.history.way, r.way), Record(s.history.relation, r.relation)),
      if action.Create? then s.next + |b.node| + |b.way| + |b.relation| else s.next);
    t.created := created;
    return true;
  }

  method UploadBlock(t: Transaction, settings: Settings, action: Action, block: Block, changeset: int, ifUnused: bool)
      returns (r: Result<(), Rejection>)
    modifies t, block
    ensures
      match BlockOutcome(old(t.store), old(t.created), settings, action, old(block.Value()), changeset, ifUnused)
      case Success(done) =>
        && r.Success? && t.store == done.store && t.created == done.created
        && (!action.Other? ==> block.Value() == done.objects)
      case Failure(e) => r == Failure(e) && unchanged(t)
  {
    hide CheckError, DeleteBlock, StoreObjects, VersionedBlock;
    if action.Other? {
      return Success(());
    }
    var error := CheckBlock(t.store.live, settings, action, block, changeset);
    if error.Some? {
      return Failure(error.value);
    }
    if action.Delete? {
      var deleted := DeleteBranch(t.store.live, block, ifUnused);
      if deleted.Failure? {
        return Failure(deleted.error);
      }
    }
    var ok := StoreBlock(t, action, block);
    r := if ok then Success(()) else Failure(StoreFailed);
  }

  /** A map database, whose state outlives the transactions on it. */
  class Database {
    var store: Store

    constructor (store: Store)
      ensures this.store == store
    {
      this.store := store;
    }

    /** upload: every block in one transaction, committed only if none is refused. */
    method Upload(settings: Settings, blocks: seq<ChangeBlock>, changeset: int) returns (r: Result<(), Rejection>)
      modifies this
      ensures
        match UploadOutcome(old(store), PerKind(map[], map[], map[]), settings, blocks, changeset, 0)
        case Success(s) => r.Success? && store == s
        case Failure(e) => r == Failure(e) && unchanged(this)
    {
      hide BlockOutcome;
      var t := new Transaction(store);
      var elementCount: nat := 0;
      assert blocks[0..] == blocks;
      for i := 0 to |blocks|
        invariant unchanged(this)
        invariant UploadOutcome(t.store, t.created, settings, blocks[i..], changeset, elementCount) ==
          UploadOutcome(store, PerKind(map[], map[], map[]), settings, blocks, changeset, 0)
      {
        var b := blocks[i];
        assert blocks[i..][0] == b && blocks[i..][1..] == blocks[i + 1..];
        var block := new Block(b.objects);
        elementCount := elementCount + BlockSize(b.objects);
        if elementCount > settings.changesetsMaximumElements {
          return Failure(TooManyElements);
        }
        var outcome := UploadBlock(t, settings, b.action, block, changeset, b.ifUnused);
        if outcome.Failure? {
          return Failure(outcome.error);
        }
      }
      store := t.store;
      r := Success(());
    }
  }
}
