/** What uploads keep, over any run of them: every reference is to a live
    object, and the versions of each object follow on from one another. */
module ChangesetIntegrity {
  import opened Wrappers
  import opened Osm
  import opened Changeset
  import Deletion

  // ----- What is kept -----

  /** Every node of a live way and every member of a live relation is live. */
  ghost predicate ReferencesLive(m: MapData) {
    && (forall w, i :: w in m.way && 0 <= i < |m.way[w].refs| ==> m.way[w].refs[i] in m.node)
    && (forall r, i :: r in m.relation && 0 <= i < |m.relation[r].members| ==>
          m.relation[r].members[i].ref in m.Of(m.relation[r].members[i].kind))
  }

  ghost predicate Consecutive(versions: seq<int>) {
    forall i :: 0 < i < |versions| ==> versions[i] == versions[i - 1] + 1
  }

  /** The objects of one kind: each live one is the last of its versions. */
  ghost predicate KindOk(kind: Kind, live: map<int, Element>, history: map<int, seq<int>>, next: int) {
    && (forall id :: id in live ==>
          && live[id].id == id && live[id].kind == kind
          && id in history && |history[id]| > 0 && history[id][|history[id]| - 1] == live[id].version)
    && (forall id :: id in history ==> 0 < id < next && |history[id]| > 0 && Consecutive(history[id]))
  }

  ghost predicate StoreOk(s: Store) {
    && ReferencesLive(s.live)
    && KindOk(Node, s.live.node, s.history.node, s.next)
    && KindOk(Way, s.live.way, s.history.way, s.next)
    && KindOk(Relation, s.live.relation, s.history.relation, s.next)
  }

  /** A block holds objects of each kind under that kind. */
  ghost predicate OfItsKind(b: Objects) {
    forall k: Kind, e :: e in b.Of(k) ==> e.kind == k
  }

  // ----- Putting objects into a map, and recording their versions -----

  lemma {:induction false} PutAt(m: map<int, Element>, objs: seq<Element>, id: int)
    ensures id in Put(m, objs) <==> id in m || id in IdsOf(objs)
    ensures id in m && id !in IdsOf(objs) ==> Put(m, objs)[id] == m[id]
    ensures id in IdsOf(objs) ==> Put(m, objs)[id] in objs && Put(m, objs)[id].id == id
  {
    if |objs| > 0 {
      var init := objs[..|objs| - 1];
      assert objs == init + [objs[|objs| - 1]];
      PutAt(m, init, id);
      IdsOfNext(init, objs[|objs| - 1]);
    }
  }

  lemma IdsOfNext(init: seq<Element>, e: Element)
    ensures IdsOf(init + [e]) == IdsOf(init) + {e.id}
  {
    assert forall x :: x in init + [e] <==> x in init || x == e;
  }

  lemma {:induction false} RecordAt(h: map<int, seq<int>>, objs: seq<Element>, id: int)
    requires UniqueIds(objs)
    ensures id in Record(h, objs) <==> id in h || id in IdsOf(objs)
    ensures id !in IdsOf(objs) ==> Versions(Record(h, objs), id) == Versions(h, id)
    ensures forall e :: e in objs && e.id == id ==> Versions(Record(h, objs), id) == Versions(h, id) + [e.version]
  {
    if |objs| > 0 {
      var init, e := objs[..|objs| - 1], objs[|objs| - 1];
      assert objs == init + [e];
      RecordAt(h, init, id);
      IdsOfNext(init, e);
      assert forall x :: x in init ==> x.id != e.id;
    }
  }

  lemma {:induction false} AllocateAt(created: map<int, int>, objs: seq<Element>, next: int, i: nat)
    requires UniqueIds(objs) && i < |objs|
    ensures objs[i].id in Allocate(created, objs, next)
    ensures Allocate(created, objs, next)[objs[i].id] == next + i
  {
    if i < |objs| - 1 {
      AllocateAt(created, objs[..|objs| - 1], next, i);
    }
  }

  // ----- What storing does to one kind of object -----

  /** Resolved objects of one kind fit to be stored: new ones under unused IDs,
      changed ones with the version after that of the live object. */
  ghost predicate Fits(kind: Kind, action: Action, live: map<int, Element>, next: int, next': int, objs: seq<Element>) {
    && UniqueIds(objs)
    && next <= next'
    && (forall e :: e in objs ==>
          && e.kind == kind
          && (if action.Create? then next <= e.id < next' && e.version == 1
              else e.id in live && e.version == live[e.id].version + 1))
  }

  lemma ConsecutiveNext(versions: seq<int>, v: int)
    requires Consecutive(versions) && (|versions| > 0 ==> v == versions[|versions| - 1] + 1)
    ensures Consecutive(versions + [v])
  {
  }

  /** The versions of one object after a block is stored. */
  lemma RecordedOk(kind: Kind, action: Action, live: map<int, Element>, h: map<int, seq<int>>,
                   next: int, next': int, objs: seq<Element>, id: int)
    requires KindOk(kind, live, h, next) && next > 0 && Fits(kind, action, live, next, next', objs)
    requires id in Record(h, objs)
    ensures 0 < id < next' && |Record(h, objs)[id]| > 0 && Consecutive(Record(h, objs)[id])
  {
    RecordAt(h, objs, id);
    if id in IdsOf(objs) {
      var e :| e in objs && e.id == id;
      ConsecutiveNext(Versions(h, id), e.version);
    }
  }

  lemma StoredLast(kind: Kind, action: Action, live: map<int, Element>, h: map<int, seq<int>>,
                   next: int, next': int, objs: seq<Element>, id: int)
    requires KindOk(kind, live, h, next) && Fits(kind, action, live, next, next', objs)
    requires id in Stored(live, action, objs)
    ensures
      var e, h' := Stored(live, action, objs)[id], Record(h, objs);
      e.id == id && e.kind == kind && id in h' && |h'[id]| > 0 && h'[id][|h'[id]| - 1] == e.version
  {
    PutAt(live, objs, id);
    RecordAt(h, objs, id);
    if !action.Delete? && id in IdsOf(objs) {
      assert Record(h, objs)[id] == Versions(h, id) + [Put(live, objs)[id].version];
    }
  }

  lemma StoredKindOk(kind: Kind, action: Action, live: map<int, Element>, h: map<int, seq<int>>,
                     next: int, next': int, objs: seq<Element>)
    requires KindOk(kind, live, h, next) && next > 0 && Fits(kind, action, live, next, next', objs)
    ensures KindOk(kind, Stored(live, action, objs), Record(h, objs), next')
  {
    hide Fits, Stored, Record, Consecutive;
    forall id | id in Record(h, objs)
      ensures 0 < id < next' && |Record(h, objs)[id]| > 0 && Consecutive(Record(h, objs)[id])
    {
      RecordedOk(kind, action, live, h, next, next', objs, id);
    }
    forall id | id in Stored(live, action, objs)
      ensures
        var e, h' := Stored(live, action, objs)[id], Record(h, objs);
        e.id == id && e.kind == kind && id in h' && |h'[id]| > 0 && h'[id][|h'[id]| - 1] == e.version
    {
      StoredLast(kind, action, live, h, next, next', objs, id);
    }
  }

  /** Versions already recorded stay, as the first of those recorded later. */
  ghost predicate HistoryGrows(h: map<int, seq<int>>, h': map<int, seq<int>>) {
    forall id :: id in h ==> id in h' && h[id] <= h'[id]
  }

  lemma RecordGrows(h: map<int, seq<int>>, objs: seq<Element>)
    requires UniqueIds(objs)
    ensures HistoryGrows(h, Record(h, objs))
  {
    forall id | id in h
      ensures id in Record(h, objs) && h[id] <= Record(h, objs)[id]
    {
      RecordAt(h, objs, id);
      if id in IdsOf(objs) {
        var e :| e in objs && e.id == id;
        assert Record(h, objs)[id] == h[id] + [e.version];
      }
    }
  }

  // ----- A block that is accepted -----

  /** The objects of one kind that a block has left to store. */
  ghost predicate AcceptedKind(kind: Kind, action: Action, live: map<int, Element>, objs: seq<Element>) {
    && UniqueIds(objs)
    && (forall e :: e in objs ==>
          && e.kind == kind
          && (if action.Create? then e.id <= 0 && e.version == 1
              else e.id > 0 && e.id in live && e.version == live[e.id].version + 1))
  }

  ghost predicate Accepted(m: MapData, action: Action, b: Objects) {
    AcceptedKind(Node, action, m.node, b.node) && AcceptedKind(Way, action, m.way, b.way)
    && AcceptedKind(Relation, action, m.relation, b.relation)
  }

  /** Objects with placeholders get unused IDs; others keep theirs. */
  lemma ResolvedFits(kind: Kind, action: Action, live: map<int, Element>, created: Created, before: map<int, int>,
                     objs: seq<Element>, base: int, next: int, next': int)
    requires AcceptedKind(kind, action, live, objs)
    requires action.Create? ==> created.Of(kind) == Allocate(before, objs, base)
    requires next <= next' && (action.Create? ==> next <= base && base + |objs| <= next')
    ensures Fits(kind, action, live, next, next', ResolvedAll(created, objs))
    ensures !action.Create? ==> IdsOf(ResolvedAll(created, objs)) == IdsOf(objs)
  {
    var r := ResolvedAll(created, objs);
    forall i | 0 <= i < |objs|
      ensures r[i].id == if action.Create? then base + i else objs[i].id
    {
      assert objs[i] in objs;
      if action.Create? {
        AllocateAt(before, objs, base, i);
      }
    }
    forall e | e in r
      ensures e.kind == kind
      ensures if action.Create? then next <= e.id < next' && e.version == 1
              else e.id in live && e.version == live[e.id].version + 1
    {
      var i :| 0 <= i < |r| && r[i] == e;
      assert objs[i] in objs;
    }
    if !action.Create? {
      SameIds(objs, r);
    }
  }

  lemma SameIds(objs: seq<Element>, r: seq<Element>)
    requires |r| == |objs| && forall i :: 0 <= i < |objs| ==> r[i].id == objs[i].id
    ensures IdsOf(r) == IdsOf(objs)
  {
    forall e | e in objs
      ensures e.id in IdsOf(r)
    {
      var i :| 0 <= i < |objs| && objs[i] == e;
      assert r[i] in r;
    }
    forall e | e in r
      ensures e.id in IdsOf(objs)
    {
      var i :| 0 <= i < |r| && r[i] == e;
      assert objs[i] in objs;
    }
  }

  // ----- References -----

  /** The live objects once a block is stored, or deleted. */
  ghost function LiveAfter(m: MapData, action: Action, r: Objects): MapData {
    PerKind(Stored(m.node, action, r.node), Stored(m.way, action, r.way), Stored(m.relation, action, r.relation))
  }

  lemma StoredIds(m: map<int, Element>, action: Action, objs: seq<Element>)
    ensures Stored(m, action, objs).Keys == if action.Delete? then m.Keys - IdsOf(objs) else m.Keys + IdsOf(objs)
    ensures forall id :: id in Stored(m, action, objs) && (action.Delete? || id !in IdsOf(objs)) ==>
      id in m && Stored(m, action, objs)[id] == m[id]
    ensures forall id :: id in Stored(m, action, objs) && !action.Delete? && id in IdsOf(objs) ==>
      Stored(m, action, objs)[id] in objs
  {
    forall id
      ensures id in Put(m, objs) <==> id in m.Keys + IdsOf(objs)
      ensures id in Put(m, objs) && id !in IdsOf(objs) ==> Put(m, objs)[id] == m[id]
      ensures id in IdsOf(objs) ==> Put(m, objs)[id] in objs
    {
      PutAt(m, objs, id);
    }
  }

  lemma StoredReferences(m: MapData, action: Action, r: Objects)
    requires ReferencesLive(m)
    requires !action.Delete? ==> forall k: Kind, e :: e in r.Of(k) ==> RefersTo(Alive(m, r), e)
    requires action.Delete? ==> Deletion.Safe(m, IdsOfAll(r))
    ensures ReferencesLive(LiveAfter(m, action, r))
  {
    StoredIds(m.node, action, r.node);
    StoredIds(m.way, action, r.way);
    StoredIds(m.relation, action, r.relation);
    hide Stored, IdsOf;
    var m' := LiveAfter(m, action, r);
    forall k: Kind, id
      ensures id in m'.Of(k) <==> if action.Delete? then id in m.Of(k) && id !in IdsOf(r.Of(k)) else id in m.Of(k) || id in IdsOf(r.Of(k))
      ensures id in Alive(m, r).Of(k) <==> id in m.Of(k) || id in IdsOf(r.Of(k))
      ensures IdsOfAll(r).Of(k) == IdsOf(r.Of(k))
    {
      assert id in m'.Of(k) <==> id in m'.Of(k).Keys;
    }
    forall w, i | w in m'.way && 0 <= i < |m'.way[w].refs|
      ensures m'.way[w].refs[i] in m'.node
    {
      if !action.Delete? && w in IdsOf(r.way) {
        assert m'.way[w] in r.Of(Way);
        assert RefersTo(Alive(m, r), m'.way[w]);
        assert m'.way[w].refs[i] in Alive(m, r).Of(Node);
      } else {
        assert w in m.way && m'.way[w] == m.way[w] && m.way[w].refs[i] in m.Of(Node);
      }
      assert m'.way[w].refs[i] in m'.Of(Node);
    }
    forall x, i | x in m'.relation && 0 <= i < |m'.relation[x].members|
      ensures m'.relation[x].members[i].ref in m'.Of(m'.relation[x].members[i].kind)
    {
      if !action.Delete? && x in IdsOf(r.relation) {
        assert m'.relation[x] in r.Of(Relation);
        assert RefersTo(Alive(m, r), m'.relation[x]);
        assert m'.relation[x].members[i].ref in Alive(m, r).Of(m'.relation[x].members[i].kind);
      } else {
        assert x in m.relation && m'.relation[x] == m.relation[x];
        assert m.relation[x].members[i].ref in m.Of(m.relation[x].members[i].kind);
      }
    }
  }

  // ----- A whole block -----

  lemma VersionedKind(kind: Kind, action: Action, m: MapData, objs: seq<Element>)
    requires !action.Other?
    requires forall e :: e in objs ==> e.kind == kind && GoodObject(action, e)
    requires UniqueIds(VersionedAll(action, objs))
    requires forall e :: e in VersionedAll(action, objs) && e.id > 0 ==> e.id in m.Of(kind)
    requires forall e :: e in VersionedAll(action, objs) ==> VersionFits(m, e)
    ensures AcceptedKind(kind, action, m.Of(kind), VersionedAll(action, objs))
  {
    var v := VersionedAll(action, objs);
    forall e | e in v
      ensures e.kind == kind
      ensures if action.Create? then e.id <= 0 && e.version == 1
              else e.id > 0 && e.id in m.Of(kind) && e.version == m.Of(kind)[e.id].version + 1
    {
      var i :| 0 <= i < |v| && v[i] == e;
      assert objs[i] in objs;
    }
  }

  lemma {:induction false} OnlyUnique(objs: seq<Element>, ids: set<int>)
    requires UniqueIds(objs)
    ensures UniqueIds(Only(objs, ids))
  {
    if |objs| > 0 {
      var init, e := objs[..|objs| - 1], objs[|objs| - 1];
      OnlyUnique(init, ids);
      OnlyIds(init, ids);
      var rest := Only(init, ids);
      forall i | 0 <= i < |rest|
        ensures rest[i].id != e.id
      {
        assert rest[i] in rest && rest[i] in init;
      }
    }
  }

  lemma OnlyAccepted(kind: Kind, action: Action, live: map<int, Element>, objs: seq<Element>, ids: set<int>)
    requires AcceptedKind(kind, action, live, objs) && ids <= IdsOf(objs)
    ensures AcceptedKind(kind, action, live, Only(objs, ids)) && IdsOf(Only(objs, ids)) == ids
  {
    OnlyUnique(objs, ids);
    OnlyIds(objs, ids);
  }

  lemma FoundIds(m: MapData, b: Objects, kind: Kind, e: Element)
    requires AllFound(m, b, kind) && e in b.Of(kind) && e.id > 0
    ensures e.id in m.Of(kind)
  {
    assert e.id in IdsOf(b.Of(kind));
    assert e.id in Referenced(b, kind);
  }

  lemma CheckedIsAccepted(m: MapData, s: Settings, action: Action, b: Objects, changeset: int)
    requires !action.Other? && OfItsKind(b)
    requires CheckError(m, s, action, b, VersionedBlock(action, b), changeset).None?
    ensures Accepted(m, action, VersionedBlock(action, b))
  {
    var v := VersionedBlock(action, b);
    hide GoodObject, GoodWay, VersionFits, AllFound, UniqueIds, VersionedAll, AcceptedKind;
    forall k: Kind
      ensures forall e :: e in b.Of(k) ==> e.kind == k && GoodObject(action, e)
      ensures UniqueIds(v.Of(k))
      ensures forall e :: e in v.Of(k) ==> VersionFits(m, e)
      ensures AllFound(m, v, k)
    {
    }
    forall k: Kind, e | e in v.Of(k) && e.id > 0
      ensures e.id in m.Of(k)
    {
      FoundIds(m, v, k, e);
    }
    assert v.Of(Node) == v.node && v.Of(Way) == v.way && v.Of(Relation) == v.relation;
    assert b.Of(Node) == b.node && b.Of(Way) == b.way && b.Of(Relation) == b.relation;
    VersionedKind(Node, action, m, b.node);
    VersionedKind(Way, action, m, b.way);
    VersionedKind(Relation, action, m, b.relation);
  }

  /** What a delete block has left to delete is safe to delete, and still accepted. */
  lemma DeletedIsSafe(m: MapData, v: Objects, ifUnused: bool)
    requires Accepted(m, Delete, v) && DeleteBlock(m, v, ifUnused).Success?
    ensures
      var left := DeleteBlock(m, v, ifUnused).value;
      Accepted(m, Delete, left) && Deletion.Safe(m, IdsOfAll(left)) && Within(IdsOfAll(left), IdsOfAll(v))
  {
    var d := IdsOfAll(v);
    var u := Deletion.Unused(m, d);
    Deletion.UnusedIsSafe(m, d);
    hide Deletion.Unused, Deletion.Safe, AcceptedKind, IdsOf, Only;
    if ifUnused {
      OnlyAccepted(Node, Delete, m.node, v.node, u.node);
      OnlyAccepted(Way, Delete, m.way, v.way, u.way);
      OnlyAccepted(Relation, Delete, m.relation, v.relation, u.relation);
    } else {
      assert u == d;
    }
  }

  /** With if-unused, a delete block deletes the greatest part of what it asks
      for that leaves no live way or relation referring to a deleted object. */
  lemma IfUnusedDeletesGreatest(m: MapData, v: Objects, d: Ids)
    requires Deletion.Safe(m, d) && Within(d, IdsOfAll(v))
    ensures DeleteBlock(m, v, true).Success?
    ensures
      var deleted := IdsOfAll(DeleteBlock(m, v, true).value);
      Deletion.Safe(m, deleted) && Within(deleted, IdsOfAll(v)) && Within(d, deleted)
  {
    var u := Deletion.Unused(m, IdsOfAll(v));
    Deletion.UnusedIsSafe(m, IdsOfAll(v));
    Deletion.UnusedIsGreatest(m, IdsOfAll(v), d);
    hide Deletion.Unused, Deletion.Safe;
    OnlyIds(v.node, u.node);
    OnlyIds(v.way, u.way);
    OnlyIds(v.relation, u.relation);
    hide IdsOf, Only;
    assert IdsOf(v.node) * u.node == u.node && IdsOf(v.way) * u.way == u.way;
    assert IdsOf(v.relation) * u.relation == u.relation;
    assert IdsOfAll(DeleteBlock(m, v, true).value) == u;
  }

  /** Without if-unused, a delete block is refused exactly when deleting all it
      asks for is not safe, and otherwise all of it is deleted. */
  lemma RefusedExactlyWhenUnsafe(m: MapData, v: Objects)
    ensures Deletion.Safe(m, IdsOfAll(v)) <==> DeleteBlock(m, v, false) == Success(v)
    ensures !Deletion.Safe(m, IdsOfAll(v)) <==> exists k :: DeleteBlock(m, v, false) == Failure(StillUsed(k))
  {
    Deletion.UnusedIsAllExactlyWhenSafe(m, IdsOfAll(v));
    hide Deletion.Unused, Deletion.Safe, IdsOf;
    if !Deletion.Safe(m, IdsOfAll(v)) {
      var u, d := Deletion.Unused(m, IdsOfAll(v)), IdsOfAll(v);
      assert u.relation != d.relation || u.way != d.way || u.node != d.node;
      assert DeleteBlock(m, v, false) == Failure(StillUsed(DeleteBlock(m, v, false).error.kind));
    }
  }

  /** The objects a successful block stores. */
  lemma SuccessIsAccepted(s: Store, created: Created, settings: Settings, action: Action, b: Objects,
                          changeset: int, ifUnused: bool)
    requires !action.Other? && OfItsKind(b)
    requires BlockOutcome(s, created, settings, action, b, changeset, ifUnused).Success?
    ensures
      var done := BlockOutcome(s, created, settings, action, b, changeset, ifUnused).value;
      && Accepted(s.live, action, done.objects)
      && (action.Delete? ==> Deletion.Safe(s.live, IdsOfAll(done.objects)))
      && StoreObjects(s, created, action, done.objects) == Some((done.store, done.created))
  {
    hide Accepted, CheckError, DeleteBlock, StoreObjects, Deletion.Safe, OfItsKind;
    CheckedIsAccepted(s.live, settings, action, b, changeset);
    if action.Delete? {
      DeletedIsSafe(s.live, VersionedBlock(action, b), ifUnused);
    }
  }

  /** Storing an accepted block keeps the store's invariant and its history. */
  lemma StoreKeeps(s: Store, created: Created, action: Action, b: Objects)
    requires StoreOk(s) && s.next > 0 && !action.Other?
    requires Accepted(s.live, action, b) && (action.Delete? ==> Deletion.Safe(s.live, IdsOfAll(b)))
    requires StoreObjects(s, created, action, b).Some?
    ensures
      var s' := StoreObjects(s, created, action, b).value.0;
      StoreOk(s') && s'.next > 0 && Later(s, s')
  {
    var created' := if action.Create? then AllocateAll(created, b, s.next) else created;
    var r := PerKind(ResolvedAll(created', b.node), ResolvedAll(created', b.way), ResolvedAll(created', b.relation));
    var next' := if action.Create? then s.next + |b.node| + |b.way| + |b.relation| else s.next;
    hide ReferencesLive, KindOk, AcceptedKind, Deletion.Safe, IdsOf, ResolvedAll, Allocate, RefersTo, HistoryGrows,
         Stored, Record, Alive;
    StoreKind(Node, action, s.live.node, s.history.node, created', created.node, b.node, s.next, s.next, next');
    StoreKind(Way, action, s.live.way, s.history.way, created', created.way, b.way, s.next + |b.node|, s.next, next');
    StoreKind(Relation, action, s.live.relation, s.history.relation, created', created.relation, b.relation,
              s.next + |b.node| + |b.way|, s.next, next');
    StoredReferences(s.live, action, r);
  }

  lemma StoreKind(kind: Kind, action: Action, live: map<int, Element>, h: map<int, seq<int>>, created: Created,
                  before: map<int, int>, objs: seq<Element>, base: int, next: int, next': int)
    requires AcceptedKind(kind, action, live, objs) && KindOk(kind, live, h, next)
    requires action.Create? ==> created.Of(kind) == Allocate(before, objs, base)
    requires 0 < next <= next' && (action.Create? ==> next <= base && base + |objs| <= next')
    ensures
      var r := ResolvedAll(created, objs);
      && KindOk(kind, Stored(live, action, r), Record(h, r), next')
      && HistoryGrows(h, Record(h, r))
      && (!action.Create? ==> IdsOf(r) == IdsOf(objs))
  {
    hide *;
    ResolvedFits(kind, action, live, created, before, objs, base, next, next');
    StoredKindOk(kind, action, live, h, next, next', ResolvedAll(created, objs));
    FitsGrows(kind, action, live, h, next, next', ResolvedAll(created, objs));
  }

  lemma FitsGrows(kind: Kind, action: Action, live: map<int, Element>, h: map<int, seq<int>>,
                  next: int, next': int, objs: seq<Element>)
    requires Fits(kind, action, live, next, next', objs)
    ensures HistoryGrows(h, Record(h, objs))
  {
    RecordGrows(h, objs);
  }

  /** After any successful block, every reference is still to a live object, each
      live object is the last of its versions, and no recorded version is lost. */
  lemma BlockKeepsStore(s: Store, created: Created, settings: Settings, action: Action, b: Objects,
                        changeset: int, ifUnused: bool)
    requires StoreOk(s) && s.next > 0 && OfItsKind(b)
    requires BlockOutcome(s, created, settings, action, b, changeset, ifUnused).Success?
    ensures
      var s' := BlockOutcome(s, created, settings, action, b, changeset, ifUnused).value.store;
      StoreOk(s') && s'.next > 0 && Later(s, s')
  {
    if !action.Other? {
      SuccessIsAccepted(s, created, settings, action, b, changeset, ifUnused);
      hide StoreOk, HistoryGrows, OfItsKind, Accepted, StoreObjects, BlockOutcome, Deletion.Safe;
      StoreKeeps(s, created, action, BlockOutcome(s, created, settings, action, b, changeset, ifUnused).value.objects);
    }
  }

  // ----- Whole runs -----

  /** One state of the map comes after another. */
  ghost predicate Later(s: Store, s': Store) {
    forall k: Kind :: HistoryGrows(s.history.Of(k), s'.history.Of(k))
  }

  lemma LaterNext(s: Store, mid: Store, s': Store)
    requires Later(s, mid) && Later(mid, s')
    ensures Later(s, s')
  {
    forall k: Kind, id | id in s.history.Of(k)
      ensures id in s'.history.Of(k) && s.history.Of(k)[id] <= s'.history.Of(k)[id]
    {
      assert id in mid.history.Of(k);
    }
  }

  ghost predicate BlocksOfTheirKind(blocks: seq<ChangeBlock>) {
    forall i :: 0 <= i < |blocks| ==> OfItsKind(blocks[i].objects)
  }

  lemma UploadTurn(s: Store, created: Created, settings: Settings, blocks: seq<ChangeBlock>, changeset: int,
                   elementCount: nat)
    requires |blocks| > 0 && UploadOutcome(s, created, settings, blocks, changeset, elementCount).Success?
    ensures
      var b := blocks[0];
      var outcome := BlockOutcome(s, created, settings, b.action, b.objects, changeset, b.ifUnused);
      && outcome.Success?
      && UploadOutcome(s, created, settings, blocks, changeset, elementCount) ==
        UploadOutcome(outcome.value.store, outcome.value.created, settings, blocks[1..], changeset,
                      elementCount + BlockSize(b.objects))
  {
    hide BlockOutcome;
  }

  lemma LaterSelf(s: Store)
    ensures Later(s, s)
  {
  }

  lemma {:induction false} UploadKeepsStore(s: Store, created: Created, settings: Settings, blocks: seq<ChangeBlock>,
                                            changeset: int, elementCount: nat)
    requires StoreOk(s) && s.next > 0 && BlocksOfTheirKind(blocks)
    requires UploadOutcome(s, created, settings, blocks, changeset, elementCount).Success?
    ensures
      var s' := UploadOutcome(s, created, settings, blocks, changeset, elementCount).value;
      StoreOk(s') && s'.next > 0 && Later(s, s')
    decreases |blocks|
  {
    LaterSelf(s);
    if |blocks| > 0 {
      assert OfItsKind(blocks[0].objects) && BlocksOfTheirKind(blocks[1..]);
      hide StoreOk, OfItsKind, BlockOutcome, HistoryGrows, UploadOutcome, BlocksOfTheirKind, Later;
      var b := blocks[0];
      UploadTurn(s, created, settings, blocks, changeset, elementCount);
      BlockKeepsStore(s, created, settings, b.action, b.objects, changeset, b.ifUnused);
      var done := BlockOutcome(s, created, settings, b.action, b.objects, changeset, b.ifUnused).value;
      UploadKeepsStore(done.store, done.created, settings, blocks[1..], changeset, elementCount + BlockSize(b.objects));
      LaterNext(s, done.store, UploadOutcome(s, created, settings, blocks, changeset, elementCount).value);
    }
  }

  datatype Request = Request(blocks: seq<ChangeBlock>, changeset: int)

  /** The map after a series of uploads, of which those refused change nothing. */
  ghost function AfterUploads(s: Store, settings: Settings, uploads: seq<Request>): Store {
    if |uploads| == 0 then s
    else
      var u, before := uploads[|uploads| - 1], AfterUploads(s, settings, uploads[..|uploads| - 1]);
      UploadOutcome(before, PerKind(map[], map[], map[]), settings, u.blocks, u.changeset, 0).GetOr(before)
  }

  /** In every state that any series of uploads leads to, every node of a live way
      and every member of a live relation is live, and the versions of each
      object are consecutive, the last of them being that of the live object. */
  lemma {:induction false} UploadsKeepStore(s: Store, settings: Settings, uploads: seq<Request>)
    requires StoreOk(s) && s.next > 0
    requires forall i :: 0 <= i < |uploads| ==> BlocksOfTheirKind(uploads[i].blocks)
    ensures
      var s' := AfterUploads(s, settings, uploads);
      StoreOk(s') && s'.next > 0 && Later(s, s')
  {
    if |uploads| > 0 {
      var u, before := uploads[|uploads| - 1], AfterUploads(s, settings, uploads[..|uploads| - 1]);
      hide StoreOk, BlocksOfTheirKind, UploadOutcome, HistoryGrows;
      UploadsKeepStore(s, settings, uploads[..|uploads| - 1]);
      if UploadOutcome(before, PerKind(map[], map[], map[]), settings, u.blocks, u.changeset, 0).Success? {
        UploadKeepsStore(before, PerKind(map[], map[], map[]), settings, u.blocks, u.changeset, 0);
        LaterNext(s, before, AfterUploads(s, settings, uploads));
      }
    }
  }

  // ----- Two requests naming the same version -----

  lemma KindOkOf(s: Store, k: Kind)
    requires StoreOk(s)
    ensures KindOk(k, s.live.Of(k), s.history.Of(k), s.next)
  {
  }

  lemma {:induction false} ConsecutiveRises(versions: seq<int>, i: nat, j: nat)
    requires Consecutive(versions) && i <= j < |versions|
    ensures versions[i] <= versions[j]
    decreases j - i
  {
    if i < j {
      ConsecutiveRises(versions, i + 1, j);
    }
  }

  lemma HistoryAfter(s: Store, created: Created, action: Action, b: Objects, k: Kind)
    requires !action.Create? && StoreObjects(s, created, action, b).Some?
    ensures
      var (s', created') := StoreObjects(s, created, action, b).value;
      created' == created && s'.history.Of(k) == Record(s.history.Of(k), ResolvedAll(created, b.Of(k)))
  {
    hide RefersTo, ResolvedAll, Record, Stored, Alive;
  }

  lemma AcceptedOf(m: MapData, action: Action, b: Objects, k: Kind)
    requires Accepted(m, action, b)
    ensures AcceptedKind(k, action, m.Of(k), b.Of(k))
  {
  }

  /** The version of a stored object is the last recorded of it. */
  lemma RecordedLast(k: Kind, action: Action, live: map<int, Element>, h: map<int, seq<int>>, created: Created,
                     objs: seq<Element>, e: Element)
    requires !action.Create? && AcceptedKind(k, action, live, objs) && e in objs
    ensures
      var h' := Record(h, ResolvedAll(created, objs));
      e.id in h' && |h'[e.id]| > 0 && h'[e.id][|h'[e.id]| - 1] == e.version
  {
    var r := ResolvedAll(created, objs);
    ResolvedFits(k, action, live, created, map[], objs, 0, 0, 0);
    var i :| 0 <= i < |objs| && objs[i] == e;
    assert r[i] in r && r[i].id == e.id && r[i].version == e.version;
    RecordAt(h, r, e.id);
  }

  /** A block that stored a new version of an object recorded it last. */
  lemma StoredVersionIsLast(s: Store, created: Created, settings: Settings, action: Action, b: Objects,
                            changeset: int, ifUnused: bool, k: Kind, e: Element)
    requires (action.Modify? || action.Delete?) && OfItsKind(b)
    requires BlockOutcome(s, created, settings, action, b, changeset, ifUnused).Success?
    requires e in BlockOutcome(s, created, settings, action, b, changeset, ifUnused).value.objects.Of(k)
    ensures
      var h := BlockOutcome(s, created, settings, action, b, changeset, ifUnused).value.store.history.Of(k);
      e.id in h && |h[e.id]| > 0 && h[e.id][|h[e.id]| - 1] == e.version
  {
    hide *;
    SuccessIsAccepted(s, created, settings, action, b, changeset, ifUnused);
    var done := BlockOutcome(s, created, settings, action, b, changeset, ifUnused).value;
    AcceptedOf(s.live, action, done.objects, k);
    HistoryAfter(s, created, action, done.objects, k);
    RecordedLast(k, action, s.live.Of(k), s.history.Of(k), created, done.objects.Of(k), e);
  }

  /** A block that passes the checks names the version of the live object. */
  lemma NamesLiveVersion(m: MapData, settings: Settings, action: Action, b: Objects, changeset: int, k: Kind, e: Element)
    requires (action.Modify? || action.Delete?) && OfItsKind(b) && e in b.Of(k)
    requires CheckError(m, settings, action, b, VersionedBlock(action, b), changeset).None?
    ensures e.id in m.Of(k) && m.Of(k)[e.id].version == e.version
  {
    CheckedIsAccepted(m, settings, action, b, changeset);
    AcceptedOf(m, action, VersionedBlock(action, b), k);
    hide CheckError, Accepted, OfItsKind;
    var v := VersionedBlock(action, b).Of(k);
    var i :| 0 <= i < |b.Of(k)| && b.Of(k)[i] == e;
    assert v[i] in v && v[i].id == e.id && v[i].version == e.version + 1;
  }

  /** Once a version is recorded, the live object never has an earlier one. */
  lemma NoEarlierLive(s: Store, s': Store, k: Kind, id: int)
    requires Later(s, s') && StoreOk(s')
    requires id in s.history.Of(k) && |s.history.Of(k)[id]| > 0 && id in s'.live.Of(k)
    ensures s.history.Of(k)[id][|s.history.Of(k)[id]| - 1] <= s'.live.Of(k)[id].version
  {
    KindOkOf(s', k);
    hide StoreOk;
    var h, h' := s.history.Of(k), s'.history.Of(k);
    assert HistoryGrows(h, h');
    ConsecutiveRises(h'[id], |h[id]| - 1, |h'[id]| - 1);
  }

  /** Of two modify or delete requests that name the same version of one object,
      at most one succeeds: once a block has stored the object, any block that
      names the version it replaced is refused, however much later it comes. */
  lemma SameVersionOnce(s: Store, created: Created, settings: Settings, action: Action, b: Objects,
                        changeset: int, ifUnused: bool, k: Kind, e: Element,
                        s': Store, created': Created, settings': Settings, action': Action, b': Objects,
                        changeset': int, ifUnused': bool, e': Element)
    requires (action.Modify? || action.Delete?) && OfItsKind(b)
    requires BlockOutcome(s, created, settings, action, b, changeset, ifUnused).Success?
    requires e in BlockOutcome(s, created, settings, action, b, changeset, ifUnused).value.objects.Of(k)
    requires StoreOk(s') && Later(BlockOutcome(s, created, settings, action, b, changeset, ifUnused).value.store, s')
    requires (action'.Modify? || action'.Delete?) && OfItsKind(b')
    requires e' in b'.Of(k) && e'.id == e.id && e'.version + 1 == e.version
    ensures BlockOutcome(s', created', settings', action', b', changeset', ifUnused').Failure?
  {
    StoredVersionIsLast(s, created, settings, action, b, changeset, ifUnused, k, e);
    hide StoreOk, Later, OfItsKind, CheckError, VersionedBlock, DeleteBlock, StoreObjects;
    if CheckError(s'.live, settings', action', b', VersionedBlock(action', b'), changeset').None? {
      NamesLiveVersion(s'.live, settings', action', b', changeset', k, e');
      NoEarlierLive(BlockOutcome(s, created, settings, action, b, changeset, ifUnused).value.store, s', k, e.id);
    }
  }
}
