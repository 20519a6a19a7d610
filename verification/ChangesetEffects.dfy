/** What an upload makes of the map, object by object and field by field: which
    blocks are accepted, what is stored of them, and what stays as it was. */
module ChangesetEffects {
  import opened Wrappers
  import opened Osm
  import opened Sets
  import opened Changeset
  import opened ChangesetIntegrity

  // ----- One object -----

  /** An ID of an upload stands for itself or, as a placeholder, for the one created for it. */
  predicate StandsFor(created: Created, kind: Kind, id: int, x: int) {
    if id > 0 then x == id else id in created.Of(kind) && x == created.Of(kind)[id]
  }

  /** A stored object is the one that was uploaded, but for its placeholders and its version. */
  ghost predicate AsUploaded(action: Action, created: Created, e: Element, x: Element) {
    && x.kind == e.kind && x.tags == e.tags && x.lat == e.lat && x.lon == e.lon && x.changeset == e.changeset
    && x.version == (if action == Create then 1 else e.version + 1)
    && StandsFor(created, e.kind, e.id, x.id)
    && |x.refs| == |e.refs| && (forall i :: 0 <= i < |e.refs| ==> StandsFor(created, Node, e.refs[i], x.refs[i]))
    && |x.members| == |e.members| && forall i :: 0 <= i < |e.members| ==> MemberAsUploaded(created, e.members[i], x.members[i])
  }

  predicate MemberAsUploaded(created: Created, m: Member, x: Member) {
    x.kind == m.kind && x.role == m.role && StandsFor(created, m.kind, m.ref, x.ref)
  }

  /** What a reference comes to is among objects that exist, whose IDs are all positive. */
  lemma ReferenceStands(created: Created, kind: Kind, alive: set<int>, ref: int)
    requires Resolve(created.Of(kind), ref) in alive && forall id :: id in alive ==> id > 0
    ensures StandsFor(created, kind, ref, Resolve(created.Of(kind), ref))
  {
  }

  lemma ResolvedIsAsUploaded(action: Action, created: Created, e: Element, alive: Ids)
    requires !action.Other? && RefersTo(alive, Resolved(created, Versioned(action, e)))
    requires forall kind: Kind, id :: id in alive.Of(kind) ==> id > 0
    requires StandsFor(created, e.kind, e.id, Resolve(created.Of(e.kind), e.id))
    ensures AsUploaded(action, created, e, Resolved(created, Versioned(action, e)))
  {
    var x := Resolved(created, Versioned(action, e));
    forall i | 0 <= i < |e.refs|
      ensures StandsFor(created, Node, e.refs[i], x.refs[i])
    {
      assert x.refs[i] in alive.Of(Node);
      ReferenceStands(created, Node, alive.Of(Node), e.refs[i]);
    }
    forall i | 0 <= i < |e.members|
      ensures MemberAsUploaded(created, e.members[i], x.members[i])
    {
      assert x.members[i].kind == e.members[i].kind && x.members[i].ref in alive.Of(x.members[i].kind);
      ReferenceStands(created, e.members[i].kind, alive.Of(e.members[i].kind), e.members[i].ref);
    }
  }

  // ----- The objects of one kind -----

  /** The i-th object of a kind is stored under the ID that its own stands for. */
  lemma StoredAt(kind: Kind, action: Action, live: map<int, Element>, created: Created, before: map<int, int>,
                 objs: seq<Element>, base: int, next: int, next': int, i: nat)
    requires AcceptedKind(kind, action, live, objs) && !action.Delete? && i < |objs|
    requires action.Create? ==> created.Of(kind) == Allocate(before, objs, base)
    requires next <= next' && (action.Create? ==> 0 < next <= base && base + |objs| <= next')
    ensures
      var r := ResolvedAll(created, objs);
      var id := Resolve(created.Of(kind), objs[i].id);
      && id in Stored(live, action, r) && Stored(live, action, r)[id] == Resolved(created, objs[i])
      && StandsFor(created, kind, objs[i].id, id) && (action.Create? ==> id >= next)
  {
    var r := ResolvedAll(created, objs);
    ResolvedFits(kind, action, live, created, before, objs, base, next, next');
    assert objs[i] in objs && r[i] in r;
    if action.Create? {
      AllocateAt(before, objs, base, i);
    }
    PutAt(live, r, r[i].id);
    hide Put, Allocate, ResolvedAll;
    assert r[i].id in IdsOf(r);
    var x := Put(live, r)[r[i].id];
    var j :| 0 <= j < |r| && r[j] == x;
    assert j == i;
  }

  lemma PositiveIds(s: Store, kind: Kind, id: int)
    requires StoreOk(s) && id in s.live.Of(kind)
    ensures 0 < id < s.next
  {
    hide ReferencesLive, Consecutive;
  }

  // ----- A block -----

  /** What a block is stored as: the objects left of it, with their placeholders replaced. */
  ghost function Replaced(created: Created, objects: Objects): Objects {
    PerKind(ResolvedAll(created, objects.node), ResolvedAll(created, objects.way), ResolvedAll(created, objects.relation))
  }

  lemma LiveIs(s: Store, created: Created, action: Action, objects: Objects, kind: Kind)
    requires StoreObjects(s, created, action, objects).Some?
    ensures
      var (s', created') := StoreObjects(s, created, action, objects).value;
      var r := Replaced(created', objects);
      && s'.live.Of(kind) == Stored(s.live.Of(kind), action, r.Of(kind))
      && r.Of(kind) == ResolvedAll(created', objects.Of(kind))
      && forall e :: e in r.Of(kind) ==> RefersTo(Alive(s.live, r), e)
  {
    hide RefersTo, Stored, ResolvedAll, Record, Alive, Allocate;
  }

  /** Where the IDs for the placeholders of a kind begin. */
  function BaseOf(s: Store, b: Objects, kind: Kind): int {
    match kind
    case Node => s.next
    case Way => s.next + |b.node|
    case Relation => s.next + |b.node| + |b.way|
  }

  lemma CreatedIs(s: Store, created: Created, action: Action, objects: Objects, kind: Kind)
    requires StoreObjects(s, created, action, objects).Some?
    ensures
      var (s', created') := StoreObjects(s, created, action, objects).value;
      if action.Create? then
        && created'.Of(kind) == Allocate(created.Of(kind), objects.Of(kind), BaseOf(s, objects, kind))
        && s.next <= BaseOf(s, objects, kind) && BaseOf(s, objects, kind) + |objects.Of(kind)| <= s'.next
      else created' == created && s'.next == s.next
  {
    hide RefersTo, Stored, ResolvedAll, Record, Alive, Allocate;
  }

  /** Everything that a stored object may refer to has a positive ID. */
  lemma AliveArePositive(s: Store, created: Created, action: Action, objects: Objects)
    requires StoreOk(s) && s.next > 0 && !action.Other? && Accepted(s.live, action, objects)
    requires StoreObjects(s, created, action, objects).Some?
    ensures
      var alive := Alive(s.live, Replaced(StoreObjects(s, created, action, objects).value.1, objects));
      forall kind: Kind, id :: id in alive.Of(kind) ==> id > 0
  {
    forall kind: Kind, id | id in Alive(s.live, Replaced(StoreObjects(s, created, action, objects).value.1, objects)).Of(kind)
      ensures id > 0
    {
      AliveIsPositive(s, created, action, objects, kind, id);
    }
  }

  lemma AliveIs(m: MapData, r: Objects, kind: Kind)
    ensures Alive(m, r).Of(kind) == m.Of(kind).Keys + IdsOf(r.Of(kind))
  {
    hide IdsOf;
  }

  lemma AliveIsPositive(s: Store, created: Created, action: Action, objects: Objects, kind: Kind, id: int)
    requires StoreOk(s) && s.next > 0 && !action.Other? && Accepted(s.live, action, objects)
    requires StoreObjects(s, created, action, objects).Some?
    requires id in Alive(s.live, Replaced(StoreObjects(s, created, action, objects).value.1, objects)).Of(kind)
    ensures id > 0
  {
    hide StoreObjects, StoreOk, Fits, AcceptedKind, Accepted, ResolvedAll, Allocate, Alive, Stored, RefersTo, Replaced, IdsOf;
    var (s', created') := StoreObjects(s, created, action, objects).value;
    var r := Replaced(created', objects);
    AliveIs(s.live, r, kind);
    if id in s.live.Of(kind) {
      PositiveIds(s, kind, id);
    } else {
      CreatedIs(s, created, action, objects, kind);
      AcceptedOf(s.live, action, objects, kind);
      ResolvedFits(kind, action, s.live.Of(kind), created', created.Of(kind), objects.Of(kind), BaseOf(s, objects,
          kind), s.next, s'.next);
      LiveIs(s, created, action, objects, kind);
      FitsPositive(s, kind, action, s'.next, r.Of(kind), id);
    }
  }

  lemma FitsPositive(s: Store, kind: Kind, action: Action, next': int, r: seq<Element>, id: int)
    requires StoreOk(s) && s.next > 0 && Fits(kind, action, s.live.Of(kind), s.next, next', r) && id in IdsOf(r)
    ensures id > 0
  {
    hide StoreOk;
    var e :| e in r && e.id == id;
    if !action.Create? {
      PositiveIds(s, kind, id);
    }
  }

  /** A block that creates or modifies: each of its objects is live afterwards, as
      it was uploaded, under its own ID or a new one. */
  lemma BlockStoresAt(s: Store, created: Created, settings: Settings, action: Action, b: Objects, changeset: int,
                    ifUnused: bool, kind: Kind, i: nat) returns (id: int)
    requires StoreOk(s) && s.next > 0 && OfItsKind(b) && (action.Create? || action.Modify?) && i < |b.Of(kind)|
    requires BlockOutcome(s, created, settings, action, b, changeset, ifUnused).Success?
    ensures
      var done := BlockOutcome(s, created, settings, action, b, changeset, ifUnused).value;
      var e := b.Of(kind)[i];
      && StandsFor(done.created, kind, e.id, id)
      && id in done.store.live.Of(kind) && AsUploaded(action, done.created, e, done.store.live.Of(kind)[id])
      && (action.Create? ==> id >= s.next && id !in s.live.Of(kind))
  {
    var done := BlockOutcome(s, created, settings, action, b, changeset, ifUnused).value;
    var e, v := b.Of(kind)[i], VersionedBlock(action, b);
    SuccessIsAccepted(s, created, settings, action, b, changeset, ifUnused);
    VersionedAre(settings, s, created, action, b, changeset, ifUnused, kind, i);
    hide BlockOutcome, StoreOk, StoreObjects, AcceptedKind, ResolvedAll, Allocate, AsUploaded, RefersTo, Alive,
        Replaced, VersionedAll,
         Stored, OfItsKind, Resolved, Versioned;
    CreatedIs(s, created, action, v, kind);
    AcceptedOf(s.live, action, v, kind);
    StoredAt(kind, action, s.live.Of(kind), done.created, created.Of(kind), v.Of(kind), BaseOf(s, v, kind), s.next,
             done.store.next, i);
    LiveIs(s, created, action, v, kind);
    AliveArePositive(s, created, action, v);
    id := Resolve(done.created.Of(kind), e.id);
    InReplaced(done.created, v.Of(kind), i);
    ResolvedIsAsUploaded(action, done.created, e, Alive(s.live, Replaced(done.created, v)));
    if action.Create? && id in s.live.Of(kind) {
      PositiveIds(s, kind, id);
      assert false;
    }
  }

  lemma InReplaced(created: Created, objs: seq<Element>, i: nat)
    requires i < |objs|
    ensures Resolved(created, objs[i]) in ResolvedAll(created, objs)
  {
    assert ResolvedAll(created, objs)[i] == Resolved(created, objs[i]);
  }

  lemma VersionedAre(settings: Settings, s: Store, created: Created, action: Action, b: Objects, changeset: int, ifUnused: bool,
                     kind: Kind, i: nat)
    requires OfItsKind(b) && (action.Create? || action.Modify?) && i < |b.Of(kind)|
    requires BlockOutcome(s, created, settings, action, b, changeset, ifUnused).Success?
    ensures
      var v := VersionedBlock(action, b);
      && BlockOutcome(s, created, settings, action, b, changeset, ifUnused).value.objects == v
      && |v.Of(kind)| == |b.Of(kind)| && v.Of(kind)[i] == Versioned(action, b.Of(kind)[i])
      && b.Of(kind)[i].kind == kind && v.Of(kind)[i].id == b.Of(kind)[i].id
  {
    assert b.Of(kind)[i] in b.Of(kind);
    hide CheckError, StoreObjects;
  }

  /** A block names an object: one of its own stands for its ID. */
  ghost predicate NamedIn(created: Created, b: Objects, kind: Kind, id: int) {
    exists e :: e in b.Of(kind) && StandsFor(created, kind, e.id, id)
  }

  /** An object is the same in two maps, or in neither. */
  predicate SameIn(a: MapData, b: MapData, kind: Kind, id: int) {
    (id in a.Of(kind) <==> id in b.Of(kind)) && (id in a.Of(kind) ==> a.Of(kind)[id] == b.Of(kind)[id])
  }

  lemma StoredIdsAre(kind: Kind, action: Action, live: map<int, Element>, created: Created, before: map<int, int>,
                     objs: seq<Element>, base: int, next: int, next': int, id: int)
    requires AcceptedKind(kind, action, live, objs)
    requires action.Create? ==> created.Of(kind) == Allocate(before, objs, base)
    requires next <= next' && (action.Create? ==> 0 < next <= base && base + |objs| <= next')
    ensures id in IdsOf(ResolvedAll(created, objs)) <==> exists e :: e in objs && StandsFor(created, kind, e.id, id)
  {
    var r := ResolvedAll(created, objs);
    forall i | 0 <= i < |objs|
      ensures forall x :: StandsFor(created, kind, objs[i].id, x) <==> x == r[i].id
    {
      assert objs[i] in objs;
      if action.Create? {
        AllocateAt(before, objs, base, i);
      }
    }
    if id in IdsOf(r) {
      var e :| e in r && e.id == id;
      var i :| 0 <= i < |r| && r[i] == e;
      assert objs[i] in objs && StandsFor(created, kind, objs[i].id, id);
    }
    if e :| e in objs && StandsFor(created, kind, e.id, id) {
      var i :| 0 <= i < |objs| && objs[i] == e;
      assert r[i] in r && r[i].id == id;
    }
  }

  lemma StoredOrSame(live: map<int, Element>, action: Action, r: seq<Element>, id: int)
    ensures id !in IdsOf(r) ==>
      (id in Stored(live, action, r) <==> id in live) && (id in live ==> Stored(live, action, r)[id] == live[id])
    ensures action.Delete? && id in IdsOf(r) ==> id !in Stored(live, action, r)
  {
    PutAt(live, r, id);
    hide IdsOf, Put;
  }

  /** What storing a block does to one ID of a kind. */
  lemma StoreChanges(s: Store, created: Created, action: Action, objects: Objects, kind: Kind, id: int)
    requires StoreOk(s) && s.next > 0 && !action.Other? && Accepted(s.live, action, objects)
    requires StoreObjects(s, created, action, objects).Some?
    ensures
      var (s', created') := StoreObjects(s, created, action, objects).value;
      && (!NamedIn(created', objects, kind, id) ==> SameIn(s'.live, s.live, kind, id))
      && (action.Delete? && NamedIn(created', objects, kind, id) ==> id !in s'.live.Of(kind))
  {
    var (s', created') := StoreObjects(s, created, action, objects).value;
    hide StoreOk, StoreObjects, AcceptedKind, Accepted, ResolvedAll, Allocate, RefersTo, Alive, StandsFor, IdsOf,
        Stored, Replaced;
    CreatedIs(s, created, action, objects, kind);
    AcceptedOf(s.live, action, objects, kind);
    LiveIs(s, created, action, objects, kind);
    StoredIdsAre(kind, action, s.live.Of(kind), created', created.Of(kind), objects.Of(kind), BaseOf(s, objects, kind),
                 s.next, s'.next, id);
    StoredOrSame(s.live.Of(kind), action, Replaced(created', objects).Of(kind), id);
  }

  /** What a block does to one ID of a kind. */
  lemma BlockChanges(s: Store, created: Created, settings: Settings, action: Action, b: Objects, changeset: int,
                     ifUnused: bool, kind: Kind, id: int)
    requires StoreOk(s) && s.next > 0 && OfItsKind(b)
    requires BlockOutcome(s, created, settings, action, b, changeset, ifUnused).Success?
    ensures
      var done := BlockOutcome(s, created, settings, action, b, changeset, ifUnused).value;
      && (action.Other? || !NamedIn(done.created, done.objects, kind, id) ==> SameIn(done.store.live, s.live, kind, id))
      && (action.Delete? && NamedIn(done.created, done.objects, kind, id) ==> id !in done.store.live.Of(kind))
  {
    if !action.Other? {
      var done := BlockOutcome(s, created, settings, action, b, changeset, ifUnused).value;
      SuccessIsAccepted(s, created, settings, action, b, changeset, ifUnused);
      StoreChanges(s, created, action, done.objects, kind, id);
    }
    hide StoreOk, StoreObjects, OfItsKind, NamedIn, Accepted, CheckError, DeleteBlock;
  }

  lemma {:induction false} OnlyOfThem(objs: seq<Element>, ids: set<int>)
    ensures forall e :: e in Only(objs, ids) ==> e in objs
  {
    OnlyIds(objs, ids);
  }

  /** What is left of a block has the IDs of objects in it; all of them, if it
      creates, modifies, or deletes without if-unused. */
  lemma LeftOfBlock(s: Store, created: Created, settings: Settings, action: Action, b: Objects, changeset: int,
                    ifUnused: bool, kind: Kind, id: int)
    requires !action.Other? && BlockOutcome(s, created, settings, action, b, changeset, ifUnused).Success?
    ensures
      var done := BlockOutcome(s, created, settings, action, b, changeset, ifUnused).value;
      && (NamedIn(done.created, done.objects, kind, id) ==> NamedIn(done.created, b, kind, id))
      && (!(action.Delete? && ifUnused) ==> (NamedIn(done.created, done.objects, kind, id) <==> NamedIn(done.created,
          b, kind, id)))
  {
    var done := BlockOutcome(s, created, settings, action, b, changeset, ifUnused).value;
    var v := VersionedBlock(action, b);
    var u := Deletion.Unused(s.live, IdsOfAll(v));
    OnlyOfThem(v.node, u.node);
    OnlyOfThem(v.way, u.way);
    OnlyOfThem(v.relation, u.relation);
    VersionedNames(done.created, action, b, kind, id);
    LeftAre(s, created, settings, action, b, changeset, ifUnused);
    hide BlockOutcome, StandsFor, Only, VersionedBlock, Deletion.Unused;
  }

  lemma LeftAre(s: Store, created: Created, settings: Settings, action: Action, b: Objects, changeset: int, ifUnused: bool)
    requires !action.Other? && BlockOutcome(s, created, settings, action, b, changeset, ifUnused).Success?
    ensures
      var left, v := BlockOutcome(s, created, settings, action, b, changeset, ifUnused).value.objects, VersionedBlock(action, b);
      var u := Deletion.Unused(s.live, IdsOfAll(v));
      left == if action.Delete? && ifUnused then PerKind(Only(v.node, u.node), Only(v.way, u.way), Only(v.relation, u.relation))
              else v
  {
    hide CheckError, StoreObjects, Deletion.Unused, Only, VersionedBlock;
  }

  lemma VersionedNames(created: Created, action: Action, b: Objects, kind: Kind, id: int)
    ensures NamedIn(created, VersionedBlock(action, b), kind, id) <==> NamedIn(created, b, kind, id)
  {
    var objs, v := b.Of(kind), VersionedBlock(action, b).Of(kind);
    assert v == VersionedAll(action, objs);
    if e :| e in objs && StandsFor(created, kind, e.id, id) {
      var i :| 0 <= i < |objs| && objs[i] == e;
      assert v[i] in v && v[i].id == e.id;
    }
    if e :| e in v && StandsFor(created, kind, e.id, id) {
      var i :| 0 <= i < |v| && v[i] == e;
      assert objs[i] in objs && objs[i].id == e.id;
    }
  }

  /** A block leaves every object as it was that it does not name, and deletes those
      that are left of a delete block; without if-unused, all of it. */
  lemma BlockLeavesOthers(s: Store, created: Created, settings: Settings, action: Action, b: Objects, changeset: int,
                          ifUnused: bool, kind: Kind, id: int)
    requires StoreOk(s) && s.next > 0 && OfItsKind(b)
    requires BlockOutcome(s, created, settings, action, b, changeset, ifUnused).Success?
    ensures
      var done := BlockOutcome(s, created, settings, action, b, changeset, ifUnused).value;
      && (action == Other || !NamedIn(done.created, b, kind, id) ==> SameIn(done.store.live, s.live, kind, id))
      && (action == Delete && !ifUnused && NamedIn(done.created, b, kind, id) ==> id !in done.store.live.Of(kind))
      && (action == Delete ==> id !in done.store.live.Of(kind) || SameIn(done.store.live, s.live, kind, id))
  {
    BlockChanges(s, created, settings, action, b, changeset, ifUnused, kind, id);
    if !action.Other? {
      LeftOfBlock(s, created, settings, action, b, changeset, ifUnused, kind, id);
    }
    hide BlockOutcome, NamedIn, StoreOk, OfItsKind;
  }

  // ----- An upload -----

  /** The map and the created IDs after the first j blocks of an upload, if none of
      them is refused. */
  ghost function StateAfter(s: Store, created: Created, settings: Settings, blocks: seq<ChangeBlock>, changeset: int, j: nat)
    : Option<(Store, Created)>
    requires j <= |blocks|
    decreases j
  {
    if j == 0 then Some((s, created))
    else
      var b := blocks[0];
      var outcome := BlockOutcome(s, created, settings, b.action, b.objects, changeset, b.ifUnused);
      if outcome.Failure? then None
      else StateAfter(outcome.value.store, outcome.value.created, settings, blocks[1..], changeset, j - 1)
  }

  /** The j-th block names an object, by the IDs created up to it. */
  ghost predicate Touches(s: Store, created: Created, settings: Settings, blocks: seq<ChangeBlock>, changeset: int, j: nat,
                          kind: Kind, id: int)
    requires j < |blocks|
  {
    var state := StateAfter(s, created, settings, blocks, changeset, j + 1);
    state.Some? && !blocks[j].action.Other? && NamedIn(state.value.1, blocks[j].objects, kind, id)
  }

  ghost predicate NoneTouches(s: Store, created: Created, settings: Settings, blocks: seq<ChangeBlock>, changeset: int, j: nat,
                              kind: Kind, id: int)
  {
    forall l :: j <= l < |blocks| ==> !Touches(s, created, settings, blocks, changeset, l, kind, id)
  }

  /** The state in which the first block has left an upload. */
  lemma FirstBlock(s: Store, created: Created, settings: Settings, blocks: seq<ChangeBlock>, changeset: int, count: nat,
                   kind: Kind, id: int) returns (done: Done)
    requires StoreOk(s) && s.next > 0 && BlocksOfTheirKind(blocks) && |blocks| > 0
    requires UploadOutcome(s, created, settings, blocks, changeset, count).Success?
    ensures
      var b := blocks[0];
      && BlockOutcome(s, created, settings, b.action, b.objects, changeset, b.ifUnused) == Success(done)
      && StoreOk(done.store) && done.store.next > 0 && BlocksOfTheirKind(blocks[1..])
      && UploadOutcome(done.store, done.created, settings, blocks[1..], changeset, count + BlockSize(b.objects)) ==
        UploadOutcome(s, created, settings, blocks, changeset, count)
      && (!Touches(s, created, settings, blocks, changeset, 0, kind, id) ==> SameIn(done.store.live, s.live, kind, id))
    ensures forall j :: 0 < j <= |blocks| ==>
      StateAfter(s, created, settings, blocks, changeset, j) ==
      StateAfter(done.store, done.created, settings, blocks[1..], changeset, j - 1)
  {
    var b := blocks[0];
    assert OfItsKind(b.objects);
    hide StoreOk, OfItsKind, BlockOutcome, UploadOutcome, SameIn, NamedIn;
    UploadTurn(s, created, settings, blocks, changeset, count);
    done := BlockOutcome(s, created, settings, b.action, b.objects, changeset, b.ifUnused).value;
    BlockKeepsStore(s, created, settings, b.action, b.objects, changeset, b.ifUnused);
    BlockLeavesOthers(s, created, settings, b.action, b.objects, changeset, b.ifUnused, kind, id);
  }

  lemma LaterTouches(s: Store, created: Created, settings: Settings, blocks: seq<ChangeBlock>, changeset: int, done: Done,
                     j: nat, kind: Kind, id: int)
    requires 0 < j < |blocks|
    requires
      var b := blocks[0];
      BlockOutcome(s, created, settings, b.action, b.objects, changeset, b.ifUnused) == Success(done)
    ensures Touches(s, created, settings, blocks, changeset, j, kind, id) <==>
      Touches(done.store, done.created, settings, blocks[1..], changeset, j - 1, kind, id)
  {
    hide BlockOutcome, NamedIn;
  }

  /** No block after the j-th names an object: it ends as the j-th has left it. */
  lemma {:induction false} LastBlockDecides(s: Store, created: Created, settings: Settings, blocks: seq<ChangeBlock>,
                                            changeset: int, count: nat, j: nat, kind: Kind, id: int)
    requires StoreOk(s) && s.next > 0 && BlocksOfTheirKind(blocks) && j <= |blocks|
    requires UploadOutcome(s, created, settings, blocks, changeset, count).Success?
    requires NoneTouches(s, created, settings, blocks, changeset, j, kind, id)
    ensures
      var state := StateAfter(s, created, settings, blocks, changeset, j);
      state.Some? && StoreOk(state.value.0) && state.value.0.next > 0
      && SameIn(UploadOutcome(s, created, settings, blocks, changeset, count).value.live, state.value.0.live, kind, id)
    decreases |blocks|
  {
    hide StoreOk, BlockOutcome, BlocksOfTheirKind, Touches;
    if |blocks| > 0 {
      var done := FirstBlock(s, created, settings, blocks, changeset, count, kind, id);
      var rest, k := blocks[1..], if j == 0 then 0 else j - 1;
      forall l | k <= l < |rest|
        ensures !Touches(done.store, done.created, settings, rest, changeset, l, kind, id)
      {
        LaterTouches(s, created, settings, blocks, changeset, done, l + 1, kind, id);
      }
      hide UploadOutcome;
      LastBlockDecides(done.store, done.created, settings, rest, changeset, count + BlockSize(blocks[0].objects), k, kind, id);
    }
  }

  /** An object of a block is live, as it was uploaded, under its own ID or the one created for it. */
  ghost predicate IsLive(action: Action, created: Created, live: map<int, Element>, e: Element, id: int) {
    StandsFor(created, e.kind, e.id, id) && id in live && AsUploaded(action, created, e, live[id])
  }

  /** After a block that creates or modifies, each of its objects is live as it was
      uploaded; under an ID that nothing had, if it was created. */
  lemma BlockStores(s: Store, created: Created, settings: Settings, action: Action, b: Objects, changeset: int,
                    ifUnused: bool, kind: Kind, i: nat)
    requires StoreOk(s) && s.next > 0 && OfItsKind(b) && action in {Create, Modify} && i < |b.Of(kind)|
    requires BlockOutcome(s, created, settings, action, b, changeset, ifUnused).Success?
    ensures
      var done := BlockOutcome(s, created, settings, action, b, changeset, ifUnused).value;
      exists id :: IsLive(action, done.created, done.store.live.Of(kind), b.Of(kind)[i], id)
        && (action == Create ==> id !in s.live.Of(kind))
  {
    var e := b.Of(kind)[i];
    assert e in b.Of(kind) && e.kind == kind;
    var id := BlockStoresAt(s, created, settings, action, b, changeset, ifUnused, kind, i);
    var done := BlockOutcome(s, created, settings, action, b, changeset, ifUnused).value;
    assert IsLive(action, done.created, done.store.live.Of(kind), e, id);
  }

  /** An upload leaves each object as the last block that names it has: one of a
      block that creates or modifies is live as it was uploaded there. */
  lemma {:induction false} UploadStores(s: Store, created: Created, settings: Settings, blocks: seq<ChangeBlock>,
                                        changeset: int, count: nat, j: nat, kind: Kind, i: nat)
    requires StoreOk(s) && s.next > 0 && BlocksOfTheirKind(blocks) && j < |blocks|
    requires UploadOutcome(s, created, settings, blocks, changeset, count).Success?
    requires blocks[j].action in {Create, Modify} && i < |blocks[j].objects.Of(kind)|
    requires
      var e, state := blocks[j].objects.Of(kind)[i], StateAfter(s, created, settings, blocks, changeset, j + 1);
      state.Some? ==> forall id :: StandsFor(state.value.1, kind, e.id, id) ==>
        NoneTouches(s, created, settings, blocks, changeset, j + 1, kind, id)
    ensures
      var e, state := blocks[j].objects.Of(kind)[i], StateAfter(s, created, settings, blocks, changeset, j + 1);
      state.Some? && exists id ::
        IsLive(blocks[j].action, state.value.1, UploadOutcome(s, created, settings, blocks, changeset,
            count).value.live.Of(kind), e, id)
    decreases |blocks|
  {
    hide StoreOk, BlockOutcome, UploadOutcome, AsUploaded, OfItsKind, Touches, SameIn, StateAfter;
    var b, e := blocks[j], blocks[j].objects.Of(kind)[i];
    var before, after := StateBefore(s, created, settings, blocks, changeset, count, j);
    BlockStores(before.0, before.1, settings, b.action, b.objects, changeset, b.ifUnused, kind, i);
    var id :| IsLive(b.action, after.1, after.0.live.Of(kind), e, id);
    assert OfItsKind(b.objects);
    KindsAre(b.objects, kind, i);
    LastBlockDecides(s, created, settings, blocks, changeset, count, j + 1, kind, id);
    SameIsLive(b.action, after.1, after.0.live, UploadOutcome(s, created, settings, blocks, changeset,
        count).value.live, kind, e, id);
  }

  lemma KindsAre(b: Objects, kind: Kind, i: nat)
    requires OfItsKind(b) && i < |b.Of(kind)|
    ensures b.Of(kind)[i].kind == kind
  {
    assert b.Of(kind)[i] in b.Of(kind);
  }

  lemma SameIsLive(action: Action, created: Created, a: MapData, b: MapData, kind: Kind, e: Element, id: int)
    requires SameIn(b, a, kind, id) && IsLive(action, created, a.Of(kind), e, id)
    ensures IsLive(action, created, b.Of(kind), e, id)
  {
  }

  /** The states before and after the j-th block of an upload. */
  lemma {:induction false} StateBefore(s: Store, created: Created, settings: Settings, blocks: seq<ChangeBlock>,
                                       changeset: int, count: nat, j: nat)
      returns (before: (Store, Created), after: (Store, Created))
    requires StoreOk(s) && s.next > 0 && BlocksOfTheirKind(blocks) && j < |blocks|
    requires UploadOutcome(s, created, settings, blocks, changeset, count).Success?
    ensures StateAfter(s, created, settings, blocks, changeset, j + 1) == Some(after)
    ensures StoreOk(before.0) && before.0.next > 0
    ensures
      var b := blocks[j];
      var outcome := BlockOutcome(before.0, before.1, settings, b.action, b.objects, changeset, b.ifUnused);
      outcome.Success? && after == (outcome.value.store, outcome.value.created)
    decreases |blocks|
  {
    hide StoreOk, BlockOutcome, UploadOutcome, BlocksOfTheirKind, Touches;
    var done := FirstBlock(s, created, settings, blocks, changeset, count, Node, 0);
    if j == 0 {
      before, after := (s, created), (done.store, done.created);
      assert StateAfter(done.store, done.created, settings, blocks[1..], changeset, 0) == Some(after);
    } else {
      before, after := StateBefore(done.store, done.created, settings, blocks[1..], changeset,
          count + BlockSize(blocks[0].objects), j - 1);
    }
  }

  /** An object that no block of an upload names is as it was. */
  lemma UploadLeavesOthers(s: Store, created: Created, settings: Settings, blocks: seq<ChangeBlock>, changeset: int, count: nat,
                           kind: Kind, id: int)
    requires StoreOk(s) && s.next > 0 && BlocksOfTheirKind(blocks)
    requires UploadOutcome(s, created, settings, blocks, changeset, count).Success?
    requires NoneTouches(s, created, settings, blocks, changeset, 0, kind, id)
    ensures SameIn(UploadOutcome(s, created, settings, blocks, changeset, count).value.live, s.live, kind, id)
  {
    hide StoreOk, BlocksOfTheirKind, UploadOutcome, NoneTouches;
    LastBlockDecides(s, created, settings, blocks, changeset, count, 0, kind, id);
  }

  /** An object that an upload deletes, without if-unused, and no later block of it
      creates again, is gone. */
  lemma UploadDeletes(s: Store, created: Created, settings: Settings, blocks: seq<ChangeBlock>, changeset: int, count: nat,
                      j: nat, kind: Kind, id: int)
    requires StoreOk(s) && s.next > 0 && BlocksOfTheirKind(blocks) && j < |blocks|
    requires UploadOutcome(s, created, settings, blocks, changeset, count).Success?
    requires blocks[j].action == Delete && !blocks[j].ifUnused && Touches(s, created, settings, blocks, changeset, j, kind, id)
    requires NoneTouches(s, created, settings, blocks, changeset, j + 1, kind, id)
    ensures id !in UploadOutcome(s, created, settings, blocks, changeset, count).value.live.Of(kind)
  {
    hide StoreOk, BlockOutcome, UploadOutcome, OfItsKind, NamedIn, StateAfter, NoneTouches;
    var b := blocks[j];
    var before, after := StateBefore(s, created, settings, blocks, changeset, count, j);
    assert OfItsKind(b.objects);
    BlockLeavesOthers(before.0, before.1, settings, b.action, b.objects, changeset, b.ifUnused, kind, id);
    LastBlockDecides(s, created, settings, blocks, changeset, count, j + 1, kind, id);
  }

  /** How many objects the blocks of an upload hold. */
  function TotalSize(blocks: seq<ChangeBlock>): nat {
    if |blocks| == 0 then 0
    else |blocks[0].objects.node| + |blocks[0].objects.way| + |blocks[0].objects.relation| + TotalSize(blocks[1..])
  }

  /** An upload is carried out exactly if each block is, in the state that those before
      it have left, and they do not hold too many objects in all. */
  lemma {:induction false} UploadedExactlyWhen(s: Store, created: Created, settings: Settings, blocks: seq<ChangeBlock>,
                                               changeset: int, count: nat)
    requires count <= settings.changesetsMaximumElements
    ensures
      var r, state := UploadOutcome(s, created, settings, blocks, changeset, count),
                      StateAfter(s, created, settings, blocks, changeset, |blocks|);
      && (r.Success? <==> state.Some? && count + TotalSize(blocks) <= settings.changesetsMaximumElements)
      && (r.Success? ==> r.value == state.value.0)
    decreases |blocks|
  {
    hide BlockOutcome;
    if |blocks| > 0 {
      var b := blocks[0];
      var more := count + BlockSize(b.objects);
      var outcome := BlockOutcome(s, created, settings, b.action, b.objects, changeset, b.ifUnused);
      if more <= settings.changesetsMaximumElements && outcome.Success? {
        UploadedExactlyWhen(outcome.value.store, outcome.value.created, settings, blocks[1..], changeset, more);
      }
    }
  }

  // ----- Which blocks are accepted -----

  /** One object of a block is in order: its ID and version fit what is to be done
      with it, its position is on the globe, its tags are not too long, it is of the
      changeset, and it has not too many nodes or members, nor a way too few. */
  predicate InOrder(settings: Settings, action: Action, changeset: int, kind: Kind, e: Element) {
    && (if action == Create then e.id <= 0 && (e.version == 0 || e.version == 1) else e.id > 0 && e.version > 0)
    && (kind == Node ==> -90.0 <= e.lat && e.lat <= 90.0 && -180.0 <= e.lon && e.lon <= 180.0)
    && (forall k :: k in e.tags ==> |k| <= 255 && |e.tags[k]| <= 255)
    && e.changeset == changeset
    && (kind == Way ==> |e.refs| <= settings.wayNodesMaximum && (action == Delete || |e.refs| >= 2))
    && (kind == Relation ==> |e.members| <= settings.relationMembersMaximum)
  }

  /** What one object names exists: its nodes, its members, and itself in just the version named. */
  ghost predicate Exists(m: MapData, action: Action, kind: Kind, e: Element) {
    && (action != Create ==> e.id in m.Of(kind) && m.Of(kind)[e.id].version == e.version)
    && (kind == Way ==> forall i :: 0 <= i < |e.refs| && e.refs[i] > 0 ==> e.refs[i] in m.node)
    && (kind == Relation ==> forall i :: 0 <= i < |e.members| && e.members[i].ref > 0 ==>
          e.members[i].ref in m.Of(e.members[i].kind))
  }

  ghost predicate NoIdTwice(objs: seq<Element>) {
    forall i, j :: 0 <= i < j < |objs| ==> objs[i].id != objs[j].id
  }

  lemma VersionedSame(action: Action, objs: seq<Element>)
    ensures NoIdTwice(objs) <==> UniqueIds(VersionedAll(action, objs))
    ensures IdsOf(VersionedAll(action, objs)) == IdsOf(objs)
  {
    var v := VersionedAll(action, objs);
    SameIds(objs, v);
    assert forall i :: 0 <= i < |objs| ==> v[i].id == objs[i].id;
  }

  lemma EachVersioned(action: Action, objs: seq<Element>, e: Element)
    ensures e in VersionedAll(action, objs) <==> exists x :: x in objs && e == Versioned(action, x)
    ensures e in objs ==> Versioned(action, e) in VersionedAll(action, objs)
  {
    var v := VersionedAll(action, objs);
    if e in v {
      var i :| 0 <= i < |v| && v[i] == e;
      assert objs[i] in objs;
    }
    if x :| x in objs && e == Versioned(action, x) {
      var i :| 0 <= i < |objs| && objs[i] == x;
      assert v[i] == e;
    }
    if e in objs {
      var i :| 0 <= i < |objs| && objs[i] == e;
      assert v[i] == Versioned(action, e);
    }
  }

  lemma ReferencedAre(action: Action, b: Objects, kind: Kind, id: int)
    ensures id in Referenced(VersionedBlock(action, b), kind) <==>
      || (exists e :: e in b.Of(kind) && e.id == id)
      || (kind == Node && exists e, i :: e in b.way && 0 <= i < |e.refs| && e.refs[i] == id)
      || (exists e, i :: e in b.relation && 0 <= i < |e.members| && e.members[i].kind == kind && e.members[i].ref == id)
  {
    var v := VersionedBlock(action, b);
    assert v.Of(kind) == VersionedAll(action, b.Of(kind));
    VersionedSame(action, b.Of(kind));
    forall e
      ensures e in v.way <==> exists x :: x in b.way && e == Versioned(action, x)
      ensures e in b.way ==> Versioned(action, e) in v.way
      ensures e in v.relation <==> exists x :: x in b.relation && e == Versioned(action, x)
      ensures e in b.relation ==> Versioned(action, e) in v.relation
    {
      EachVersioned(action, b.way, e);
      EachVersioned(action, b.relation, e);
    }
    hide VersionedAll;
    WayNodesAre(action, b.way, v.way, id);
    MembersOfAll(action, b.relation, v.relation, kind, id);
    assert id in IdsOf(b.Of(kind)) <==> exists e :: e in b.Of(kind) && e.id == id;
  }

  lemma WayNodesAre(action: Action, ways: seq<Element>, v: seq<Element>, id: int)
    requires forall e :: e in v <==> exists x :: x in ways && e == Versioned(action, x)
    requires forall e :: e in ways ==> Versioned(action, e) in v
    ensures id in WayNodes(v) <==> exists e, i :: e in ways && 0 <= i < |e.refs| && e.refs[i] == id
  {
    if id in WayNodes(v) {
      var e :| e in v && id in RefsOf(e);
      var x :| x in ways && e == Versioned(action, x);
      var i :| 0 <= i < |e.refs| && e.refs[i] == id;
      assert x.refs[i] == id;
    }
    if e, i :| e in ways && 0 <= i < |e.refs| && e.refs[i] == id {
      assert Versioned(action, e) in v && id in RefsOf(Versioned(action, e));
    }
  }

  lemma MembersOfAll(action: Action, relations: seq<Element>, v: seq<Element>, kind: Kind, id: int)
    requires forall e :: e in v <==> exists x :: x in relations && e == Versioned(action, x)
    requires forall e :: e in relations ==> Versioned(action, e) in v
    ensures id in RelationMembers(v, kind) <==>
      exists e, i :: e in relations && 0 <= i < |e.members| && e.members[i].kind == kind && e.members[i].ref == id
  {
    if id in RelationMembers(v, kind) {
      var e :| e in v && id in MembersOf(e, kind);
      var x :| x in relations && e == Versioned(action, x);
      var i :| 0 <= i < |e.members| && e.members[i].kind == kind && e.members[i].ref == id;
      assert x.members[i].ref == id;
    }
    if e, i :| e in relations && 0 <= i < |e.members| && e.members[i].kind == kind && e.members[i].ref == id {
      assert Versioned(action, e) in v && id in MembersOf(Versioned(action, e), kind);
    }
  }

  ghost predicate AllInOrder(settings: Settings, action: Action, changeset: int, b: Objects) {
    forall k: Kind, e :: e in b.Of(k) ==> InOrder(settings, action, changeset, k, e)
  }

  ghost predicate AllExist(m: MapData, action: Action, b: Objects) {
    forall k: Kind, e :: e in b.Of(k) ==> Exists(m, action, k, e)
  }

  /** The checks that look at one object at a time. */
  ghost predicate LooksGood(settings: Settings, action: Action, changeset: int, b: Objects, v: Objects) {
    && (forall k: Kind, e :: e in b.Of(k) ==> GoodObject(action, e))
    && (forall e :: e in v.way ==> GoodWay(action, settings, e))
    && (forall e :: e in v.relation ==> |e.members| <= settings.relationMembersMaximum)
    && (forall k: Kind, e :: e in v.Of(k) ==> e.changeset == changeset)
  }

  /** The checks that look things up. */
  ghost predicate FoundGood(m: MapData, v: Objects) {
    && AllFound(m, v, Node) && AllFound(m, v, Way) && AllFound(m, v, Relation)
    && (forall e :: e in v.node ==> VersionFits(m, e))
    && (forall e :: e in v.way ==> VersionFits(m, e))
    && (forall e :: e in v.relation ==> VersionFits(m, e))
  }

  lemma ChecksAre(m: MapData, settings: Settings, action: Action, b: Objects, changeset: int)
    ensures
      var v := VersionedBlock(action, b);
      CheckError(m, settings, action, b, v, changeset).None? <==>
        LooksGood(settings, action, changeset, b, v) && (forall k: Kind :: UniqueIds(v.Of(k))) && FoundGood(m, v)
  {
    hide GoodObject, GoodWay, UniqueIds, AllFound, VersionFits, VersionedAll;
  }

  lemma VersionedOf(action: Action, b: Objects, k: Kind)
    ensures VersionedBlock(action, b).Of(k) == VersionedAll(action, b.Of(k))
  {
    hide VersionedAll;
  }

  lemma GoodIsInOrder(settings: Settings, action: Action, changeset: int, b: Objects)
    requires OfItsKind(b)
    ensures LooksGood(settings, action, changeset, b, VersionedBlock(action, b)) <==> AllInOrder(settings, action, changeset, b)
  {
    var v := VersionedBlock(action, b);
    forall k: Kind, e
      ensures e in v.Of(k) <==> exists x :: x in b.Of(k) && e == Versioned(action, x)
      ensures e in b.Of(k) ==> Versioned(action, e) in v.Of(k)
    {
      VersionedOf(action, b, k);
      EachVersioned(action, b.Of(k), e);
    }
    hide VersionedBlock, GoodObject, InOrder;
    assert b.Of(Way) == b.way && v.Of(Way) == v.way && b.Of(Relation) == b.relation && v.Of(Relation) == v.relation;
    if AllInOrder(settings, action, changeset, b) {
      forall k: Kind, e | e in b.Of(k)
        ensures GoodObject(action, e) && e.changeset == changeset
        ensures k == Way ==> GoodWay(action, settings, Versioned(action, e))
        ensures k == Relation ==> |e.members| <= settings.relationMembersMaximum
      {
        assert InOrder(settings, action, changeset, k, e) && e.kind == k;
        OneInOrder(settings, action, changeset, k, e);
      }
    }
    if LooksGood(settings, action, changeset, b, v) {
      forall k: Kind, e | e in b.Of(k)
        ensures InOrder(settings, action, changeset, k, e)
      {
        assert e.kind == k && Versioned(action, e) in v.Of(k);
        OneInOrder(settings, action, changeset, k, e);
      }
    }
  }

  lemma OneInOrder(settings: Settings, action: Action, changeset: int, k: Kind, e: Element)
    requires e.kind == k
    ensures InOrder(settings, action, changeset, k, e) <==>
      GoodObject(action, e) && Versioned(action, e).changeset == changeset
      && (k == Way ==> GoodWay(action, settings, Versioned(action, e)))
      && (k == Relation ==> |Versioned(action, e).members| <= settings.relationMembersMaximum)
  {
  }

  /** What a block names of a kind exists, by the IDs of its objects, ways' nodes and members. */
  ghost predicate NamedExist(m: MapData, b: Objects, kind: Kind) {
    && (forall e :: e in b.Of(kind) && e.id > 0 ==> e.id in m.Of(kind))
    && (kind == Node ==> forall e, i :: e in b.way && 0 <= i < |e.refs| && e.refs[i] > 0 ==> e.refs[i] in m.node)
    && (forall e, i :: e in b.relation && 0 <= i < |e.members| && e.members[i].kind == kind && e.members[i].ref > 0 ==>
          e.members[i].ref in m.Of(kind))
  }

  lemma FoundAre(m: MapData, action: Action, b: Objects, kind: Kind)
    ensures AllFound(m, VersionedBlock(action, b), kind) <==> NamedExist(m, b, kind)
  {
    hide VersionedBlock, Referenced;
    forall id
      ensures id in Referenced(VersionedBlock(action, b), kind) <==>
        || (exists e :: e in b.Of(kind) && e.id == id)
        || (kind == Node && exists e, i :: e in b.way && 0 <= i < |e.refs| && e.refs[i] == id)
        || (exists e, i :: e in b.relation && 0 <= i < |e.members| && e.members[i].kind == kind && e.members[i].ref == id)
    {
      ReferencedAre(action, b, kind, id);
    }
    if AllFound(m, VersionedBlock(action, b), kind) {
      forall e | e in b.Of(kind) && e.id > 0
        ensures e.id in m.Of(kind)
      {
        assert e.id in Referenced(VersionedBlock(action, b), kind);
      }
      forall e, i | kind == Node && e in b.way && 0 <= i < |e.refs| && e.refs[i] > 0
        ensures e.refs[i] in m.node
      {
        assert e.refs[i] in Referenced(VersionedBlock(action, b), kind);
      }
      forall e, i | e in b.relation && 0 <= i < |e.members| && e.members[i].kind == kind && e.members[i].ref > 0
        ensures e.members[i].ref in m.Of(kind)
      {
        assert e.members[i].ref in Referenced(VersionedBlock(action, b), kind);
      }
    }
  }

  lemma VersionIs(m: MapData, settings: Settings, action: Action, changeset: int, k: Kind, e: Element)
    requires e.kind == k && InOrder(settings, action, changeset, k, e)
    ensures VersionFits(m, Versioned(action, e)) <==>
      (action != Create ==> e.id in m.Of(k) && m.Of(k)[e.id].version == e.version)
  {
  }

  lemma VersionsFit(m: MapData, action: Action, b: Objects)
    ensures
      var v := VersionedBlock(action, b);
      (forall e :: e in v.node ==> VersionFits(m, e)) && (forall e :: e in v.way ==> VersionFits(m, e))
      && (forall e :: e in v.relation ==> VersionFits(m, e)) <==>
        forall k: Kind, e :: e in b.Of(k) ==> VersionFits(m, Versioned(action, e))
  {
    var v := VersionedBlock(action, b);
    forall k: Kind, e
      ensures e in v.Of(k) <==> exists x :: x in b.Of(k) && e == Versioned(action, x)
      ensures e in b.Of(k) ==> Versioned(action, e) in v.Of(k)
    {
      VersionedOf(action, b, k);
      EachVersioned(action, b.Of(k), e);
    }
    hide VersionedBlock, VersionFits, Versioned;
    assert v.Of(Node) == v.node && v.Of(Way) == v.way && v.Of(Relation) == v.relation;
  }

  lemma FoundIsExisting(m: MapData, settings: Settings, action: Action, changeset: int, b: Objects)
    requires OfItsKind(b) && AllInOrder(settings, action, changeset, b)
    ensures FoundGood(m, VersionedBlock(action, b)) <==> AllExist(m, action, b)
  {
    FoundAre(m, action, b, Node);
    FoundAre(m, action, b, Way);
    FoundAre(m, action, b, Relation);
    VersionsFit(m, action, b);
    forall k: Kind, e | e in b.Of(k)
      ensures VersionFits(m, Versioned(action, e)) <==>
        (action != Create ==> e.id in m.Of(k) && m.Of(k)[e.id].version == e.version)
    {
      assert InOrder(settings, action, changeset, k, e);
      VersionIs(m, settings, action, changeset, k, e);
    }
    hide VersionedBlock, AllFound, OfItsKind, VersionFits, Versioned, NamedExist;
    NamedAre(m, settings, action, changeset, b);
  }

  ghost predicate RefersToLive(m: MapData, k: Kind, e: Element) {
    && (k == Way ==> forall i :: 0 <= i < |e.refs| && e.refs[i] > 0 ==> e.refs[i] in m.node)
    && (k == Relation ==> forall i :: 0 <= i < |e.members| && e.members[i].ref > 0 ==>
          e.members[i].ref in m.Of(e.members[i].kind))
  }

  lemma NamedAre(m: MapData, settings: Settings, action: Action, changeset: int, b: Objects)
    requires AllInOrder(settings, action, changeset, b)
    ensures NamedExist(m, b, Node) && NamedExist(m, b, Way) && NamedExist(m, b, Relation) <==>
      forall k: Kind, e :: e in b.Of(k) ==> (action != Create ==> e.id in m.Of(k)) && RefersToLive(m, k, e)
  {
    hide NamedExist, RefersToLive;
    if NamedExist(m, b, Node) && NamedExist(m, b, Way) && NamedExist(m, b, Relation) {
      forall k: Kind, e | e in b.Of(k)
        ensures (action != Create ==> e.id in m.Of(k)) && RefersToLive(m, k, e)
      {
        OneRefersToLive(m, settings, action, changeset, b, k, e);
      }
    }
    if forall k: Kind, e :: e in b.Of(k) ==> (action != Create ==> e.id in m.Of(k)) && RefersToLive(m, k, e) {
      KindExists(m, settings, action, changeset, b, Node);
      KindExists(m, settings, action, changeset, b, Way);
      KindExists(m, settings, action, changeset, b, Relation);
    }
  }

  lemma OneRefersToLive(m: MapData, settings: Settings, action: Action, changeset: int, b: Objects, k: Kind, e: Element)
    requires AllInOrder(settings, action, changeset, b) && e in b.Of(k)
    requires NamedExist(m, b, Node) && NamedExist(m, b, Way) && NamedExist(m, b, Relation)
    ensures (action != Create ==> e.id in m.Of(k)) && RefersToLive(m, k, e)
  {
    assert InOrder(settings, action, changeset, k, e);
    if k.Relation? {
      forall i | 0 <= i < |e.members| && e.members[i].ref > 0
        ensures e.members[i].ref in m.Of(e.members[i].kind)
      {
        assert e in b.relation && NamedExist(m, b, e.members[i].kind);
      }
    }
  }

  lemma KindExists(m: MapData, settings: Settings, action: Action, changeset: int, b: Objects, kind: Kind)
    requires AllInOrder(settings, action, changeset, b)
    requires forall k: Kind, e :: e in b.Of(k) ==> (action != Create ==> e.id in m.Of(k)) && RefersToLive(m, k, e)
    ensures NamedExist(m, b, kind)
  {
    forall e | e in b.Of(kind)
      ensures e.id > 0 ==> e.id in m.Of(kind)
    {
      assert InOrder(settings, action, changeset, kind, e);
    }
    assert b.Of(Way) == b.way && b.Of(Relation) == b.relation;
    forall e | e in b.way
      ensures RefersToLive(m, Way, e)
    {
      assert e in b.Of(Way);
    }
    forall e | e in b.relation
      ensures RefersToLive(m, Relation, e)
    {
      assert e in b.Of(Relation);
    }
  }

  /** Each object of a block is in order, and names only what exists and itself in
      its live version; and no ID is there twice. */
  ghost predicate Passes(m: MapData, settings: Settings, action: Action, changeset: int, b: Objects) {
    && (forall k: Kind, e :: e in b.Of(k) ==> InOrder(settings, action, changeset, k, e) && Exists(m, action, k, e))
    && (forall k: Kind :: NoIdTwice(b.Of(k)))
  }

  /** These are exactly the blocks that pass every check. */
  lemma AcceptedExactlyWhen(m: MapData, settings: Settings, action: Action, b: Objects, changeset: int)
    requires OfItsKind(b)
    ensures CheckError(m, settings, action, b, VersionedBlock(action, b), changeset).None? <==>
      Passes(m, settings, action, changeset, b)
  {
    var v := VersionedBlock(action, b);
    ChecksAre(m, settings, action, b, changeset);
    GoodIsInOrder(settings, action, changeset, b);
    forall k: Kind
      ensures UniqueIds(v.Of(k)) <==> NoIdTwice(b.Of(k))
    {
      VersionedOf(action, b, k);
      VersionedSame(action, b.Of(k));
    }
    hide CheckError, VersionedBlock, UniqueIds, NoIdTwice, LooksGood, FoundGood, InOrder, Exists, OfItsKind;
    if AllInOrder(settings, action, changeset, b) {
      FoundIsExisting(m, settings, action, changeset, b);
    }
  }

  // ----- Which placeholders can be replaced -----

  /** Nodes hold nothing, ways only nodes, and relations only members. */
  ghost predicate Shaped(b: Objects) {
    forall k: Kind, e :: e in b.Of(k) ==> (k != Way ==> e.refs == []) && (k != Relation ==> e.members == [])
  }

  /** IDs created before are older than those still to come. */
  ghost predicate CreatedBefore(s: Store, created: Created) {
    forall kind: Kind, p :: p in created.Of(kind) ==> created.Of(kind)[p] < s.next
  }

  /** A reference by placeholder is to an object that this block creates, or to one
      created before that is live. */
  ghost predicate CanStand(s: Store, created: Created, action: Action, b: Objects, kind: Kind, ref: int) {
    || (action == Create && exists e :: e in b.Of(kind) && e.id == ref)
    || (ref in created.Of(kind) && created.Of(kind)[ref] in s.live.Of(kind))
  }

  /** All placeholders among the references of an object can be replaced. */
  ghost predicate AllCanStand(s: Store, created: Created, action: Action, b: Objects, e: Element) {
    && (forall i :: 0 <= i < |e.refs| && e.refs[i] <= 0 ==> CanStand(s, created, action, b, Node, e.refs[i]))
    && (forall i :: 0 <= i < |e.members| && e.members[i].ref <= 0 ==>
          CanStand(s, created, action, b, e.members[i].kind, e.members[i].ref))
  }

  lemma {:induction false} AllocateOthers(created: map<int, int>, objs: seq<Element>, next: int, p: int)
    requires p !in IdsOf(objs)
    ensures p in Allocate(created, objs, next) <==> p in created
    ensures p in created ==> Allocate(created, objs, next)[p] == created[p]
  {
    if |objs| > 0 {
      var init, e := objs[..|objs| - 1], objs[|objs| - 1];
      assert objs == init + [e];
      IdsOfNext(init, e);
      AllocateOthers(created, init, next, p);
    }
  }

  /** The IDs that a block's placeholders stand for, and those of its objects as they are stored. */
  ghost function CreatedAfter(s: Store, created: Created, action: Action, b: Objects): Created {
    if action.Create? then AllocateAll(created, b, s.next) else created
  }

  lemma FitIds(kind: Kind, action: Action, live: map<int, Element>, next: int, next': int, r: seq<Element>)
    requires Fits(kind, action, live, next, next', r)
    ensures forall id :: id in IdsOf(r) ==> if action.Create? then next <= id else id in live
  {
  }

  /** A placeholder of an object that the block creates. */
  lemma OwnStands(s: Store, created: Created, b: Objects, kind: Kind, ref: int)
    requires Accepted(s.live, Create, b) && ref in IdsOf(b.Of(kind)) && ref <= 0
    ensures
      var created' := CreatedAfter(s, created, Create, b);
      Resolve(created'.Of(kind), ref) in IdsOf(ResolvedAll(created', b.Of(kind)))
  {
    var created' := CreatedAfter(s, created, Create, b);
    CreatedOf(s, created, Create, b, kind);
    AcceptedOf(s.live, Create, b, kind);
    UniqueOf(kind, Create, s.live.Of(kind), b.Of(kind));
    hide AcceptedKind, Accepted, Allocate, ResolvedAll, CreatedAfter, UniqueIds;
    var e :| e in b.Of(kind) && e.id == ref;
    var i :| 0 <= i < |b.Of(kind)| && b.Of(kind)[i] == e;
    AllocateAt(created.Of(kind), b.Of(kind), BaseOf(s, b, kind), i);
    InReplaced(created', b.Of(kind), i);
    OneKind(kind, Create, s.live.Of(kind), b.Of(kind), i);
    assert Resolved(created', e).id == Resolve(created'.Of(kind), ref);
  }

  /** Any other placeholder. */
  lemma OtherStands(s: Store, created: Created, action: Action, b: Objects, kind: Kind, ref: int)
    requires StoreOk(s) && s.next > 0 && CreatedBefore(s, created) && action in {Create, Modify} && ref <= 0
    requires Accepted(s.live, action, b) && (action.Create? ==> ref !in IdsOf(b.Of(kind)))
    ensures
      var created' := CreatedAfter(s, created, action, b);
      var id := Resolve(created'.Of(kind), ref);
      id in s.live.Of(kind).Keys + IdsOf(ResolvedAll(created', b.Of(kind))) <==>
        ref in created.Of(kind) && created.Of(kind)[ref] in s.live.Of(kind)
  {
    var created' := CreatedAfter(s, created, action, b);
    var base, next' := BaseOf(s, b, kind), s.next + |b.node| + |b.way| + |b.relation|;
    CreatedOf(s, created, action, b, kind);
    AcceptedOf(s.live, action, b, kind);
    ResolvedFits(kind, action, s.live.Of(kind), created', created.Of(kind), b.Of(kind), base, s.next, next');
    FitIds(kind, action, s.live.Of(kind), s.next, next', ResolvedAll(created', b.Of(kind)));
    hide StoreOk, AcceptedKind, Accepted, Allocate, ResolvedAll, CreatedAfter, Fits, IdsOf, BaseOf;
    if action.Create? {
      AllocateOthers(created.Of(kind), b.Of(kind), base, ref);
    }
    var id := Resolve(created'.Of(kind), ref);
    if id in s.live.Of(kind) {
      PositiveIds(s, kind, id);
    }
  }

  lemma PlaceholderStands(s: Store, created: Created, action: Action, b: Objects, kind: Kind, ref: int)
    requires StoreOk(s) && s.next > 0 && CreatedBefore(s, created) && action in {Create, Modify} && ref <= 0
    requires Accepted(s.live, action, b)
    ensures
      var created' := CreatedAfter(s, created, action, b);
      Resolve(created'.Of(kind), ref) in Alive(s.live, Replaced(created', b)).Of(kind) <==> CanStand(s, created,
          action, b, kind, ref)
  {
    var created' := CreatedAfter(s, created, action, b);
    AliveIs(s.live, Replaced(created', b), kind);
    ReplacedOf(created', b, kind);
    assert ref in IdsOf(b.Of(kind)) <==> exists e :: e in b.Of(kind) && e.id == ref;
    hide StoreOk, Accepted, CreatedAfter, Alive, Replaced, ResolvedAll, IdsOf, CreatedBefore;
    if action.Create? && ref in IdsOf(b.Of(kind)) {
      OwnStands(s, created, b, kind, ref);
    } else {
      OtherStands(s, created, action, b, kind, ref);
    }
  }

  lemma UniqueOf(kind: Kind, action: Action, live: map<int, Element>, objs: seq<Element>)
    requires AcceptedKind(kind, action, live, objs)
    ensures UniqueIds(objs)
  {
  }

  lemma OneKind(kind: Kind, action: Action, live: map<int, Element>, objs: seq<Element>, i: nat)
    requires AcceptedKind(kind, action, live, objs) && i < |objs|
    ensures objs[i].kind == kind
  {
    assert objs[i] in objs;
  }

  lemma ReplacedOf(created: Created, b: Objects, kind: Kind)
    ensures Replaced(created, b).Of(kind) == ResolvedAll(created, b.Of(kind))
  {
    hide ResolvedAll;
  }

  lemma CreatedOf(s: Store, created: Created, action: Action, b: Objects, kind: Kind)
    ensures
      CreatedAfter(s, created, action, b).Of(kind) ==
      if action.Create? then Allocate(created.Of(kind), b.Of(kind), BaseOf(s, b, kind)) else created.Of(kind)
    ensures s.next <= BaseOf(s, b, kind) && BaseOf(s, b, kind) + |b.Of(kind)| <= s.next + |b.node| + |b.way| + |b.relation|
  {
    hide Allocate;
  }

  lemma RefersToIs(alive: Ids, created: Created, action: Action, e: Element)
    ensures RefersTo(alive, Resolved(created, Versioned(action, e))) <==>
      && (forall i :: 0 <= i < |e.refs| ==> Resolve(created.Of(Node), e.refs[i]) in alive.Of(Node))
      && (forall i :: 0 <= i < |e.members| ==>
            Resolve(created.Of(e.members[i].kind), e.members[i].ref) in alive.Of(e.members[i].kind))
  {
    var x := Resolved(created, Versioned(action, e));
    assert forall i :: 0 <= i < |e.refs| ==> x.refs[i] == Resolve(created.Of(Node), e.refs[i]);
    assert forall i :: 0 <= i < |e.members| ==> x.members[i] == ResolvedMember(created, e.members[i]);
    hide Resolve;
  }

  lemma ReferenceIsThere(s: Store, created: Created, action: Action, v: Objects, kind: Kind, ref: int)
    requires StoreOk(s) && s.next > 0 && CreatedBefore(s, created) && action in {Create, Modify}
    requires Accepted(s.live, action, v) && (ref > 0 ==> ref in s.live.Of(kind))
    ensures
      var created' := CreatedAfter(s, created, action, v);
      Resolve(created'.Of(kind), ref) in Alive(s.live, Replaced(created', v)).Of(kind) <==>
        (ref <= 0 ==> CanStand(s, created, action, v, kind, ref))
  {
    hide StoreOk, Accepted, CreatedAfter, CanStand, CreatedBefore, Alive, Replaced;
    AliveIs(s.live, Replaced(CreatedAfter(s, created, action, v), v), kind);
    if ref <= 0 {
      PlaceholderStands(s, created, action, v, kind, ref);
    }
  }

  /** An object that names only what exists can be stored if its placeholders can be replaced. */
  lemma OneCanBeStored(s: Store, created: Created, action: Action, v: Objects, kind: Kind, e: Element)
    requires StoreOk(s) && s.next > 0 && CreatedBefore(s, created) && action in {Create, Modify}
    requires Accepted(s.live, action, v) && Exists(s.live, action, kind, e)
    requires (kind != Way ==> e.refs == []) && (kind != Relation ==> e.members == [])
    ensures
      var created' := CreatedAfter(s, created, action, v);
      RefersTo(Alive(s.live, Replaced(created', v)), Resolved(created', Versioned(action, e))) <==>
        AllCanStand(s, created, action, v, e)
  {
    var created' := CreatedAfter(s, created, action, v);
    RefersToIs(Alive(s.live, Replaced(created', v)), created', action, e);
    hide StoreOk, Accepted, CreatedAfter, CanStand, CreatedBefore, Alive, Replaced, Resolve, Resolved, RefersTo, Versioned;
    forall i | 0 <= i < |e.refs|
      ensures Resolve(created'.Of(Node), e.refs[i]) in Alive(s.live, Replaced(created', v)).Of(Node) <==>
        (e.refs[i] <= 0 ==> CanStand(s, created, action, v, Node, e.refs[i]))
    {
      ReferenceIsThere(s, created, action, v, Node, e.refs[i]);
    }
    forall i | 0 <= i < |e.members|
      ensures Resolve(created'.Of(e.members[i].kind), e.members[i].ref) in Alive(s.live, Replaced(created',
          v)).Of(e.members[i].kind) <==>
        (e.members[i].ref <= 0 ==> CanStand(s, created, action, v, e.members[i].kind, e.members[i].ref))
    {
      ReferenceIsThere(s, created, action, v, e.members[i].kind, e.members[i].ref);
    }
  }

  lemma CanStandBefore(s: Store, created: Created, action: Action, b: Objects, e: Element)
    ensures AllCanStand(s, created, action, VersionedBlock(action, b), e) <==> AllCanStand(s, created, action, b, e)
  {
    forall k: Kind, ref
      ensures CanStand(s, created, action, VersionedBlock(action, b), k, ref) <==> CanStand(s, created, action, b, k, ref)
    {
      VersionedOf(action, b, k);
      VersionedSame(action, b.Of(k));
      assert ref in IdsOf(b.Of(k)) <==> exists x :: x in b.Of(k) && x.id == ref;
      assert ref in IdsOf(VersionedAll(action, b.Of(k))) <==> exists x :: x in VersionedAll(action, b.Of(k)) && x.id == ref;
    }
    hide CanStand, VersionedBlock;
  }

  ghost predicate AllRefer(alive: Ids, r: Objects) {
    forall k: Kind, x :: x in r.Of(k) ==> RefersTo(alive, x)
  }

  lemma StoreSucceeds(s: Store, created: Created, action: Action, objects: Objects)
    ensures
      var r := Replaced(CreatedAfter(s, created, action, objects), objects);
      StoreObjects(s, created, action, objects).Some? <==> AllRefer(Alive(s.live, r), r)
  {
    hide RefersTo, Stored, ResolvedAll, Record, Alive, AllocateAll;
    var created' := if action.Create? then AllocateAll(created, objects, s.next) else created;
    var r := PerKind(ResolvedAll(created', objects.node), ResolvedAll(created', objects.way), ResolvedAll(created',
        objects.relation));
    assert r == Replaced(CreatedAfter(s, created, action, objects), objects);
    assert AllRefer(Alive(s.live, r), r) <==> forall k: Kind, e :: e in r.Of(k) ==> RefersTo(Alive(s.live, r), e);
  }

  lemma EachReplaced(created: Created, action: Action, objs: seq<Element>, alive: Ids)
    ensures (forall x :: x in ResolvedAll(created, VersionedAll(action, objs)) ==> RefersTo(alive, x)) <==>
      forall e :: e in objs ==> RefersTo(alive, Resolved(created, Versioned(action, e)))
  {
    hide RefersTo, Resolved, Versioned;
    var v := VersionedAll(action, objs);
    var r := ResolvedAll(created, v);
    assert forall i :: 0 <= i < |objs| ==> r[i] == Resolved(created, Versioned(action, objs[i]));
    if forall x :: x in r ==> RefersTo(alive, x) {
      forall e | e in objs
        ensures RefersTo(alive, Resolved(created, Versioned(action, e)))
      {
        var i :| 0 <= i < |objs| && objs[i] == e;
        assert r[i] in r;
      }
    }
    if forall e :: e in objs ==> RefersTo(alive, Resolved(created, Versioned(action, e))) {
      forall x | x in r
        ensures RefersTo(alive, x)
      {
        var i :| 0 <= i < |r| && r[i] == x;
        assert objs[i] in objs;
      }
    }
  }

  /** All placeholders among the references of a block's objects can be replaced. */
  ghost predicate PlaceholdersStand(s: Store, created: Created, action: Action, b: Objects) {
    forall k: Kind, e :: e in b.Of(k) ==> AllCanStand(s, created, action, b, e)
  }

  lemma KindStands(s: Store, created: Created, settings: Settings, action: Action, b: Objects, changeset: int, k: Kind)
    requires StoreOk(s) && s.next > 0 && CreatedBefore(s, created) && action in {Create, Modify} && Shaped(b)
    requires Accepted(s.live, action, VersionedBlock(action, b)) && Passes(s.live, settings, action, changeset, b)
    ensures
      var v := VersionedBlock(action, b);
      var created' := CreatedAfter(s, created, action, v);
      var r := Replaced(created', v);
      (forall x :: x in r.Of(k) ==> RefersTo(Alive(s.live, r), x)) <==>
        forall e :: e in b.Of(k) ==> AllCanStand(s, created, action, b, e)
  {
    var v := VersionedBlock(action, b);
    var created' := CreatedAfter(s, created, action, v);
    var r := Replaced(created', v);
    ReplacedOf(created', v, k);
    VersionedOf(action, b, k);
    EachReplaced(created', action, b.Of(k), Alive(s.live, r));
    forall e | e in b.Of(k)
      ensures RefersTo(Alive(s.live, r), Resolved(created', Versioned(action, e))) <==> AllCanStand(s, created, action, b, e)
    {
      ExistsOf(s.live, settings, action, changeset, b, k, e);
      OneCanBeStored(s, created, action, v, k, e);
      CanStandBefore(s, created, action, b, e);
    }
    hide *;
  }

  lemma ExistsOf(m: MapData, settings: Settings, action: Action, changeset: int, b: Objects, k: Kind, e: Element)
    requires Passes(m, settings, action, changeset, b) && Shaped(b) && e in b.Of(k)
    ensures Exists(m, action, k, e) && (k != Way ==> e.refs == []) && (k != Relation ==> e.members == [])
  {
    hide Exists, InOrder;
  }

  /** A block that passes every check is stored exactly if all of its placeholders
      can be replaced. */
  lemma StoredExactlyWhen(s: Store, created: Created, settings: Settings, action: Action, b: Objects, changeset: int)
    requires StoreOk(s) && s.next > 0 && CreatedBefore(s, created) && OfItsKind(b) && Shaped(b) && action in {Create, Modify}
    requires CheckError(s.live, settings, action, b, VersionedBlock(action, b), changeset).None?
    ensures StoreObjects(s, created, action, VersionedBlock(action, b)).Some? <==> PlaceholdersStand(s, created, action, b)
  {
    hide StoreOk, OfItsKind, CheckError, VersionedBlock, CreatedAfter, CreatedBefore, Accepted, StoreObjects, Alive, Replaced,
         RefersTo, AllCanStand, Passes, Shaped;
    CheckedIsAccepted(s.live, settings, action, b, changeset);
    AcceptedExactlyWhen(s.live, settings, action, b, changeset);
    StoreSucceeds(s, created, action, VersionedBlock(action, b));
    forall k: Kind
      ensures
        var v := VersionedBlock(action, b);
        var r := Replaced(CreatedAfter(s, created, action, v), v);
        (forall x :: x in r.Of(k) ==> RefersTo(Alive(s.live, r), x)) <==>
          forall e :: e in b.Of(k) ==> AllCanStand(s, created, action, b, e)
    {
      KindStands(s, created, settings, action, b, changeset, k);
    }
  }

  /** A block that creates or modifies is carried out exactly if each of its objects
      is in order, names only what exists and itself in its live version, no ID is
      there twice, and all placeholders can be replaced. */
  lemma CarriedOutExactlyWhen(s: Store, created: Created, settings: Settings, action: Action, b: Objects, changeset: int,
                              ifUnused: bool)
    requires StoreOk(s) && s.next > 0 && CreatedBefore(s, created) && OfItsKind(b) && Shaped(b) && action in {Create, Modify}
    ensures BlockOutcome(s, created, settings, action, b, changeset, ifUnused).Success? <==>
      Passes(s.live, settings, action, changeset, b) && PlaceholdersStand(s, created, action, b)
  {
    hide StoreOk, OfItsKind, CheckError, VersionedBlock, CreatedBefore, StoreObjects, Passes, PlaceholdersStand, Shaped,
         BlockOutcome;
    AcceptedExactlyWhen(s.live, settings, action, b, changeset);
    SuccessIs(s, created, settings, action, b, changeset, ifUnused);
    if CheckError(s.live, settings, action, b, VersionedBlock(action, b), changeset).None? {
      StoredExactlyWhen(s, created, settings, action, b, changeset);
    }
  }

  lemma SuccessIs(s: Store, created: Created, settings: Settings, action: Action, b: Objects, changeset: int, ifUnused: bool)
    requires action in {Create, Modify}
    ensures
      var v := VersionedBlock(action, b);
      BlockOutcome(s, created, settings, action, b, changeset, ifUnused).Success? <==>
        CheckError(s.live, settings, action, b, v, changeset).None? && StoreObjects(s, created, action, v).Some?
  {
    hide CheckError, StoreObjects, VersionedBlock;
  }

  lemma {:induction false} AllocateBelow(created: map<int, int>, objs: seq<Element>, next: int, end: int, p: int)
    requires next + |objs| <= end && p in Allocate(created, objs, next)
    ensures Allocate(created, objs, next)[p] < end || (p in created && Allocate(created, objs, next)[p] == created[p])
  {
    if |objs| > 0 && p != objs[|objs| - 1].id {
      AllocateBelow(created, objs[..|objs| - 1], next, end, p);
    }
  }

  /** The IDs created in an upload stay older than those still to come. */
  lemma CreatedStaysBefore(s: Store, created: Created, settings: Settings, action: Action, b: Objects, changeset: int,
                           ifUnused: bool)
    requires CreatedBefore(s, created) && BlockOutcome(s, created, settings, action, b, changeset, ifUnused).Success?
    ensures
      var done := BlockOutcome(s, created, settings, action, b, changeset, ifUnused).value;
      CreatedBefore(done.store, done.created)
  {
    var done := BlockOutcome(s, created, settings, action, b, changeset, ifUnused).value;
    if !action.Other? {
      StoredIsOutcome(s, created, settings, action, b, changeset, ifUnused);
      hide BlockOutcome, StoreObjects;
      forall kind: Kind, p | p in done.created.Of(kind)
        ensures done.created.Of(kind)[p] < done.store.next
      {
        CreatedIs(s, created, action, done.objects, kind);
        if action.Create? {
          AllocateBelow(created.Of(kind), done.objects.Of(kind), BaseOf(s, done.objects, kind), done.store.next, p);
        }
      }
    }
  }

  lemma StoredIsOutcome(s: Store, created: Created, settings: Settings, action: Action, b: Objects, changeset: int,
                        ifUnused: bool)
    requires !action.Other? && BlockOutcome(s, created, settings, action, b, changeset, ifUnused).Success?
    ensures
      var done := BlockOutcome(s, created, settings, action, b, changeset, ifUnused).value;
      StoreObjects(s, created, action, done.objects) == Some((done.store, done.created))
  {
    hide StoreObjects, CheckError, DeleteBlock, VersionedBlock;
  }

  // ----- Why a block is refused -----

  /** What each answer says of a block. */
  ghost predicate Explains(m: MapData, settings: Settings, action: Action, b: Objects, changeset: int, error: Rejection) {
    match error
    case BadObject =>
      exists k: Kind, e :: e in b.Of(k) && !LooksRight(action, k, e)
    case BadWay =>
      exists e :: e in b.way && (|e.refs| > settings.wayNodesMaximum || (action != Delete && |e.refs| < 2))
    case TooManyMembers =>
      exists e :: e in b.relation && |e.members| > settings.relationMembersMaximum
    case WrongChangeset =>
      exists k: Kind, e :: e in b.Of(k) && e.changeset != changeset
    case NotUnique =>
      exists k: Kind :: !NoIdTwice(b.Of(k))
    case NotFound(k) =>
      !NamedExist(m, b, k)
    case WrongVersion(k) =>
      exists e :: e in b.Of(k) && !(e.id in m.Of(k) && m.Of(k)[e.id].version == e.version)
    case _ => false
  }

  /** An object's ID and version fit what is to be done with it, its position is on the
      globe, and its tags are not too long. */
  predicate LooksRight(action: Action, k: Kind, e: Element) {
    && (if action == Create then e.id <= 0 && (e.version == 0 || e.version == 1) else e.id > 0 && e.version > 0)
    && (k == Node ==> -90.0 <= e.lat && e.lat <= 90.0 && -180.0 <= e.lon && e.lon <= 180.0)
    && (forall t :: t in e.tags ==> |t| <= 255 && |e.tags[t]| <= 255)
  }

  lemma GoodLooksRight(action: Action, k: Kind, e: Element)
    requires e.kind == k
    ensures GoodObject(action, e) <==> LooksRight(action, k, e)
  {
  }

  lemma VersionFitsIs(m: MapData, action: Action, k: Kind, e: Element)
    requires e.kind == k && (action == Create || e.version > 0) && !VersionFits(m, Versioned(action, e))
    ensures !(e.id in m.Of(k) && m.Of(k)[e.id].version == e.version)
  {
  }

  /** The objects of one kind as they were uploaded, from some that were given their versions. */
  lemma Before(action: Action, b: Objects, k: Kind, x: Element) returns (e: Element)
    requires x in VersionedBlock(action, b).Of(k)
    ensures e in b.Of(k) && x == Versioned(action, e)
  {
    VersionedOf(action, b, k);
    EachVersioned(action, b.Of(k), x);
    hide VersionedBlock, VersionedAll, Versioned;
    e :| e in b.Of(k) && x == Versioned(action, e);
  }

  lemma VersionExplained(m: MapData, action: Action, b: Objects, k: Kind)
    requires OfItsKind(b) && forall k: Kind, e :: e in b.Of(k) ==> GoodObject(action, e)
    requires exists x :: x in VersionedBlock(action, b).Of(k) && !VersionFits(m, x)
    ensures exists e :: e in b.Of(k) && !(e.id in m.Of(k) && m.Of(k)[e.id].version == e.version)
  {
    hide VersionedBlock, VersionFits, Versioned;
    var x :| x in VersionedBlock(action, b).Of(k) && !VersionFits(m, x);
    var e := Before(action, b, k, x);
    assert GoodObject(action, e);
    VersionFitsIs(m, action, k, e);
  }

  lemma NotUniqueExplained(action: Action, b: Objects)
    requires exists k: Kind :: !UniqueIds(VersionedBlock(action, b).Of(k))
    ensures exists k: Kind :: !NoIdTwice(b.Of(k))
  {
    hide VersionedBlock, UniqueIds, NoIdTwice;
    var k: Kind :| !UniqueIds(VersionedBlock(action, b).Of(k));
    VersionedOf(action, b, k);
    VersionedSame(action, b.Of(k));
  }

  lemma LooksExplained(m: MapData, settings: Settings, action: Action, b: Objects, changeset: int, error: Rejection)
    requires OfItsKind(b)
    requires CheckError(m, settings, action, b, VersionedBlock(action, b), changeset) == Some(error)
    requires error in {BadObject, BadWay, TooManyMembers, WrongChangeset}
    ensures Explains(m, settings, action, b, changeset, error)
  {
    var v := VersionedBlock(action, b);
    hide UniqueIds, AllFound, VersionFits, VersionedBlock, GoodObject, LooksRight;
    assert v.Of(Way) == v.way && v.Of(Relation) == v.relation && b.Of(Way) == b.way && b.Of(Relation) == b.relation;
    match error
    case BadObject =>
      var k: Kind, e :| e in b.Of(k) && !GoodObject(action, e);
      GoodLooksRight(action, k, e);
    case BadWay =>
      var x :| x in v.way && !GoodWay(action, settings, x);
      var e := Before(action, b, Way, x);
    case TooManyMembers =>
      var x :| x in v.relation && !(|x.members| <= settings.relationMembersMaximum);
      var e := Before(action, b, Relation, x);
    case WrongChangeset =>
      var k: Kind, x :| x in v.Of(k) && x.changeset != changeset;
      var e := Before(action, b, k, x);
    case _ =>
  }

  /** A block that a check refuses is refused for what the answer says. */
  lemma RefusedForWhatItSays(m: MapData, settings: Settings, action: Action, b: Objects, changeset: int, error: Rejection)
    requires OfItsKind(b)
    requires CheckError(m, settings, action, b, VersionedBlock(action, b), changeset) == Some(error)
    ensures Explains(m, settings, action, b, changeset, error)
  {
    var v := VersionedBlock(action, b);
    hide GoodObject, GoodWay, UniqueIds, AllFound, VersionFits, VersionedBlock, LooksRight, NamedExist, NoIdTwice;
    assert v.Of(Node) == v.node && v.Of(Way) == v.way && v.Of(Relation) == v.relation;
    match error
    case NotUnique => NotUniqueExplained(action, b);
    case NotFound(k) => FoundAre(m, action, b, k);
    case WrongVersion(k) => VersionExplained(m, action, b, k);
    case _ => LooksExplained(m, settings, action, b, changeset, error);
  }

  /** A live object that is not among those to be deleted uses one of them. */
  ghost predicate IsStillUsed(m: MapData, d: Ids, k: Kind, id: int) {
    || (exists r :: r in m.relation && r !in d.relation && HasMember(m.relation[r], k, id))
    || (k == Node && exists w :: w in m.way && w !in d.way && id in m.way[w].refs)
  }

  /** A delete block is refused as still used, for a kind, only if an object of that
      kind in it is used by a live object that is not. */
  lemma StillUsedIs(m: MapData, v: Objects, k: Kind)
    requires DeleteBlock(m, v, false) == Failure(StillUsed(k))
    ensures exists id :: id in IdsOf(v.Of(k)) && IsStillUsed(m, IdsOfAll(v), k, id)
  {
    var d := IdsOfAll(v);
    var u := Deletion.Unused(m, d);
    hide IdsOf;
    if u.relation != d.relation {
      var used := Deletion.UsedByRelations(m, Relation, d.relation, d.relation);
      assert used != {};
      var id :| id in used;
      assert IsStillUsed(m, d, Relation, id);
    } else if u.way != d.way {
      var id :| id in d.way && id !in u.way;
      assert IsStillUsed(m, d, Way, id);
    } else {
      NodesStillUsed(m, d);
      var id :| id in d.node && IsStillUsed(m, d, Node, id);
      assert id in IdsOf(v.Of(Node));
    }
  }

  lemma NodesStillUsed(m: MapData, d: Ids)
    requires Deletion.Unused(m, d).relation == d.relation && Deletion.Unused(m, d).way == d.way
    requires Deletion.Unused(m, d).node != d.node
    ensures exists id :: id in d.node && IsStillUsed(m, d, Node, id)
  {
    var left := d.node - Deletion.UsedByWays(m, d.node, d.way);
    assert Deletion.Unused(m, d).node == left - Deletion.UsedByRelations(m, Node, left, d.relation);
    var id := Outside(d.node, Deletion.Unused(m, d).node);
    assert IsStillUsed(m, d, Node, id);
  }
}
