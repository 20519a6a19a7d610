/** Uploading to a changeset: the checks a block has to pass, what if-unused
    leaves of a delete block, and what storing it makes of the map. */
module Changeset {
  import opened Wrappers
  import opened Osm
  import Deletion

  datatype Action = Create | Modify | Delete | Other

  datatype Rejection =
    | BadObject
    | BadWay
    | TooManyMembers
    | WrongChangeset
    | NotUnique
    | NotFound(kind: Kind)
    | WrongVersion(kind: Kind)
    | StillUsed(kind: Kind)
    | StoreFailed
    | TooManyElements

  datatype Settings = Settings(wayNodesMaximum: nat, relationMembersMaximum: nat, changesetsMaximumElements: nat)

  type Objects = PerKind<seq<Element>>

  /** The IDs given so far in an upload to its placeholders. */
  type Created = PerKind<map<int, int>>

  /** The map: its live objects, the versions ever stored of each object, and
      the lowest ID never used. */
  datatype Store = Store(live: MapData, history: PerKind<map<int, seq<int>>>, next: int)

  // ----- The checks -----

  predicate GoodTags(tags: map<string, string>) {
    forall k :: k in tags ==> |k| <= 255 && |tags[k]| <= 255
  }

  predicate GoodPosition(e: Element) {
    e.kind == Node ==> -90.0 <= e.lat <= 90.0 && -180.0 <= e.lon <= 180.0
  }

  /** upload_check_create and upload_check_modify, of one object. */
  predicate GoodObject(action: Action, e: Element) {
    && (if action.Create? then e.id <= 0 && (e.version == 0 || e.version == 1) else e.id > 0 && e.version > 0)
    && GoodPosition(e)
    && GoodTags(e.tags)
  }

  /** The version an object is stored with. */
  function Versioned(action: Action, e: Element): Element {
    e.(version := if action.Create? then 1 else e.version + 1)
  }

  function VersionedAll(action: Action, objs: seq<Element>): seq<Element> {
    seq(|objs|, i requires 0 <= i < |objs| => Versioned(action, objs[i]))
  }

  predicate GoodWay(action: Action, s: Settings, e: Element) {
    (action.Delete? || |e.refs| >= 2) && |e.refs| <= s.wayNodesMaximum
  }

  ghost predicate UniqueIds(objs: seq<Element>) {
    forall i, j :: 0 <= i < j < |objs| ==> objs[i].id != objs[j].id
  }

  function IdsOf(objs: seq<Element>): set<int> {
    set e | e in objs :: e.id
  }

  function RefsOf(e: Element): set<int> {
    set ref | ref in e.refs
  }

  function MembersOf(e: Element, kind: Kind): set<int> {
    set i | 0 <= i < |e.members| && e.members[i].kind == kind :: e.members[i].ref
  }

  ghost function WayNodes(ways: seq<Element>): set<int> {
    set e, ref | e in ways && ref in RefsOf(e) :: ref
  }

  ghost function RelationMembers(relations: seq<Element>, kind: Kind): set<int> {
    set e, ref | e in relations && ref in MembersOf(e, kind) :: ref
  }

  /** The objects of one kind that a block modifies or refers to. */
  ghost function Referenced(b: Objects, kind: Kind): set<int> {
    IdsOf(b.Of(kind)) + (if kind.Node? then WayNodes(b.way) else {}) + RelationMembers(b.relation, kind)
  }

  /** Every object referred to by its own ID exists. */
  ghost predicate AllFound(m: MapData, b: Objects, kind: Kind) {
    forall id :: id in Referenced(b, kind) && id > 0 ==> id in m.Of(kind)
  }

  predicate VersionFits(m: MapData, e: Element) {
    e.version > 1 ==> e.id in m.Of(e.kind) && e.version == m.Of(e.kind)[e.id].version + 1
  }

  /** The first check, in the order they are made, that a block fails; its
      versions have been made those to store after the first of them. */
  ghost function CheckError(m: MapData, s: Settings, action: Action, b: Objects, v: Objects, changeset: int)
    : Option<Rejection>
  {
    if !(forall k: Kind, e :: e in b.Of(k) ==> GoodObject(action, e)) then Some(BadObject)
    else if !(forall e :: e in v.way ==> GoodWay(action, s, e)) then Some(BadWay)
    else if !(forall e :: e in v.relation ==> |e.members| <= s.relationMembersMaximum) then Some(TooManyMembers)
    else if !(forall k: Kind, e :: e in v.Of(k) ==> e.changeset == changeset) then Some(WrongChangeset)
    else if !(forall k: Kind :: UniqueIds(v.Of(k))) then Some(NotUnique)
    else if !AllFound(m, v, Node) then Some(NotFound(Node))
    else if !AllFound(m, v, Way) then Some(NotFound(Way))
    else if !AllFound(m, v, Relation) then Some(NotFound(Relation))
    else if !(forall e :: e in v.node ==> VersionFits(m, e)) then Some(WrongVersion(Node))
    else if !(forall e :: e in v.way ==> VersionFits(m, e)) then Some(WrongVersion(Way))
    else if !(forall e :: e in v.relation ==> VersionFits(m, e)) then Some(WrongVersion(Relation))
    else None
  }

  // ----- Deleting -----

  /** The objects with some IDs, in their order. */
  function Only(objs: seq<Element>, ids: set<int>): seq<Element> {
    if |objs| == 0 then []
    else
      var e := objs[|objs| - 1];
      Only(objs[..|objs| - 1], ids) + (if e.id in ids then [e] else [])
  }

  lemma {:induction false} OnlyOnly(objs: seq<Element>, a: set<int>, b: set<int>)
    ensures Only(Only(objs, a), b) == Only(objs, a * b)
  {
    if |objs| > 0 {
      var init, e := objs[..|objs| - 1], objs[|objs| - 1];
      OnlyOnly(init, a, b);
      if e.id in a {
        assert (Only(init, a) + [e])[..|Only(init, a)|] == Only(init, a);
      } else {
        assert Only(objs, a) == Only(init, a);
      }
    }
  }

  lemma {:induction false} OnlyIds(objs: seq<Element>, ids: set<int>)
    ensures IdsOf(Only(objs, ids)) == IdsOf(objs) * ids
    ensures forall e :: e in Only(objs, ids) <==> e in objs && e.id in ids
  {
    if |objs| > 0 {
      var init := objs[..|objs| - 1];
      OnlyIds(init, ids);
      assert objs == init + [objs[|objs| - 1]];
    }
  }

  lemma {:induction false} OnlyAll(objs: seq<Element>, ids: set<int>)
    requires IdsOf(objs) <= ids
    ensures Only(objs, ids) == objs
  {
    if |objs| > 0 {
      var init := objs[..|objs| - 1];
      assert objs == init + [objs[|objs| - 1]];
      assert objs[|objs| - 1].id in IdsOf(objs);
      forall id | id in IdsOf(init)
        ensures id in ids
      {
        var e :| e in init && e.id == id;
        assert e in objs && e.id in IdsOf(objs);
      }
      OnlyAll(init, ids);
    }
  }

  ghost function IdsOfAll(b: Objects): Ids {
    PerKind(IdsOf(b.node), IdsOf(b.way), IdsOf(b.relation))
  }

  /** What is left of a delete block, or which of its objects are still used. */
  ghost function DeleteBlock(m: MapData, b: Objects, ifUnused: bool): Result<Objects, Rejection> {
    var d := IdsOfAll(b);
    var u := Deletion.Unused(m, d);
    if ifUnused then Success(PerKind(Only(b.node, u.node), Only(b.way, u.way), Only(b.relation, u.relation)))
    else if u.relation != d.relation then Failure(StillUsed(Relation))
    else if u.way != d.way then Failure(StillUsed(Way))
    else if u.node != d.node then Failure(StillUsed(Node))
    else Success(b)
  }

  // ----- Storing -----

  /** New IDs for the placeholders of some objects, counting up from next. */
  function Allocate(created: map<int, int>, objs: seq<Element>, next: int): map<int, int> {
    if |objs| == 0 then created
    else Allocate(created, objs[..|objs| - 1], next)[objs[|objs| - 1].id := next + |objs| - 1]
  }

  function AllocateAll(created: Created, b: Objects, next: int): Created {
    PerKind(Allocate(created.node, b.node, next),
            Allocate(created.way, b.way, next + |b.node|),
            Allocate(created.relation, b.relation, next + |b.node| + |b.way|))
  }

  function Resolve(created: map<int, int>, ref: int): int {
    if ref <= 0 && ref in created then created[ref] else ref
  }

  function ResolvedMember(created: Created, m: Member): Member {
    m.(ref := Resolve(created.Of(m.kind), m.ref))
  }

  /** An object as it is stored, its placeholders replaced. */
  function Resolved(created: Created, e: Element): Element {
    e.(id := Resolve(created.Of(e.kind), e.id),
       refs := seq(|e.refs|, i requires 0 <= i < |e.refs| => Resolve(created.node, e.refs[i])),
       members := seq(|e.members|, i requires 0 <= i < |e.members| => ResolvedMember(created, e.members[i])))
  }

  function ResolvedAll(created: Created, objs: seq<Element>): seq<Element> {
    seq(|objs|, i requires 0 <= i < |objs| => Resolved(created, objs[i]))
  }

  function Put(m: map<int, Element>, objs: seq<Element>): map<int, Element> {
    if |objs| == 0 then m else Put(m, objs[..|objs| - 1])[objs[|objs| - 1].id := objs[|objs| - 1]]
  }

  function Versions(h: map<int, seq<int>>, id: int): seq<int> {
    if id in h then h[id] else []
  }

  function Record(h: map<int, seq<int>>, objs: seq<Element>): map<int, seq<int>> {
    if |objs| == 0 then h
    else
      var e, before := objs[|objs| - 1], Record(h, objs[..|objs| - 1]);
      before[e.id := Versions(before, e.id) + [e.version]]
  }

  /** The live objects once a resolved block is stored. */
  function Stored(live: map<int, Element>, action: Action, objs: seq<Element>): map<int, Element> {
    if action.Delete? then live - IdsOf(objs) else Put(live, objs)
  }

  /** Every reference of a resolved object is to an object that is there, or will be. */
  predicate RefersTo(alive: Ids, e: Element) {
    && (forall i :: 0 <= i < |e.refs| ==> e.refs[i] in alive.node)
    && (forall i :: 0 <= i < |e.members| ==> e.members[i].ref in alive.Of(e.members[i].kind))
  }

  function Alive(m: MapData, b: Objects): Ids {
    PerKind(m.node.Keys + IdsOf(b.node), m.way.Keys + IdsOf(b.way), m.relation.Keys + IdsOf(b.relation))
  }

  /** pgmap's StoreObjects: resolve placeholders, fail if one stands for
      nothing that exists, and otherwise store new versions of the objects. */
  ghost function StoreObjects(s: Store, created: Created, action: Action, b: Objects): Option<(Store, Created)> {
    var created' := if action.Create? then AllocateAll(created, b, s.next) else created;
    var r := PerKind(ResolvedAll(created', b.node), ResolvedAll(created', b.way), ResolvedAll(created', b.relation));
    if !(forall k: Kind, e :: e in r.Of(k) ==> RefersTo(Alive(s.live, r), e)) then None
    else Some((
      Store(
        PerKind(Stored(s.live.node, action, r.node), Stored(s.live.way, action, r.way),
                Stored(s.live.relation, action, r.relation)),
        PerKind(Record(s.history.node, r.node), Record(s.history.way, r.way), Record(s.history.relation, r.relation)),
        if action.Create? then s.next + |b.node| + |b.way| + |b.relation| else s.next),
      created'))
  }

  // ----- A block, and an upload -----

  datatype Done = Done(store: Store, created: Created, objects: Objects)

  ghost function VersionedBlock(action: Action, b: Objects): Objects {
    PerKind(VersionedAll(action, b.node), VersionedAll(action, b.way), VersionedAll(action, b.relation))
  }

  /** What uploading a block comes to: the map after it, and the objects it stored. */
  ghost function BlockOutcome(s: Store, created: Created, settings: Settings, action: Action, b: Objects,
                              changeset: int, ifUnused: bool): Result<Done, Rejection>
  {
    if action.Other? then Success(Done(s, created, PerKind([], [], [])))
    else
      var v := VersionedBlock(action, b);
      var error := CheckError(s.live, settings, action, b, v, changeset);
      if error.Some? then Failure(error.value)
      else
        var kept := if action.Delete? then DeleteBlock(s.live, v, ifUnused) else Success(v);
        if kept.Failure? then Failure(kept.error)
        else
          var stored := StoreObjects(s, created, action, kept.value);
          if stored.None? then Failure(StoreFailed)
          else Success(Done(stored.value.0, stored.value.1, kept.value))
  }

  datatype ChangeBlock = ChangeBlock(action: Action, objects: Objects, ifUnused: bool)

  function BlockSize(b: Objects): nat {
    |b.node| + |b.way| + |b.relation|
  }

  /** The blocks of an upload, one after another: all of them, or none. */
  ghost function UploadOutcome(s: Store, created: Created, settings: Settings, blocks: seq<ChangeBlock>,
                               changeset: int, elementCount: nat): Result<Store, Rejection>
    decreases |blocks|
  {
    if |blocks| == 0 then Success(s)
    else
      var b := blocks[0];
      var count := elementCount + BlockSize(b.objects);
      if count > settings.changesetsMaximumElements then Failure(TooManyElements)
      else
        var outcome := BlockOutcome(s, created, settings, b.action, b.objects, changeset, b.ifUnused);
        if outcome.Failure? then Failure(outcome.error)
        else UploadOutcome(outcome.value.store, outcome.value.created, settings, blocks[1..], changeset, count)
  }
}
