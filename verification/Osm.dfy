/** Map objects, and the lookups that the map database answers exactly. */
module Osm {

  datatype Kind = Node | Way | Relation

  /** One thing for each kind of object, as the program's dictionaries by kind are. */
  datatype PerKind<T> = PerKind(node: T, way: T, relation: T)
  {
    function Of(kind: Kind): T {
      match kind
      case Node => node
      case Way => way
      case Relation => relation
    }

    function With(kind: Kind, value: T): PerKind<T> {
      match kind
      case Node => this.(node := value)
      case Way => this.(way := value)
      case Relation => this.(relation := value)
    }
  }

  datatype Member = Member(kind: Kind, ref: int, role: string)

  /** A node, way or relation; refs are a way's nodes and members a relation's. */
  datatype Element = Element(kind: Kind, id: int, version: int, changeset: int,
                             tags: map<string, string>, lat: real, lon: real,
                             refs: seq<int>, members: seq<Member>)

  type Ids = PerKind<set<int>>

  /** The live objects of a map, by kind and ID. */
  type MapData = PerKind<map<int, Element>>

  ghost predicate WellFormed(m: MapData) {
    forall k: Kind, id :: id in m.Of(k) ==> m.Of(k)[id].id == id && m.Of(k)[id].kind == k
  }

  ghost predicate Within(a: Ids, b: Ids) {
    a.node <= b.node && a.way <= b.way && a.relation <= b.relation
  }

  predicate HasMember(e: Element, kind: Kind, ref: int) {
    exists i :: 0 <= i < |e.members| && e.members[i].kind == kind && e.members[i].ref == ref
  }

  /** The live ways that use any of some nodes. */
  function WaysOfNodes(m: MapData, ids: set<int>): set<int> {
    set w | w in m.way && exists i :: 0 <= i < |m.way[w].refs| && m.way[w].refs[i] in ids
  }

  predicate HasMemberAmong(e: Element, kind: Kind, ids: set<int>) {
    exists i :: 0 <= i < |e.members| && e.members[i].kind == kind && e.members[i].ref in ids
  }

  /** The live relations that have any of some objects of one kind as members. */
  function RelationsOf(m: MapData, kind: Kind, ids: set<int>): set<int> {
    set r | r in m.relation && HasMemberAmong(m.relation[r], kind, ids)
  }
}
