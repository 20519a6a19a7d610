/** Overpass queries as trees of statements. */
module Ql {
  import opened Wrappers
  import opened Osm

  const DEFAULT_SET := "_"

  datatype TagMode = Exists | NotExists | Equals | NotEquals | Matches | NotMatches

  /** What a recurse filter follows: a set's ways to their nodes, its relations to
      their members, or its nodes, ways or relations back to what holds them. */
  datatype Link = W | R | Bn | Bw | Br

  datatype Filter =
    | HasKv(mode: TagMode, key: string, value: string, ignoreCase: bool)
    | BboxQuery(south: real, west: real, north: real, east: real)
    | IdQuery(ids: seq<int>)
    | ItemFilter(from: string)
    | RecurseFilter(link: Link, from: string, role: Option<string>)
    | Around(radius: real, from: string, position: Option<(real, real)>)
    | User(uids: seq<int>, names: seq<string>)
    | Newer(than: int)
    | Changed(since: int, until: Option<int>)

  datatype RecurseType = Down | DownRel | Up | UpRel

  datatype PrintMode = IdsOnly | Skel | Body | Tags | Meta | Count

  datatype Geometry = Geom | Bb | Center

  datatype PrintOrder = Asc | Qt

  datatype Statement =
    | Query(types: seq<Kind>, filters: seq<Filter>, into: string)
    | Item(from: string, itemInto: Option<string>)
    | Union(statements: seq<Statement>, into: string)
    | Difference(first: Statement, second: Statement, into: string)
    | Recurse(kind: RecurseType, from: string, into: string)
    | Print(from: string, mode: PrintMode, geometry: Option<Geometry>, order: PrintOrder, limit: Option<nat>)

  type Bbox = (real, real, real, real)

  datatype OutputFormat = Xml | Json | Csv(columns: seq<string>, header: bool, separator: string)

  datatype Script = Script(statements: seq<Statement>, output: OutputFormat, timeout: Option<nat>,
                           maxsize: Option<nat>, bbox: Option<Bbox>, bboxFromUrl: bool)
}
