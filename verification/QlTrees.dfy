/** The statement trees that a text can stand for. */
module QlTrees {
  import opened Wrappers
  import opened Osm
  import opened Ql
  import opened QlText

  /** What the language leaves to a library: which texts are dates, as seconds
      since 1970, and which characters outside ASCII are of words. */
  datatype Library = Library(readDate: string -> Option<int>, otherWordChar: char -> bool)

  const MAX_ID := Pow10(18)

  predicate IdsOk(ids: seq<int>) {
    |ids| > 0 && forall i :: 0 <= i < |ids| ==> 0 <= ids[i] < MAX_ID
  }

  /** A box is in range, and neither upside down nor across the antimeridian. */
  predicate InRange(b: Bbox) {
    && -90.0 <= b.0 <= b.2 <= 90.0
    && -180.0 <= b.1 <= b.3 <= 180.0
  }

  ghost predicate BoxOk(b: Bbox) {
    InRange(b) && IsDecimal(b.0) && IsDecimal(b.1) && IsDecimal(b.2) && IsDecimal(b.3)
  }

  ghost predicate PositionOk(p: (real, real)) {
    -90.0 <= p.0 <= 90.0 && -180.0 <= p.1 <= 180.0 && IsDecimal(p.0) && IsDecimal(p.1)
  }

  ghost predicate DateOk(lib: Library, t: int) {
    exists text :: lib.readDate(text) == Some(t)
  }

  ghost predicate FilterOk(lib: Library, f: Filter) {
    match f
    case HasKv(mode, _, value, ignoreCase) =>
      && (mode.Exists? || mode.NotExists? ==> value == "")
      && (ignoreCase ==> mode.Matches? || mode.NotMatches?)
    case BboxQuery(south, west, north, east) => BoxOk((south, west, north, east))
    case IdQuery(ids) => IdsOk(ids)
    case ItemFilter(from) => IsIdentifier(from)
    case RecurseFilter(_, from, _) => IsIdentifier(from)
    case Around(radius, from, position) =>
      && radius >= 0.0 && IsDecimal(radius) && IsIdentifier(from)
      && (position.Some? ==> from == DEFAULT_SET && PositionOk(position.value))
    case User(uids, names) => (names == [] && IdsOk(uids)) || (uids == [] && names != [])
    case Newer(than) => DateOk(lib, than)
    case Changed(since, until) => DateOk(lib, since) && (until.Some? ==> DateOk(lib, until.value))
  }

  /** The kinds that a query's first word names. */
  function TypesOf(word: string): Option<seq<Kind>> {
    if word == "node" then Some([Node])
    else if word == "way" then Some([Way])
    else if word == "rel" || word == "relation" then Some([Relation])
    else if word == "nwr" then Some([Node, Way, Relation])
    else if word == "nw" then Some([Node, Way])
    else if word == "nr" then Some([Node, Relation])
    else if word == "wr" then Some([Way, Relation])
    else None
  }

  predicate TypesOk(types: seq<Kind>) {
    || types == [Node] || types == [Way] || types == [Relation] || types == [Node, Way, Relation]
    || types == [Node, Way] || types == [Node, Relation] || types == [Way, Relation]
  }

  predicate CountsAlone(st: Statement)
    requires st.Print?
  {
    st.mode.Count? ==> st.geometry.None? && st.limit.None?
  }

  /** A union is not empty, a difference has two sides, and neither prints. */
  ghost predicate StatementOk(lib: Library, st: Statement, inUnion: bool)
    decreases st
  {
    match st
    case Query(types, filters, into) =>
      TypesOk(types) && IsIdentifier(into) && forall i :: 0 <= i < |filters| ==> FilterOk(lib, filters[i])
    case Item(from, into) => IsIdentifier(from) && (into.Some? ==> IsIdentifier(into.value))
    case Union(statements, into) =>
      && |statements| > 0 && IsIdentifier(into)
      && forall i :: 0 <= i < |statements| ==> StatementOk(lib, statements[i], true)
    case Difference(first, second, into) =>
      StatementOk(lib, first, true) && StatementOk(lib, second, true) && IsIdentifier(into)
    case Recurse(_, from, into) => IsIdentifier(from) && IsIdentifier(into)
    case Print(from, _, _, _, _) => !inUnion && IsIdentifier(from) && CountsAlone(st)
  }

  ghost predicate StatementsOk(lib: Library, statements: seq<Statement>, inUnion: bool) {
    forall i :: 0 <= i < |statements| ==> StatementOk(lib, statements[i], inUnion)
  }

  ghost predicate SettingsOk(script: Script) {
    && (script.output.Csv? ==> |script.output.columns| > 0)
    && (script.bbox.Some? ==> BoxOk(script.bbox.value) && !script.bboxFromUrl)
  }

  ghost predicate ScriptOk(lib: Library, script: Script) {
    |script.statements| > 0 && StatementsOk(lib, script.statements, false) && SettingsOk(script)
  }
}
