/** A text for every well-formed statement tree. Each function puts its text in
    front of what follows. */
module QlPrinting {
  import opened Wrappers
  import opened Osm
  import opened Ql
  import opened QlText
  import opened QlTrees

  /** No brace stands in the text: two of them would have it refused. */
  predicate NoBrace(s: string) {
    '{' !in s
  }

  // ----- Values -----

  function Digits(n: nat): (s: string)
    ensures |s| > 0 && forall i :: 0 <= i < |s| ==> IsDigit(s[i])
  {
    if n < 10 then [n as char + '0'] else Digits(n / 10) + [(n % 10) as char + '0']
  }

  function Abs(n: int): nat {
    if n < 0 then -n else n
  }

  function PrintInt(n: int, rest: string): string {
    if n < 0 then "-" + (Digits(Abs(n)) + rest) else Digits(n) + rest
  }

  /** A decimal, as a whole number and a power of ten. */
  ghost function PrintNumber(x: real, rest: string): string
    requires IsDecimal(x)
  {
    var m, e :| x == Scale(m, e);
    PrintInt(m, "e" + PrintInt(e, rest))
  }

  function PrintChar(c: char, rest: string): string {
    if c == '"' then "\\\"" + rest
    else if c == '\\' then "\\\\" + rest
    else if c == '{' then "\\u007B" + rest
    else [c] + rest
  }

  function PrintBody(text: string, rest: string): string {
    if text == "" then rest else PrintChar(text[0], PrintBody(text[1..], rest))
  }

  function PrintQuoted(text: string, rest: string): string {
    "\"" + PrintBody(text, "\"" + rest)
  }

  /** A date that stands for a time. */
  ghost function PrintDate(lib: Library, t: int, rest: string): string
    requires DateOk(lib, t)
  {
    var text :| lib.readDate(text) == Some(t);
    PrintQuoted(text, rest)
  }

  // ----- Lists -----

  function PrintMoreIds(ids: seq<int>, rest: string): string {
    if |ids| == 0 then rest else "," + PrintInt(ids[0], PrintMoreIds(ids[1..], rest))
  }

  function PrintIds(ids: seq<int>, rest: string): string
    requires |ids| > 0
  {
    PrintInt(ids[0], PrintMoreIds(ids[1..], rest))
  }

  function PrintMoreTexts(texts: seq<string>, rest: string): string {
    if |texts| == 0 then rest else "," + PrintQuoted(texts[0], PrintMoreTexts(texts[1..], rest))
  }

  function PrintTexts(texts: seq<string>, rest: string): string
    requires |texts| > 0
  {
    PrintQuoted(texts[0], PrintMoreTexts(texts[1..], rest))
  }

  ghost function PrintBox(b: Bbox, rest: string): string
    requires BoxOk(b)
  {
    PrintNumber(b.0, "," + PrintNumber(b.1, "," + PrintNumber(b.2, "," + PrintNumber(b.3, rest))))
  }

  // ----- Filters -----

  function OperatorText(mode: TagMode): string {
    match mode
    case NotEquals => "!="
    case Matches => "~"
    case NotMatches => "!~"
    case _ => "="
  }

  function LinkText(link: Link): string {
    match link
    case W => "w"
    case R => "r"
    case Bn => "bn"
    case Bw => "bw"
    case Br => "br"
  }

  function PrintKv(f: Filter, rest: string): string
    requires f.HasKv?
  {
    match f.mode
    case Exists => "[" + PrintQuoted(f.key, "]" + rest)
    case NotExists => "[" + ("!" + PrintQuoted(f.key, "]" + rest))
    case _ =>
      "[" + PrintQuoted(f.key, OperatorText(f.mode) + PrintQuoted(f.value, if f.ignoreCase then ",i" + ("]" + rest) else "]" + rest))
  }

  ghost function PrintFilter(lib: Library, f: Filter, rest: string): string
    requires FilterOk(lib, f)
  {
    match f
    case HasKv(_, _, _, _) => PrintKv(f, rest)
    case BboxQuery(south, west, north, east) => "(" + PrintBox((south, west, north, east), ")" + rest)
    case IdQuery(ids) => "(" + ("id" + (":" + PrintIds(ids, ")" + rest)))
    case ItemFilter(from) => "." + (from + rest)
    case RecurseFilter(link, from, role) =>
      "(" + (LinkText(link) + ("." + (from + (if role.Some? then ":" + PrintQuoted(role.value, ")" + rest) else ")" + rest))))
    case Around(radius, from, position) =>
      "(" + ("around" + ("." + (from + (":" + PrintNumber(radius, PrintPosition(position, rest))))))
    case User(uids, names) =>
      if names == [] then "(" + ("uid" + (":" + PrintIds(uids, ")" + rest)))
      else "(" + ("user" + (":" + PrintTexts(names, ")" + rest)))
    case Newer(than) => "(" + ("newer" + (":" + PrintDate(lib, than, ")" + rest)))
    case Changed(since, until) =>
      "(" + ("changed" + (":" + PrintDate(lib, since,
        if until.Some? then "," + PrintDate(lib, until.value, ")" + rest) else ")" + rest)))
  }

  ghost function PrintPosition(position: Option<(real, real)>, rest: string): string
    requires position.Some? ==> PositionOk(position.value)
  {
    if position.None? then ")" + rest
    else "," + PrintNumber(position.value.0, "," + PrintNumber(position.value.1, ")" + rest))
  }

  ghost function PrintFilters(lib: Library, filters: seq<Filter>, rest: string): string
    requires forall i :: 0 <= i < |filters| ==> FilterOk(lib, filters[i])
  {
    if |filters| == 0 then rest else PrintFilter(lib, filters[0], PrintFilters(lib, filters[1..], rest))
  }

  // ----- Statements -----

  function TypesText(types: seq<Kind>): string {
    if types == [Node] then "node" else if types == [Way] then "way" else if types == [Relation] then "rel"
    else if types == [Node, Way, Relation] then "nwr" else if types == [Node, Way] then "nw"
    else if types == [Node, Relation] then "nr" else "wr"
  }

  function SymbolText(kind: RecurseType): string {
    match kind
    case Down => ">"
    case DownRel => ">>"
    case Up => "<"
    case UpRel => "<<"
  }

  function ModeText(mode: PrintMode): string {
    match mode
    case IdsOnly => "ids"
    case Skel => "skel"
    case Body => "body"
    case Tags => "tags"
    case Meta => "meta"
    case Count => "count"
  }

  function GeometryText(geometry: Geometry): string {
    match geometry
    case Geom => "geom"
    case Bb => "bb"
    case Center => "center"
  }

  function OrderText(order: PrintOrder): string {
    match order
    case Asc => "asc"
    case Qt => "qt"
  }

  function PrintInto(into: string, rest: string): string {
    "->" + ("." + (into + (";" + rest)))
  }

  function PrintLimit(limit: Option<nat>, rest: string): string {
    if limit.Some? then " " + PrintInt(limit.value, ";" + rest) else ";" + rest
  }

  function PrintGeometry(geometry: Option<Geometry>, rest: string): string {
    if geometry.Some? then " " + (GeometryText(geometry.value) + rest) else rest
  }

  function PrintOut(st: Statement, rest: string): string
    requires st.Print?
  {
    "." + (st.from + (" " + ("out" + (" " + (ModeText(st.mode) +
      PrintGeometry(st.geometry, " " + (OrderText(st.order) + PrintLimit(st.limit, rest))))))))
  }

  ghost function PrintStatement(lib: Library, st: Statement, inUnion: bool, rest: string): string
    requires StatementOk(lib, st, inUnion)
    decreases st
  {
    match st
    case Query(types, filters, into) => TypesText(types) + PrintFilters(lib, filters, PrintInto(into, rest))
    case Item(from, into) => "." + (from + (if into.Some? then PrintInto(into.value, rest) else ";" + rest))
    case Union(statements, into) => "(" + PrintStatements(lib, statements, true, ")" + PrintInto(into, rest))
    case Difference(first, second, into) =>
      "(" + PrintStatement(lib, first, true, "-" + PrintStatement(lib, second, true, ")" + PrintInto(into, rest)))
    case Recurse(kind, from, into) => "." + (from + (SymbolText(kind) + PrintInto(into, rest)))
    case Print(_, _, _, _, _) => PrintOut(st, rest)
  }

  ghost function PrintStatements(lib: Library, statements: seq<Statement>, inUnion: bool, rest: string): string
    requires StatementsOk(lib, statements, inUnion)
    decreases statements
  {
    if |statements| == 0 then rest
    else PrintStatement(lib, statements[0], inUnion, PrintStatements(lib, statements[1..], inUnion, rest))
  }

  // ----- Scripts -----

  function PrintOutput(output: OutputFormat, rest: string): string
    requires output.Csv? ==> |output.columns| > 0
  {
    match output
    case Xml => "xml" + rest
    case Json => "json" + rest
    case Csv(columns, header, separator) =>
      "csv" + ("(" + PrintTexts(columns, ";" + ((if header then "true" else "false") + (";" + PrintQuoted(separator, ")" + rest)))))
  }

  function PrintNatSetting(name: string, value: Option<nat>, rest: string): string {
    if value.Some? then "[" + (name + (":" + PrintInt(value.value, "]" + rest))) else rest
  }

  ghost function PrintBoxSetting(script: Script, rest: string): string
    requires SettingsOk(script)
  {
    if script.bboxFromUrl then "[" + ("bbox" + ("]" + rest))
    else if script.bbox.Some? then "[" + ("bbox" + (":" + PrintBox(script.bbox.value, "]" + rest)))
    else rest
  }

  ghost function PrintSettings(script: Script, rest: string): string
    requires SettingsOk(script)
  {
    "[" + ("out" + (":" + PrintOutput(script.output, "]" +
      PrintNatSetting("timeout", script.timeout, PrintNatSetting("maxsize", script.maxsize, PrintBoxSetting(script, rest))))))
  }

  /** The text of a script. */
  ghost function Text(lib: Library, script: Script): string
    requires ScriptOk(lib, script)
  {
    PrintSettings(script, ";" + PrintStatements(lib, script.statements, false, ""))
  }
}
