/** The short spellings of a query: what may be left out is left out, and what may
    be written without quotes is. Each function puts its text in front of what
    follows. The names of default sets and values are written out here. */
module QlShorthand {
  import opened Wrappers
  import opened Osm
  import opened Ql
  import opened QlTrees
  import opened QlPrinting

  // ----- Values -----

  /** A text that needs no quotes. */
  predicate IsBare(text: string) {
    |text| > 0 && forall i :: 0 <= i < |text| ==>
      'a' <= text[i] <= 'z' || 'A' <= text[i] <= 'Z' || '0' <= text[i] <= '9' || text[i] == '_'
  }

  function ShortText(text: string, rest: string): string {
    if IsBare(text) then text + rest else PrintQuoted(text, rest)
  }

  function MoreShortTexts(texts: seq<string>, rest: string): string {
    if |texts| == 0 then rest else "," + ShortText(texts[0], MoreShortTexts(texts[1..], rest))
  }

  function ShortTexts(texts: seq<string>, rest: string): string
    requires |texts| > 0
  {
    ShortText(texts[0], MoreShortTexts(texts[1..], rest))
  }

  // ----- Filters -----

  function ShortOperator(mode: TagMode): string {
    match mode
    case Equals => "=="
    case NotEquals => "!="
    case Matches => "~"
    case _ => "!~"
  }

  function ShortKv(f: Filter, rest: string): string
    requires f.HasKv?
  {
    match f.mode
    case Exists => "[" + ShortText(f.key, "]" + rest)
    case NotExists => "[" + ("!" + ShortText(f.key, "]" + rest))
    case _ =>
      "[" + ShortText(f.key, ShortOperator(f.mode) + ShortText(f.value, if f.ignoreCase then ",i" + ("]" + rest) else "]" + rest))
  }

  /** The set of a filter or statement, unless it is the default one. */
  function ShortFrom(from: string, rest: string): string {
    if from == "_" then rest else "." + (from + rest)
  }

  /** A role needs no quotes either, unless it begins as a number does. */
  function ShortRole(role: Option<string>, rest: string): string {
    if role.None? then rest
    else if IsBare(role.value) && !('0' <= role.value[0] <= '9') then ":" + (role.value + rest)
    else ":" + PrintQuoted(role.value, rest)
  }

  ghost function ShortFilter(lib: Library, f: Filter, rest: string): string
    requires FilterOk(lib, f)
  {
    match f
    case HasKv(_, _, _, _) => ShortKv(f, rest)
    case IdQuery(ids) => if |ids| == 1 then "(" + PrintInt(ids[0], ")" + rest) else PrintFilter(lib, f, rest)
    case RecurseFilter(link, from, role) => "(" + (LinkText(link) + ShortFrom(from, ShortRole(role, ")" + rest)))
    case Around(radius, from, position) =>
      "(" + ("around" + ShortFrom(from, ":" + PrintNumber(radius, PrintPosition(position, rest))))
    case User(uids, names) =>
      if names == [] then PrintFilter(lib, f, rest) else "(" + ("user" + (":" + ShortTexts(names, ")" + rest)))
    case _ => PrintFilter(lib, f, rest)
  }

  ghost function ShortFilters(lib: Library, filters: seq<Filter>, rest: string): string
    requires forall i :: 0 <= i < |filters| ==> FilterOk(lib, filters[i])
  {
    if |filters| == 0 then rest else ShortFilter(lib, filters[0], ShortFilters(lib, filters[1..], rest))
  }

  // ----- Statements -----

  function ShortTypes(types: seq<Kind>): string {
    if types == [Relation] then "relation" else TypesText(types)
  }

  function ShortInto(into: string, rest: string): string {
    if into == "_" then ";" + rest else "->" + ("." + (into + (";" + rest)))
  }

  /** The options of out that are not those it has anyway. */
  function ShortOptions(st: Statement, rest: string): string
    requires st.Print?
  {
    var limited := if st.limit.Some? then " " + PrintInt(st.limit.value, ";" + rest) else ";" + rest;
    var ordered := if st.order == Asc then limited else " " + ("qt" + limited);
    var drawn := if st.geometry == None then ordered else " " + (GeometryText(st.geometry.value) + ordered);
    if st.mode == Body then drawn else " " + (ModeText(st.mode) + drawn)
  }

  function ShortOut(st: Statement, rest: string): string
    requires st.Print?
  {
    if st.from == "_" then "out" + ShortOptions(st, rest)
    else "." + (st.from + (" " + ("out" + ShortOptions(st, rest))))
  }

  ghost function ShortStatement(lib: Library, st: Statement, inUnion: bool, rest: string): string
    requires StatementOk(lib, st, inUnion)
    decreases st
  {
    match st
    case Query(types, filters, into) => ShortTypes(types) + ShortFilters(lib, filters, ShortInto(into, rest))
    case Item(from, into) => "." + (from + (if into.Some? then PrintInto(into.value, rest) else ";" + rest))
    case Union(statements, into) => "(" + ShortStatements(lib, statements, true, ")" + ShortInto(into, rest))
    case Difference(first, second, into) =>
      "(" + ShortStatement(lib, first, true, "-" + ShortStatement(lib, second, true, ")" + ShortInto(into, rest)))
    case Recurse(kind, from, into) => ShortFrom(from, SymbolText(kind) + ShortInto(into, rest))
    case Print(_, _, _, _, _) => ShortOut(st, rest)
  }

  ghost function ShortStatements(lib: Library, statements: seq<Statement>, inUnion: bool, rest: string): string
    requires StatementsOk(lib, statements, inUnion)
    decreases statements
  {
    if |statements| == 0 then rest
    else ShortStatement(lib, statements[0], inUnion, ShortStatements(lib, statements[1..], inUnion, rest))
  }

  // ----- Scripts -----

  /** The columns of CSV output that are not tags, after their two colons. */
  predicate IsSpecial(name: string) {
    || name == "id" || name == "type" || name == "otype" || name == "lat" || name == "lon" || name == "version"
    || name == "timestamp" || name == "changeset" || name == "uid" || name == "user" || name == "count"
  }

  predicate IsCounted(name: string) {
    name == "nodes" || name == "ways" || name == "relations" || name == "areas"
  }

  function ShortColumn(column: string, rest: string): string {
    if "::count:" <= column && IsCounted(column[8..]) then "::" + ("count" + (":" + (column[8..] + rest)))
    else if "::" <= column && IsSpecial(column[2..]) then "::" + (column[2..] + rest)
    else ShortText(column, rest)
  }

  function MoreShortColumns(columns: seq<string>, rest: string): string {
    if |columns| == 0 then rest else "," + ShortColumn(columns[0], MoreShortColumns(columns[1..], rest))
  }

  function ShortColumns(columns: seq<string>, rest: string): string
    requires |columns| > 0
  {
    ShortColumn(columns[0], MoreShortColumns(columns[1..], rest))
  }

  /** The header is printed, and columns are parted by tabs, unless something else is said. */
  function ShortCsvOptions(header: bool, separator: string, rest: string): string {
    if separator != "\t" then ";" + ((if header then "true" else "false") + (";" + PrintQuoted(separator, rest)))
    else if header then rest
    else ";" + ("false" + rest)
  }

  function ShortOutput(output: OutputFormat, rest: string): string
    requires output.Csv? ==> |output.columns| > 0
  {
    match output
    case Xml => rest
    case Json => "[" + ("out" + (":" + ("json" + ("]" + rest))))
    case Csv(columns, header, separator) =>
      "[" + ("out" + (":" + ("csv" + ("(" + ShortColumns(columns, ShortCsvOptions(header, separator, ")" + ("]" + rest)))))))
  }

  ghost function ShortSettings(script: Script, rest: string): string
    requires SettingsOk(script)
  {
    ShortOutput(script.output,
      PrintNatSetting("timeout", script.timeout, PrintNatSetting("maxsize", script.maxsize, PrintBoxSetting(script, rest))))
  }

  /** A script that sets nothing is its statements. */
  predicate SetsNothing(script: Script) {
    script.output.Xml? && script.timeout.None? && script.maxsize.None? && script.bbox.None? && !script.bboxFromUrl
  }

  ghost function ShortScript(lib: Library, script: Script): string
    requires ScriptOk(lib, script)
  {
    var statements := ShortStatements(lib, script.statements, false, "");
    if SetsNothing(script) then statements else ShortSettings(script, ";" + statements)
  }
}
