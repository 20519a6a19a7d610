/** Every script is read from its short text, in which it only says what is not so
    anyway. */
module QlShortScripts {
  import opened Wrappers
  import opened Osm
  import opened Ql
  import opened QlText
  import opened QlTrees
  import opened QlGrammar
  import opened QlScripts
  import opened QlPrinting
  import opened QlShorthand
  import opened QlTokens
  import opened QlRoundTrip
  import opened QlReadBack
  import opened QlShortRead
  import opened QlInverse

  // ----- Columns -----

  lemma SpecialAreWords(name: string)
    requires IsSpecial(name)
    ensures IsIdentifier(name) && name in CSV_SPECIAL_FIELDS
  {
  }

  lemma CountedAreWords(more: string)
    requires IsCounted(more)
    ensures IsIdentifier(more) && "count:" + more in CSV_SPECIAL_FIELDS
  {
    assert "count:" + "nodes" == "count:nodes" && "count:" + "ways" == "count:ways";
    assert "count:" + "relations" == "count:relations" && "count:" + "areas" == "count:areas";
  }

  lemma WordIsClean(name: string, rest: string)
    requires IsIdentifier(name)
    ensures Clean(name + rest) && Quoted(name + rest) == Success((None, name + rest))
  {
    NotQuoted(name + rest);
  }

  lemma SpecialNameRead(name: string, rest: string)
    requires IsSpecial(name) && Separates(rest) && rest[0] != ':'
    ensures SpecialName(name + rest) == Success((Some(name), rest))
  {
    hide Accept, Quoted, Identifier, IsSpecial, IsIdentifier;
    SpecialAreWords(name);
    SeparatesIsClean(rest);
    WordIsClean(name, rest);
    IdentifierRead(name, rest);
    AcceptOther(rest, ":");
  }

  lemma CountedNameRead(more: string, rest: string)
    requires IsCounted(more) && Separates(rest)
    ensures SpecialName("count" + (":" + (more + rest))) == Success((Some("count:" + more), rest))
  {
    hide Accept, Quoted, Identifier, IsCounted;
    var s := ":" + (more + rest);
    CountedAreWords(more);
    SeparatesIsClean(rest);
    WordIsClean("count", s);
    IdentifierRead("count", s);
    AcceptYes(":", more + rest);
    assert s[1] == more[0] && s[1..] == more + rest;
    IdentifierRead(more, rest);
  }

  lemma ShortColumnRead(column: string, rest: string)
    requires Separates(rest) && rest[0] != ':'
    ensures CsvField(ShortColumn(column, rest)) == Success((column, rest))
  {
    hide Accept, SpecialName, TextValue, IsCounted, IsSpecial, ShortText;
    if "::count:" <= column && IsCounted(column[8..]) {
      var more := column[8..];
      var s := "count" + (":" + (more + rest));
      AcceptYes("::", s);
      CountedNameRead(more, rest);
      CountedAreWords(more);
      assert "::" + ("count:" + more) == column;
    } else if "::" <= column && IsSpecial(column[2..]) {
      var name := column[2..];
      AcceptYes("::", name + rest);
      SpecialNameRead(name, rest);
      SpecialAreWords(name);
      assert "::" + name == column;
    } else {
      SeparatesIsClean(rest);
      ShortTextRead(column, rest);
      AcceptOther(ShortText(column, rest), "::");
    }
  }

  lemma {:induction false} MoreShortColumnsRead(columns: seq<string>, rest: string, read: seq<string>)
    requires Separates(rest) && rest[0] != ',' && rest[0] != ':'
    ensures MoreItems(CsvField, MoreShortColumns(columns, rest), read) == Success((read + columns, rest))
    ensures Separates(MoreShortColumns(columns, rest)) && MoreShortColumns(columns, rest)[0] != ':'
    decreases |columns|
  {
    hide Accept, ShortColumn, CsvField;
    SeparatesIsClean(rest);
    if |columns| == 0 {
      AcceptOther(rest, ",");
      assert read + columns == read;
    } else {
      var tail := MoreShortColumns(columns[1..], rest);
      MoreShortColumnsRead(columns[1..], rest, read + [columns[0]]);
      AcceptYes(",", ShortColumn(columns[0], tail));
      ShortColumnRead(columns[0], tail);
      assert (read + [columns[0]]) + columns[1..] == read + columns;
    }
  }

  lemma ShortColumnsRead(columns: seq<string>, rest: string)
    requires |columns| > 0 && Separates(rest) && rest[0] != ',' && rest[0] != ':'
    ensures Items(CsvField, ShortColumns(columns, rest)) == Success((columns, rest))
  {
    hide MoreItems, ShortColumn, CsvField;
    var tail := MoreShortColumns(columns[1..], rest);
    MoreShortColumnsRead(columns[1..], rest, [columns[0]]);
    ShortColumnRead(columns[0], tail);
    assert [columns[0]] + columns[1..] == columns;
  }

  // ----- Settings -----

  lemma ShortCsvOptionsRead(header: bool, separator: string, rest: string)
    ensures
      var text := ShortCsvOptions(header, separator, ")" + rest);
      CsvOptions(text) == Success(((header, separator), ")" + rest)) && Separates(text) && text[0] != ',' && text[0] != ':'
  {
    var end := ")" + rest;
    if separator != "\t" {
      CsvOptionsRead(header, separator, rest);
    } else if header {
      AcceptOther(end, ";");
    } else {
      AcceptYes(";", "false" + end);
      IdentifierRead("false", end);
      AcceptOther(end, ";");
    }
    hide Accept, Identifier, Quoted, PrintQuoted;
  }

  lemma ShortCsvRead(columns: seq<string>, header: bool, separator: string, rest: string)
    requires |columns| > 0
    ensures CsvFormat("(" + ShortColumns(columns, ShortCsvOptions(header, separator, ")" + rest))) ==
      Success((Csv(columns, header, separator), rest))
  {
    hide Expect, Items, CsvOptions, ShortColumns, ShortCsvOptions;
    var options := ShortCsvOptions(header, separator, ")" + rest);
    ShortCsvOptionsRead(header, separator, rest);
    AcceptYes("(", ShortColumns(columns, options));
    ShortColumnsRead(columns, options);
    AcceptYes(")", rest);
  }

  lemma OutputSettingRead(output: OutputFormat, value: string, rest: string)
    requires SettingsOk(NO_SETTINGS.(output := output))
    requires OutSetting(value) == Success((output, "]" + rest))
    ensures Settings("[" + ("out" + (":" + value)), NO_SETTINGS, {}) == Settings(rest, NO_SETTINGS.(output := output), {} + {"out"})
    ensures BoxSeen(NO_SETTINGS.(output := output), {} + {"out"})
  {
    hide OutSetting, Settings;
    SettingRead("out", value, rest, NO_SETTINGS, {}, NO_SETTINGS.(output := output));
  }

  /** The settings that are given, from the output format on. */
  lemma ShortOutputRead(output: OutputFormat, rest: string)
    requires output.Csv? ==> |output.columns| > 0
    ensures
      var with := NO_SETTINGS.(output := output);
      var seen: set<string> := if output.Xml? then {} else {} + {"out"};
      && SettingsOk(with) && BoxSeen(with, seen)
      && Settings(ShortOutput(output, rest), NO_SETTINGS, {}) == Settings(rest, with, seen)
  {
    hide Settings, CsvFormat, ShortColumns, ShortCsvOptions, Identifier;
    match output
    case Xml =>
      assert NO_SETTINGS.(output := Xml) == NO_SETTINGS;
    case Json =>
      IdentifierRead("json", "]" + rest);
      OutputSettingRead(Json, "json" + ("]" + rest), rest);
    case Csv(columns, header, separator) =>
      var text := "(" + ShortColumns(columns, ShortCsvOptions(header, separator, ")" + ("]" + rest)));
      IdentifierRead("csv", text);
      ShortCsvRead(columns, header, separator, "]" + rest);
      OutputSettingRead(output, "csv" + text, rest);
  }

  lemma ShortSettingsRead(script: Script, rest: string)
    requires SettingsOk(script) && rest != "" && rest[0] == ';'
    ensures Settings(ShortSettings(script, rest), NO_SETTINGS, {}) == Success((script.(statements := []), rest))
  {
    hide Settings, ShortOutput, PrintNatSetting, PrintBoxSetting, SettingsOk, OutSetting;
    var boxText := PrintBoxSetting(script, rest);
    var sizeText := PrintNatSetting("maxsize", script.maxsize, boxText);
    var timeText := PrintNatSetting("timeout", script.timeout, sizeText);
    var s1 := NO_SETTINGS.(output := script.output);
    var s2 := s1.(timeout := script.timeout);
    var s3 := s2.(maxsize := script.maxsize);
    FirstIsOk(script);
    ShortOutputRead(script.output, timeText);
    var seen1: set<string> := if script.output.Xml? then {} else {} + {"out"};
    var seen2 := if script.timeout.Some? then seen1 + {"timeout"} else seen1;
    var seen3 := if script.maxsize.Some? then seen2 + {"maxsize"} else seen2;
    NumberSettingRead("timeout", script.timeout, sizeText, s1, seen1, s2);
    NumberSettingRead("maxsize", script.maxsize, boxText, s2, seen2, s3);
    BoxSettingsRead(script, rest, s3, seen3);
  }

  // ----- No braces -----

  lemma NoBraceInShort(text: string, rest: string)
    requires NoBrace(rest)
    ensures NoBrace(ShortText(text, rest))
  {
    if IsBare(text) {
      NoBraceInWord(text, rest);
    } else {
      NoBraceInQuoted(text, rest);
    }
  }

  lemma {:induction false} NoBraceInShorts(texts: seq<string>, rest: string)
    requires NoBrace(rest)
    ensures NoBrace(MoreShortTexts(texts, rest))
    ensures |texts| > 0 ==> NoBrace(ShortTexts(texts, rest))
  {
    hide ShortText;
    if |texts| > 0 {
      NoBraceInShorts(texts[1..], rest);
      NoBraceInShort(texts[0], MoreShortTexts(texts[1..], rest));
    }
  }

  lemma NoBraceInColumn(column: string, rest: string)
    requires NoBrace(rest)
    ensures NoBrace(ShortColumn(column, rest))
  {
    hide ShortText, IsSpecial, IsCounted, IsIdentifier;
    if "::count:" <= column && IsCounted(column[8..]) {
      CountedAreWords(column[8..]);
      NoBraceInName(column[8..], rest);
    } else if "::" <= column && IsSpecial(column[2..]) {
      SpecialAreWords(column[2..]);
      NoBraceInName(column[2..], rest);
    } else {
      NoBraceInShort(column, rest);
    }
  }

  lemma {:induction false} NoBraceInColumns(columns: seq<string>, rest: string)
    requires NoBrace(rest)
    ensures NoBrace(MoreShortColumns(columns, rest))
    ensures |columns| > 0 ==> NoBrace(ShortColumns(columns, rest))
  {
    hide ShortColumn;
    if |columns| > 0 {
      NoBraceInColumns(columns[1..], rest);
      NoBraceInColumn(columns[0], MoreShortColumns(columns[1..], rest));
    }
  }

  lemma NoBraceInShortKv(f: Filter, rest: string)
    requires f.HasKv? && NoBrace(rest)
    ensures NoBrace(ShortKv(f, rest))
  {
    hide ShortText;
    var closed := "]" + rest;
    NoBraceInShort(f.key, closed);
    var option := if f.ignoreCase then ",i" + closed else closed;
    NoBraceInShort(f.value, option);
    NoBraceInWord(ShortOperator(f.mode), ShortText(f.value, option));
    NoBraceInShort(f.key, ShortOperator(f.mode) + ShortText(f.value, option));
  }

  lemma NoBraceInShortFrom(from: string, rest: string)
    requires IsIdentifier(from) && NoBrace(rest)
    ensures NoBrace(ShortFrom(from, rest))
  {
    NoBraceInName(from, rest);
  }

  lemma NoBraceInRole(role: Option<string>, rest: string)
    requires NoBrace(rest)
    ensures NoBrace(ShortRole(role, rest))
  {
    if role.Some? {
      NoBraceInQuoted(role.value, rest);
      if IsBare(role.value) {
        NoBraceInWord(role.value, rest);
      }
    }
    hide PrintQuoted;
  }

  lemma NoBraceInShortFilter(lib: Library, f: Filter, rest: string)
    requires FilterOk(lib, f) && NoBrace(rest)
    ensures NoBrace(ShortFilter(lib, f, rest))
  {
    hide ShortKv, PrintFilter, ShortFrom, ShortRole, ShortTexts, PrintNumber, PrintPosition, PrintInt, IsDecimal, DateOk, BoxOk;
    NoBraceInFilter(lib, f, rest);
    match f
    case HasKv(_, _, _, _) => NoBraceInShortKv(f, rest);
    case IdQuery(ids) => NoBraceInInt(ids[0], ")" + rest);
    case RecurseFilter(link, from, role) =>
      NoBraceInRole(role, ")" + rest);
      NoBraceInShortFrom(from, ShortRole(role, ")" + rest));
      NoBraceInWord(LinkText(link), ShortFrom(from, ShortRole(role, ")" + rest)));
    case Around(radius, from, position) =>
      NoBraceInPosition(radius, position, rest);
      NoBraceInShortFrom(from, ":" + PrintNumber(radius, PrintPosition(position, rest)));
    case User(_, names) => NoBraceInShorts(names, ")" + rest);
    case _ =>
  }

  lemma NoBraceInPosition(radius: real, position: Option<(real, real)>, rest: string)
    requires IsDecimal(radius) && (position.Some? ==> PositionOk(position.value)) && NoBrace(rest)
    ensures NoBrace(PrintNumber(radius, PrintPosition(position, rest)))
  {
    hide PrintNumber, IsDecimal;
    if position.Some? {
      NoBraceInNumber(position.value.1, ")" + rest);
      NoBraceInNumber(position.value.0, "," + PrintNumber(position.value.1, ")" + rest));
    }
    NoBraceInNumber(radius, PrintPosition(position, rest));
  }

  lemma {:induction false} NoBraceInShortFilters(lib: Library, filters: seq<Filter>, rest: string)
    requires (forall i :: 0 <= i < |filters| ==> FilterOk(lib, filters[i])) && NoBrace(rest)
    ensures NoBrace(ShortFilters(lib, filters, rest))
    decreases |filters|
  {
    hide FilterOk, ShortFilter;
    if |filters| > 0 {
      NoBraceInShortFilters(lib, filters[1..], rest);
      NoBraceInShortFilter(lib, filters[0], ShortFilters(lib, filters[1..], rest));
    }
  }

  lemma NoBraceInShortInto(into: string, rest: string)
    requires IsIdentifier(into) && NoBrace(rest)
    ensures NoBrace(ShortInto(into, rest))
  {
    NoBraceInName(into, ";" + rest);
  }

  lemma NoBraceInOptions(st: Statement, rest: string)
    requires st.Print? && NoBrace(rest)
    ensures NoBrace(ShortOptions(st, rest))
  {
    hide PrintInt, ModeText, GeometryText, Limited;
    ShortOptionsAre(st, rest);
    hide ShortOptions;
    NoBraceInLimit(st.limit, rest);
    var ordered := OrderedText(st.order, Limited(st.limit, rest));
    var none := Print("_", Body, None, Asc, None);
    GeometryIsWord(none, st.geometry.GetOr(Geom));
    NoBraceInName(GeometryText(st.geometry.GetOr(Geom)), ordered);
    ModeIsWord(none, st.mode);
    NoBraceInName(ModeText(st.mode), DrawnText(st.geometry, ordered));
  }

  lemma NoBraceInLimit(limit: Option<nat>, rest: string)
    requires NoBrace(rest)
    ensures NoBrace(Limited(limit, rest))
  {
    if limit.Some? {
      NoBraceInInt(limit.value, ";" + rest);
    }
    hide PrintInt;
  }

  lemma NoBraceInShortOut(st: Statement, rest: string)
    requires st.Print? && IsIdentifier(st.from) && NoBrace(rest)
    ensures NoBrace(ShortOut(st, rest))
  {
    hide ShortOptions;
    NoBraceInOptions(st, rest);
    NoBraceInName(st.from, " " + ("out" + ShortOptions(st, rest)));
  }

  lemma {:induction false} NoBraceInShortStatement(lib: Library, st: Statement, inUnion: bool, rest: string)
    requires StatementOk(lib, st, inUnion) && NoBrace(rest)
    ensures NoBrace(ShortStatement(lib, st, inUnion, rest))
    decreases st
  {
    hide FilterOk, ShortFilters, ShortInto, ShortOut, ShortTypes, ShortFrom, PrintInto;
    match st
    case Query(types, filters, into) =>
      NoBraceInShortInto(into, rest);
      NoBraceInShortFilters(lib, filters, ShortInto(into, rest));
      ShortTypesAre(types);
      NoBraceInName(ShortTypes(types), ShortFilters(lib, filters, ShortInto(into, rest)));
    case Item(from, into) =>
      if into.Some? {
        NoBraceInInto(into.value, rest);
      }
      NoBraceInName(from, if into.Some? then PrintInto(into.value, rest) else ";" + rest);
    case Union(statements, into) =>
      NoBraceInShortInto(into, rest);
      NoBraceInShortStatements(lib, statements, true, ")" + ShortInto(into, rest));
    case Difference(first, second, into) =>
      NoBraceInShortInto(into, rest);
      NoBraceInShortStatement(lib, second, true, ")" + ShortInto(into, rest));
      NoBraceInShortStatement(lib, first, true, "-" + ShortStatement(lib, second, true, ")" + ShortInto(into, rest)));
    case Recurse(kind, from, into) =>
      NoBraceInShortInto(into, rest);
      NoBraceInWord(SymbolText(kind), ShortInto(into, rest));
      NoBraceInShortFrom(from, SymbolText(kind) + ShortInto(into, rest));
    case Print(_, _, _, _, _) =>
      NoBraceInShortOut(st, rest);
  }

  lemma {:induction false} NoBraceInShortStatements(lib: Library, statements: seq<Statement>, inUnion: bool, rest: string)
    requires StatementsOk(lib, statements, inUnion) && NoBrace(rest)
    ensures NoBrace(ShortStatements(lib, statements, inUnion, rest))
    decreases statements
  {
    hide StatementOk, ShortStatement;
    if |statements| > 0 {
      NoBraceInShortStatements(lib, statements[1..], inUnion, rest);
      NoBraceInShortStatement(lib, statements[0], inUnion, ShortStatements(lib, statements[1..], inUnion, rest));
    }
  }

  lemma NoBraceInShortSettings(script: Script, rest: string)
    requires SettingsOk(script) && NoBrace(rest)
    ensures NoBrace(ShortSettings(script, rest))
  {
    hide PrintInt, PrintBox, ShortOutput, BoxOk;
    if script.bbox.Some? {
      NoBraceInBox(script.bbox.value, "]" + rest);
    }
    var boxText := PrintBoxSetting(script, rest);
    if script.maxsize.Some? {
      NoBraceInInt(script.maxsize.value, "]" + boxText);
    }
    var sizeText := PrintNatSetting("maxsize", script.maxsize, boxText);
    if script.timeout.Some? {
      NoBraceInInt(script.timeout.value, "]" + sizeText);
    }
    NoBraceInShortOutput(script.output, PrintNatSetting("timeout", script.timeout, sizeText));
  }

  lemma NoBraceInShortOutput(output: OutputFormat, rest: string)
    requires (output.Csv? ==> |output.columns| > 0) && NoBrace(rest)
    ensures NoBrace(ShortOutput(output, rest))
  {
    hide ShortColumns, PrintQuoted;
    if output.Csv? {
      var end := ")" + ("]" + rest);
      NoBraceInQuoted(output.separator, end);
      NoBraceInColumns(output.columns, ShortCsvOptions(output.header, output.separator, end));
    }
  }

  // ----- The whole -----

  lemma {:induction false} ShortStatementsRead(lib: Library, statements: seq<Statement>, read: seq<Statement>)
    requires StatementsOk(lib, statements, false) && StatementsOk(lib, read, false)
    ensures Statements(lib, ShortStatements(lib, statements, false, ""), read) == Success(read + statements)
    decreases |statements|
  {
    hide StatementOk, ShortStatement, ParseStatement;
    if |statements| == 0 {
      assert read + statements == read;
    } else {
      var st, others := statements[0], statements[1..];
      var tail := ShortStatements(lib, others, false, "");
      ShortStatementRead(lib, st, false, tail);
      ShortStatementBegins(lib, st, false, tail);
      SkipClean(ShortStatement(lib, st, false, tail));
      ShortStatementsRead(lib, others, read + [st]);
      assert (read + [st]) + others == read + statements;
    }
  }

  lemma ShortHeaderRead(script: Script, rest: string)
    requires SettingsOk(script) && !SetsNothing(script) && rest != "" && rest[0] == ';'
    ensures Header(ShortSettings(script, rest)) == Success((script.(statements := []), rest[1..]))
    ensures ShortSettings(script, rest) != "" && ShortSettings(script, rest)[0] == '['
  {
    hide ShortSettings, Settings, Peek, Expect, SettingsOk, SetsNothing;
    ShortSettingsRead(script, rest);
    ShortSettingsBegin(script, rest);
    var s := ShortSettings(script, rest);
    assert s == "[" + s[1..];
    AcceptYes("[", s[1..]);
    assert rest == ";" + rest[1..];
    AcceptYes(";", rest[1..]);
  }

  lemma ShortSettingsBegin(script: Script, rest: string)
    requires SettingsOk(script) && !SetsNothing(script)
    ensures ShortSettings(script, rest) != "" && ShortSettings(script, rest)[0] == '['
  {
    hide PrintInt, PrintBox, ShortColumns;
  }

  lemma XmlBegins(i: nat)
    requires i < |XML_ELEMENTS|
    ensures |XML_ELEMENTS[i]| > 0 && (XML_ELEMENTS[i][0] == '?' || 'a' <= XML_ELEMENTS[i][0] <= 'z')
  {
    if i < 8 {
      assert i == 0 || i == 1 || i == 2 || i == 3 || i == 4 || i == 5 || i == 6 || i == 7;
    } else {
      assert i == 8 || i == 9 || i == 10 || i == 11 || i == 12 || i == 13 || i == 14 || i == 15;
    }
  }

  /** A text that begins with an arrow upwards is not of another language. */
  lemma UpIsNotXml(lib: Library, text: string)
    requires text != "" && !IsSpace(text[0])
    requires text[0] == '<' ==> |text| > 1 && (text[1] == '<' || text[1] == ';' || text[1] == '-')
    ensures !IsXml(lib, text)
  {
    assert AfterSpaces(text) == text;
    if text[0] == '<' {
      assert text[1..][0] == text[1] && AfterSpaces(text[1..]) == text[1..];
      forall i | 0 <= i < |XML_ELEMENTS|
        ensures !(XML_ELEMENTS[i] <= text[1..])
      {
        XmlBegins(i);
      }
    }
  }

  /** A text that begins as a statement does is not of another language. */
  lemma StatementIsNotXml(lib: Library, st: Statement, rest: string)
    requires StatementOk(lib, st, false)
    ensures
      var text := ShortStatement(lib, st, false, rest);
      !IsXml(lib, text) && Peek(text, "[") == Success((false, text))
  {
    var text := ShortStatement(lib, st, false, rest);
    ShortStatementBegins(lib, st, false, rest);
    UpBegins(lib, st, rest);
    hide ShortStatement, Peek, Accept, IsXml, StatementOk;
    AcceptOther(text, "[");
    UpIsNotXml(lib, text);
  }

  lemma UpBegins(lib: Library, st: Statement, rest: string)
    requires StatementOk(lib, st, false)
    ensures
      var text := ShortStatement(lib, st, false, rest);
      text != "" && (text[0] == '<' ==> |text| > 1 && (text[1] == '<' || text[1] == ';' || text[1] == '-'))
  {
    hide ShortFilters, ShortStatements, FilterOk, ShortOptions, PrintInto, IsIdentifier;
    match st
    case Query(types, filters, into) =>
      ShortTypesAre(types);
      assert ShortStatement(lib, st, false, rest)[0] == ShortTypes(types)[0];
    case Recurse(kind, from, into) => assert ShortInto(into, rest)[0] == '-' || ShortInto(into, rest)[0] == ';';
    case _ =>
  }

  /** What is read of a script's short text before its statements. */
  lemma ShortHeadersRead(lib: Library, script: Script)
    requires ScriptOk(lib, script)
    ensures
      var statements := ShortStatements(lib, script.statements, false, "");
      !IsXml(lib, ShortScript(lib, script)) && Header(ShortScript(lib, script)) == Success((script.(statements := []), statements))
  {
    hide ShortStatement, ShortSettings, Settings, Peek, Expect, StatementOk, SettingsOk;
    var statements := ShortStatements(lib, script.statements, false, "");
    if SetsNothing(script) {
      var others := ShortStatements(lib, script.statements[1..], false, "");
      assert statements == ShortStatement(lib, script.statements[0], false, others);
      StatementIsNotXml(lib, script.statements[0], others);
      NothingSet(script);
    } else {
      ShortHeaderRead(script, ";" + statements);
      assert (";" + statements)[1..] == statements;
      BracketIsNotXml(lib, ShortScript(lib, script));
    }
  }

  lemma BracketIsNotXml(lib: Library, text: string)
    requires text != "" && text[0] == '['
    ensures !IsXml(lib, text)
  {
  }

  lemma ShortHasNoBraces(lib: Library, script: Script)
    requires ScriptOk(lib, script)
    ensures !Contains(ShortScript(lib, script), "{{")
  {
    hide ShortStatements, ShortSettings, StatementsOk, SettingsOk, Contains;
    NoBraceInShortStatements(lib, script.statements, false, "");
    NoBraceInShortSettings(script, ";" + ShortStatements(lib, script.statements, false, ""));
    BracesAreBraces(ShortScript(lib, script));
  }

  /** Every script is read from its short text. */
  lemma ShortTextIsRead(lib: Library, script: Script)
    requires ScriptOk(lib, script)
    ensures Parse(lib, ShortScript(lib, script)) == Success(script)
  {
    hide ShortScript, ShortStatements, StatementsOk, SettingsOk, Contains, Header, Statements, IsXml;
    ShortHasNoBraces(lib, script);
    ShortHeadersRead(lib, script);
    NoneAreOk(lib);
    ShortStatementsRead(lib, script.statements, []);
    assert [] + script.statements == script.statements;
  }

  lemma NoneAreOk(lib: Library)
    ensures StatementsOk(lib, [], false)
  {
  }

  lemma NothingSet(script: Script)
    requires SetsNothing(script)
    ensures script.(statements := []) == NO_SETTINGS
  {
  }

  // ----- Examples -----

  /** A script of one query without a target and an out statement without a set. */
  function QueryAndOut(id: int): Script {
    Script([Query([Node], [IdQuery([id])], "_"), Print("_", Body, None, Asc, None)], Xml, None, None, None, false)
  }

  lemma QueryAndOutIsOk(lib: Library, id: int)
    requires 0 <= id < MAX_ID
    ensures ScriptOk(lib, QueryAndOut(id))
  {
    var script := QueryAndOut(id);
    assert IsIdentifier("_");
    assert StatementOk(lib, script.statements[0], false) && StatementOk(lib, script.statements[1], false);
  }

  lemma ShortOutIs()
    ensures ShortOut(Print("_", Body, None, Asc, None), "") == "out;"
  {
  }

  lemma QueryAndOutText(lib: Library, id: int)
    requires 0 <= id < MAX_ID && ScriptOk(lib, QueryAndOut(id))
    ensures ShortScript(lib, QueryAndOut(id)) == "node(" + (Digits(id) + ");out;")
  {
    var script := QueryAndOut(id);
    var query, out := script.statements[0], script.statements[1];
    hide Digits, ShortOut, StatementOk;
    ShortOutIs();
    assert script.statements[1..] == [out] && [out][1..] == [];
    assert ShortStatements(lib, [], false, "") == "";
    assert ShortStatements(lib, [out], false, "") == "out;";
    assert query.filters[1..] == [];
    assert ShortFilters(lib, query.filters, ";out;") == "(" + (Digits(id) + (")" + ";out;"));
    assert ")" + ";out;" == ");out;" && ";" + "out;" == ";out;";
    assert ShortTypes([Node]) == "node" by {
      assert [Node] != [Relation] by {
        assert [Node][0] != [Relation][0];
      }
    }
    assert ShortStatement(lib, query, false, "out;") == "node" + ShortFilters(lib, query.filters, ";out;");
    assert ShortStatements(lib, script.statements, false, "") == ShortStatement(lib, query, false, "out;");
    assert "node" + ("(" + (Digits(id) + ");out;")) == "node(" + (Digits(id) + ");out;");
  }

  /** For example, a query of one ID that names no set, and an out statement that names
      none: what is found is what is printed. */
  lemma DefaultSetIsPrinted(lib: Library, id: int)
    requires 0 <= id < MAX_ID
    ensures Parse(lib, "node(" + (Digits(id) + ");out;")) ==
      Success(Script([Query([Node], [IdQuery([id])], "_"), Print("_", Body, None, Asc, None)], Xml, None, None, None, false))
  {
    QueryAndOutIsOk(lib, id);
    QueryAndOutText(lib, id);
    ShortTextIsRead(lib, QueryAndOut(id));
    hide Parse, ShortScript, ScriptOk, Digits;
  }
}
