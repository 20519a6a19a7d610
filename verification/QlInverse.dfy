/** Printing and parsing a whole query are inverse. */
module QlInverse {
  import opened Wrappers
  import opened Ql
  import opened QlText
  import opened QlTrees
  import opened QlGrammar
  import opened QlScripts
  import opened QlPrinting
  import opened QlTokens
  import opened QlRoundTrip
  import opened QlReadBack

  // ----- Statements -----

  /** What begins a statement's text: neither space, nor an end, nor a minus. */
  predicate Begins(s: string) {
    s != "" && (s[0] == '(' || s[0] == '.' || 'a' <= s[0] <= 'z')
  }

  lemma StatementBegins(lib: Library, st: Statement, inUnion: bool, rest: string)
    requires StatementOk(lib, st, inUnion)
    ensures Begins(PrintStatement(lib, st, inUnion, rest))
  {
    hide PrintFilters, PrintStatements, PrintInto, FilterOk;
    if st.Query? {
      TypesAre(st.types);
    }
  }

  lemma {:induction false} StatementRead(lib: Library, st: Statement, inUnion: bool, rest: string)
    requires StatementOk(lib, st, inUnion)
    ensures ParseStatement(lib, PrintStatement(lib, st, inUnion, rest), inUnion) == Success((st, rest))
    decreases st, 1
  {
    hide SimpleStatement, UnionRest, PrintFilters, PrintStatements, PrintInto, FilterOk, PrintOut, Accept;
    StatementBegins(lib, st, inUnion, rest);
    var s := PrintStatement(lib, st, inUnion, rest);
    AcceptFirst(s, "(");
    match st
    case Query(types, filters, into) =>
      TypesAre(types);
      QueryRead(lib, types, filters, into, rest);
    case Item(from, into) => ItemRead(lib, from, into, inUnion, rest);
    case Union(_, _) => UnionRead(lib, st, inUnion, rest);
    case Difference(_, _, _) => DifferenceRead(lib, st, inUnion, rest);
    case Recurse(kind, from, into) => RecurseRead(lib, kind, from, into, inUnion, rest);
    case Print(_, _, _, _, _) =>
      OutRead(lib, st, rest);
      OutBegins(st, rest);
  }

  lemma OutBegins(st: Statement, rest: string)
    requires st.Print?
    ensures PrintOut(st, rest) != "" && PrintOut(st, rest)[0] == '.'
  {
  }

  lemma CloseRead(lib: Library, statements: seq<Statement>, difference: bool, into: string, rest: string)
    requires StatementsOk(lib, statements, true) && IsIdentifier(into) && |statements| > 0
    requires difference ==> |statements| == 2
    ensures
      UnionRest(lib, ")" + PrintInto(into, rest), statements, difference) ==
      Success((if difference then Difference(statements[0], statements[1], into) else Union(statements, into), rest))
  {
    hide Accept, Into, PrintInto, Expect, ParseStatement, StatementOk;
    AcceptYes(")", PrintInto(into, rest));
    IntoRead(into, rest);
  }

  /** One statement of a union. */
  lemma MemberRead(lib: Library, st: Statement, tail: string, read: seq<Statement>, difference: bool)
    requires StatementOk(lib, st, true) && StatementsOk(lib, read, true) && !difference
    requires ParseStatement(lib, PrintStatement(lib, st, true, tail), true) == Success((st, tail))
    ensures StatementsOk(lib, read + [st], true)
    ensures UnionRest(lib, PrintStatement(lib, st, true, tail), read, false) == UnionRest(lib, tail, read + [st], false)
  {
    hide Accept, ParseStatement, PrintStatement, StatementOk, CloseUnion;
    StatementBegins(lib, st, true, tail);
    var s := PrintStatement(lib, st, true, tail);
    AcceptFirst(s, ")");
    AcceptFirst(s, "-");
  }

  lemma {:induction false} MembersRead(lib: Library, statements: seq<Statement>, end: string, read: seq<Statement>)
    requires StatementsOk(lib, statements, true) && StatementsOk(lib, read, true)
    ensures StatementsOk(lib, read + statements, true)
    ensures UnionRest(lib, PrintStatements(lib, statements, true, end), read, false) == UnionRest(lib, end, read + statements, false)
    decreases statements
  {
    hide StatementOk, PrintStatement, ParseStatement, UnionRest;
    if |statements| == 0 {
      assert read + statements == read;
    } else {
      var st, others := statements[0], statements[1..];
      var tail := PrintStatements(lib, others, true, end);
      StatementRead(lib, st, true, tail);
      MemberRead(lib, st, tail, read, false);
      MembersRead(lib, others, end, read + [st]);
      assert (read + [st]) + others == read + statements;
    }
  }

  lemma {:induction false} UnionRead(lib: Library, st: Statement, inUnion: bool, rest: string)
    requires st.Union? && StatementOk(lib, st, inUnion)
    ensures UnionRest(lib, PrintStatement(lib, st, inUnion, rest)[1..], [], false) == Success((st, rest))
    decreases st, 0
  {
    var end := ")" + PrintInto(st.into, rest);
    assert PrintStatement(lib, st, inUnion, rest)[1..] == PrintStatements(lib, st.statements, true, end);
    hide PrintInto, UnionRest, PrintStatements;
    MembersRead(lib, st.statements, end, []);
    assert [] + st.statements == st.statements;
    CloseRead(lib, st.statements, false, st.into, rest);
  }

  /** The second side of a difference. */
  lemma SecondRead(lib: Library, first: Statement, second: Statement, tail: string)
    requires StatementOk(lib, first, true) && StatementOk(lib, second, true)
    requires ParseStatement(lib, PrintStatement(lib, second, true, tail), true) == Success((second, tail))
    ensures StatementsOk(lib, [first] + [second], true)
    ensures UnionRest(lib, "-" + PrintStatement(lib, second, true, tail), [first], false) ==
      UnionRest(lib, tail, [first] + [second], true)
  {
    hide Accept, ParseStatement, PrintStatement, StatementOk, CloseUnion;
    var s := "-" + PrintStatement(lib, second, true, tail);
    AcceptFirst(s, ")");
    AcceptYes("-", PrintStatement(lib, second, true, tail));
  }

  lemma {:induction false} DifferenceRead(lib: Library, st: Statement, inUnion: bool, rest: string)
    requires st.Difference? && StatementOk(lib, st, inUnion)
    ensures UnionRest(lib, PrintStatement(lib, st, inUnion, rest)[1..], [], false) == Success((st, rest))
    decreases st, 0
  {
    var end := ")" + PrintInto(st.into, rest);
    var tail := "-" + PrintStatement(lib, st.second, true, end);
    assert PrintStatement(lib, st, inUnion, rest)[1..] == PrintStatement(lib, st.first, true, tail);
    hide PrintInto, UnionRest, PrintStatement, ParseStatement;
    StatementRead(lib, st.first, true, tail);
    StatementRead(lib, st.second, true, end);
    MemberRead(lib, st.first, tail, [], false);
    assert [] + [st.first] == [st.first];
    SecondRead(lib, st.first, st.second, end);
    CloseRead(lib, [st.first] + [st.second], true, st.into, rest);
  }

  lemma {:induction false} StatementsRead(lib: Library, statements: seq<Statement>, read: seq<Statement>)
    requires StatementsOk(lib, statements, false) && StatementsOk(lib, read, false)
    ensures Statements(lib, PrintStatements(lib, statements, false, ""), read) == Success(read + statements)
    decreases |statements|
  {
    hide StatementOk, PrintStatement, ParseStatement;
    if |statements| == 0 {
      assert read + statements == read;
    } else {
      var st, others := statements[0], statements[1..];
      var tail := PrintStatements(lib, others, false, "");
      StatementRead(lib, st, false, tail);
      StatementBegins(lib, st, false, tail);
      SkipClean(PrintStatement(lib, st, false, tail));
      StatementsRead(lib, others, read + [st]);
      assert (read + [st]) + others == read + statements;
    }
  }

  // ----- Settings -----

  /** One setting, given once. */
  lemma SettingRead(name: string, value: string, rest: string, script: Script, seen: set<string>, with: Script)
    requires SettingsOk(script) && BoxSeen(script, seen) && IsIdentifier(name)
    requires name !in UNSUPPORTED_SETTINGS && name !in seen
    requires Setting(value, name, script) == Success((with, "]" + rest))
    ensures SettingsOk(with) && BoxSeen(with, seen + {name})
    ensures Settings("[" + (name + (":" + value)), script, seen) == Settings(rest, with, seen + {name})
  {
    hide Accept, Expect, Identifier, Setting, SettingsOk;
    AcceptYes("[", name + (":" + value));
    IdentifierRead(name, ":" + value);
    AcceptOther(":" + value, "]");
    AcceptYes(":", value);
    AcceptYes("]", rest);
  }

  lemma BoxFromUrlRead(rest: string, script: Script, seen: set<string>)
    requires SettingsOk(script) && BoxSeen(script, seen) && "bbox" !in seen
    ensures Settings("[" + ("bbox" + ("]" + rest)), script, seen) == Settings(rest, script.(bboxFromUrl := true), seen + {"bbox"})
  {
    hide Accept, Expect, Identifier, Setting;
    AcceptYes("[", "bbox" + ("]" + rest));
    IdentifierRead("bbox", "]" + rest);
    AcceptYes("]", rest);
  }

  lemma ColumnsRead(columns: seq<string>, rest: string)
    requires |columns| > 0 && Separates(rest) && rest[0] != ','
    ensures Items(CsvField, PrintTexts(columns, rest)) == Success((columns, rest))
  {
    hide CsvField, PrintQuoted, Items, PrintTexts;
    forall text, s
      ensures CsvField(PrintQuoted(text, s)) == Success((text, s))
    {
      FieldRead(text, s);
    }
    TextsRead(columns, rest, CsvField);
  }

  lemma FieldRead(text: string, rest: string)
    ensures CsvField(PrintQuoted(text, rest)) == Success((text, rest))
  {
    hide Accept, PrintQuoted, TextValue, SpecialName;
    PrintQuotedClean(text, rest);
    AcceptOther(PrintQuoted(text, rest), "::");
    QuotedRead(text, rest);
  }

  lemma CsvOptionsRead(header: bool, separator: string, rest: string)
    ensures CsvOptions(";" + ((if header then "true" else "false") + (";" + PrintQuoted(separator, ")" + rest)))) ==
      Success(((header, separator), ")" + rest))
  {
    hide Accept, Identifier, Quoted, PrintQuoted;
    var word := if header then "true" else "false";
    var quoted := PrintQuoted(separator, ")" + rest);
    AcceptYes(";", word + (";" + quoted));
    IdentifierRead(word, ";" + quoted);
    AcceptYes(";", quoted);
    QuotedRead(separator, ")" + rest);
  }

  lemma CsvRead(columns: seq<string>, header: bool, separator: string, rest: string)
    requires |columns| > 0
    ensures
      var options := ";" + ((if header then "true" else "false") + (";" + PrintQuoted(separator, ")" + rest)));
      CsvFormat("(" + PrintTexts(columns, options)) == Success((Csv(columns, header, separator), rest))
  {
    hide Expect, Items, CsvOptions, PrintTexts, PrintQuoted;
    var options := ";" + ((if header then "true" else "false") + (";" + PrintQuoted(separator, ")" + rest)));
    AcceptYes("(", PrintTexts(columns, options));
    ColumnsRead(columns, options);
    CsvOptionsRead(header, separator, rest);
    AcceptYes(")", rest);
  }

  lemma OutputRead(output: OutputFormat, rest: string)
    requires output.Csv? ==> |output.columns| > 0
    requires rest != "" && rest[0] == ']'
    ensures OutSetting(PrintOutput(output, rest)) == Success((output, rest))
  {
    hide Identifier, CsvFormat, PrintTexts, PrintQuoted;
    match output
    case Xml => IdentifierRead("xml", rest);
    case Json => IdentifierRead("json", rest);
    case Csv(columns, header, separator) =>
      var options := ";" + ((if header then "true" else "false") + (";" + PrintQuoted(separator, ")" + rest)));
      IdentifierRead("csv", "(" + PrintTexts(columns, options));
      CsvRead(columns, header, separator, rest);
  }

  lemma NumberThenComma(x: real, rest: string)
    requires IsDecimal(x)
    ensures NumberHere(PrintNumber(x, "," + rest)) == Success((x, "," + rest)) && Expect("," + rest, ",") == Success(rest)
  {
    hide PrintNumber, IsDecimal;
    NumberRead(x, "," + rest);
    AcceptYes(",", rest);
  }

  lemma BoxSettingRead(b: Bbox, rest: string)
    requires BoxOk(b)
    ensures BoxSetting(PrintBox(b, "]" + rest)) == Success((b, "]" + rest))
  {
    hide PrintNumber, NumberHere, Expect, IsDecimal, Number, Accept, Peek, CheckBox;
    var end := "]" + rest;
    var t3 := PrintNumber(b.3, end);
    var t2 := PrintNumber(b.2, "," + t3);
    var t1 := PrintNumber(b.1, "," + t2);
    NumberRead(b.3, end);
    NumberThenComma(b.2, t3);
    NumberThenComma(b.1, t2);
    NumberThenComma(b.0, t1);
    CheckedBox(b);
  }

  lemma CheckedBox(b: Bbox)
    requires InRange(b)
    ensures CheckBox((b.0, b.1, b.2, b.3)) == Success(b)
  {
  }

  lemma BoxSettingsRead(script: Script, rest: string, before: Script, seen: set<string>)
    requires SettingsOk(script) && SettingsOk(before) && BoxSeen(before, seen) && "bbox" !in seen
    requires rest != "" && rest[0] == ';'
    ensures Settings(PrintBoxSetting(script, rest), before, seen) ==
      Success((before.(bbox := script.bbox, bboxFromUrl := script.bboxFromUrl), rest))
  {
    hide PrintBox, BoxSetting, IsDecimal;
    if script.bboxFromUrl {
      BoxFromUrlRead(rest, before, seen);
      NoMoreSettings(rest, before.(bboxFromUrl := true), seen + {"bbox"});
    } else if script.bbox.Some? {
      BoxSettingRead(script.bbox.value, rest);
      SettingRead("bbox", PrintBox(script.bbox.value, "]" + rest), rest, before, seen, before.(bbox := script.bbox));
      NoMoreSettings(rest, before.(bbox := script.bbox), seen + {"bbox"});
    } else {
      NoMoreSettings(rest, before, seen);
    }
  }

  lemma NoMoreSettings(rest: string, script: Script, seen: set<string>)
    requires SettingsOk(script) && BoxSeen(script, seen) && rest != "" && rest[0] == ';'
    ensures Settings(rest, script, seen) == Success((script, rest))
  {
    hide Accept, Identifier, Setting;
    AcceptFirst(rest, "[");
  }

  lemma NumberSettingRead(name: string, value: Option<nat>, rest: string, before: Script, seen: set<string>, with: Script)
    requires SettingsOk(before) && BoxSeen(before, seen) && name !in seen && name in {"timeout", "maxsize"}
    requires with == if name == "timeout" then before.(timeout := value) else before.(maxsize := value)
    requires value.None? ==> with == before
    ensures SettingsOk(with) && BoxSeen(with, if value.Some? then seen + {name} else seen)
    ensures Settings(PrintNatSetting(name, value, rest), before, seen) ==
      Settings(rest, with, if value.Some? then seen + {name} else seen)
  {
    hide PrintInt, Run, Settings, IntOf, Digits;
    if value.Some? {
      WholeRead(value.value, "]" + rest);
      SettingRead(name, PrintInt(value.value, "]" + rest), rest, before, seen, with);
    }
  }

  lemma SettingsRead(script: Script, rest: string)
    requires SettingsOk(script) && rest != "" && rest[0] == ';'
    ensures Settings(PrintSettings(script, rest), NO_SETTINGS, {}) == Success((script.(statements := []), rest))
  {
    hide Settings, PrintOutput, PrintNatSetting, PrintBoxSetting, SettingsOk, OutSetting;
    var boxText := PrintBoxSetting(script, rest);
    var sizeText := PrintNatSetting("maxsize", script.maxsize, boxText);
    var timeText := PrintNatSetting("timeout", script.timeout, sizeText);
    var s1 := NO_SETTINGS.(output := script.output);
    var s2 := s1.(timeout := script.timeout);
    var s3 := s2.(maxsize := script.maxsize);
    FirstIsOk(script);
    OutputRead(script.output, "]" + timeText);
    SettingRead("out", PrintOutput(script.output, "]" + timeText), timeText, NO_SETTINGS, {}, s1);
    var seen1: set<string> := {} + {"out"};
    var seen2 := if script.timeout.Some? then seen1 + {"timeout"} else seen1;
    var seen3 := if script.maxsize.Some? then seen2 + {"maxsize"} else seen2;
    NumberSettingRead("timeout", script.timeout, sizeText, s1, seen1, s2);
    NumberSettingRead("maxsize", script.maxsize, boxText, s2, seen2, s3);
    BoxSettingsRead(script, rest, s3, seen3);
  }

  lemma FirstIsOk(script: Script)
    requires SettingsOk(script)
    ensures SettingsOk(NO_SETTINGS) && (script.output.Csv? ==> |script.output.columns| > 0)
  {
  }

  // ----- No braces -----

  lemma NoBraceInWord(word: string, rest: string)
    requires (forall i :: 0 <= i < |word| ==> word[i] != '{') && NoBrace(rest)
    ensures NoBrace(word + rest)
  {
  }

  lemma NoBraceInInt(n: int, rest: string)
    requires NoBrace(rest)
    ensures NoBrace(PrintInt(n, rest))
  {
    NoBraceInWord(Digits(Abs(n)), rest);
  }

  lemma NoBraceInNumber(x: real, rest: string)
    requires IsDecimal(x) && NoBrace(rest)
    ensures NoBrace(PrintNumber(x, rest))
  {
    var m, e :| x == Scale(m, e) && PrintNumber(x, rest) == PrintInt(m, "e" + PrintInt(e, rest));
    hide Scale, PrintInt, PrintNumber;
    NoBraceInInt(e, rest);
    NoBraceInInt(m, "e" + PrintInt(e, rest));
  }

  lemma {:induction false} NoBraceInBody(text: string, rest: string)
    requires NoBrace(rest)
    ensures NoBrace(PrintBody(text, rest))
  {
    if text != "" {
      NoBraceInBody(text[1..], rest);
    }
  }

  lemma NoBraceInQuoted(text: string, rest: string)
    requires NoBrace(rest)
    ensures NoBrace(PrintQuoted(text, rest))
  {
    NoBraceInBody(text, "\"" + rest);
  }

  lemma NoBraceInDate(lib: Library, t: int, rest: string)
    requires DateOk(lib, t) && NoBrace(rest)
    ensures NoBrace(PrintDate(lib, t, rest))
  {
    var text :| lib.readDate(text) == Some(t) && PrintDate(lib, t, rest) == PrintQuoted(text, rest);
    NoBraceInQuoted(text, rest);
  }

  lemma {:induction false} NoBraceInMoreIds(ids: seq<int>, rest: string)
    requires NoBrace(rest)
    ensures NoBrace(PrintMoreIds(ids, rest))
  {
    hide PrintInt;
    if |ids| > 0 {
      NoBraceInMoreIds(ids[1..], rest);
      NoBraceInInt(ids[0], PrintMoreIds(ids[1..], rest));
    }
  }

  lemma {:induction false} NoBraceInMoreTexts(texts: seq<string>, rest: string)
    requires NoBrace(rest)
    ensures NoBrace(PrintMoreTexts(texts, rest))
  {
    hide PrintQuoted;
    if |texts| > 0 {
      NoBraceInMoreTexts(texts[1..], rest);
      NoBraceInQuoted(texts[0], PrintMoreTexts(texts[1..], rest));
    }
  }

  lemma NoBraceInLists(ids: seq<int>, texts: seq<string>, rest: string)
    requires NoBrace(rest)
    ensures |ids| > 0 ==> NoBrace(PrintIds(ids, rest))
    ensures |texts| > 0 ==> NoBrace(PrintTexts(texts, rest))
  {
    hide PrintInt, PrintQuoted;
    if |ids| > 0 {
      NoBraceInMoreIds(ids[1..], rest);
      NoBraceInInt(ids[0], PrintMoreIds(ids[1..], rest));
    }
    if |texts| > 0 {
      NoBraceInMoreTexts(texts[1..], rest);
      NoBraceInQuoted(texts[0], PrintMoreTexts(texts[1..], rest));
    }
  }

  lemma NoBraceInBox(b: Bbox, rest: string)
    requires BoxOk(b) && NoBrace(rest)
    ensures NoBrace(PrintBox(b, rest))
  {
    hide PrintNumber, IsDecimal;
    var t3 := PrintNumber(b.3, rest);
    var t2 := PrintNumber(b.2, "," + t3);
    NoBraceInNumber(b.3, rest);
    NoBraceInNumber(b.2, "," + t3);
    NoBraceInNumber(b.1, "," + t2);
    NoBraceInNumber(b.0, "," + PrintNumber(b.1, "," + t2));
  }

  lemma NoBraceInKv(f: Filter, rest: string)
    requires f.HasKv? && NoBrace(rest)
    ensures NoBrace(PrintKv(f, rest))
  {
    hide PrintQuoted;
    var closed := "]" + rest;
    NoBraceInQuoted(f.key, closed);
    var option := if f.ignoreCase then ",i" + closed else closed;
    NoBraceInQuoted(f.value, option);
    NoBraceInWord(OperatorText(f.mode), PrintQuoted(f.value, option));
    NoBraceInQuoted(f.key, OperatorText(f.mode) + PrintQuoted(f.value, option));
  }

  lemma NoBraceInName(name: string, rest: string)
    requires IsIdentifier(name) && NoBrace(rest)
    ensures NoBrace(name + rest)
  {
    assert forall i :: 0 <= i < |name| ==> IsWordChar(name[i]);
    NoBraceInWord(name, rest);
  }

  lemma NoBraceInLink(link: Link, from: string, role: Option<string>, rest: string)
    requires IsIdentifier(from) && NoBrace(rest)
    ensures
      var text := if role.Some? then ":" + PrintQuoted(role.value, ")" + rest) else ")" + rest;
      NoBrace("(" + (LinkText(link) + ("." + (from + text))))
  {
    hide PrintQuoted;
    var text := if role.Some? then ":" + PrintQuoted(role.value, ")" + rest) else ")" + rest;
    if role.Some? {
      NoBraceInQuoted(role.value, ")" + rest);
    }
    NoBraceInName(from, text);
    NoBraceInWord(LinkText(link), "." + (from + text));
  }

  lemma NoBraceInAround(from: string, radius: real, position: Option<(real, real)>, rest: string)
    requires IsIdentifier(from) && IsDecimal(radius) && (position.Some? ==> PositionOk(position.value)) && NoBrace(rest)
    ensures NoBrace("(" + ("around" + ("." + (from + (":" + PrintNumber(radius, PrintPosition(position, rest)))))))
  {
    hide PrintNumber, IsDecimal;
    if position.Some? {
      NoBraceInNumber(position.value.1, ")" + rest);
      NoBraceInNumber(position.value.0, "," + PrintNumber(position.value.1, ")" + rest));
    }
    NoBraceInNumber(radius, PrintPosition(position, rest));
    NoBraceInName(from, ":" + PrintNumber(radius, PrintPosition(position, rest)));
  }

  lemma NoBraceInFilter(lib: Library, f: Filter, rest: string)
    requires FilterOk(lib, f) && NoBrace(rest)
    ensures NoBrace(PrintFilter(lib, f, rest))
  {
    hide PrintKv, PrintBox, PrintIds, PrintTexts, PrintQuoted, PrintDate, PrintNumber, PrintPosition, DateOk, BoxOk, IsDecimal;
    match f
    case HasKv(_, _, _, _) => NoBraceInKv(f, rest);
    case BboxQuery(south, west, north, east) => NoBraceInBox((south, west, north, east), ")" + rest);
    case IdQuery(ids) => NoBraceInLists(ids, [], ")" + rest);
    case ItemFilter(from) => NoBraceInName(from, rest);
    case RecurseFilter(link, from, role) => NoBraceInLink(link, from, role, rest);
    case Around(radius, from, position) => NoBraceInAround(from, radius, position, rest);
    case User(uids, names) => NoBraceInLists(uids, names, ")" + rest);
    case Newer(than) => NoBraceInDate(lib, than, ")" + rest);
    case Changed(since, until) =>
      if until.Some? {
        NoBraceInDate(lib, until.value, ")" + rest);
      }
      NoBraceInDate(lib, since, if until.Some? then "," + PrintDate(lib, until.value, ")" + rest) else ")" + rest);
  }

  lemma {:induction false} NoBraceInFilters(lib: Library, filters: seq<Filter>, rest: string)
    requires (forall i :: 0 <= i < |filters| ==> FilterOk(lib, filters[i])) && NoBrace(rest)
    ensures NoBrace(PrintFilters(lib, filters, rest))
    decreases |filters|
  {
    hide FilterOk, PrintFilter;
    if |filters| > 0 {
      NoBraceInFilters(lib, filters[1..], rest);
      NoBraceInFilter(lib, filters[0], PrintFilters(lib, filters[1..], rest));
    }
  }

  lemma NoBraceInInto(into: string, rest: string)
    requires IsIdentifier(into) && NoBrace(rest)
    ensures NoBrace(PrintInto(into, rest))
  {
    NoBraceInName(into, ";" + rest);
  }

  lemma NoBraceInOut(st: Statement, rest: string)
    requires st.Print? && IsIdentifier(st.from) && NoBrace(rest)
    ensures NoBrace(PrintOut(st, rest))
  {
    hide PrintInt, ModeText, GeometryText, OrderText;
    if st.limit.Some? {
      NoBraceInInt(st.limit.value, ";" + rest);
    }
    var tail := " " + (OrderText(st.order) + PrintLimit(st.limit, rest));
    var none := Print(st.from, Body, None, Asc, None);
    ModeIsWord(none, st.mode);
    GeometryIsWord(none, st.geometry.GetOr(Geom));
    OrderIsWord(none, st.order);
    NoBraceInName(OrderText(st.order), PrintLimit(st.limit, rest));
    NoBraceInName(GeometryText(st.geometry.GetOr(Geom)), tail);
    NoBraceInName(ModeText(st.mode), PrintGeometry(st.geometry, tail));
    NoBraceInName(st.from, " " + ("out" + (" " + (ModeText(st.mode) + PrintGeometry(st.geometry, tail)))));
  }

  lemma {:induction false} NoBraceInStatement(lib: Library, st: Statement, inUnion: bool, rest: string)
    requires StatementOk(lib, st, inUnion) && NoBrace(rest)
    ensures NoBrace(PrintStatement(lib, st, inUnion, rest))
    decreases st
  {
    hide FilterOk, PrintFilters, PrintInto, PrintOut, TypesText;
    match st
    case Query(types, filters, into) =>
      NoBraceInInto(into, rest);
      NoBraceInFilters(lib, filters, PrintInto(into, rest));
      TypesAre(types);
      NoBraceInName(TypesText(types), PrintFilters(lib, filters, PrintInto(into, rest)));
    case Item(from, into) =>
      if into.Some? {
        NoBraceInInto(into.value, rest);
      }
      NoBraceInName(from, if into.Some? then PrintInto(into.value, rest) else ";" + rest);
    case Union(statements, into) =>
      NoBraceInInto(into, rest);
      NoBraceInStatements(lib, statements, true, ")" + PrintInto(into, rest));
    case Difference(first, second, into) =>
      NoBraceInInto(into, rest);
      NoBraceInStatement(lib, second, true, ")" + PrintInto(into, rest));
      NoBraceInStatement(lib, first, true, "-" + PrintStatement(lib, second, true, ")" + PrintInto(into, rest)));
    case Recurse(kind, from, into) =>
      NoBraceInInto(into, rest);
      NoBraceInWord(SymbolText(kind), PrintInto(into, rest));
      NoBraceInName(from, SymbolText(kind) + PrintInto(into, rest));
    case Print(_, _, _, _, _) =>
      NoBraceInOut(st, rest);
  }

  lemma {:induction false} NoBraceInStatements(lib: Library, statements: seq<Statement>, inUnion: bool, rest: string)
    requires StatementsOk(lib, statements, inUnion) && NoBrace(rest)
    ensures NoBrace(PrintStatements(lib, statements, inUnion, rest))
    decreases statements
  {
    hide StatementOk, PrintStatement;
    if |statements| > 0 {
      NoBraceInStatements(lib, statements[1..], inUnion, rest);
      NoBraceInStatement(lib, statements[0], inUnion, PrintStatements(lib, statements[1..], inUnion, rest));
    }
  }

  lemma NoBraceInOutput(output: OutputFormat, rest: string)
    requires (output.Csv? ==> |output.columns| > 0) && NoBrace(rest)
    ensures NoBrace(PrintOutput(output, rest))
  {
    hide PrintTexts, PrintQuoted;
    if output.Csv? {
      NoBraceInQuoted(output.separator, ")" + rest);
      var options := ";" + ((if output.header then "true" else "false") + (";" + PrintQuoted(output.separator, ")" + rest)));
      NoBraceInLists([], output.columns, options);
    }
  }

  lemma NoBraceInSettings(script: Script, rest: string)
    requires SettingsOk(script) && NoBrace(rest)
    ensures NoBrace(PrintSettings(script, rest))
  {
    hide PrintInt, PrintBox, PrintOutput, BoxOk;
    if script.bbox.Some? {
      NoBraceInBox(script.bbox.value, "]" + rest);
    }
    var boxText := PrintBoxSetting(script, rest);
    if script.maxsize.Some? {
      NoBraceInInt(script.maxsize.value, "]" + boxText);
    }
    var sizeText := PrintNatSetting("maxsize", script.maxsize, boxText);
    if script.timeout.Some? {
      NoBraceInInt(script.timeout.value, "]" + sizeText);
    }
    NoBraceInOutput(script.output, "]" + PrintNatSetting("timeout", script.timeout, sizeText));
  }

  lemma {:induction false} BracesAreBraces(text: string)
    ensures Contains(text, "{{") ==> !NoBrace(text)
  {
    if "{{" <= text {
      assert text[0] == '{';
    } else if text != "" {
      BracesAreBraces(text[1..]);
    }
  }

  // ----- The whole -----

  lemma SettingsBegin(script: Script, rest: string)
    requires SettingsOk(script)
    ensures PrintSettings(script, rest) != "" && PrintSettings(script, rest)[0] == '['
  {
    hide PrintOutput, PrintNatSetting, PrintBoxSetting;
  }

  lemma HeaderRead(script: Script, rest: string)
    requires SettingsOk(script) && rest != "" && rest[0] == ';'
    ensures Header(PrintSettings(script, rest)) == Success((script.(statements := []), rest[1..]))
  {
    hide PrintSettings, Settings, Peek, Expect, SettingsOk;
    SettingsRead(script, rest);
    SettingsBegin(script, rest);
    var s := PrintSettings(script, rest);
    assert s == "[" + s[1..];
    AcceptYes("[", s[1..]);
    assert rest == ";" + rest[1..];
    AcceptYes(";", rest[1..]);
  }

  /** A script is read back from its text, exactly. */
  lemma TextIsReadBack(lib: Library, script: Script)
    requires ScriptOk(lib, script)
    ensures Parse(lib, Text(lib, script)) == Success(script)
  {
    var statements := PrintStatements(lib, script.statements, false, "");
    var text := Text(lib, script);
    hide PrintStatements, Header, Statements, StatementsOk, SettingsOk, Contains;
    NoBraceInStatements(lib, script.statements, false, "");
    NoBraceInSettings(script, ";" + statements);
    BracesAreBraces(text);
    assert text[0] == '[';
    HeaderRead(script, ";" + statements);
    StatementsRead(lib, script.statements, []);
    assert [] + script.statements == script.statements;
  }

  /** So what any text was read as can be printed, and read again as the same. */
  lemma ParsedIsPrintable(lib: Library, text: string)
    requires Parse(lib, text).Success?
    ensures
      var script := Parse(lib, text).value;
      ScriptOk(lib, script) && Parse(lib, Text(lib, script)) == Parse(lib, text)
  {
    hide Parse, Text;
    TextIsReadBack(lib, Parse(lib, text).value);
  }
}
