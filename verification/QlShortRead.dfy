/** Every short spelling of a statement is read as the statement. */
module QlShortRead {
  import opened Wrappers
  import opened Osm
  import opened Ql
  import opened QlText
  import opened QlTrees
  import opened QlGrammar
  import opened QlPrinting
  import opened QlShorthand
  import opened QlTokens
  import opened QlLexemes
  import opened QlRoundTrip
  import opened QlReadBack

  // ----- Values -----

  lemma BareAreWords(text: string)
    requires IsBare(text)
    ensures |text| > 0 && forall i :: 0 <= i < |text| ==> IsWordChar(text[i])
  {
  }

  lemma BareClean(text: string, rest: string)
    requires IsBare(text)
    ensures Clean(text + rest) && (text + rest)[0] == text[0]
    ensures text[0] != '"' && text[0] != '\'' && text[0] != '~' && text[0] != '!'
    ensures text[0] != ':' && text[0] != '.' && text[0] != '[' && text[0] != ']'
  {
  }

  /** Something after which a word has ended. */
  predicate EndsWord(s: string) {
    s != "" && !IsWordChar(s[0])
  }

  lemma ShortTextRead(text: string, rest: string)
    requires EndsWord(rest)
    ensures TextValue(ShortText(text, rest)) == Success((text, rest))
    ensures ShortText(text, rest) != "" && Clean(ShortText(text, rest)) && ShortText(text, rest)[0] !in {'~', '!', ':', ']', '['}
  {
    if IsBare(text) {
      BareAreWords(text);
      BareClean(text, rest);
      NotQuoted(text + rest);
      RunRead(text, rest, IsWordChar);
    } else {
      QuotedRead(text, rest);
      PrintQuotedClean(text, rest);
    }
    hide Quoted, Run, PrintQuoted, IsBare;
  }

  lemma NotQuoted(s: string)
    requires Clean(s) && s != "" && s[0] != '"' && s[0] != '\''
    ensures Quoted(s) == Success((None, s))
  {
    SkipClean(s);
    hide Skip;
  }

  lemma {:induction false} MoreShortTextsRead(texts: seq<string>, rest: string, read: seq<string>)
    requires Separates(rest) && rest[0] != ','
    ensures MoreItems(TextValue, MoreShortTexts(texts, rest), read) == Success((read + texts, rest))
    ensures Separates(MoreShortTexts(texts, rest))
    decreases |texts|
  {
    hide Accept, ShortText, TextValue;
    SeparatesIsClean(rest);
    if |texts| == 0 {
      AcceptOther(rest, ",");
      assert read + texts == read;
    } else {
      var tail := MoreShortTexts(texts[1..], rest);
      MoreShortTextsRead(texts[1..], rest, read + [texts[0]]);
      SeparatesIsClean(tail);
      AcceptYes(",", ShortText(texts[0], tail));
      ShortTextRead(texts[0], tail);
      assert (read + [texts[0]]) + texts[1..] == read + texts;
    }
  }

  lemma ShortTextsRead(texts: seq<string>, rest: string)
    requires |texts| > 0 && Separates(rest) && rest[0] != ','
    ensures Items(TextValue, ShortTexts(texts, rest)) == Success((texts, rest))
  {
    hide MoreItems, ShortText, TextValue;
    var tail := MoreShortTexts(texts[1..], rest);
    MoreShortTextsRead(texts[1..], rest, [texts[0]]);
    SeparatesIsClean(tail);
    ShortTextRead(texts[0], tail);
    assert [texts[0]] + texts[1..] == texts;
  }

  // ----- Tag filters -----

  lemma ShortOperatorRead(mode: TagMode, value: string)
    requires !mode.Exists? && !mode.NotExists? && value != "" && Clean(value)
    ensures
      var s := ShortOperator(mode) + value;
      TagOperator(s) == Success((mode, value)) && Accept(s, "]") == Success((false, s)) && EndsWord(s)
  {
    hide Accept;
    var s := ShortOperator(mode) + value;
    AcceptYes(ShortOperator(mode), value);
    AcceptOther(s, "]");
    match mode
    case NotEquals =>
    case NotMatches =>
      assert s[1] == '~';
      AcceptNo(s, "!=");
    case Matches =>
      AcceptOther(s, "!=");
      AcceptOther(s, "!~");
    case Equals =>
      AcceptOther(s, "!=");
      AcceptOther(s, "!~");
      AcceptOther(s, "~");
  }

  lemma ShortKeyRead(key: string, rest: string)
    requires EndsWord(rest)
    ensures
      var s := ShortText(key, rest);
      Peek(s, "~") == Success((false, s)) && Accept(s, "!") == Success((false, s)) && TextValue(s) == Success((key, rest))
  {
    ShortTextRead(key, rest);
    AcceptOther(ShortText(key, rest), "~");
    AcceptOther(ShortText(key, rest), "!");
    hide *;
  }

  lemma ShortKvRead(lib: Library, f: Filter, rest: string)
    requires f.HasKv? && FilterOk(lib, f)
    ensures ShortKv(f, rest) != "" && ShortKv(f, rest)[0] == '[' && TagFilter(lib, ShortKv(f, rest)[1..]) == Success((f, rest))
  {
    var closed := "]" + rest;
    AcceptYes("]", rest);
    match f.mode
    case Exists =>
      ShortKeyRead(f.key, closed);
      hide Accept, ShortText, TextValue, Peek, Expect;
      assert ShortKv(f, rest)[1..] == ShortText(f.key, closed);
    case NotExists =>
      var s := "!" + ShortText(f.key, closed);
      AcceptYes("!", ShortText(f.key, closed));
      AcceptOther(s, "~");
      ShortTextRead(f.key, closed);
      hide Accept, ShortText, TextValue, Peek, Expect;
      assert ShortKv(f, rest)[1..] == s;
    case _ =>
      var option := if f.ignoreCase then ",i" + closed else closed;
      var after := ShortOperator(f.mode) + ShortText(f.value, option);
      ShortTextRead(f.value, option);
      ShortOperatorRead(f.mode, ShortText(f.value, option));
      ShortKeyRead(f.key, after);
      CaseRead(f.mode, f.ignoreCase, rest);
      hide Accept, ShortText, TextValue, Peek, Expect, TagOperator, ShortOperator, CaseOption;
      assert ShortKv(f, rest)[1..] == ShortText(f.key, after);
  }

  // ----- Filters in round brackets -----

  /** One ID alone: it is a number, and read again as an ID. */
  lemma OneIdRead(lib: Library, id: int, rest: string)
    requires 0 <= id < MAX_ID
    ensures RoundFilter(lib, PrintInt(id, ")" + rest)) == Success((IdQuery([id]), rest))
  {
    var s, end := PrintInt(id, ")" + rest), ")" + rest;
    IdIsANumber(id, end);
    NoIdentifier(s);
    NoMoreNumbers(end, [NumberHere(s).value.0]);
    AcceptYes(")", rest);
    ObjectIdRead(id, end);
    hide PrintInt, Number, NumberHere, Accept, Expect, MoreItems, PeekWord, ObjectId, IntOf, Digits;
  }

  lemma IdIsANumber(id: int, rest: string)
    requires 0 <= id && Separates(rest)
    ensures NumberHere(PrintInt(id, rest)).Success? && NumberHere(PrintInt(id, rest)).value.1 == rest
    ensures PrintInt(id, rest) != "" && Clean(PrintInt(id, rest)) && !IsWordStart(PrintInt(id, rest)[0])
  {
    hide NumberAt, Skip, NumeralValue, NumeralText, NumeralOk, NumeralEnds, Digits, IsDecimal;
    var n := Numeral("", Digits(id), None, None);
    IdIsNumeral(id, rest);
    NumeralRead(n, rest);
    SkipClean(PrintInt(id, rest));
  }

  lemma IdIsNumeral(id: int, rest: string)
    requires 0 <= id && Separates(rest)
    ensures
      var n := Numeral("", Digits(id), None, None);
      NumeralOk(n) && NumeralEnds(n, rest) && NumeralText(n) + rest == PrintInt(id, rest)
    ensures PrintInt(id, rest) != "" && Clean(PrintInt(id, rest)) && !IsWordStart(PrintInt(id, rest)[0])
  {
    hide PowerOk, BeginsPower;
    SeparatesIsClean(rest);
    var digits := Digits(id);
    assert PrintInt(id, rest) == digits + rest && PrintInt(id, rest)[0] == digits[0] && IsDigit(digits[0]);
    assert "" + (digits + ("" + "")) == digits;
    NoPowerBegins(rest);
    hide Digits;
  }

  lemma NoPowerBegins(rest: string)
    requires rest == "" || (rest[0] != 'e' && rest[0] != 'E')
    ensures !BeginsPower(rest)
  {
  }

  lemma ShortFromRead(from: string, rest: string)
    requires IsIdentifier(from) && Separates(rest)
    ensures FilterSet(ShortFrom(from, rest)) == Success((from, rest))
    ensures ShortFrom(from, rest) != "" && !IsWordChar(ShortFrom(from, rest)[0])
  {
    SeparatesIsClean(rest);
    if from == "_" {
      AcceptOther(rest, ".");
      assert "_" == DEFAULT_SET;
    } else {
      FilterSetRead(from, rest);
    }
    hide Accept, SetName;
  }

  lemma NoNumber(s: string)
    requires Clean(s) && s != "" && !IsDigit(s[0]) && s[0] !in {'+', '-', '.'}
    ensures Number(s) == Success((None, s))
  {
    SkipClean(s);
    assert Span(s, IsDigit) == 0 && s[0..] == s;
    hide Skip;
  }

  lemma ShortRoleRead(role: Option<string>, rest: string)
    ensures
      var text := ShortRole(role, ")" + rest);
      Role(text) == Success((role, ")" + rest)) && Separates(text)
  {
    var end := ")" + rest;
    if role.None? {
      AcceptOther(end, ":");
    } else if IsBare(role.value) && !('0' <= role.value[0] <= '9') {
      var s := role.value + end;
      BareAreWords(role.value);
      BareClean(role.value, end);
      AcceptYes(":", s);
      NotQuoted(s);
      NoNumber(s);
      RunRead(role.value, end, IsWordChar);
    } else {
      AcceptYes(":", PrintQuoted(role.value, end));
      QuotedRead(role.value, end);
    }
    hide Accept, Quoted, Number, Run, PrintQuoted, IsBare;
  }

  /** The word of a filter, and what follows it. */
  lemma ShortWordRead(word: string, rest: string)
    requires IsIdentifier(word) && EndsWord(rest)
    ensures PeekWord(word + rest) == Success((Some(word), word + rest)) && (word + rest)[|word|..] == rest
  {
    IdentifierRead(word, rest);
  }

  lemma ShortLinkRead(lib: Library, link: Link, from: string, role: Option<string>, rest: string)
    requires IsIdentifier(from)
    ensures RoundFilter(lib, LinkText(link) + ShortFrom(from, ShortRole(role, ")" + rest))) ==
      Success((RecurseFilter(link, from, role), rest))
  {
    hide PeekWord, Expect, FilterSet, Role, LinkOf, LinkText, ShortRole, ShortFrom;
    var text := ShortRole(role, ")" + rest);
    ShortRoleRead(role, rest);
    ShortFromRead(from, text);
    AcceptYes(")", rest);
    LinkIsWord(link);
    ShortWordRead(LinkText(link), ShortFrom(from, text));
  }

  lemma AroundAfterWord(lib: Library, from: string, radius: real, position: Option<(real, real)>, rest: string)
    requires IsIdentifier(from) && IsDecimal(radius) && radius >= 0.0
    requires position.Some? ==> PositionOk(position.value) && from == DEFAULT_SET
    ensures AroundFilter(lib, ShortFrom(from, ":" + PrintNumber(radius, PrintPosition(position, rest)))) ==
      Success((Around(radius, from, position), rest))
  {
    hide PrintPosition, PrintNumber, Expect, FilterSet, NumberHere, AroundRest, IsDecimal, PositionOk, ShortFrom;
    var end := PrintPosition(position, rest);
    PositionRead(lib, from, radius, position, rest);
    SeparatesIsClean(end);
    NumberRead(radius, end);
    AcceptYes(":", PrintNumber(radius, end));
    ShortFromRead(from, ":" + PrintNumber(radius, end));
  }

  lemma AroundOnWord(lib: Library, rest: string)
    requires EndsWord(rest)
    ensures RoundFilter(lib, "around" + rest) == AroundFilter(lib, rest)
  {
    hide AroundFilter, PeekWord, LinkOf;
    ShortWordRead("around", rest);
    NoLink();
  }

  lemma ShortAroundRead(lib: Library, from: string, radius: real, position: Option<(real, real)>, rest: string)
    requires IsIdentifier(from) && IsDecimal(radius) && radius >= 0.0
    requires position.Some? ==> PositionOk(position.value) && from == DEFAULT_SET
    ensures RoundFilter(lib, "around" + ShortFrom(from, ":" + PrintNumber(radius, PrintPosition(position, rest)))) ==
      Success((Around(radius, from, position), rest))
  {
    hide PrintPosition, PrintNumber, AroundFilter, RoundFilter, IsDecimal, PositionOk, ShortFrom;
    var text := ":" + PrintNumber(radius, PrintPosition(position, rest));
    AroundAfterWord(lib, from, radius, position, rest);
    ShortFromRead(from, text);
    AroundOnWord(lib, ShortFrom(from, text));
  }

  lemma NoLink()
    ensures LinkOf("around").None? && LinkOf("user").None?
  {
  }

  lemma ShortUsersRead(lib: Library, names: seq<string>, rest: string)
    requires |names| > 0
    ensures RoundFilter(lib, "user" + (":" + ShortTexts(names, ")" + rest))) == Success((User([], names), rest))
  {
    hide ShortTexts, PeekWord, Expect, Items, LinkOf;
    var text := ShortTexts(names, ")" + rest);
    WordRead("user", ":" + text);
    AcceptYes(":", text);
    ShortTextsRead(names, ")" + rest);
    AcceptYes(")", rest);
    NoLink();
  }

  /** The rest of a filter's short text after its opening round bracket. */
  lemma ShortRoundRead(lib: Library, f: Filter, rest: string)
    requires FilterOk(lib, f) && !f.HasKv? && !f.ItemFilter?
    ensures ShortFilter(lib, f, rest) != "" && ShortFilter(lib, f, rest)[0] == '('
    ensures RoundFilter(lib, ShortFilter(lib, f, rest)[1..]) == Success((f, rest))
  {
    hide RoundFilter, PrintFilter, PrintNumber, PrintPosition, ShortTexts, ShortFrom, ShortRole, BoxOk, DateOk, IsDecimal, PrintInt;
    match f
    case IdQuery(ids) =>
      if |ids| == 1 {
        OneIdRead(lib, ids[0], rest);
        assert ids == [ids[0]] && ShortFilter(lib, f, rest)[1..] == PrintInt(ids[0], ")" + rest);
      } else {
        RoundRead(lib, f, rest);
      }
    case RecurseFilter(link, from, role) =>
      ShortLinkRead(lib, link, from, role, rest);
      assert ShortFilter(lib, f, rest)[1..] == LinkText(link) + ShortFrom(from, ShortRole(role, ")" + rest));
    case Around(radius, from, position) =>
      ShortAroundRead(lib, from, radius, position, rest);
      assert ShortFilter(lib, f, rest)[1..] == "around" + ShortFrom(from, ":" + PrintNumber(radius, PrintPosition(position, rest)));
    case User(uids, names) =>
      if names == [] {
        RoundRead(lib, f, rest);
      } else {
        ShortUsersRead(lib, names, rest);
        assert ShortFilter(lib, f, rest)[1..] == "user" + (":" + ShortTexts(names, ")" + rest));
      }
    case _ => RoundRead(lib, f, rest);
  }

  /** What may follow a filter in a short text. */
  predicate AfterShort(s: string) {
    s != "" && s[0] in {'[', '(', '.', '-', ';'}
  }

  /** Every well-formed filter is read from its short text. */
  lemma ShortFilterRead(lib: Library, f: Filter, rest: string)
    requires FilterOk(lib, f) && AfterShort(rest)
    ensures OneFilter(lib, ShortFilter(lib, f, rest)) == Success((Some(f), rest))
    ensures AfterShort(ShortFilter(lib, f, rest))
  {
    hide Accept, FilterOk, TagFilter, RoundFilter, ShortKv, SetName;
    var s := ShortFilter(lib, f, rest);
    if f.HasKv? {
      ShortKvRead(lib, f, rest);
      ShortKvIs(lib, f, rest);
      AcceptFirst(s, "[");
    } else if f.ItemFilter? {
      ItemIs(lib, f, rest);
      ShortItemIs(lib, f, rest);
      AcceptFirst(s, "[");
      AcceptFirst(s, "(");
      AcceptFirst(s, ".");
      IdentifierRead(f.from, rest);
      hide ShortFilter;
      assert s[1..] == f.from + rest;
    } else {
      ShortRoundRead(lib, f, rest);
      hide ShortFilter;
      AcceptFirst(s, "[");
      AcceptFirst(s, "(");
    }
  }

  lemma ShortKvIs(lib: Library, f: Filter, rest: string)
    requires f.HasKv? && FilterOk(lib, f)
    ensures ShortFilter(lib, f, rest) == ShortKv(f, rest)
  {
    hide ShortKv;
  }

  lemma ShortItemIs(lib: Library, f: Filter, rest: string)
    requires f.ItemFilter? && FilterOk(lib, f)
    ensures ShortFilter(lib, f, rest) == PrintFilter(lib, f, rest)
  {
    hide PrintFilter;
  }

  lemma {:induction false} ShortFiltersRead(lib: Library, filters: seq<Filter>, rest: string, read: seq<Filter>)
    requires (forall i :: 0 <= i < |filters| ==> FilterOk(lib, filters[i])) && rest != "" && (rest[0] == '-' || rest[0] == ';')
    requires forall i :: 0 <= i < |read| ==> FilterOk(lib, read[i])
    ensures Filters(lib, ShortFilters(lib, filters, rest), read) == Success((read + filters, rest))
    ensures AfterShort(ShortFilters(lib, filters, rest))
    decreases |filters|
  {
    hide FilterOk, OneFilter, ShortFilter;
    if |filters| == 0 {
      NoShortFilter(lib, rest);
      assert read + filters == read;
    } else {
      ShortFiltersRead(lib, filters[1..], rest, read + [filters[0]]);
      ShortFilterRead(lib, filters[0], ShortFilters(lib, filters[1..], rest));
      assert (read + [filters[0]]) + filters[1..] == read + filters;
    }
  }

  lemma NoShortFilter(lib: Library, rest: string)
    requires rest != "" && (rest[0] == '-' || rest[0] == ';')
    ensures OneFilter(lib, rest) == Success((None, rest))
  {
    hide Accept, TagFilter, RoundFilter, SetName;
    AcceptFirst(rest, "[");
    AcceptFirst(rest, "(");
    AcceptFirst(rest, ".");
  }

  // ----- Statements -----

  lemma ShortIntoRead(into: string, rest: string)
    requires IsIdentifier(into)
    ensures Into(ShortInto(into, rest)) == Success((into, ";" + rest))
    ensures Expect(";" + rest, ";") == Success(rest)
    ensures ShortInto(into, rest) != "" && (ShortInto(into, rest)[0] == '-' || ShortInto(into, rest)[0] == ';')
  {
    if into == "_" {
      AcceptOther(";" + rest, "->");
      AcceptYes(";", rest);
    } else {
      IntoRead(into, rest);
    }
    hide Accept, SetName;
  }

  lemma ShortTypesAre(types: seq<Kind>)
    requires TypesOk(types)
    ensures IsIdentifier(ShortTypes(types)) && TypesOf(ShortTypes(types)) == Some(types) && ShortTypes(types) != "out"
    ensures 'a' <= ShortTypes(types)[0] <= 'z'
  {
  }

  lemma ShortWordBegins(word: string, rest: string)
    requires IsIdentifier(word) && 'a' <= word[0] <= 'z' && EndsWord(rest)
    ensures
      var s := word + rest;
      FromSet(s) == Success((None, s)) && RecurseSymbol(s) == Success((None, s)) && PeekWord(s) == Success((Some(word), s))
  {
    hide Accept, PeekWord;
    var s := word + rest;
    NoSymbol(s);
    AcceptOther(s, ".");
    IdentifierRead(word, rest);
  }

  lemma ShortQueryRead(lib: Library, types: seq<Kind>, filters: seq<Filter>, into: string, rest: string)
    requires TypesOk(types) && IsIdentifier(into) && forall i :: 0 <= i < |filters| ==> FilterOk(lib, filters[i])
    ensures
      var text := ShortTypes(types) + ShortFilters(lib, filters, ShortInto(into, rest));
      SimpleStatement(lib, text, true) == Success((Query(types, filters, into), rest))
      && SimpleStatement(lib, text, false) == Success((Query(types, filters, into), rest))
  {
    hide Accept, Expect, FilterOk, Filters, ShortFilters, Into, ShortInto, PeekWord, ShortTypes, TypesOf, PrintRest;
    ShortIntoRead(into, rest);
    ShortFiltersRead(lib, filters, ShortInto(into, rest), []);
    assert [] + filters == filters;
    var tail := ShortFilters(lib, filters, ShortInto(into, rest));
    ShortTypesAre(types);
    ShortWordBegins(ShortTypes(types), tail);
    assert (ShortTypes(types) + tail)[|ShortTypes(types)|..] == tail;
  }

  lemma ShortSymbolRead(kind: RecurseType, rest: string)
    requires rest != "" && (rest[0] == '-' || rest[0] == ';')
    ensures RecurseSymbol(SymbolText(kind) + rest) == Success((Some(kind), rest))
  {
    hide Accept;
    var s := SymbolText(kind) + rest;
    AcceptYes(SymbolText(kind), rest);
    match kind
    case UpRel =>
    case DownRel =>
      AcceptOther(s, "<<");
    case Up =>
      assert s[1] == rest[0];
      AcceptNo(s, "<<");
      AcceptOther(s, ">>");
    case Down =>
      assert s[1] == rest[0];
      AcceptOther(s, "<<");
      AcceptNo(s, ">>");
      AcceptOther(s, "<");
  }

  lemma SymbolBegins(kind: RecurseType, rest: string)
    ensures
      var s := SymbolText(kind) + rest;
      s != "" && (s[0] == '<' || s[0] == '>') && FromSet(s) == Success((None, s))
  {
    AcceptOther(SymbolText(kind) + rest, ".");
    hide Accept, SetName;
  }

  lemma ShortRecurseRead(lib: Library, kind: RecurseType, from: string, into: string, inUnion: bool, rest: string)
    requires IsIdentifier(from) && IsIdentifier(into)
    ensures
      SimpleStatement(lib, ShortFrom(from, SymbolText(kind) + ShortInto(into, rest)), inUnion) ==
      Success((Recurse(kind, from, into), rest))
  {
    hide Accept, Expect, Into, ShortInto, FromSet, RecurseSymbol, PeekWord, WordStatement, SymbolText;
    ShortIntoRead(into, rest);
    ShortSymbolRead(kind, ShortInto(into, rest));
    SymbolBegins(kind, ShortInto(into, rest));
    if from == "_" {
      assert "_" == DEFAULT_SET;
    } else {
      FromRead(from, SymbolText(kind) + ShortInto(into, rest));
    }
  }

  // ----- Out statements -----

  function Limited(limit: Option<nat>, rest: string): string {
    if limit.Some? then " " + PrintInt(limit.value, ";" + rest) else ";" + rest
  }

  function OrderedText(order: PrintOrder, rest: string): string {
    if order == Asc then rest else " " + ("qt" + rest)
  }

  function DrawnText(geometry: Option<Geometry>, rest: string): string {
    if geometry == None then rest else " " + (GeometryText(geometry.value) + rest)
  }

  lemma LimitedBegins(limit: Option<nat>, rest: string)
    ensures Limited(limit, rest) == PrintLimit(limit, rest) && AfterOption(Limited(limit, rest))
  {
    hide PrintInt;
  }

  lemma OrderedRead(order: PrintOrder, limit: Option<nat>, rest: string, st: Statement, given: set<Group>)
    requires st.Print? && st.order == Asc && st.limit.None? && OrderGroup !in given && LimitGroup !in given
    requires CountsAlone(st.(limit := limit))
    ensures PrintOptions(OrderedText(order, Limited(limit, rest)), st, given) ==
      Success((st.(order := order, limit := limit), rest))
    ensures AfterOption(OrderedText(order, Limited(limit, rest)))
  {
    hide PrintOptions, PrintOption, Limited;
    LimitedBegins(limit, rest);
    if order == Asc {
      LimitAndEndRead(limit, rest, st, given);
    } else {
      var with := st.(order := Qt);
      OrderIsWord(st, Qt);
      OptionRead("qt", Limited(limit, rest), st, given, OrderGroup, with);
      LimitAndEndRead(limit, rest, with, given + {OrderGroup});
    }
  }

  lemma DrawnRead(geometry: Option<Geometry>, order: PrintOrder, limit: Option<nat>, rest: string, st: Statement, given: set<Group>)
    requires st.Print? && st.geometry.None? && st.order == Asc && st.limit.None? && given <= {ModeGroup}
    requires CountsAlone(st.(geometry := geometry, limit := limit))
    ensures
      var text := DrawnText(geometry, OrderedText(order, Limited(limit, rest)));
      && PrintOptions(text, st, given) == Success((st.(geometry := geometry, order := order, limit := limit), rest))
      && AfterOption(text)
  {
    hide PrintOptions, PrintOption, Limited, OrderedText, GeometryText;
    var ordered := OrderedText(order, Limited(limit, rest));
    var with := st.(geometry := geometry);
    if geometry.Some? {
      GeometryIsWord(st, geometry.value);
      OrderedRead(order, limit, rest, with, given + {GeometryGroup});
      OptionRead(GeometryText(geometry.value), ordered, st, given, GeometryGroup, with);
    } else {
      OrderedRead(order, limit, rest, with, given);
    }
  }

  lemma ShortOptionsAre(st: Statement, rest: string)
    requires st.Print?
    ensures
      var drawn := DrawnText(st.geometry, OrderedText(st.order, Limited(st.limit, rest)));
      ShortOptions(st, rest) == if st.mode == Body then drawn else " " + (ModeText(st.mode) + drawn)
  {
    hide PrintInt, GeometryText, ModeText;
  }

  lemma ShortOptionsRead(lib: Library, st: Statement, rest: string)
    requires st.Print? && IsIdentifier(st.from) && CountsAlone(st)
    ensures PrintRest(lib, ShortOptions(st, rest), st.from) == Success((st, rest))
    ensures AfterOption(ShortOptions(st, rest))
  {
    hide PrintOptions, PrintOption, Limited, OrderedText, DrawnText, ModeText;
    var none := Print(st.from, Body, None, Asc, None);
    var drawn := DrawnText(st.geometry, OrderedText(st.order, Limited(st.limit, rest)));
    ShortOptionsAre(st, rest);
    if st.mode == Body {
      DrawnRead(st.geometry, st.order, st.limit, rest, none, {});
    } else {
      var with := none.(mode := st.mode);
      ModeIsWord(none, st.mode);
      DrawnRead(st.geometry, st.order, st.limit, rest, with, {} + {ModeGroup});
      OptionRead(ModeText(st.mode), drawn, none, {}, ModeGroup, with);
    }
  }

  /** Every well-formed out statement is read from its short text. */
  lemma ShortOutRead(lib: Library, st: Statement, rest: string)
    requires st.Print? && StatementOk(lib, st, false)
    ensures SimpleStatement(lib, ShortOut(st, rest), false) == Success((st, rest))
  {
    hide Accept, FromSet, PeekWord, PrintRest, ShortOptions, ItemRest, QueryRest;
    var options := ShortOptions(st, rest);
    ShortOptionsRead(lib, st, rest);
    EndsAtOption(options);
    assert ("out" + options)[3..] == options;
    if st.from == "_" {
      ShortWordBegins("out", options);
      assert "_" == DEFAULT_SET;
    } else {
      FromRead(st.from, " " + ("out" + options));
      NoSymbolAfterSpace("out" + options);
      IdentifierRead("out", options);
    }
  }

  lemma EndsAtOption(s: string)
    requires AfterOption(s)
    ensures EndsWord(s)
  {
  }

  // ----- Nested statements -----

  /** What begins a statement's short text. */
  predicate ShortBegins(s: string) {
    s != "" && (s[0] == '(' || s[0] == '.' || s[0] == '<' || s[0] == '>' || 'a' <= s[0] <= 'z')
  }

  lemma ShortStatementBegins(lib: Library, st: Statement, inUnion: bool, rest: string)
    requires StatementOk(lib, st, inUnion)
    ensures ShortBegins(ShortStatement(lib, st, inUnion, rest))
  {
    hide ShortFilters, ShortStatements, ShortInto, FilterOk, ShortOptions, PrintInto;
    if st.Query? {
      ShortTypesAre(st.types);
    }
  }

  lemma {:induction false} ShortStatementRead(lib: Library, st: Statement, inUnion: bool, rest: string)
    requires StatementOk(lib, st, inUnion)
    ensures ParseStatement(lib, ShortStatement(lib, st, inUnion, rest), inUnion) == Success((st, rest))
    decreases st, 1
  {
    hide SimpleStatement, UnionRest, ShortFilters, ShortStatements, ShortInto, FilterOk, ShortOut, Accept, ShortFrom, PrintInto;
    ShortStatementBegins(lib, st, inUnion, rest);
    var s := ShortStatement(lib, st, inUnion, rest);
    AcceptFirst(s, "(");
    match st
    case Query(types, filters, into) =>
      ShortTypesAre(types);
      ShortQueryRead(lib, types, filters, into, rest);
    case Item(from, into) => ItemRead(lib, from, into, inUnion, rest);
    case Union(_, _) => ShortUnionRead(lib, st, inUnion, rest);
    case Difference(_, _, _) => ShortDifferenceRead(lib, st, inUnion, rest);
    case Recurse(kind, from, into) =>
      ShortRecurseRead(lib, kind, from, into, inUnion, rest);
      RecurseBegins(kind, from, ShortInto(into, rest));
    case Print(_, _, _, _, _) =>
      ShortOutRead(lib, st, rest);
      ShortOutBegins(st, rest);
  }

  lemma RecurseBegins(kind: RecurseType, from: string, rest: string)
    ensures
      var s := ShortFrom(from, SymbolText(kind) + rest);
      s != "" && s[0] != '(' && Clean(s)
  {
  }

  lemma ShortOutBegins(st: Statement, rest: string)
    requires st.Print?
    ensures ShortOut(st, rest) != "" && ShortOut(st, rest)[0] != '(' && Clean(ShortOut(st, rest))
  {
    hide ShortOptions;
  }

  lemma ShortCloseRead(lib: Library, statements: seq<Statement>, difference: bool, into: string, rest: string)
    requires StatementsOk(lib, statements, true) && IsIdentifier(into) && |statements| > 0
    requires difference ==> |statements| == 2
    ensures
      UnionRest(lib, ")" + ShortInto(into, rest), statements, difference) ==
      Success((if difference then Difference(statements[0], statements[1], into) else Union(statements, into), rest))
  {
    hide Accept, Into, ShortInto, Expect, ParseStatement, StatementOk;
    AcceptYes(")", ShortInto(into, rest));
    ShortIntoRead(into, rest);
  }

  /** One statement of a union. */
  lemma ShortMemberRead(lib: Library, st: Statement, tail: string, read: seq<Statement>)
    requires StatementOk(lib, st, true) && StatementsOk(lib, read, true)
    requires ParseStatement(lib, ShortStatement(lib, st, true, tail), true) == Success((st, tail))
    ensures StatementsOk(lib, read + [st], true)
    ensures UnionRest(lib, ShortStatement(lib, st, true, tail), read, false) == UnionRest(lib, tail, read + [st], false)
  {
    hide Accept, ParseStatement, ShortStatement, StatementOk, CloseUnion;
    ShortStatementBegins(lib, st, true, tail);
    var s := ShortStatement(lib, st, true, tail);
    AcceptFirst(s, ")");
    AcceptFirst(s, "-");
  }

  lemma {:induction false} ShortMembersRead(lib: Library, statements: seq<Statement>, end: string, read: seq<Statement>)
    requires StatementsOk(lib, statements, true) && StatementsOk(lib, read, true)
    ensures StatementsOk(lib, read + statements, true)
    ensures UnionRest(lib, ShortStatements(lib, statements, true, end), read, false) ==
      UnionRest(lib, end, read + statements, false)
    decreases statements
  {
    hide StatementOk, ShortStatement, ParseStatement, UnionRest;
    if |statements| == 0 {
      assert read + statements == read;
    } else {
      var st, others := statements[0], statements[1..];
      var tail := ShortStatements(lib, others, true, end);
      ShortStatementRead(lib, st, true, tail);
      ShortMemberRead(lib, st, tail, read);
      ShortMembersRead(lib, others, end, read + [st]);
      assert (read + [st]) + others == read + statements;
    }
  }

  lemma {:induction false} ShortUnionRead(lib: Library, st: Statement, inUnion: bool, rest: string)
    requires st.Union? && StatementOk(lib, st, inUnion)
    ensures UnionRest(lib, ShortStatement(lib, st, inUnion, rest)[1..], [], false) == Success((st, rest))
    decreases st, 0
  {
    var end := ")" + ShortInto(st.into, rest);
    assert ShortStatement(lib, st, inUnion, rest)[1..] == ShortStatements(lib, st.statements, true, end);
    hide ShortInto, UnionRest, ShortStatements;
    ShortMembersRead(lib, st.statements, end, []);
    assert [] + st.statements == st.statements;
    ShortCloseRead(lib, st.statements, false, st.into, rest);
  }

  /** The second side of a difference. */
  lemma ShortSecondRead(lib: Library, first: Statement, second: Statement, tail: string)
    requires StatementOk(lib, first, true) && StatementOk(lib, second, true)
    requires ParseStatement(lib, ShortStatement(lib, second, true, tail), true) == Success((second, tail))
    ensures StatementsOk(lib, [first] + [second], true)
    ensures UnionRest(lib, "-" + ShortStatement(lib, second, true, tail), [first], false) ==
      UnionRest(lib, tail, [first] + [second], true)
  {
    hide Accept, ParseStatement, ShortStatement, StatementOk, CloseUnion;
    var s := "-" + ShortStatement(lib, second, true, tail);
    AcceptFirst(s, ")");
    AcceptYes("-", ShortStatement(lib, second, true, tail));
  }

  lemma {:induction false} ShortDifferenceRead(lib: Library, st: Statement, inUnion: bool, rest: string)
    requires st.Difference? && StatementOk(lib, st, inUnion)
    ensures UnionRest(lib, ShortStatement(lib, st, inUnion, rest)[1..], [], false) == Success((st, rest))
    decreases st, 0
  {
    var end := ")" + ShortInto(st.into, rest);
    var tail := "-" + ShortStatement(lib, st.second, true, end);
    assert ShortStatement(lib, st, inUnion, rest)[1..] == ShortStatement(lib, st.first, true, tail);
    hide ShortInto, UnionRest, ShortStatement, ParseStatement;
    ShortStatementRead(lib, st.first, true, tail);
    ShortStatementRead(lib, st.second, true, end);
    ShortMemberRead(lib, st.first, tail, []);
    assert [] + [st.first] == [st.first];
    ShortSecondRead(lib, st.first, st.second, end);
    ShortCloseRead(lib, [st.first] + [st.second], true, st.into, rest);
  }
}
