/** Printing and parsing are inverse: a script is read back from its text, and
    printing what any text was read as loses nothing. */
module QlReadBack {
  import opened Wrappers
  import opened Osm
  import opened Ql
  import opened QlText
  import opened QlTrees
  import opened QlGrammar
  import opened QlPrinting
  import opened QlTokens
  import opened QlRoundTrip

  // ----- Filters -----

  /** What may follow a filter: another, or a redirection. */
  predicate AfterFilter(s: string) {
    s != "" && s[0] in {'[', '(', '.', '-'}
  }

  /** The rest of a filter's text after its opening round bracket. */
  lemma RoundRead(lib: Library, f: Filter, rest: string)
    requires FilterOk(lib, f) && !f.HasKv? && !f.ItemFilter?
    ensures PrintFilter(lib, f, rest) != "" && PrintFilter(lib, f, rest)[0] == '('
    ensures RoundFilter(lib, PrintFilter(lib, f, rest)[1..]) == Success((f, rest))
  {
    hide RoundFilter, PrintBox, PrintIds, PrintTexts, PrintQuoted, PrintDate, PrintNumber, PrintPosition, DateOk, BoxOk, IsDecimal,
         AroundFilter;
    match f
    case BboxQuery(south, west, north, east) =>
      BoxRead(lib, (south, west, north, east), rest);
      assert PrintFilter(lib, f, rest)[1..] == PrintBox((south, west, north, east), ")" + rest);
    case IdQuery(ids) =>
      IdFilterRead(lib, ids, rest);
      assert PrintFilter(lib, f, rest)[1..] == "id" + (":" + PrintIds(ids, ")" + rest));
    case RecurseFilter(link, from, role) =>
      LinkRead(lib, link, from, role, rest);
      var text := if role.Some? then ":" + PrintQuoted(role.value, ")" + rest) else ")" + rest;
      assert PrintFilter(lib, f, rest)[1..] == LinkText(link) + ("." + (from + text));
    case Around(radius, from, position) =>
      AroundRead(lib, from, radius, position, rest);
      var text := "." + (from + (":" + PrintNumber(radius, PrintPosition(position, rest))));
      AroundWordRead(lib, text);
      assert PrintFilter(lib, f, rest)[1..] == "around" + text;
    case User(uids, names) =>
      if names == [] {
        UidsRead(lib, uids, rest);
        assert PrintFilter(lib, f, rest)[1..] == "uid" + (":" + PrintIds(uids, ")" + rest));
      } else {
        UsersRead(lib, names, rest);
        assert PrintFilter(lib, f, rest)[1..] == "user" + (":" + PrintTexts(names, ")" + rest));
      }
    case Newer(than) =>
      NewerRead(lib, than, rest);
      assert PrintFilter(lib, f, rest)[1..] == "newer" + (":" + PrintDate(lib, than, ")" + rest));
    case Changed(since, until) =>
      ChangedRead(lib, since, until, rest);
      var end := if until.Some? then "," + PrintDate(lib, until.value, ")" + rest) else ")" + rest;
      assert PrintFilter(lib, f, rest)[1..] == "changed" + (":" + PrintDate(lib, since, end));
    case _ =>
  }

  lemma AcceptFirst(s: string, symbol: string)
    requires s != "" && |symbol| == 1 && Clean(symbol)
    ensures s[0] == symbol[0] ==> Accept(s, symbol) == Success((true, s[1..]))
    ensures Clean(s) && s[0] != symbol[0] ==> Accept(s, symbol) == Success((false, s))
  {
    hide Accept;
    if s[0] == symbol[0] {
      assert s == symbol + s[1..];
      AcceptYes(symbol, s[1..]);
    } else if Clean(s) {
      AcceptOther(s, symbol);
    }
  }

  lemma FilterRead(lib: Library, f: Filter, rest: string)
    requires FilterOk(lib, f) && AfterFilter(rest)
    ensures OneFilter(lib, PrintFilter(lib, f, rest)) == Success((Some(f), rest))
    ensures AfterFilter(PrintFilter(lib, f, rest))
  {
    hide Accept, FilterOk, TagFilter, RoundFilter, PrintKv, SetName;
    var s := PrintFilter(lib, f, rest);
    if f.HasKv? {
      KvRead(lib, f, rest);
      KvIs(lib, f, rest);
      AcceptFirst(s, "[");
    } else if f.ItemFilter? {
      ItemIs(lib, f, rest);
      AcceptFirst(s, "[");
      AcceptFirst(s, "(");
      AcceptFirst(s, ".");
      IdentifierRead(f.from, rest);
      hide PrintFilter;
      assert s[1..] == f.from + rest;
    } else {
      RoundRead(lib, f, rest);
      hide PrintFilter;
      AcceptFirst(s, "[");
      AcceptFirst(s, "(");
    }
  }

  lemma KvIs(lib: Library, f: Filter, rest: string)
    requires f.HasKv? && FilterOk(lib, f)
    ensures PrintFilter(lib, f, rest) == PrintKv(f, rest) && PrintKv(f, rest) != ""
  {
    hide PrintQuoted;
  }

  lemma ItemIs(lib: Library, f: Filter, rest: string)
    requires f.ItemFilter? && FilterOk(lib, f)
    ensures PrintFilter(lib, f, rest) == "." + (f.from + rest) && IsIdentifier(f.from)
  {
  }

  lemma {:induction false} FiltersRead(lib: Library, filters: seq<Filter>, rest: string, read: seq<Filter>)
    requires (forall i :: 0 <= i < |filters| ==> FilterOk(lib, filters[i])) && rest != "" && rest[0] == '-'
    requires forall i :: 0 <= i < |read| ==> FilterOk(lib, read[i])
    ensures Filters(lib, PrintFilters(lib, filters, rest), read) == Success((read + filters, rest))
    ensures AfterFilter(PrintFilters(lib, filters, rest))
    decreases |filters|
  {
    hide FilterOk, OneFilter, PrintFilter;
    if |filters| == 0 {
      NoFilter(lib, rest);
      assert read + filters == read;
    } else {
      FiltersRead(lib, filters[1..], rest, read + [filters[0]]);
      FilterRead(lib, filters[0], PrintFilters(lib, filters[1..], rest));
      assert (read + [filters[0]]) + filters[1..] == read + filters;
    }
  }

  lemma NoFilter(lib: Library, rest: string)
    requires rest != "" && rest[0] == '-'
    ensures OneFilter(lib, rest) == Success((None, rest))
  {
    hide Accept, TagFilter, RoundFilter, SetName;
    AcceptFirst(rest, "[");
    AcceptFirst(rest, "(");
    AcceptFirst(rest, ".");
  }

  // ----- Statements -----

  lemma IntoRead(into: string, rest: string)
    requires IsIdentifier(into)
    ensures Into(PrintInto(into, rest)) == Success((into, ";" + rest))
    ensures Redirection(PrintInto(into, rest)) == Success((Some(into), ";" + rest))
    ensures Expect(";" + rest, ";") == Success(rest)
  {
    hide Accept, SetName;
    AcceptYes("->", "." + (into + (";" + rest)));
    AcceptYes(".", into + (";" + rest));
    IdentifierRead(into, ";" + rest);
    AcceptYes(";", rest);
  }

  lemma QueryRead(lib: Library, types: seq<Kind>, filters: seq<Filter>, into: string, rest: string)
    requires TypesOk(types) && IsIdentifier(into) && forall i :: 0 <= i < |filters| ==> FilterOk(lib, filters[i])
    ensures
      var text := TypesText(types) + PrintFilters(lib, filters, PrintInto(into, rest));
      SimpleStatement(lib, text, true) == Success((Query(types, filters, into), rest))
      && SimpleStatement(lib, text, false) == Success((Query(types, filters, into), rest))
  {
    hide Accept, Expect, FilterOk, Filters, PrintFilters, Into, PrintInto, PeekWord, TypesText, TypesOf, PrintRest;
    IntoBegins(into, rest);
    FiltersRead(lib, filters, PrintInto(into, rest), []);
    IntoRead(into, rest);
    assert [] + filters == filters;
    var tail := PrintFilters(lib, filters, PrintInto(into, rest));
    TypesAre(types);
    WordBegins(TypesText(types), tail);
    assert (TypesText(types) + tail)[|TypesText(types)|..] == tail;
  }

  lemma IntoBegins(into: string, rest: string)
    ensures PrintInto(into, rest) != "" && PrintInto(into, rest)[0] == '-'
  {
  }

  lemma TypesAre(types: seq<Kind>)
    requires TypesOk(types)
    ensures IsIdentifier(TypesText(types)) && TypesOf(TypesText(types)) == Some(types) && TypesText(types) != "out"
    ensures 'a' <= TypesText(types)[0] <= 'z'
  {
  }

  /** A statement that begins with a word. */
  lemma WordBegins(word: string, rest: string)
    requires IsIdentifier(word) && 'a' <= word[0] <= 'z' && AfterFilter(rest)
    ensures
      var s := word + rest;
      FromSet(s) == Success((None, s)) && RecurseSymbol(s) == Success((None, s)) && PeekWord(s) == Success((Some(word), s))
  {
    hide Accept, PeekWord;
    var s := word + rest;
    NoSymbol(s);
    AcceptOther(s, ".");
    IdentifierRead(word, rest);
  }

  lemma NoSymbol(s: string)
    requires Clean(s) && (s == "" || (s[0] != '<' && s[0] != '>'))
    ensures RecurseSymbol(s) == Success((None, s))
  {
    hide Accept;
    AcceptOther(s, "<<");
    AcceptOther(s, ">>");
    AcceptOther(s, "<");
    AcceptOther(s, ">");
  }

  lemma FromRead(from: string, rest: string)
    requires IsIdentifier(from) && rest != "" && !IsWordChar(rest[0])
    ensures FromSet("." + (from + rest)) == Success((Some(from), rest))
  {
    hide Accept, SetName;
    AcceptYes(".", from + rest);
    IdentifierRead(from, rest);
  }

  lemma ItemRead(lib: Library, from: string, into: Option<string>, inUnion: bool, rest: string)
    requires IsIdentifier(from) && (into.Some? ==> IsIdentifier(into.value))
    ensures
      var tail := if into.Some? then PrintInto(into.value, rest) else ";" + rest;
      SimpleStatement(lib, "." + (from + tail), inUnion) == Success((Item(from, into), rest))
  {
    hide Accept, Expect, PrintInto, FromSet, RecurseSymbol, PeekWord, PrintRest, QueryRest;
    var tail := if into.Some? then PrintInto(into.value, rest) else ";" + rest;
    if into.Some? {
      IntoBegins(into.value, rest);
      IntoRead(into.value, rest);
    } else {
      AcceptOther(tail, "->");
      AcceptYes(";", rest);
    }
    FromRead(from, tail);
    NoSymbol(tail);
    NoIdentifier(tail);
  }

  lemma SymbolRead(kind: RecurseType, rest: string)
    requires rest != "" && rest[0] == '-'
    ensures RecurseSymbol(SymbolText(kind) + rest) == Success((Some(kind), rest))
  {
    hide Accept;
    var s := SymbolText(kind) + rest;
    AcceptYes(SymbolText(kind), rest);
    match kind
    case UpRel =>
    case DownRel =>
      AcceptOther(s, "<<");
    case Up =>
      assert s[1] == '-';
      AcceptNo(s, "<<");
      AcceptOther(s, ">>");
    case Down =>
      assert s[1] == '-';
      AcceptOther(s, "<<");
      AcceptNo(s, ">>");
      AcceptOther(s, "<");
  }

  lemma RecurseRead(lib: Library, kind: RecurseType, from: string, into: string, inUnion: bool, rest: string)
    requires IsIdentifier(from) && IsIdentifier(into)
    ensures
      SimpleStatement(lib, "." + (from + (SymbolText(kind) + PrintInto(into, rest))), inUnion) ==
      Success((Recurse(kind, from, into), rest))
  {
    hide Accept, Expect, PrintInto, FromSet, RecurseSymbol, PeekWord, WordStatement;
    IntoBegins(into, rest);
    IntoRead(into, rest);
    SymbolRead(kind, PrintInto(into, rest));
    FromRead(from, SymbolText(kind) + PrintInto(into, rest));
  }

  // ----- Out statements -----

  predicate AfterOption(s: string) {
    s != "" && (s[0] == ' ' || s[0] == ';')
  }

  /** One option of out, given once. */
  lemma OptionRead(word: string, tail: string, st: Statement, given: set<Group>, group: Group, with: Statement)
    requires st.Print? && IsIdentifier(word) && AfterOption(tail)
    requires PrintOption(st, word) == Success((group, with)) && group !in given
    ensures PrintOptions(" " + (word + tail), st, given) == PrintOptions(tail, with, given + {group})
  {
    hide Accept, Peek, Run, Identifier, PrintOption;
    AcceptAfterSpace(word + tail, ";");
    AcceptOther(word + tail, "(");
    NoRun(word + tail, IsDigit);
    IdentifierRead(word, tail);
  }

  lemma LimitRead(limit: nat, rest: string, st: Statement, given: set<Group>)
    requires st.Print? && LimitGroup !in given
    ensures PrintOptions(" " + PrintInt(limit, ";" + rest), st, given) ==
      PrintOptions(";" + rest, st.(limit := Some(limit)), given + {LimitGroup})
  {
    hide Accept, Peek, Run, Identifier, PrintOption, PrintInt, IntOf, Digits;
    var s := PrintInt(limit, ";" + rest);
    LimitBegins(limit, ";" + rest);
    AcceptAfterSpace(s, ";");
    AcceptOther(s, "(");
    WholeRead(limit, ";" + rest);
  }

  lemma LimitBegins(limit: nat, rest: string)
    ensures PrintInt(limit, rest) != "" && IsDigit(PrintInt(limit, rest)[0])
  {
    assert PrintInt(limit, rest)[0] == Digits(limit)[0];
  }

  lemma EndRead(rest: string, st: Statement, given: set<Group>)
    requires st.Print? && CountsAlone(st)
    ensures PrintOptions(";" + rest, st, given) == Success((st, rest))
  {
    hide Accept, Peek, Run, Identifier, PrintOption;
    AcceptYes(";", rest);
  }

  lemma LimitAndEndRead(limit: Option<nat>, rest: string, st: Statement, given: set<Group>)
    requires st.Print? && st.limit.None? && LimitGroup !in given && CountsAlone(st.(limit := limit))
    ensures PrintOptions(PrintLimit(limit, rest), st, given) == Success((st.(limit := limit), rest))
  {
    hide PrintOptions, PrintInt;
    if limit.Some? {
      LimitRead(limit.value, rest, st, given);
      EndRead(rest, st.(limit := limit), given + {LimitGroup});
    } else {
      EndRead(rest, st, given);
    }
  }

  lemma ModeIsWord(st: Statement, mode: PrintMode)
    requires st.Print?
    ensures IsIdentifier(ModeText(mode)) && PrintOption(st, ModeText(mode)) == Success((ModeGroup, st.(mode := mode)))
  {
    assert ModeOf(ModeText(mode)) == Some(mode);
  }

  lemma GeometryIsWord(st: Statement, geometry: Geometry)
    requires st.Print?
    ensures IsIdentifier(GeometryText(geometry))
    ensures PrintOption(st, GeometryText(geometry)) == Success((GeometryGroup, st.(geometry := Some(geometry))))
  {
    assert GeometryOf(GeometryText(geometry)) == Some(geometry);
  }

  lemma OrderIsWord(st: Statement, order: PrintOrder)
    requires st.Print?
    ensures IsIdentifier(OrderText(order)) && PrintOption(st, OrderText(order)) == Success((OrderGroup, st.(order := order)))
  {
    assert OrderOf(OrderText(order)) == Some(order);
  }

  lemma GeometryAndOn(geometry: Option<Geometry>, order: PrintOrder, tail: string, st: Statement, given: set<Group>)
    requires st.Print? && st.geometry.None? && GeometryGroup !in given && OrderGroup !in given && AfterOption(tail)
    ensures
      exists given' :: given' <= given + {GeometryGroup, OrderGroup} &&
        PrintOptions(PrintGeometry(geometry, " " + (OrderText(order) + tail)), st, given) ==
        PrintOptions(tail, st.(geometry := geometry, order := order), given')
  {
    hide PrintOptions, PrintOption, OrderText, GeometryText;
    var rest := " " + (OrderText(order) + tail);
    var shown := st.(geometry := geometry);
    OrderIsWord(shown, order);
    if geometry.Some? {
      GeometryIsWord(st, geometry.value);
      OptionRead(GeometryText(geometry.value), rest, st, given, GeometryGroup, shown);
      OptionRead(OrderText(order), tail, shown, given + {GeometryGroup}, OrderGroup, shown.(order := order));
      assert given + {GeometryGroup} + {OrderGroup} <= given + {GeometryGroup, OrderGroup};
    } else {
      OptionRead(OrderText(order), tail, shown, given, OrderGroup, shown.(order := order));
      assert given + {OrderGroup} <= given + {GeometryGroup, OrderGroup};
    }
  }

  lemma OptionsRead(lib: Library, st: Statement, rest: string)
    requires st.Print? && IsIdentifier(st.from) && CountsAlone(st)
    ensures
      var options := " " + (ModeText(st.mode) + PrintGeometry(st.geometry, " " + (OrderText(st.order) + PrintLimit(st.limit, rest))));
      PrintRest(lib, options, st.from) == Success((st, rest))
  {
    hide PrintOptions, PrintOption, OrderText, GeometryText, ModeText;
    var none := Print(st.from, Body, None, Asc, None);
    var tail := PrintLimit(st.limit, rest);
    var shown := PrintGeometry(st.geometry, " " + (OrderText(st.order) + tail));
    ModeIsWord(none, st.mode);
    OptionRead(ModeText(st.mode), shown, none, {}, ModeGroup, none.(mode := st.mode));
    GeometryAndOn(st.geometry, st.order, tail, none.(mode := st.mode), {} + {ModeGroup});
    var given :| given <= {} + {ModeGroup} + {GeometryGroup, OrderGroup} &&
      PrintOptions(shown, none.(mode := st.mode), {} + {ModeGroup}) ==
      PrintOptions(tail, none.(mode := st.mode, geometry := st.geometry, order := st.order), given);
    LimitAndEndRead(st.limit, rest, none.(mode := st.mode, geometry := st.geometry, order := st.order), given);
  }

  lemma OutRead(lib: Library, st: Statement, rest: string)
    requires st.Print? && StatementOk(lib, st, false)
    ensures SimpleStatement(lib, PrintOut(st, rest), false) == Success((st, rest))
  {
    hide Accept, FromSet, PeekWord, PrintRest, ModeText, PrintGeometry, OrderText, PrintLimit, ItemRest, QueryRest;
    var options := " " + (ModeText(st.mode) + PrintGeometry(st.geometry, " " + (OrderText(st.order) + PrintLimit(st.limit, rest))));
    OptionsRead(lib, st, rest);
    FromRead(st.from, " " + ("out" + options));
    NoSymbolAfterSpace("out" + options);
    IdentifierRead("out", options);
    assert ("out" + options)[3..] == options;
  }

  lemma NoSymbolAfterSpace(s: string)
    requires Clean(s) && s != "" && s[0] != '<' && s[0] != '>'
    ensures RecurseSymbol(" " + s) == Success((None, s))
  {
    hide Accept;
    AcceptAfterSpace(s, "<<");
    AcceptOther(s, ">>");
    AcceptOther(s, "<");
    AcceptOther(s, ">");
  }
}
