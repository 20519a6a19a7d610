/** The parser: a cursor that moves through the text of a query. Each method
    reads what the grammar says it does, and leaves the cursor after it. */
module QlParser {
  import opened Wrappers
  import opened Osm
  import opened Ql
  import opened QlText
  import opened QlTrees
  import opened QlGrammar
  import opened QlScripts

  /** A method has read what the grammar says, and this remains. */
  ghost predicate Agrees<T>(spec: Reading<T>, r: Result<T, ParseError>, rest: string) {
    match spec
    case Success(read) => r == Success(read.0) && rest == read.1
    case Failure(error) => r == Failure(error)
  }

  ghost predicate Moves(spec: Result<string, ParseError>, r: Result<(), ParseError>, rest: string) {
    match spec
    case Success(left) => r == Success(()) && rest == left
    case Failure(error) => r == Failure(error)
  }

  // ----- What a number leaves is the end of what there was -----

  ghost predicate IsEnd(a: string, s: string) {
    |a| <= |s| && s[|s| - |a|..] == a
  }

  lemma DropIsEnd(s: string, n: nat)
    requires n <= |s|
    ensures IsEnd(s[n..], s)
  {
  }

  lemma EndOfEnd(a: string, b: string, c: string)
    requires IsEnd(a, b) && IsEnd(b, c)
    ensures IsEnd(a, c)
  {
    assert c[|c| - |a|..] == c[|c| - |b|..][|b| - |a|..];
  }

  lemma SignEnd(s: string)
    ensures IsEnd(Sign(s).1, s)
  {
    if "-" <= s || "+" <= s {
      DropIsEnd(s, 1);
    } else {
      DropIsEnd(s, 0);
    }
  }

  lemma FractionEnd(s: string)
    ensures IsEnd(Fraction(s).1, s)
  {
    if "." <= s {
      DropIsEnd(s, 1);
      DropIsEnd(s[1..], Span(s[1..], IsDigit));
      EndOfEnd(Fraction(s).1, s[1..], s);
    }
  }

  lemma ExponentEnd(s: string)
    ensures IsEnd(Exponent(s).1, s)
  {
    if "e" <= s || "E" <= s {
      var t := Sign(s[1..]).1;
      DropIsEnd(s, 1);
      SignEnd(s[1..]);
      EndOfEnd(t, s[1..], s);
      DropIsEnd(t, Span(t, IsDigit));
      EndOfEnd(t[Span(t, IsDigit)..], t, s);
    }
  }

  lemma NumberIsAhead(s: string)
    ensures IsEnd(NumberAt(s).1, s)
  {
    hide Sign, Fraction, Exponent, Scale, IntOf, IsEnd;
    var u := Sign(s).1;
    var rest := u[Span(u, IsDigit)..];
    var v := Fraction(rest).1;
    SignEnd(s);
    DropIsEnd(u, Span(u, IsDigit));
    EndOfEnd(rest, u, s);
    FractionEnd(rest);
    EndOfEnd(v, rest, s);
    ExponentEnd(v);
    EndOfEnd(Exponent(v).1, v, s);
    DropIsEnd(s, 0);
    assert s[0..] == s;
  }

  /** After skipping there is nothing more to skip. */
  lemma {:induction false} SkipTwice(s: string)
    ensures Skip(s).Success? ==> Skip(Skip(s).value) == Skip(s)
    decreases |s|
  {
    if s != "" {
      if IsSpace(s[0]) {
        SkipTwice(s[1..]);
      } else if "//" <= s {
        SkipTwice(LineEnd(s[1..]));
      } else if "/*" <= s && AfterComment(s[2..]).Some? {
        SkipTwice(AfterComment(s[2..]).value);
      }
    }
  }

  lemma AcceptSkips(s: string, symbol: string)
    ensures Accept(s, symbol).Success? && !Accept(s, symbol).value.0 ==>
      Skip(Accept(s, symbol).value.1) == Success(Accept(s, symbol).value.1)
  {
    SkipTwice(s);
  }

  class Parser {
    const lib: Library
    const text: string
    var pos: nat

    constructor (lib: Library, text: string)
      ensures this.lib == lib && this.text == text && Valid() && Rest() == text
    {
      this.lib, this.text, pos := lib, text, 0;
    }

    /** The cursor never goes past the end. */
    predicate Valid()
      reads this
    {
      pos <= |text|
    }

    /** The text that is still to be read. */
    function Rest(): (s: string)
      reads this
      requires Valid()
      ensures |s| == |text| - pos
    {
      text[pos..]
    }

    // ----- Helpers -----

    method Advance(n: nat)
      requires Valid() && n <= |Rest()|
      modifies this
      ensures Valid() && Rest() == old(Rest())[n..]
    {
      pos := pos + n;
    }

    /** Moves to where Skip ends. */
    method SkipSpace() returns (r: Result<(), ParseError>)
      requires Valid()
      modifies this
      ensures Valid() && Moves(Skip(old(Rest())), r, Rest())
    {
      ghost var start := Rest();
      while pos < |text|
        invariant Valid() && Skip(Rest()) == Skip(start)
        decreases |text| - pos
      {
        if IsSpace(Rest()[0]) {
          Advance(1);
        } else if "//" <= Rest() {
          SkipLine();
        } else if "/*" <= Rest() {
          var closed := SkipComment();
          if !closed {
            return Failure(Invalid);
          }
        } else {
          break;
        }
      }
      return Success(());
    }

    /** Move to the end of a line, where a comment ends. */
    method SkipLine()
      requires Valid() && "//" <= Rest()
      modifies this
      ensures Valid() && Rest() == LineEnd(old(Rest())[1..]) && pos > old(pos)
    {
      Advance(1);
      while pos < |text| && text[pos] != '\n'
        invariant Valid() && pos > old(pos) && LineEnd(Rest()) == LineEnd(old(Rest())[1..])
        decreases |text| - pos
      {
        Advance(1);
      }
    }

    /** Moves just past the end of the comment, or tells that it has none. */
    method SkipComment() returns (closed: bool)
      requires Valid() && "/*" <= Rest()
      modifies this
      ensures Valid() && pos > old(pos)
      ensures closed <==> AfterComment(old(Rest())[2..]).Some?
      ensures closed ==> Rest() == AfterComment(old(Rest())[2..]).value
    {
      Advance(2);
      while |Rest()| >= 2
        invariant Valid() && pos > old(pos) && AfterComment(Rest()) == AfterComment(old(Rest())[2..])
        decreases |text| - pos
      {
        if Rest()[0] == '*' && Rest()[1] == '/' {
          Advance(2);
          return true;
        }
        Advance(1);
      }
      return false;
    }

    method AtEnd() returns (r: Result<bool, ParseError>)
      requires Valid()
      modifies this
      ensures Valid()
      ensures r == match Skip(old(Rest())) case Success(t) => Success(t == "") case Failure(e) => Failure(e)
      ensures r.Success? ==> Skip(old(Rest())) == Success(Rest())
    {
      hide Skip;
      var _ :- SkipSpace();
      return Success(pos >= |text|);
    }

    method PeekSymbol(symbol: string) returns (r: Result<bool, ParseError>)
      requires Valid()
      modifies this
      ensures Valid() && Agrees(Peek(old(Rest()), symbol), r, Rest())
    {
      hide Skip;
      var _ :- SkipSpace();
      return Success(symbol <= Rest());
    }

    method AcceptSymbol(symbol: string) returns (r: Result<bool, ParseError>)
      requires Valid()
      modifies this
      ensures Valid() && Agrees(Accept(old(Rest()), symbol), r, Rest())
    {
      hide Peek;
      var there :- PeekSymbol(symbol);
      if there {
        Advance(|symbol|);
      }
      return Success(there);
    }

    method ExpectSymbol(symbol: string) returns (r: Result<(), ParseError>)
      requires Valid()
      modifies this
      ensures Valid() && Moves(Expect(old(Rest()), symbol), r, Rest())
    {
      hide Accept;
      var there :- AcceptSymbol(symbol);
      if !there {
        return Failure(Invalid);
      }
      return Success(());
    }

    method MatchIdentifier() returns (r: Result<Option<string>, ParseError>)
      requires Valid()
      modifies this
      ensures Valid() && Agrees(Identifier(old(Rest())), r, Rest())
    {
      hide Skip, IdentifierAt;
      var _ :- SkipSpace();
      var word := IdentifierAt(Rest());
      if word.Some? {
        Advance(|word.value|);
      }
      return Success(word);
    }

    method WordAhead() returns (r: Result<Option<string>, ParseError>)
      requires Valid()
      modifies this
      ensures Valid() && Agrees(PeekWord(old(Rest())), r, Rest())
    {
      hide Skip, IdentifierAt;
      var _ :- SkipSpace();
      return Success(IdentifierAt(Rest()));
    }

    method MatchRun(p: char -> bool) returns (r: Result<Option<string>, ParseError>)
      requires Valid()
      modifies this
      ensures Valid() && Agrees(Run(old(Rest()), p), r, Rest())
    {
      hide Skip, RunAt;
      var _ :- SkipSpace();
      var word := RunAt(Rest(), p);
      if word.Some? {
        Advance(|word.value|);
      }
      return Success(word);
    }

    method MatchNumber() returns (r: Result<Option<real>, ParseError>)
      requires Valid()
      modifies this
      ensures Valid() && Agrees(Number(old(Rest())), r, Rest())
    {
      hide Skip, NumberAt;
      var _ :- SkipSpace();
      var (number, after) := NumberAt(Rest());
      NumberIsAhead(Rest());
      Advance(|Rest()| - |after|);
      return Success(number);
    }

    /** Moves past a string that Quoted reads here. */
    method ReadString() returns (r: Result<Option<string>, ParseError>)
      requires Valid()
      modifies this
      ensures Valid() && Agrees(Quoted(old(Rest())), r, Rest())
    {
      hide Skip, StringBody;
      var _ :- SkipSpace();
      if pos >= |text| || (text[pos] != '"' && text[pos] != '\'') {
        return Success(None);
      }
      var quote := Rest()[0];
      Advance(1);
      var body :- ReadBody(quote);
      return Success(Some(body));
    }

    method ReadBody(quote: char) returns (r: Result<string, ParseError>)
      requires Valid()
      modifies this
      ensures Valid() && Agrees(StringBody(old(Rest()), quote, ""), r, Rest())
    {
      ghost var start := Rest();
      var out := "";
      while pos < |text|
        invariant Valid() && StringBody(Rest(), quote, out) == StringBody(start, quote, "")
        decreases |text| - pos
      {
        var s := Rest();
        if s[0] == quote {
          Advance(1);
          return Success(out);
        }
        if s[0] != '\\' {
          out := out + [s[0]];
          Advance(1);
        } else if |s| < 2 {
          return Failure(Invalid);
        } else if s[1] == 'u' {
          if |s| < 6 || !IsHex(s[2]) || !IsHex(s[3]) || !IsHex(s[4]) || !IsHex(s[5]) {
            return Failure(Invalid);
          }
          out := out + [CharOf(s[2], s[3], s[4], s[5])];
          Advance(6);
        } else {
          out := out + [Escaped(s[1])];
          Advance(2);
        }
      }
      return Failure(Invalid);
    }

    /** Reads as TextValue does. */
    method ReadTextValue() returns (r: Result<string, ParseError>)
      requires Valid()
      modifies this
      ensures Valid() && Agrees(TextValue(old(Rest())), r, Rest())
    {
      hide Quoted, Run;
      var quoted :- ReadString();
      if quoted.Some? {
        return Success(quoted.value);
      }
      var bare :- MatchRun(IsWordChar);
      if bare.None? {
        return Failure(Invalid);
      }
      return Success(bare.value);
    }

    method ReadNumber() returns (r: Result<real, ParseError>)
      requires Valid()
      modifies this
      ensures Valid() && Agrees(NumberHere(old(Rest())), r, Rest())
    {
      hide Number;
      var number :- MatchNumber();
      if number.None? {
        return Failure(Invalid);
      }
      return Success(number.value);
    }

    /** Reads as SetName does. */
    method ReadSetName() returns (r: Result<string, ParseError>)
      requires Valid()
      modifies this
      ensures Valid() && Agrees(SetName(old(Rest())), r, Rest())
    {
      hide Identifier;
      var name :- MatchIdentifier();
      if name.None? {
        return Failure(Invalid);
      }
      return Success(name.value);
    }

    /** Reads as Redirection does. */
    method ReadRedirection() returns (r: Result<Option<string>, ParseError>)
      requires Valid()
      modifies this
      ensures Valid() && Agrees(Redirection(old(Rest())), r, Rest())
    {
      hide Accept, Expect, SetName;
      var arrow :- AcceptSymbol("->");
      if !arrow {
        return Success(None);
      }
      var _ :- ExpectSymbol(".");
      var name :- ReadSetName();
      return Success(Some(name));
    }

    method ReadInto() returns (r: Result<string, ParseError>)
      requires Valid()
      modifies this
      ensures Valid() && Agrees(Into(old(Rest())), r, Rest())
    {
      hide Redirection;
      var name :- ReadRedirection();
      return Success(name.GetOr(DEFAULT_SET));
    }

    method ReadObjectId() returns (r: Result<int, ParseError>)
      requires Valid()
      modifies this
      ensures Valid() && Agrees(ObjectId(old(Rest())), r, Rest())
    {
      hide Run, IntOf;
      var digits :- MatchRun(IsDigit);
      if digits.None? || |digits.value| > 18 {
        return Failure(Invalid);
      }
      return Success(IntOf(digits.value));
    }

    /** IDs with commas between them. */
    method ReadObjectIds() returns (r: Result<seq<int>, ParseError>)
      requires Valid()
      modifies this
      ensures Valid() && Agrees(ObjectIds(old(Rest())), r, Rest())
    {
      hide ObjectId, Accept;
      var id :- ReadObjectId();
      var ids := [id];
      ghost var start := Rest();
      var more :- AcceptSymbol(",");
      while more
        invariant Valid()
        invariant MoreItems(ObjectId, start, [id]) == AfterComma(ObjectId, more, Rest(), ids)
        decreases |text| - pos, more
      {
        var next :- ReadObjectId();
        ids := ids + [next];
        more :- AcceptSymbol(",");
      }
      return Success(ids);
    }

    /** What is left of a list, after its next comma if there is one. */
    ghost function AfterComma<T(!new)>(item: string -> Reading<T>, more: bool, s: string, items: seq<T>): Reading<seq<T>>
      requires Advances(item)
    {
      if !more then Success((items, s))
      else match item(s)
        case Failure(e) => Failure(e)
        case Success(read) => MoreItems(item, read.1, items + [read.0])
    }

    method ReadNumbers() returns (r: Result<seq<real>, ParseError>)
      requires Valid()
      modifies this
      ensures Valid() && Agrees(Numbers(old(Rest())), r, Rest())
    {
      hide NumberHere, Accept, IsDecimal;
      var number :- ReadNumber();
      var numbers := [number];
      ghost var start := Rest();
      var more :- AcceptSymbol(",");
      while more
        invariant Valid()
        invariant MoreItems(NumberHere, start, [number]) == AfterComma(NumberHere, more, Rest(), numbers)
        decreases |text| - pos, more
      {
        var next :- ReadNumber();
        numbers := numbers + [next];
        more :- AcceptSymbol(",");
      }
      return Success(numbers);
    }

    /** User names with commas between them. */
    method ReadNames() returns (r: Result<seq<string>, ParseError>)
      requires Valid()
      modifies this
      ensures Valid() && Agrees(Items(TextValue, old(Rest())), r, Rest())
    {
      hide TextValue, Accept;
      var name :- ReadTextValue();
      var names := [name];
      ghost var start := Rest();
      var more :- AcceptSymbol(",");
      while more
        invariant Valid()
        invariant MoreItems(TextValue, start, [name]) == AfterComma(TextValue, more, Rest(), names)
        decreases |text| - pos, more
      {
        var next :- ReadTextValue();
        names := names + [next];
        more :- AcceptSymbol(",");
      }
      return Success(names);
    }

    // ----- Filters -----

    method ReadTagOperator() returns (r: Result<TagMode, ParseError>)
      requires Valid()
      modifies this
      ensures Valid() && Agrees(TagOperator(old(Rest())), r, Rest())
    {
      hide Accept;
      var a :- AcceptSymbol("!=");
      if a {
        return Success(NotEquals);
      }
      var b :- AcceptSymbol("!~");
      if b {
        return Success(NotMatches);
      }
      var c :- AcceptSymbol("~");
      if c {
        return Success(Matches);
      }
      var d :- AcceptSymbol("==");
      if d {
        return Success(Equals);
      }
      var e :- AcceptSymbol("=");
      if e {
        return Success(Equals);
      }
      return Failure(Invalid);
    }

    method ReadCaseOption(mode: TagMode) returns (r: Result<bool, ParseError>)
      requires Valid()
      modifies this
      ensures Valid() && Agrees(CaseOption(old(Rest()), mode), r, Rest())
    {
      hide Accept, Identifier;
      if !mode.Matches? && !mode.NotMatches? {
        return Success(false);
      }
      var comma :- AcceptSymbol(",");
      if !comma {
        return Success(false);
      }
      var word :- MatchIdentifier();
      if word != Some("i") {
        return Failure(Invalid);
      }
      return Success(true);
    }

    method ReadTagFilter() returns (r: Result<Filter, ParseError>)
      requires Valid()
      modifies this
      ensures Valid() && Agrees(TagFilter(lib, old(Rest())), r, Rest())
    {
      hide Peek, Accept, Expect, TextValue, TagOperator, CaseOption, FilterOk;
      var tilde :- PeekSymbol("~");
      if tilde {
        return Failure(Unsupported);
      }
      var no :- AcceptSymbol("!");
      var key :- ReadTextValue();
      if no {
        var _ :- ExpectSymbol("]");
        return Success(HasKv(NotExists, key, "", false));
      }
      var close :- AcceptSymbol("]");
      if close {
        return Success(HasKv(Exists, key, "", false));
      }
      var mode :- ReadTagOperator();
      var value :- ReadTextValue();
      var ignoreCase :- ReadCaseOption(mode);
      var _ :- ExpectSymbol("]");
      return Success(HasKv(mode, key, value, ignoreCase));
    }

    method ReadFilterSet() returns (r: Result<string, ParseError>)
      requires Valid()
      modifies this
      ensures Valid() && Agrees(FilterSet(old(Rest())), r, Rest())
    {
      hide Accept, SetName;
      var dot :- AcceptSymbol(".");
      if dot {
        r := ReadSetName();
        return;
      }
      return Success(DEFAULT_SET);
    }

    method ReadRole() returns (r: Result<Option<string>, ParseError>)
      requires Valid()
      modifies this
      ensures Valid() && Agrees(Role(old(Rest())), r, Rest())
    {
      hide Accept, Quoted, Number, TextValue;
      var colon :- AcceptSymbol(":");
      if !colon {
        return Success(None);
      }
      var quoted :- ReadString();
      if quoted.Some? {
        return Success(quoted);
      }
      var number :- MatchNumber();
      if number.Some? {
        return Failure(Unsupported);
      }
      var role :- ReadTextValue();
      return Success(Some(role));
    }

    method ReadLinkFilter(link: Link) returns (r: Result<Filter, ParseError>)
      requires Valid()
      modifies this
      ensures Valid() && Agrees(LinkFilter(lib, old(Rest()), link), r, Rest())
    {
      hide FilterSet, Role, Expect, FilterOk;
      var from :- ReadFilterSet();
      var role :- ReadRole();
      var _ :- ExpectSymbol(")");
      return Success(RecurseFilter(link, from, role));
    }

    method ReadAroundFilter() returns (r: Result<Filter, ParseError>)
      requires Valid()
      modifies this
      ensures Valid() && Agrees(AroundFilter(lib, old(Rest())), r, Rest())
    {
      hide FilterSet, Expect, NumberHere, AroundRest, FilterOk, IsDecimal;
      var from :- ReadFilterSet();
      var _ :- ExpectSymbol(":");
      var radius :- ReadNumber();
      if radius < 0.0 {
        return Failure(Invalid);
      }
      r := ReadAroundRest(from, radius);
    }

    method ReadAroundRest(from: string, radius: real) returns (r: Result<Filter, ParseError>)
      requires Valid() && IsIdentifier(from) && IsDecimal(radius) && radius >= 0.0
      modifies this
      ensures Valid() && Agrees(AroundRest(lib, old(Rest()), from, radius), r, Rest())
    {
      hide Accept, Expect, AroundPosition, FilterOk, IsDecimal, PositionOk;
      var close :- AcceptSymbol(")");
      if close {
        return Success(Around(radius, from, None));
      }
      var _ :- ExpectSymbol(",");
      var position :- ReadAroundPosition();
      return Success(Around(radius, DEFAULT_SET, Some(position)));
    }

    method ReadAroundPosition() returns (r: Result<(real, real), ParseError>)
      requires Valid()
      modifies this
      ensures Valid() && Agrees(AroundPosition(old(Rest())), r, Rest())
    {
      hide Peek, Expect, NumberHere, IsDecimal, PositionOk;
      var lat :- ReadNumber();
      var _ :- ExpectSymbol(",");
      var lon :- ReadNumber();
      var comma :- PeekSymbol(",");
      if comma {
        return Failure(Unsupported);
      }
      var _ :- ExpectSymbol(")");
      if !(-90.0 <= lat <= 90.0 && -180.0 <= lon <= 180.0) {
        return Failure(Invalid);
      }
      return Success((lat, lon));
    }

    /** Reads as Timestamp does. */
    method ReadTimestamp() returns (r: Result<int, ParseError>)
      requires Valid()
      modifies this
      ensures Valid() && Agrees(Timestamp(lib, old(Rest())), r, Rest())
    {
      hide Quoted, DateOk;
      var quoted :- ReadString();
      if quoted.None? {
        return Failure(Invalid);
      }
      var seconds := lib.readDate(quoted.value);
      if seconds.None? {
        return Failure(Invalid);
      }
      return Success(seconds.value);
    }

    method ReadMetaFilter(word: string) returns (r: Result<Filter, ParseError>)
      requires Valid()
      modifies this
      ensures Valid() && Agrees(MetaFilter(lib, old(Rest()), word), r, Rest())
    {
      hide Expect, MetaCondition, FilterOk;
      var _ :- ExpectSymbol(":");
      var filter :- ReadMetaCondition(word);
      var _ :- ExpectSymbol(")");
      return Success(filter);
    }

    method ReadMetaCondition(word: string) returns (r: Result<Filter, ParseError>)
      requires Valid()
      modifies this
      ensures Valid() && Agrees(MetaCondition(lib, old(Rest()), word), r, Rest())
    {
      hide ObjectIds, Items, Timestamp, Accept, FilterOk, DateOk, IdsOk;
      if word == "uid" {
        var uids :- ReadObjectIds();
        return Success(User(uids, []));
      } else if word == "user" {
        var names :- ReadNames();
        return Success(User([], names));
      } else if word == "newer" {
        var than :- ReadTimestamp();
        return Success(Newer(than));
      }
      var since :- ReadTimestamp();
      var comma :- AcceptSymbol(",");
      if !comma {
        return Success(Changed(since, None));
      }
      var until :- ReadTimestamp();
      return Success(Changed(since, Some(until)));
    }

    method ReadIdFilter() returns (r: Result<Filter, ParseError>)
      requires Valid()
      modifies this
      ensures Valid() && Agrees(IdFilter(lib, old(Rest())), r, Rest())
    {
      hide Expect, ObjectIds, FilterOk;
      var _ :- ExpectSymbol(":");
      var ids :- ReadObjectIds();
      var _ :- ExpectSymbol(")");
      return Success(IdQuery(ids));
    }

    /** Numbers alone: one ID, for which the cursor goes back, or a box. */
    method ReadNumbersFilter() returns (r: Result<Filter, ParseError>)
      requires Valid()
      modifies this
      ensures Valid() && Agrees(NumbersFilter(lib, old(Rest())), r, Rest())
    {
      hide Numbers, Expect, ObjectId, CheckBox, FilterOk, IsDecimal;
      var start := pos;
      var values :- ReadNumbers();
      var _ :- ExpectSymbol(")");
      if |values| == 4 {
        var b :- CheckBox((values[0], values[1], values[2], values[3]));
        return Success(BboxQuery(b.0, b.1, b.2, b.3));
      }
      if |values| == 1 {
        pos := start;
        var id :- ReadObjectId();
        var _ :- ExpectSymbol(")");
        return Success(IdQuery([id]));
      }
      return Failure(Invalid);
    }

    method ReadRoundFilter() returns (r: Result<Filter, ParseError>)
      requires Valid()
      modifies this
      ensures Valid() && Agrees(RoundFilter(lib, old(Rest())), r, Rest())
    {
      hide PeekWord, IdentifierAt, IdFilter, LinkFilter, AroundFilter, MetaFilter, NumbersFilter, FilterOk;
      var found :- WordAhead();
      if found.None? {
        r := ReadNumbersFilter();
        return;
      }
      var word := found.value;
      Advance(|word|);
      if word == "id" {
        r := ReadIdFilter();
      } else if LinkOf(word).Some? {
        r := ReadLinkFilter(LinkOf(word).value);
      } else if word == "around" {
        r := ReadAroundFilter();
      } else if word in {"user", "uid", "newer", "changed"} {
        r := ReadMetaFilter(word);
      } else if word in UNSUPPORTED_FILTERS {
        r := Failure(Unsupported);
      } else {
        r := Failure(Invalid);
      }
    }

    method ReadFilter() returns (r: Result<Option<Filter>, ParseError>)
      requires Valid()
      modifies this
      ensures Valid() && Agrees(OneFilter(lib, old(Rest())), r, Rest())
    {
      hide Accept, TagFilter, RoundFilter, SetName, FilterOk;
      var square :- AcceptSymbol("[");
      if square {
        var f :- ReadTagFilter();
        return Success(Some(f));
      }
      var round :- AcceptSymbol("(");
      if round {
        var f :- ReadRoundFilter();
        return Success(Some(f));
      }
      var dot :- AcceptSymbol(".");
      if dot {
        var from :- ReadSetName();
        return Success(Some(ItemFilter(from)));
      }
      return Success(None);
    }

    method ReadFilters() returns (r: Result<seq<Filter>, ParseError>)
      requires Valid()
      modifies this
      ensures Valid() && Agrees(Filters(lib, old(Rest()), []), r, Rest())
    {
      hide OneFilter, FilterOk;
      ghost var start := Rest();
      var filters: seq<Filter> := [];
      var more := true;
      while more
        invariant Valid() && forall i :: 0 <= i < |filters| ==> FilterOk(lib, filters[i])
        invariant Filters(lib, start, []) == if more then Filters(lib, Rest(), filters) else Success((filters, Rest()))
        decreases |text| - pos, more
      {
        var f :- ReadFilter();
        if f.Some? {
          filters := filters + [f.value];
        } else {
          more := false;
        }
      }
      return Success(filters);
    }

    // ----- Statements -----

    method ReadQuery(types: seq<Kind>) returns (r: Result<Statement, ParseError>)
      requires Valid() && TypesOk(types)
      modifies this
      ensures Valid() && Agrees(QueryRest(lib, old(Rest()), types), r, Rest())
    {
      hide Filters, Into, Expect, FilterOk, StatementOk, TypesOk;
      var filters :- ReadFilters();
      var into :- ReadInto();
      var _ :- ExpectSymbol(";");
      return Success(Query(types, filters, into));
    }

    /** The options of out, each group of them at most once. */
    method ReadPrint(from: string) returns (r: Result<Statement, ParseError>)
      requires Valid() && (from == DEFAULT_SET || IsIdentifier(from))
      modifies this
      ensures Valid() && Agrees(PrintRest(lib, old(Rest()), from), r, Rest())
    {
      hide Accept, Peek, Run, Identifier, PrintOption, IntOf, StatementOk, CountsAlone;
      ghost var start := Rest();
      var st := Print(from, Body, None, Asc, None);
      var given: set<Group> := {};
      var end :- AcceptSymbol(";");
      while !end
        invariant Valid() && st.Print?
        invariant PrintOptions(start, Print(from, Body, None, Asc, None), {}) == AfterEnd(end, Rest(), st, given)
        decreases |text| - pos, !end
      {
        var next :- ReadPrintOption(st, given);
        st, given := next.0, next.1;
        end :- AcceptSymbol(";");
      }
      if !CountsAlone(st) {
        return Failure(Invalid);
      }
      return Success(st);
    }

    /** What is left of the options of out, once it is known whether they end. */
    ghost function AfterEnd(end: bool, s: string, st: Statement, given: set<Group>): Reading<Statement>
      requires st.Print?
    {
      if end then if CountsAlone(st) then Success((st, s)) else Failure(Invalid)
      else match OneOption(s, st, given)
        case Failure(e) => Failure(e)
        case Success(read) => PrintOptions(read.1, read.0.0, read.0.1)
    }

    ghost function OneOption(s: string, st: Statement, given: set<Group>): (r: Reading<(Statement, set<Group>)>)
      requires st.Print?
      ensures r.Success? ==> r.value.0.0.Print? && |r.value.1| < |s|
    {
      var (round, s) :- Peek(s, "(");
      if round then Failure(Unsupported)
      else
        var (digits, s) :- Run(s, IsDigit);
        if digits.Some? then
          if LimitGroup in given then Failure(Invalid)
          else Success(((st.(limit := Some(IntOf(digits.value))), given + {LimitGroup}), s))
        else
          var (word, s) :- Identifier(s);
          if word.None? then Failure(Invalid)
          else
            var (group, with) :- PrintOption(st, word.value);
            if group in given then Failure(Invalid) else Success(((with, given + {group}), s))
    }

    method ReadPrintOption(st: Statement, given: set<Group>) returns (r: Result<(Statement, set<Group>), ParseError>)
      requires Valid() && st.Print?
      modifies this
      ensures Valid() && Agrees(OneOption(old(Rest()), st, given), r, Rest())
    {
      hide Peek, Run, Identifier, PrintOption, IntOf;
      var round :- PeekSymbol("(");
      if round {
        return Failure(Unsupported);
      }
      var digits :- MatchRun(IsDigit);
      if digits.Some? {
        if LimitGroup in given {
          return Failure(Invalid);
        }
        return Success((st.(limit := Some(IntOf(digits.value))), given + {LimitGroup}));
      }
      var word :- MatchIdentifier();
      if word.None? {
        return Failure(Invalid);
      }
      var option :- PrintOption(st, word.value);
      if option.0 in given {
        return Failure(Invalid);
      }
      return Success((option.1, given + {option.0}));
    }

    method ReadRecurseSymbol() returns (r: Result<Option<RecurseType>, ParseError>)
      requires Valid()
      modifies this
      ensures Valid() && Agrees(RecurseSymbol(old(Rest())), r, Rest())
    {
      hide Accept;
      var a :- AcceptSymbol("<<");
      if a {
        return Success(Some(UpRel));
      }
      var b :- AcceptSymbol(">>");
      if b {
        return Success(Some(DownRel));
      }
      var c :- AcceptSymbol("<");
      if c {
        return Success(Some(Up));
      }
      var d :- AcceptSymbol(">");
      return Success(if d then Some(Down) else None);
    }

    method ReadFromSet() returns (r: Result<Option<string>, ParseError>)
      requires Valid()
      modifies this
      ensures Valid() && Agrees(FromSet(old(Rest())), r, Rest())
    {
      hide Accept, SetName;
      var dot :- AcceptSymbol(".");
      if !dot {
        return Success(None);
      }
      var name :- ReadSetName();
      return Success(Some(name));
    }

    method ReadRecurse(kind: RecurseType, from: string) returns (r: Result<Statement, ParseError>)
      requires Valid() && IsIdentifier(from)
      modifies this
      ensures Valid() && Agrees(RecurseRest(lib, old(Rest()), kind, from), r, Rest())
    {
      hide Into, Expect, StatementOk;
      var into :- ReadInto();
      var _ :- ExpectSymbol(";");
      return Success(Recurse(kind, from, into));
    }

    method ReadItem(from: string) returns (r: Result<Statement, ParseError>)
      requires Valid() && IsIdentifier(from)
      modifies this
      ensures Valid() && Agrees(ItemRest(lib, old(Rest()), from), r, Rest())
    {
      hide Redirection, Expect, StatementOk;
      var into :- ReadRedirection();
      var _ :- ExpectSymbol(";");
      return Success(Item(from, into));
    }

    method ReadWordStatement(from: Option<string>, inUnion: bool) returns (r: Result<Statement, ParseError>)
      requires Valid() && (from.Some? ==> IsIdentifier(from.value))
      modifies this
      ensures Valid() && Agrees(WordStatement(lib, old(Rest()), from, inUnion), r, Rest())
    {
      hide PeekWord, IdentifierAt, PrintRest, ItemRest, QueryRest, StatementOk, TypesOf;
      var word :- WordAhead();
      if word == Some("out") {
        if inUnion {
          return Failure(Invalid);
        }
        Advance(3);
        r := ReadPrint(from.GetOr(DEFAULT_SET));
      } else if from.Some? {
        if word.Some? && word.value in UNSUPPORTED_STATEMENTS {
          return Failure(Unsupported);
        }
        r := ReadItem(from.value);
      } else if word.None? {
        r := Failure(Invalid);
      } else if TypesOf(word.value).Some? {
        TypesAreOk(word.value);
        Advance(|word.value|);
        r := ReadQuery(TypesOf(word.value).value);
      } else if word.value in UNSUPPORTED_STATEMENTS {
        r := Failure(Unsupported);
      } else {
        r := Failure(Invalid);
      }
    }

    lemma TypesAreOk(word: string)
      ensures TypesOf(word).Some? ==> TypesOk(TypesOf(word).value)
    {
    }

    method ReadSimple(inUnion: bool) returns (r: Result<Statement, ParseError>)
      requires Valid()
      modifies this
      ensures Valid() && Agrees(SimpleStatement(lib, old(Rest()), inUnion), r, Rest())
    {
      hide FromSet, RecurseSymbol, RecurseRest, WordStatement, StatementOk;
      var from :- ReadFromSet();
      var kind :- ReadRecurseSymbol();
      if kind.Some? {
        assert IsIdentifier(DEFAULT_SET);
        r := ReadRecurse(kind.value, from.GetOr(DEFAULT_SET));
      } else {
        r := ReadWordStatement(from, inUnion);
      }
    }

    method ReadStatement(inUnion: bool) returns (r: Result<Statement, ParseError>)
      requires Valid()
      modifies this
      ensures Valid() && Agrees(ParseStatement(lib, old(Rest()), inUnion), r, Rest())
      decreases |text| - pos, 0
    {
      hide Accept, UnionRest, SimpleStatement, StatementOk;
      var open :- AcceptSymbol("(");
      if open {
        r := ReadUnion();
      } else {
        r := ReadSimple(inUnion);
      }
    }

    /** Reads as UnionRest does when no statement has been read yet. */
    method ReadUnion() returns (r: Result<Statement, ParseError>)
      requires Valid()
      modifies this
      ensures Valid() && Agrees(UnionRest(lib, old(Rest()), [], false), r, Rest())
      decreases |text| - pos, 2
    {
      hide Accept, ParseStatement, CloseUnion, StatementOk;
      ghost var start := Rest();
      var statements: seq<Statement> := [];
      var difference := false;
      AcceptSkips(Rest(), ")");
      var close :- AcceptSymbol(")");
      while !close
        invariant Valid() && StatementsOk(lib, statements, true) && pos >= old(pos)
        invariant UnionRest(lib, start, [], false) == AfterBracket(close, Rest(), statements, difference)
        invariant !close ==> Skip(Rest()) == Success(Rest())
        decreases |text| - pos, !close
      {
        var next :- ReadMember(statements, difference);
        statements, difference := next.0, next.1;
        AcceptSkips(Rest(), ")");
        close :- AcceptSymbol(")");
      }
      r := ReadUnionEnd(statements, difference);
    }

    /** What is left of a union, once it is known whether it is closed. */
    ghost function AfterBracket(close: bool, s: string, statements: seq<Statement>, difference: bool): Reading<Statement>
      requires StatementsOk(lib, statements, true)
    {
      if close then CloseUnion(lib, s, statements, difference)
      else match OneMember(s, statements, difference)
        case Failure(e) => Failure(e)
        case Success(read) => UnionRest(lib, read.1, read.0.0, read.0.1)
    }

    ghost function OneMember(s: string, statements: seq<Statement>, difference: bool): (r: Reading<(seq<Statement>, bool)>)
      requires StatementsOk(lib, statements, true)
      ensures r.Success? ==> |r.value.1| < |s| && StatementsOk(lib, r.value.0.0, true)
    {
      if s == "" then Failure(Invalid)
      else
        var (minus, t) :- Accept(s, "-");
        if minus && (|statements| != 1 || difference) then Failure(Invalid)
        else if !minus && difference && |statements| == 2 then Failure(Invalid)
        else
          var (st, t) :- ParseStatement(lib, t, true);
          Success(((statements + [st], difference || minus), t))
    }

    method ReadMember(statements: seq<Statement>, difference: bool) returns (r: Result<(seq<Statement>, bool), ParseError>)
      requires Valid() && StatementsOk(lib, statements, true) && Skip(Rest()) == Success(Rest())
      modifies this
      ensures Valid() && Agrees(OneMember(old(Rest()), statements, difference), r, Rest())
      decreases |text| - pos, 1
    {
      hide Accept, ParseStatement, StatementOk;
      var end := AtEnd();
      if end == Success(true) {
        return Failure(Invalid);
      }
      var minus :- AcceptSymbol("-");
      if minus {
        if |statements| != 1 || difference {
          return Failure(Invalid);
        }
      } else if difference && |statements| == 2 {
        return Failure(Invalid);
      }
      var st :- ReadStatement(true);
      return Success((statements + [st], difference || minus));
    }

    method ReadUnionEnd(statements: seq<Statement>, difference: bool) returns (r: Result<Statement, ParseError>)
      requires Valid() && StatementsOk(lib, statements, true)
      modifies this
      ensures Valid() && Agrees(CloseUnion(lib, old(Rest()), statements, difference), r, Rest())
    {
      hide Into, Expect, StatementOk;
      if |statements| == 0 {
        return Failure(Invalid);
      }
      if difference && |statements| != 2 {
        return Failure(Invalid);
      }
      var into :- ReadInto();
      var _ :- ExpectSymbol(";");
      return Success(if difference then Difference(statements[0], statements[1], into) else Union(statements, into));
    }

    // ----- Settings -----

    method ReadSpecialName() returns (r: Result<Option<string>, ParseError>)
      requires Valid()
      modifies this
      ensures Valid() && Agrees(SpecialName(old(Rest())), r, Rest())
    {
      hide Quoted, Identifier;
      var quoted :- ReadString();
      if quoted.Some? {
        return Success(quoted);
      }
      var name :- MatchIdentifier();
      if name != Some("count") {
        return Success(name);
      }
      var colon :- PeekSymbol(":");
      if !colon || "::" <= Rest() {
        return Success(name);
      }
      Advance(1);
      var more :- MatchIdentifier();
      return Success(Some("count:" + more.GetOr("")));
    }

    method ReadCsvField() returns (r: Result<string, ParseError>)
      requires Valid()
      modifies this
      ensures Valid() && Agrees(CsvField(old(Rest())), r, Rest())
    {
      hide Accept, TextValue, SpecialName;
      var special :- AcceptSymbol("::");
      if !special {
        r := ReadTextValue();
        return;
      }
      var name :- ReadSpecialName();
      if name.Some? && name.value in CSV_SPECIAL_FIELDS {
        return Success("::" + name.value);
      }
      return Failure(Invalid);
    }

    method ReadColumns() returns (r: Result<seq<string>, ParseError>)
      requires Valid()
      modifies this
      ensures Valid() && Agrees(Items(CsvField, old(Rest())), r, Rest())
    {
      hide CsvField, Accept;
      var column :- ReadCsvField();
      var columns := [column];
      ghost var start := Rest();
      var more :- AcceptSymbol(",");
      while more
        invariant Valid()
        invariant MoreItems(CsvField, start, [column]) == AfterComma(CsvField, more, Rest(), columns)
        decreases |text| - pos, more
      {
        var next :- ReadCsvField();
        columns := columns + [next];
        more :- AcceptSymbol(",");
      }
      return Success(columns);
    }

    method ReadCsvOptions() returns (r: Result<(bool, string), ParseError>)
      requires Valid()
      modifies this
      ensures Valid() && Agrees(CsvOptions(old(Rest())), r, Rest())
    {
      hide Accept, Identifier, Quoted;
      var more :- AcceptSymbol(";");
      if !more {
        return Success((true, "\t"));
      }
      var word :- MatchIdentifier();
      if word != Some("true") && word != Some("false") {
        return Failure(Invalid);
      }
      var header := word == Some("true");
      var again :- AcceptSymbol(";");
      if !again {
        return Success((header, "\t"));
      }
      var separator :- ReadString();
      if separator.None? {
        return Failure(Invalid);
      }
      return Success((header, separator.value));
    }

    method ReadCsvFormat() returns (r: Result<OutputFormat, ParseError>)
      requires Valid()
      modifies this
      ensures Valid() && Agrees(CsvFormat(old(Rest())), r, Rest())
    {
      hide Expect, Items, CsvOptions;
      var _ :- ExpectSymbol("(");
      var columns :- ReadColumns();
      var options :- ReadCsvOptions();
      var _ :- ExpectSymbol(")");
      return Success(Csv(columns, options.0, options.1));
    }

    method ReadOutSetting() returns (r: Result<OutputFormat, ParseError>)
      requires Valid()
      modifies this
      ensures Valid() && Agrees(OutSetting(old(Rest())), r, Rest())
    {
      hide Identifier, CsvFormat;
      var word :- MatchIdentifier();
      if word == Some("custom") || word == Some("popup") {
        return Failure(Unsupported);
      }
      if word == Some("xml") {
        return Success(Xml);
      } else if word == Some("json") {
        return Success(Json);
      } else if word == Some("csv") {
        r := ReadCsvFormat();
      } else {
        r := Failure(Invalid);
      }
    }

    method ReadWholeNumber() returns (r: Result<nat, ParseError>)
      requires Valid()
      modifies this
      ensures Valid() && Agrees(WholeNumber(old(Rest())), r, Rest())
    {
      hide Run, IntOf;
      var digits :- MatchRun(IsDigit);
      if digits.None? {
        return Failure(Invalid);
      }
      return Success(IntOf(digits.value));
    }

    method ReadBoxSetting() returns (r: Result<Bbox, ParseError>)
      requires Valid()
      modifies this
      ensures Valid() && Agrees(BoxSetting(old(Rest())), r, Rest())
    {
      hide NumberHere, Expect, CheckBox, IsDecimal;
      var south :- ReadNumber();
      var _ :- ExpectSymbol(",");
      var west :- ReadNumber();
      var _ :- ExpectSymbol(",");
      var north :- ReadNumber();
      var _ :- ExpectSymbol(",");
      var east :- ReadNumber();
      var b :- CheckBox((south, west, north, east));
      return Success(b);
    }

    method ReadSetting(name: string, script: Script) returns (r: Result<Script, ParseError>)
      requires Valid() && SettingsOk(script) && (name == "bbox" ==> !script.bboxFromUrl)
      modifies this
      ensures Valid() && Agrees(Setting(old(Rest()), name, script), r, Rest())
    {
      hide OutSetting, WholeNumber, BoxSetting, SettingsOk;
      if name == "out" {
        var output :- ReadOutSetting();
        return Success(script.(output := output));
      } else if name == "timeout" {
        var n :- ReadWholeNumber();
        return Success(script.(timeout := Some(n)));
      } else if name == "maxsize" {
        var n :- ReadWholeNumber();
        return Success(script.(maxsize := Some(n)));
      } else if name == "bbox" {
        var b :- ReadBoxSetting();
        return Success(script.(bbox := Some(b)));
      }
      return Failure(Invalid);
    }

    /** Settings one after another, each at most once. */
    method ReadSettings() returns (r: Result<Script, ParseError>)
      requires Valid()
      modifies this
      ensures Valid() && Agrees(Settings(old(Rest()), NO_SETTINGS, {}), r, Rest())
    {
      hide Accept, SettingsOk, Settings, OneSetting;
      ghost var start := Rest();
      var script := NO_SETTINGS;
      var seen: set<string> := {};
      NothingIsOk();
      SettingsFrom(start, script, seen);
      var open :- AcceptSymbol("[");
      while open
        invariant Valid() && SettingsOk(script) && BoxSeen(script, seen)
        invariant Settings(start, NO_SETTINGS, {}) == AfterOpening(open, Rest(), script, seen)
        decreases |text| - pos, open
      {
        var next :- ReadOneSetting(script, seen);
        script, seen := next.0, next.1;
        SettingsFrom(Rest(), script, seen);
        open :- AcceptSymbol("[");
      }
      return Success(script);
    }

    lemma SettingsFrom(s: string, script: Script, seen: set<string>)
      requires SettingsOk(script) && BoxSeen(script, seen)
      ensures Accept(s, "[").Failure? ==> Settings(s, script, seen) == Failure(Accept(s, "[").error)
      ensures Accept(s, "[").Success? ==>
        Settings(s, script, seen) == AfterOpening(Accept(s, "[").value.0, Accept(s, "[").value.1, script, seen)
    {
      hide Accept, Identifier, Expect, Setting, SettingsOk;
    }

    lemma NothingIsOk()
      ensures SettingsOk(NO_SETTINGS) && BoxSeen(NO_SETTINGS, {})
    {
    }

    /** What is left of the settings, once it is known whether another begins. */
    ghost function AfterOpening(open: bool, s: string, script: Script, seen: set<string>): Reading<Script>
      requires SettingsOk(script) && BoxSeen(script, seen)
    {
      if !open then Success((script, s))
      else match OneSetting(s, script, seen)
        case Failure(e) => Failure(e)
        case Success(read) => Settings(read.1, read.0.0, read.0.1)
    }

    ghost function OneSetting(s: string, script: Script, seen: set<string>): (r: Reading<(Script, set<string>)>)
      requires SettingsOk(script) && BoxSeen(script, seen)
      ensures r.Success? ==> |r.value.1| < |s| && SettingsOk(r.value.0.0) && BoxSeen(r.value.0.0, r.value.0.1)
    {
      var (found, s) :- Identifier(s);
      if found.None? then Failure(Invalid)
      else
        var name := found.value;
        if name in UNSUPPORTED_SETTINGS then Failure(Unsupported)
        else if name in seen then Failure(Invalid)
        else
          var (close, s) :- if name == "bbox" then Accept(s, "]") else Success((false, s));
          if close then Success(((script.(bboxFromUrl := true), seen + {name}), s))
          else
            var s :- Expect(s, ":");
            var (with, s) :- Setting(s, name, script);
            var s :- Expect(s, "]");
            Success(((with, seen + {name}), s))
    }

    method ReadOneSetting(script: Script, seen: set<string>) returns (r: Result<(Script, set<string>), ParseError>)
      requires Valid() && SettingsOk(script) && BoxSeen(script, seen)
      modifies this
      ensures Valid() && Agrees(OneSetting(old(Rest()), script, seen), r, Rest())
    {
      hide Accept, Expect, Identifier, Setting, SettingsOk;
      var found :- MatchIdentifier();
      if found.None? {
        return Failure(Invalid);
      }
      var name := found.value;
      if name in UNSUPPORTED_SETTINGS {
        return Failure(Unsupported);
      }
      if name in seen {
        return Failure(Invalid);
      }
      if name == "bbox" {
        var close :- AcceptSymbol("]");
        if close {
          return Success((script.(bboxFromUrl := true), seen + {name}));
        }
      }
      var _ :- ExpectSymbol(":");
      var with :- ReadSetting(name, script);
      var _ :- ExpectSymbol("]");
      return Success((with, seen + {name}));
    }

    // ----- Scripts -----

    method ReadStatements() returns (r: Result<seq<Statement>, ParseError>)
      requires Valid()
      modifies this
      ensures Valid() && r == Statements(lib, old(Rest()), [])
    {
      hide Skip, ParseStatement, StatementOk;
      ghost var start := Rest();
      var statements: seq<Statement> := [];
      while true
        invariant Valid() && StatementsOk(lib, statements, false)
        invariant Statements(lib, start, []) == Statements(lib, Rest(), statements)
        decreases |text| - pos
      {
        ghost var before := Rest();
        var end :- AtEnd();
        if end {
          return Success(statements);
        }
        SkippedStatements(before, Rest(), statements);
        var st :- ReadStatement(false);
        statements := statements + [st];
      }
    }

    /** What is skipped before a statement makes no difference. */
    lemma SkippedStatements(s: string, t: string, statements: seq<Statement>)
      requires StatementsOk(lib, statements, false) && Skip(s) == Success(t)
      ensures Statements(lib, s, statements) == Statements(lib, t, statements)
      ensures |t| <= |s|
    {
      hide Skip, ParseStatement, StatementOk;
      SkipTwice(s);
      StatementsFrom(s, t, statements);
      StatementsFrom(t, t, statements);
      hide Statements;
    }

    lemma StatementsFrom(s: string, t: string, statements: seq<Statement>)
      requires StatementsOk(lib, statements, false) && Skip(s) == Success(t)
      ensures Statements(lib, s, statements) ==
        if t == "" then Success(statements)
        else if ParseStatement(lib, t, false).Failure? then Failure(ParseStatement(lib, t, false).error)
        else
          var read := ParseStatement(lib, t, false).value;
          Statements(lib, read.1, statements + [read.0])
    {
      hide Skip, ParseStatement, StatementOk;
    }

    method ReadHeader() returns (r: Result<Script, ParseError>)
      requires Valid()
      modifies this
      ensures Valid() && Agrees(Header(old(Rest())), r, Rest())
    {
      hide Peek, Settings, Expect, SettingsOk;
      var bracket :- PeekSymbol("[");
      if !bracket {
        return Success(NO_SETTINGS);
      }
      var script :- ReadSettings();
      var _ :- ExpectSymbol(";");
      return Success(script);
    }

    /** Read the whole text, as the grammar says. */
    method ReadScript() returns (r: Result<Script, ParseError>)
      requires Valid() && pos == 0
      modifies this
      ensures Valid() && r == Parse(lib, text)
    {
      hide Contains, IsXml, Header, Statements, SettingsOk, StatementsOk;
      if Contains(text, "{{") {
        return Failure(Invalid);
      }
      if IsXml(lib, text) {
        return Failure(Unsupported);
      }
      assert Rest() == text;
      var script :- ReadHeader();
      var statements :- ReadStatements();
      if |statements| == 0 {
        return Failure(Invalid);
      }
      return Success(script.(statements := statements));
    }
  }
}
