/** The grammar of a query: what each part reads from the remaining text. Every
    part that succeeds has read something, so reading ends. */
module QlGrammar {
  import opened Wrappers
  import opened Osm
  import opened Ql
  import opened QlText
  import opened QlTrees

  // ----- Names and values -----

  function SetName(s: string): (r: Reading<string>)
    ensures r.Success? ==> |r.value.1| < |s| && IsIdentifier(r.value.0)
  {
    var (name, t) :- Identifier(s);
    if name.None? then Failure(Invalid) else Success((name.value, t))
  }

  /** Reads an arrow, a dot and a name, or nothing. */
  function Redirection(s: string): (r: Reading<Option<string>>)
    ensures r.Success? ==> |r.value.1| <= |s| && (r.value.0.Some? ==> IsIdentifier(r.value.0.value))
  {
    var (arrow, t) :- Accept(s, "->");
    if !arrow then Success((None, t))
    else
      var u :- Expect(t, ".");
      var (name, v) :- SetName(u);
      Success((Some(name), v))
  }

  function Into(s: string): (r: Reading<string>)
    ensures r.Success? ==> |r.value.1| <= |s| && IsIdentifier(r.value.0)
  {
    var (name, t) :- Redirection(s);
    Success((name.GetOr(DEFAULT_SET), t))
  }

  /** Reads text in quotes, or else as many word characters as follow. */
  function TextValue(s: string): (r: Reading<string>)
    ensures r.Success? ==> |r.value.1| < |s|
  {
    var (quoted, t) :- Quoted(s);
    if quoted.Some? then Success((quoted.value, t))
    else
      var (bare, u) :- Run(t, IsWordChar);
      if bare.None? then Failure(Invalid) else Success((bare.value, u))
  }

  function NumberHere(s: string): (r: Reading<real>)
    ensures r.Success? ==> |r.value.1| < |s| && IsDecimal(r.value.0)
  {
    var (number, t) :- Number(s);
    if number.None? then Failure(Invalid) else Success((number.value, t))
  }

  function ObjectId(s: string): (r: Reading<int>)
    ensures r.Success? ==> |r.value.1| < |s| && 0 <= r.value.0 < MAX_ID
  {
    var (digits, t) :- Run(s, IsDigit);
    if digits.None? || |digits.value| > 18 then Failure(Invalid)
    else
      FewDigits(digits.value);
      Pow10Grows(|digits.value|, 18);
      Success((IntOf(digits.value), t))
  }

  lemma {:induction false} FewDigits(digits: string)
    requires forall i :: 0 <= i < |digits| ==> IsDigit(digits[i])
    ensures IntOf(digits) < Pow10(|digits|)
  {
    if digits != "" {
      FewDigits(digits[..|digits| - 1]);
    }
  }

  lemma {:induction false} Pow10Grows(a: nat, b: nat)
    requires a <= b
    ensures Pow10(a) <= Pow10(b)
    decreases b
  {
    if a < b {
      Pow10Grows(a, b - 1);
    }
  }

  // ----- Lists -----

  /** Reading an item never gives back text. */
  ghost predicate Advances<T(!new)>(item: string -> Reading<T>) {
    forall s :: item(s).Success? ==> |item(s).value.1| <= |s|
  }

  /** The rest of a list with commas between its items. */
  function MoreItems<T(!new)>(item: string -> Reading<T>, s: string, items: seq<T>): (r: Reading<seq<T>>)
    requires Advances(item)
    ensures r.Success? ==> |r.value.1| <= |s| && items <= r.value.0
    decreases |s|
  {
    var (more, t) :- Accept(s, ",");
    if !more then Success((items, t))
    else
      var (x, u) :- item(t);
      MoreItems(item, u, items + [x])
  }

  function Items<T(!new)>(item: string -> Reading<T>, s: string): (r: Reading<seq<T>>)
    requires Advances(item)
    ensures r.Success? ==> |r.value.1| <= |s| && |r.value.0| > 0
  {
    var (x, t) :- item(s);
    MoreItems(item, t, [x])
  }

  lemma {:induction false} MoreItemsOk<T(!new)>(item: string -> Reading<T>, ok: T -> bool, s: string, items: seq<T>)
    requires Advances(item) && forall t :: item(t).Success? ==> ok(item(t).value.0)
    requires forall i :: 0 <= i < |items| ==> ok(items[i])
    ensures
      var r := MoreItems(item, s, items);
      r.Success? ==> forall i :: 0 <= i < |r.value.0| ==> ok(r.value.0[i])
    decreases |s|
  {
    var more := Accept(s, ",");
    if more.Success? && more.value.0 {
      var x := item(more.value.1);
      if x.Success? {
        MoreItemsOk(item, ok, x.value.1, items + [x.value.0]);
      }
    }
  }

  function ObjectIds(s: string): (r: Reading<seq<int>>)
    ensures r.Success? ==> |r.value.1| <= |s| && IdsOk(r.value.0)
  {
    var (x, t) :- ObjectId(s);
    MoreItemsOk(ObjectId, id => 0 <= id < MAX_ID, t, [x]);
    Items(ObjectId, s)
  }

  function Numbers(s: string): (r: Reading<seq<real>>)
    ensures r.Success? ==> |r.value.1| <= |s| && forall i :: 0 <= i < |r.value.0| ==> IsDecimal(r.value.0[i])
  {
    var (x, t) :- NumberHere(s);
    NumbersAreDecimal(t, [x]);
    Items(NumberHere, s)
  }

  lemma {:induction false} NumbersAreDecimal(s: string, items: seq<real>)
    requires forall i :: 0 <= i < |items| ==> IsDecimal(items[i])
    ensures
      var r := MoreItems(NumberHere, s, items);
      r.Success? ==> forall i :: 0 <= i < |r.value.0| ==> IsDecimal(r.value.0[i])
    decreases |s|
  {
    hide IsDecimal;
    var more := Accept(s, ",");
    if more.Success? && more.value.0 {
      var x := NumberHere(more.value.1);
      if x.Success? {
        NumbersAreDecimal(x.value.1, items + [x.value.0]);
      }
    }
  }

  // ----- Tag filters -----

  function TagOperator(s: string): (r: Reading<TagMode>)
    ensures r.Success? ==> |r.value.1| <= |s| && !r.value.0.Exists? && !r.value.0.NotExists?
  {
    var (a, s) :- Accept(s, "!=");
    if a then Success((NotEquals, s))
    else
      var (b, s) :- Accept(s, "!~");
      if b then Success((NotMatches, s))
      else
        var (c, s) :- Accept(s, "~");
        if c then Success((Matches, s))
        else
          var (d, s) :- Accept(s, "==");
          if d then Success((Equals, s))
          else
            var (e, s) :- Accept(s, "=");
            if e then Success((Equals, s)) else Failure(Invalid)
  }

  /** The option of a regular expression, which only ignores case. */
  function CaseOption(s: string, mode: TagMode): (r: Reading<bool>)
    ensures r.Success? ==> |r.value.1| <= |s| && (r.value.0 ==> mode.Matches? || mode.NotMatches?)
  {
    if !mode.Matches? && !mode.NotMatches? then Success((false, s))
    else
      var (comma, t) :- Accept(s, ",");
      if !comma then Success((false, t))
      else
        var (word, u) :- Identifier(t);
        if word == Some("i") then Success((true, u)) else Failure(Invalid)
  }

  /** The rest of a tag filter after its opening bracket. */
  function TagFilter(lib: Library, s: string): (r: Reading<Filter>)
    ensures r.Success? ==> |r.value.1| < |s| && FilterOk(lib, r.value.0)
  {
    var (tilde, s) :- Peek(s, "~");
    if tilde then Failure(Unsupported)
    else
      var (no, s) :- Accept(s, "!");
      var (key, s) :- TextValue(s);
      if no then
        var s :- Expect(s, "]");
        Success((HasKv(NotExists, key, "", false), s))
      else
        var (close, s) :- Accept(s, "]");
        if close then Success((HasKv(Exists, key, "", false), s))
        else
          var (mode, s) :- TagOperator(s);
          var (value, s) :- TextValue(s);
          var (ignoreCase, s) :- CaseOption(s, mode);
          var s :- Expect(s, "]");
          Success((HasKv(mode, key, value, ignoreCase), s))
  }

  // ----- Filters in round brackets -----

  const UNSUPPORTED_FILTERS := {"poly", "area", "pivot", "user_touched", "uid_touched", "if", "way_link", "way_cnt"}

  function CheckBox(b: Bbox): (r: Result<Bbox, ParseError>)
    ensures r.Success? ==> r.value == b && InRange(b)
  {
    if !(-90.0 <= b.0 <= 90.0 && -90.0 <= b.2 <= 90.0 && -180.0 <= b.1 <= 180.0 && -180.0 <= b.3 <= 180.0) then Failure(Invalid)
    else if b.0 > b.2 then Failure(Invalid)
    else if b.1 > b.3 then Failure(Unsupported)
    else Success(b)
  }

  /** Reads a dot and a name; without a dot the name is that of the default set. */
  function FilterSet(s: string): (r: Reading<string>)
    ensures r.Success? ==> |r.value.1| <= |s| && IsIdentifier(r.value.0)
  {
    var (dot, t) :- Accept(s, ".");
    if dot then SetName(t) else Success((DEFAULT_SET, t))
  }

  function LinkOf(word: string): Option<Link> {
    if word == "w" then Some(W) else if word == "r" then Some(R) else if word == "bn" then Some(Bn)
    else if word == "bw" then Some(Bw) else if word == "br" then Some(Br) else None
  }

  function Role(s: string): (r: Reading<Option<string>>)
    ensures r.Success? ==> |r.value.1| <= |s|
  {
    var (colon, s) :- Accept(s, ":");
    if !colon then Success((None, s))
    else
      var (quoted, s) :- Quoted(s);
      if quoted.Some? then Success((quoted, s))
      else
        var (number, s) :- Number(s);
        if number.Some? then Failure(Unsupported)
        else
          var (role, s) :- TextValue(s);
          Success((Some(role), s))
  }

  function LinkFilter(lib: Library, s: string, link: Link): (r: Reading<Filter>)
    ensures r.Success? ==> |r.value.1| < |s| && FilterOk(lib, r.value.0)
  {
    var (from, s) :- FilterSet(s);
    var (role, s) :- Role(s);
    var s :- Expect(s, ")");
    Success((RecurseFilter(link, from, role), s))
  }

  /** The position of an around filter, after its comma. */
  function AroundPosition(s: string): (r: Reading<(real, real)>)
    ensures r.Success? ==> |r.value.1| < |s| && PositionOk(r.value.0)
  {
    var (lat, s) :- NumberHere(s);
    var s :- Expect(s, ",");
    var (lon, s) :- NumberHere(s);
    var (comma, s) :- Peek(s, ",");
    if comma then Failure(Unsupported)
    else
      var s :- Expect(s, ")");
      if !(-90.0 <= lat <= 90.0 && -180.0 <= lon <= 180.0) then Failure(Invalid) else Success(((lat, lon), s))
  }

  /** The rest of an around filter after its radius. */
  function AroundRest(lib: Library, s: string, from: string, radius: real): (r: Reading<Filter>)
    requires IsIdentifier(from) && IsDecimal(radius) && radius >= 0.0
    ensures r.Success? ==> |r.value.1| < |s| && FilterOk(lib, r.value.0)
  {
    var (close, s) :- Accept(s, ")");
    if close then Success((Around(radius, from, None), s))
    else
      var s :- Expect(s, ",");
      var (position, s) :- AroundPosition(s);
      assert IsIdentifier(DEFAULT_SET);
      Success((Around(radius, DEFAULT_SET, Some(position)), s))
  }

  function AroundFilter(lib: Library, s: string): (r: Reading<Filter>)
    ensures r.Success? ==> |r.value.1| < |s| && FilterOk(lib, r.value.0)
  {
    var (from, s) :- FilterSet(s);
    var s :- Expect(s, ":");
    var (radius, s) :- NumberHere(s);
    if radius < 0.0 then Failure(Invalid) else AroundRest(lib, s, from, radius)
  }

  /** Reads text in quotes that the library knows as a date, and gives its seconds. */
  function Timestamp(lib: Library, s: string): (r: Reading<int>)
    ensures r.Success? ==> |r.value.1| < |s| && DateOk(lib, r.value.0)
  {
    var (text, t) :- Quoted(s);
    if text.None? then Failure(Invalid)
    else
      var seconds := lib.readDate(text.value);
      if seconds.None? then Failure(Invalid) else Success((seconds.value, t))
  }

  function MetaFilter(lib: Library, s: string, word: string): (r: Reading<Filter>)
    ensures r.Success? ==> |r.value.1| < |s| && FilterOk(lib, r.value.0)
  {
    var s :- Expect(s, ":");
    var (filter, s) :- MetaCondition(lib, s, word);
    var s :- Expect(s, ")");
    Success((filter, s))
  }

  function MetaCondition(lib: Library, s: string, word: string): (r: Reading<Filter>)
    ensures r.Success? ==> |r.value.1| <= |s| && FilterOk(lib, r.value.0)
  {
    if word == "uid" then
      var (uids, s) :- ObjectIds(s);
      Success((User(uids, []), s))
    else if word == "user" then
      var (names, s) :- Items(TextValue, s);
      Success((User([], names), s))
    else if word == "newer" then
      var (than, s) :- Timestamp(lib, s);
      Success((Newer(than), s))
    else
      var (since, s) :- Timestamp(lib, s);
      var (comma, s) :- Accept(s, ",");
      if !comma then Success((Changed(since, None), s))
      else
        var (until, s) :- Timestamp(lib, s);
        Success((Changed(since, Some(until)), s))
  }

  /** IDs after the word id and a colon. */
  function IdFilter(lib: Library, s: string): (r: Reading<Filter>)
    ensures r.Success? ==> |r.value.1| < |s| && FilterOk(lib, r.value.0)
  {
    var s :- Expect(s, ":");
    var (ids, s) :- ObjectIds(s);
    var s :- Expect(s, ")");
    Success((IdQuery(ids), s))
  }

  /** Numbers alone: one ID, or the four coordinates of a box. */
  function NumbersFilter(lib: Library, start: string): (r: Reading<Filter>)
    ensures r.Success? ==> |r.value.1| < |start| && FilterOk(lib, r.value.0)
  {
    var (values, s) :- Numbers(start);
    var s :- Expect(s, ")");
    if |values| == 4 then
      var b :- CheckBox((values[0], values[1], values[2], values[3]));
      Success((BboxQuery(b.0, b.1, b.2, b.3), s))
    else if |values| == 1 then
      var (id, s) :- ObjectId(start);
      var s :- Expect(s, ")");
      Success((IdQuery([id]), s))
    else Failure(Invalid)
  }

  /** The rest of a filter after its opening round bracket. */
  function RoundFilter(lib: Library, s: string): (r: Reading<Filter>)
    ensures r.Success? ==> |r.value.1| < |s| && FilterOk(lib, r.value.0)
  {
    var (found, s) :- PeekWord(s);
    if found.None? then NumbersFilter(lib, s)
    else
      var word := found.value;
      var t := s[|word|..];
      if word == "id" then IdFilter(lib, t)
      else if LinkOf(word).Some? then LinkFilter(lib, t, LinkOf(word).value)
      else if word == "around" then AroundFilter(lib, t)
      else if word in {"user", "uid", "newer", "changed"} then MetaFilter(lib, t, word)
      else if word in UNSUPPORTED_FILTERS then Failure(Unsupported)
      else Failure(Invalid)
  }

  // ----- Statements -----

  const UNSUPPORTED_STATEMENTS := {"area", "derived", "is_in", "map_to_area", "foreach", "for", "if", "else", "complete",
                                   "make", "convert", "retro", "compare", "timeline", "local"}

  /** A filter, if there is one. */
  function OneFilter(lib: Library, s: string): (r: Reading<Option<Filter>>)
    ensures r.Success? ==> |r.value.1| <= |s|
    ensures r.Success? && r.value.0.Some? ==> |r.value.1| < |s| && FilterOk(lib, r.value.0.value)
  {
    var (square, s) :- Accept(s, "[");
    if square then
      var (f, s) :- TagFilter(lib, s);
      Success((Some(f), s))
    else
      var (round, s) :- Accept(s, "(");
      if round then
        var (f, s) :- RoundFilter(lib, s);
        Success((Some(f), s))
      else
        var (dot, s) :- Accept(s, ".");
        if dot then
          var (from, s) :- SetName(s);
          Success((Some(ItemFilter(from)), s))
        else Success((None, s))
  }

  /** Filters one after another, until something else. */
  function Filters(lib: Library, s: string, filters: seq<Filter>): (r: Reading<seq<Filter>>)
    requires forall i :: 0 <= i < |filters| ==> FilterOk(lib, filters[i])
    ensures r.Success? ==> |r.value.1| <= |s| && forall i :: 0 <= i < |r.value.0| ==> FilterOk(lib, r.value.0[i])
    decreases |s|
  {
    var (f, s) :- OneFilter(lib, s);
    if f.None? then Success((filters, s)) else Filters(lib, s, filters + [f.value])
  }

  /** The rest of a query after its first word. */
  function QueryRest(lib: Library, s: string, types: seq<Kind>): (r: Reading<Statement>)
    requires TypesOk(types)
    ensures r.Success? ==> |r.value.1| < |s| && forall inUnion :: StatementOk(lib, r.value.0, inUnion)
  {
    var (filters, s) :- Filters(lib, s, []);
    var (into, s) :- Into(s);
    var s :- Expect(s, ";");
    Success((Query(types, filters, into), s))
  }

  datatype Group = ModeGroup | GeometryGroup | OrderGroup | LimitGroup

  function ModeOf(word: string): Option<PrintMode> {
    if word == "ids" then Some(IdsOnly) else if word == "skel" then Some(Skel) else if word == "body" then Some(Body)
    else if word == "tags" then Some(Tags) else if word == "meta" then Some(Meta) else if word == "count" then Some(Count)
    else None
  }

  function GeometryOf(word: string): Option<Geometry> {
    if word == "geom" then Some(Geom) else if word == "bb" then Some(Bb) else if word == "center" then Some(Center) else None
  }

  function OrderOf(word: string): Option<PrintOrder> {
    if word == "asc" then Some(Asc) else if word == "qt" then Some(Qt) else None
  }

  /** One word among the options of out: which group it is of, and the statement with it. */
  function PrintOption(st: Statement, word: string): (r: Result<(Group, Statement), ParseError>)
    requires st.Print?
    ensures r.Success? ==> r.value.1.Print? && r.value.1.from == st.from
  {
    if ModeOf(word).Some? then Success((ModeGroup, st.(mode := ModeOf(word).value)))
    else if GeometryOf(word).Some? then Success((GeometryGroup, st.(geometry := GeometryOf(word))))
    else if OrderOf(word).Some? then Success((OrderGroup, st.(order := OrderOf(word).value)))
    else if word == "noids" then Failure(Unsupported)
    else Failure(Invalid)
  }

  /** The options of out, each group of them at most once. */
  function PrintOptions(s: string, st: Statement, given: set<Group>): (r: Reading<Statement>)
    requires st.Print?
    ensures r.Success? ==>
      |r.value.1| < |s| && r.value.0.Print? && r.value.0.from == st.from && CountsAlone(r.value.0)
    decreases |s|
  {
    var (end, s) :- Accept(s, ";");
    if end then if CountsAlone(st) then Success((st, s)) else Failure(Invalid)
    else
      var (round, s) :- Peek(s, "(");
      if round then Failure(Unsupported)
      else
        var (digits, s) :- Run(s, IsDigit);
        if digits.Some? then
          if LimitGroup in given then Failure(Invalid)
          else PrintOptions(s, st.(limit := Some(IntOf(digits.value))), given + {LimitGroup})
        else
          var (word, s) :- Identifier(s);
          if word.None? then Failure(Invalid)
          else
            var (group, with) :- PrintOption(st, word.value);
            if group in given then Failure(Invalid) else PrintOptions(s, with, given + {group})
  }

  function RecurseSymbol(s: string): (r: Reading<Option<RecurseType>>)
    ensures r.Success? ==> |r.value.1| <= |s| && (r.value.0.Some? ==> |r.value.1| < |s|)
  {
    var (a, s) :- Accept(s, "<<");
    if a then Success((Some(UpRel), s))
    else
      var (b, s) :- Accept(s, ">>");
      if b then Success((Some(DownRel), s))
      else
        var (c, s) :- Accept(s, "<");
        if c then Success((Some(Up), s))
        else
          var (d, s) :- Accept(s, ">");
          if d then Success((Some(Down), s)) else Success((None, s))
  }

  /** An optional .name before a statement. */
  function FromSet(s: string): (r: Reading<Option<string>>)
    ensures r.Success? ==> |r.value.1| <= |s| && (r.value.0.Some? ==> |r.value.1| < |s| && IsIdentifier(r.value.0.value))
  {
    var (dot, s) :- Accept(s, ".");
    if !dot then Success((None, s))
    else
      var (name, s) :- SetName(s);
      Success((Some(name), s))
  }

  function RecurseRest(lib: Library, s: string, kind: RecurseType, from: string): (r: Reading<Statement>)
    requires IsIdentifier(from)
    ensures r.Success? ==> |r.value.1| < |s| && forall inUnion :: StatementOk(lib, r.value.0, inUnion)
  {
    var (into, s) :- Into(s);
    var s :- Expect(s, ";");
    Success((Recurse(kind, from, into), s))
  }

  function ItemRest(lib: Library, s: string, from: string): (r: Reading<Statement>)
    requires IsIdentifier(from)
    ensures r.Success? ==> |r.value.1| < |s| && forall inUnion :: StatementOk(lib, r.value.0, inUnion)
  {
    var (into, s) :- Redirection(s);
    var s :- Expect(s, ";");
    Success((Item(from, into), s))
  }

  /** A statement that begins with a word, after its set if it gives one. */
  function WordStatement(lib: Library, s: string, from: Option<string>, inUnion: bool): (r: Reading<Statement>)
    requires from.Some? ==> IsIdentifier(from.value)
    ensures r.Success? ==> |r.value.1| < |s| && StatementOk(lib, r.value.0, inUnion)
  {
    var (word, s) :- PeekWord(s);
    if word == Some("out") then
      if inUnion then Failure(Invalid) else PrintRest(lib, s[3..], from.GetOr(DEFAULT_SET))
    else if from.Some? then
      if word.Some? && word.value in UNSUPPORTED_STATEMENTS then Failure(Unsupported)
      else ItemRest(lib, s, from.value)
    else if word.None? then Failure(Invalid)
    else if TypesOf(word.value).Some? then QueryRest(lib, s[|word.value|..], TypesOf(word.value).value)
    else if word.value in UNSUPPORTED_STATEMENTS then Failure(Unsupported)
    else Failure(Invalid)
  }

  /** The rest of an out statement after its word. */
  function PrintRest(lib: Library, s: string, from: string): (r: Reading<Statement>)
    requires from == DEFAULT_SET || IsIdentifier(from)
    ensures r.Success? ==> |r.value.1| < |s| && StatementOk(lib, r.value.0, false)
  {
    assert IsIdentifier(DEFAULT_SET);
    PrintOptions(s, Print(from, Body, None, Asc, None), {})
  }

  /** A statement that does not hold others. */
  function SimpleStatement(lib: Library, s: string, inUnion: bool): (r: Reading<Statement>)
    ensures r.Success? ==> |r.value.1| < |s| && StatementOk(lib, r.value.0, inUnion)
  {
    var (from, s) :- FromSet(s);
    var (kind, s) :- RecurseSymbol(s);
    assert IsIdentifier(DEFAULT_SET);
    if kind.Some? then RecurseRest(lib, s, kind.value, from.GetOr(DEFAULT_SET))
    else WordStatement(lib, s, from, inUnion)
  }

  function ParseStatement(lib: Library, s: string, inUnion: bool): (r: Reading<Statement>)
    ensures r.Success? ==> |r.value.1| < |s| && StatementOk(lib, r.value.0, inUnion)
    decreases |s|, 0
  {
    var (open, s) :- Accept(s, "(");
    if open then UnionRest(lib, s, [], false) else SimpleStatement(lib, s, inUnion)
  }

  /** What a union or difference comes to, once it is closed. */
  function CloseUnion(lib: Library, s: string, statements: seq<Statement>, difference: bool): (r: Reading<Statement>)
    requires StatementsOk(lib, statements, true)
    ensures r.Success? ==> |r.value.1| < |s| && forall inUnion :: StatementOk(lib, r.value.0, inUnion)
  {
    if |statements| == 0 || (difference && |statements| != 2) then Failure(Invalid)
    else
      var (into, s) :- Into(s);
      var s :- Expect(s, ";");
      Success((if difference then Difference(statements[0], statements[1], into) else Union(statements, into), s))
  }

  /** Reads what follows the statements read so far, to the end of the brackets: more statements, or
      one that is taken away. */
  function UnionRest(lib: Library, s: string, statements: seq<Statement>, difference: bool): (r: Reading<Statement>)
    requires StatementsOk(lib, statements, true)
    ensures r.Success? ==> |r.value.1| < |s| && forall inUnion :: StatementOk(lib, r.value.0, inUnion)
    decreases |s|, 1
  {
    var (close, s) :- Accept(s, ")");
    if close then CloseUnion(lib, s, statements, difference)
    else if s == "" then Failure(Invalid)
    else
      var (minus, t) :- Accept(s, "-");
      if minus && (|statements| != 1 || difference) then Failure(Invalid)
      else if !minus && difference && |statements| == 2 then Failure(Invalid)
      else
        var (st, t) :- ParseStatement(lib, t, true);
        UnionRest(lib, t, statements + [st], difference || minus)
  }
}
