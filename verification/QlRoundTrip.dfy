/** Every well-formed statement tree is read back from its text. */
module QlRoundTrip {
  import opened Wrappers
  import opened Ql
  import opened QlText
  import opened QlTrees
  import opened QlGrammar
  import opened QlPrinting
  import opened QlTokens

  /** A text that a closing bracket or another separator begins. */
  predicate Separates(s: string) {
    s != "" && s[0] in {',', ';', ')', ']', '-', ':'}
  }

  lemma SeparatesIsClean(s: string)
    requires Separates(s)
    ensures Clean(s) && !IsWordChar(s[0]) && !IsDigit(s[0]) && !IsWordStart(s[0])
  {
  }

  // ----- Lists -----

  lemma {:induction false} MoreIdsRead(ids: seq<int>, rest: string, read: seq<int>)
    requires forall i :: 0 <= i < |ids| ==> 0 <= ids[i] < MAX_ID
    requires Separates(rest) && rest[0] != ','
    ensures MoreItems(ObjectId, PrintMoreIds(ids, rest), read) == Success((read + ids, rest))
    decreases |ids|
  {
    hide ObjectId, Accept, PrintInt;
    if |ids| == 0 {
      SeparatesIsClean(rest);
      AcceptOther(rest, ",");
      assert read + ids == read;
    } else {
      var tail := PrintMoreIds(ids[1..], rest);
      AcceptYes(",", PrintInt(ids[0], tail));
      assert tail[0] == ',' || tail == rest;
      ObjectIdRead(ids[0], tail);
      MoreIdsRead(ids[1..], rest, read + [ids[0]]);
      assert (read + [ids[0]]) + ids[1..] == read + ids;
    }
  }

  lemma IdsRead(ids: seq<int>, rest: string)
    requires IdsOk(ids) && Separates(rest) && rest[0] != ','
    ensures ObjectIds(PrintIds(ids, rest)) == Success((ids, rest))
  {
    hide ObjectId, MoreItems, PrintInt;
    var tail := PrintMoreIds(ids[1..], rest);
    assert tail[0] == ',' || tail == rest;
    ObjectIdRead(ids[0], tail);
    MoreIdsRead(ids[1..], rest, [ids[0]]);
    assert [ids[0]] + ids[1..] == ids;
  }

  lemma {:induction false} MoreTextsRead(texts: seq<string>, rest: string, read: seq<string>, item: string -> Reading<string>)
    requires Advances(item)
    requires forall text, s :: item(PrintQuoted(text, s)) == Success((text, s))
    requires Separates(rest) && rest[0] != ','
    ensures MoreItems(item, PrintMoreTexts(texts, rest), read) == Success((read + texts, rest))
    decreases |texts|
  {
    hide Accept, PrintQuoted;
    if |texts| == 0 {
      SeparatesIsClean(rest);
      AcceptOther(rest, ",");
      assert read + texts == read;
    } else {
      var tail := PrintMoreTexts(texts[1..], rest);
      AcceptYes(",", PrintQuoted(texts[0], tail));
      assert item(PrintQuoted(texts[0], tail)) == Success((texts[0], tail));
      MoreTextsRead(texts[1..], rest, read + [texts[0]], item);
      assert (read + [texts[0]]) + texts[1..] == read + texts;
    }
  }

  lemma TextsRead(texts: seq<string>, rest: string, item: string -> Reading<string>)
    requires |texts| > 0 && Advances(item)
    requires forall text, s :: item(PrintQuoted(text, s)) == Success((text, s))
    requires Separates(rest) && rest[0] != ','
    ensures Items(item, PrintTexts(texts, rest)) == Success((texts, rest))
  {
    hide MoreItems, PrintQuoted;
    var tail := PrintMoreTexts(texts[1..], rest);
    assert item(PrintQuoted(texts[0], tail)) == Success((texts[0], tail));
    MoreTextsRead(texts[1..], rest, [texts[0]], item);
    assert [texts[0]] + texts[1..] == texts;
  }

  lemma NamesRead(names: seq<string>, rest: string)
    requires |names| > 0 && Separates(rest) && rest[0] != ','
    ensures Items(TextValue, PrintTexts(names, rest)) == Success((names, rest))
  {
    hide TextValue, PrintQuoted, Items, PrintTexts;
    forall text, s
      ensures TextValue(PrintQuoted(text, s)) == Success((text, s))
    {
      QuotedRead(text, s);
    }
    TextsRead(names, rest, TextValue);
  }

  // ----- Tag filters -----

  lemma OperatorRead(mode: TagMode, value: string, rest: string)
    requires !mode.Exists? && !mode.NotExists?
    ensures TagOperator(OperatorText(mode) + PrintQuoted(value, rest)) == Success((mode, PrintQuoted(value, rest)))
    ensures Accept(OperatorText(mode) + PrintQuoted(value, rest), "]") == Success((false, OperatorText(mode) + PrintQuoted(value, rest)))
  {
    PrintQuotedClean(value, rest);
    hide Accept, PrintQuoted;
    var q := PrintQuoted(value, rest);
    var s := OperatorText(mode) + q;
    AcceptYes(OperatorText(mode), q);
    AcceptOther(s, "]");
    match mode
    case NotEquals =>
    case NotMatches =>
      assert s[1] == '~';
      AcceptNo(s, "!=");
    case Matches =>
      AcceptOther(s, "!=");
      AcceptOther(s, "!~");
    case Equals =>
      AcceptOther(s, "!=");
      AcceptOther(s, "!~");
      AcceptOther(s, "~");
      assert s[1] == '"';
      AcceptNo(s, "==");
  }

  lemma CaseRead(mode: TagMode, ignoreCase: bool, rest: string)
    requires ignoreCase ==> mode.Matches? || mode.NotMatches?
    ensures CaseOption(if ignoreCase then ",i" + ("]" + rest) else "]" + rest, mode) == Success((ignoreCase, "]" + rest))
  {
    hide Accept, Identifier;
    if ignoreCase {
      assert ",i" + ("]" + rest) == "," + ("i" + ("]" + rest));
      AcceptYes(",", "i" + ("]" + rest));
      IdentifierRead("i", "]" + rest);
    } else {
      AcceptOther("]" + rest, ",");
    }
  }

  /** The rest of a tag filter's text after its opening bracket. */
  lemma KvRead(lib: Library, f: Filter, rest: string)
    requires f.HasKv? && FilterOk(lib, f)
    ensures PrintKv(f, rest)[0] == '[' && TagFilter(lib, PrintKv(f, rest)[1..]) == Success((f, rest))
  {
    var closed := "]" + rest;
    AcceptYes("]", rest);
    match f.mode
    case Exists =>
      KeyRead(f.key, closed);
      hide Accept, PrintQuoted, TextValue, Peek, Expect;
      assert PrintKv(f, rest)[1..] == PrintQuoted(f.key, closed);
    case NotExists =>
      var s := "!" + PrintQuoted(f.key, closed);
      AcceptYes("!", PrintQuoted(f.key, closed));
      AcceptOther(s, "~");
      QuotedRead(f.key, closed);
      hide Accept, PrintQuoted, TextValue, Peek, Expect;
      assert PrintKv(f, rest)[1..] == s;
    case _ =>
      var option := if f.ignoreCase then ",i" + closed else closed;
      var after := OperatorText(f.mode) + PrintQuoted(f.value, option);
      KeyRead(f.key, after);
      OperatorRead(f.mode, f.value, option);
      QuotedRead(f.value, option);
      CaseRead(f.mode, f.ignoreCase, rest);
      hide Accept, PrintQuoted, TextValue, Peek, Expect, TagOperator, OperatorText, CaseOption;
      assert PrintKv(f, rest)[1..] == PrintQuoted(f.key, after);
  }

  lemma KeyRead(key: string, rest: string)
    ensures
      var s := PrintQuoted(key, rest);
      Peek(s, "~") == Success((false, s)) && Accept(s, "!") == Success((false, s)) && TextValue(s) == Success((key, rest))
  {
    PrintQuotedClean(key, rest);
    AcceptOther(PrintQuoted(key, rest), "~");
    AcceptOther(PrintQuoted(key, rest), "!");
    QuotedRead(key, rest);
    hide *;
  }

  // ----- Filters in round brackets -----

  /** The word of a filter, and what follows it. */
  lemma WordRead(word: string, rest: string)
    requires IsIdentifier(word) && rest != "" && (rest[0] == ':' || rest[0] == '.')
    ensures PeekWord(word + rest) == Success((Some(word), word + rest)) && (word + rest)[|word|..] == rest
  {
    IdentifierRead(word, rest);
  }

  lemma IdFilterRead(lib: Library, ids: seq<int>, rest: string)
    requires IdsOk(ids)
    ensures RoundFilter(lib, "id" + (":" + PrintIds(ids, ")" + rest))) == Success((IdQuery(ids), rest))
  {
    hide PrintIds, PeekWord, Expect, ObjectIds, LinkOf;
    var text := PrintIds(ids, ")" + rest);
    WordRead("id", ":" + text);
    AcceptYes(":", text);
    IdsRead(ids, ")" + rest);
    AcceptYes(")", rest);
  }

  lemma UidsRead(lib: Library, uids: seq<int>, rest: string)
    requires IdsOk(uids)
    ensures RoundFilter(lib, "uid" + (":" + PrintIds(uids, ")" + rest))) == Success((User(uids, []), rest))
  {
    hide PrintIds, PeekWord, Expect, ObjectIds;
    var text := PrintIds(uids, ")" + rest);
    WordRead("uid", ":" + text);
    AcceptYes(":", text);
    IdsRead(uids, ")" + rest);
    AcceptYes(")", rest);
  }

  lemma UsersRead(lib: Library, names: seq<string>, rest: string)
    requires |names| > 0
    ensures RoundFilter(lib, "user" + (":" + PrintTexts(names, ")" + rest))) == Success((User([], names), rest))
  {
    hide PrintTexts, PeekWord, Expect, Items;
    var text := PrintTexts(names, ")" + rest);
    WordRead("user", ":" + text);
    AcceptYes(":", text);
    NamesRead(names, ")" + rest);
    AcceptYes(")", rest);
  }

  lemma NewerRead(lib: Library, than: int, rest: string)
    requires DateOk(lib, than)
    ensures RoundFilter(lib, "newer" + (":" + PrintDate(lib, than, ")" + rest))) == Success((Newer(than), rest))
  {
    hide PrintDate, PeekWord, Expect, Timestamp, DateOk;
    var text := PrintDate(lib, than, ")" + rest);
    WordRead("newer", ":" + text);
    AcceptYes(":", text);
    DateRead(lib, than, ")" + rest);
    AcceptYes(")", rest);
  }

  lemma ChangedRead(lib: Library, since: int, until: Option<int>, rest: string)
    requires DateOk(lib, since) && (until.Some? ==> DateOk(lib, until.value))
    ensures
      var end := if until.Some? then "," + PrintDate(lib, until.value, ")" + rest) else ")" + rest;
      RoundFilter(lib, "changed" + (":" + PrintDate(lib, since, end))) == Success((Changed(since, until), rest))
  {
    hide PrintDate, PeekWord, Expect, Accept, Timestamp, DateOk;
    var end := if until.Some? then "," + PrintDate(lib, until.value, ")" + rest) else ")" + rest;
    var text := PrintDate(lib, since, end);
    WordRead("changed", ":" + text);
    AcceptYes(":", text);
    DateRead(lib, since, end);
    if until.Some? {
      AcceptYes(",", PrintDate(lib, until.value, ")" + rest));
      DateRead(lib, until.value, ")" + rest);
    } else {
      AcceptOther(end, ",");
    }
    AcceptYes(")", rest);
  }

  lemma FilterSetRead(from: string, rest: string)
    requires IsIdentifier(from) && Separates(rest)
    ensures FilterSet("." + (from + rest)) == Success((from, rest))
  {
    hide Accept, SetName;
    AcceptYes(".", from + rest);
    IdentifierRead(from, rest);
  }

  lemma RoleRead(role: Option<string>, rest: string)
    ensures
      var text := if role.Some? then ":" + PrintQuoted(role.value, ")" + rest) else ")" + rest;
      Role(text) == Success((role, ")" + rest)) && Separates(text)
  {
    hide Accept, PrintQuoted, Quoted;
    if role.Some? {
      AcceptYes(":", PrintQuoted(role.value, ")" + rest));
      QuotedRead(role.value, ")" + rest);
    } else {
      AcceptOther(")" + rest, ":");
    }
  }

  lemma LinkIsWord(link: Link)
    ensures IsIdentifier(LinkText(link)) && LinkOf(LinkText(link)) == Some(link) && LinkText(link) != "id"
  {
  }

  lemma LinkRead(lib: Library, link: Link, from: string, role: Option<string>, rest: string)
    requires IsIdentifier(from)
    ensures
      var text := if role.Some? then ":" + PrintQuoted(role.value, ")" + rest) else ")" + rest;
      RoundFilter(lib, LinkText(link) + ("." + (from + text))) == Success((RecurseFilter(link, from, role), rest))
  {
    hide PrintQuoted, PeekWord, Expect, FilterSet, Role, LinkOf, LinkText;
    var text := if role.Some? then ":" + PrintQuoted(role.value, ")" + rest) else ")" + rest;
    RoleRead(role, rest);
    FilterSetRead(from, text);
    AcceptYes(")", rest);
    LinkIsWord(link);
    WordRead(LinkText(link), "." + (from + text));
  }

  lemma PositionRead(lib: Library, from: string, radius: real, position: Option<(real, real)>, rest: string)
    requires IsIdentifier(from) && IsDecimal(radius) && radius >= 0.0
    requires position.Some? ==> PositionOk(position.value) && from == DEFAULT_SET
    ensures AroundRest(lib, PrintPosition(position, rest), from, radius) == Success((Around(radius, from, position), rest))
    ensures Separates(PrintPosition(position, rest))
  {
    hide Accept, Expect, Peek, NumberHere, PrintNumber, IsDecimal;
    AcceptYes(")", rest);
    if position.Some? {
      var (lat, lon) := position.value;
      var end := ")" + rest;
      NumberRead(lon, end);
      AcceptOther(end, ",");
      AcceptYes(",", PrintNumber(lon, end));
      NumberRead(lat, "," + PrintNumber(lon, end));
      AcceptYes(",", PrintNumber(lat, "," + PrintNumber(lon, end)));
      AcceptOther("," + PrintNumber(lat, "," + PrintNumber(lon, end)), ")");
    }
  }

  lemma AroundRead(lib: Library, from: string, radius: real, position: Option<(real, real)>, rest: string)
    requires IsIdentifier(from) && IsDecimal(radius) && radius >= 0.0
    requires position.Some? ==> PositionOk(position.value) && from == DEFAULT_SET
    ensures
      AroundFilter(lib, "." + (from + (":" + PrintNumber(radius, PrintPosition(position, rest))))) ==
      Success((Around(radius, from, position), rest))
  {
    hide PrintPosition, PrintNumber, Expect, FilterSet, NumberHere, AroundRest, IsDecimal, PositionOk;
    var end := PrintPosition(position, rest);
    PositionRead(lib, from, radius, position, rest);
    SeparatesIsClean(end);
    NumberRead(radius, end);
    AcceptYes(":", PrintNumber(radius, end));
    FilterSetRead(from, ":" + PrintNumber(radius, end));
  }

  lemma AroundWordRead(lib: Library, rest: string)
    requires rest != "" && rest[0] == '.'
    ensures RoundFilter(lib, "around" + rest) == AroundFilter(lib, rest)
  {
    hide AroundFilter, PeekWord;
    WordRead("around", rest);
  }

  // ----- Boxes -----

  /** One more number of a list. */
  lemma MoreNumberRead(x: real, rest: string, read: seq<real>)
    requires IsDecimal(x) && Separates(rest)
    ensures MoreItems(NumberHere, "," + PrintNumber(x, rest), read) == MoreItems(NumberHere, rest, read + [x])
  {
    hide PrintNumber, Accept, NumberHere, IsDecimal;
    SeparatesIsClean(rest);
    NumberRead(x, rest);
    AcceptYes(",", PrintNumber(x, rest));
  }

  lemma NoMoreNumbers(rest: string, read: seq<real>)
    requires Separates(rest) && rest[0] != ','
    ensures MoreItems(NumberHere, rest, read) == Success((read, rest))
  {
    hide Accept, NumberHere;
    SeparatesIsClean(rest);
    AcceptOther(rest, ",");
  }

  lemma BoxNumbersRead(b: Bbox, rest: string)
    requires BoxOk(b)
    ensures Numbers(PrintBox(b, ")" + rest)) == Success(([b.0, b.1, b.2, b.3], ")" + rest))
  {
    hide PrintNumber, NumberHere, IsDecimal, MoreItems;
    var end := ")" + rest;
    var t3 := PrintNumber(b.3, end);
    var t2 := PrintNumber(b.2, "," + t3);
    var t1 := PrintNumber(b.1, "," + t2);
    NumberRead(b.0, "," + t1);
    MoreNumberRead(b.1, "," + t2, [b.0]);
    MoreNumberRead(b.2, "," + t3, [b.0] + [b.1]);
    MoreNumberRead(b.3, end, [b.0] + [b.1] + [b.2]);
    NoMoreNumbers(end, [b.0] + [b.1] + [b.2] + [b.3]);
    assert [b.0] + [b.1] + [b.2] + [b.3] == [b.0, b.1, b.2, b.3];
  }

  lemma BoxBegins(b: Bbox, rest: string)
    requires BoxOk(b) && Separates(rest)
    ensures Clean(PrintBox(b, rest)) && PrintBox(b, rest) != "" && !IsWordStart(PrintBox(b, rest)[0])
  {
    hide PrintNumber, IsDecimal;
    NumberRead(b.0, "," + PrintNumber(b.1, "," + PrintNumber(b.2, "," + PrintNumber(b.3, rest))));
  }

  lemma BoxRead(lib: Library, b: Bbox, rest: string)
    requires BoxOk(b)
    ensures RoundFilter(lib, PrintBox(b, ")" + rest)) == Success((BboxQuery(b.0, b.1, b.2, b.3), rest))
  {
    hide PrintNumber, PrintBox, Numbers, Expect, PeekWord, IsDecimal;
    var text := PrintBox(b, ")" + rest);
    BoxNumbersRead(b, rest);
    BoxBegins(b, ")" + rest);
    NoIdentifier(text);
    AcceptYes(")", rest);
  }
}
