/** Texts that are refused: shortcuts of other tools, other languages, scripts
    without statements, and what this server does not support. */
module QlRefusals {
  import opened Wrappers
  import opened QlText
  import opened QlTrees
  import opened QlGrammar
  import opened QlScripts
  import opened QlLexemes
  import opened QlTokens
  import opened QlReadBack
  import opened QlShortRead

  lemma {:induction false} PartIsContained(text: string, part: string, i: nat)
    requires i <= |text| && part <= text[i..]
    ensures Contains(text, part)
    decreases i
  {
    if i == 0 {
      assert text[0..] == text;
    } else {
      assert text[i..] == text[1..][i - 1..];
      PartIsContained(text[1..], part, i - 1);
    }
  }

  /** Two opening braces, wherever they stand, even in quotes, are refused. */
  lemma BracesAreRefused(lib: Library, text: string, i: nat)
    requires i + 1 < |text| && text[i] == '{' && text[i + 1] == '{'
    ensures Parse(lib, text) == Failure(Invalid)
  {
    assert "{{" <= text[i..];
    PartIsContained(text, "{{", i);
    hide Header, Statements, IsXml, Contains;
  }

  lemma {:induction false} SpacesSkipped(spaces: string, rest: string)
    requires (forall i :: 0 <= i < |spaces| ==> IsSpace(spaces[i])) && rest != "" && !IsSpace(rest[0])
    ensures AfterSpaces(spaces + rest) == rest
  {
    if spaces == "" {
      assert spaces + rest == rest;
    } else {
      SpacesSkipped(spaces[1..], rest);
      assert (spaces + rest)[1..] == spaces[1..] + rest;
    }
  }

  /** The first words of another language's queries. */
  predicate IsElement(word: string) {
    || word == "?xml" || word == "osm-script" || word == "query" || word == "union" || word == "difference" || word == "print"
    || word == "bbox-query" || word == "id-query" || word == "recurse" || word == "item" || word == "foreach"
    || word == "around" || word == "area-query" || word == "user" || word == "newer" || word == "has-kv"
  }

  lemma ElementIs(word: string)
    requires IsElement(word)
    ensures word in XML_ELEMENTS && word != "" && !IsSpace(word[0])
  {
    var e := XML_ELEMENTS;
    assert e[0] == "?xml" && e[1] == "osm-script" && e[2] == "query" && e[3] == "union" && e[4] == "difference" && e[5] == "print";
    assert e[6] == "bbox-query" && e[7] == "id-query" && e[8] == "recurse" && e[9] == "item" && e[10] == "foreach";
    assert e[11] == "around" && e[12] == "area-query" && e[13] == "user" && e[14] == "newer" && e[15] == "has-kv";
  }

  /** A query in that language is refused as not supported. */
  lemma XmlIsRefused(lib: Library, before: string, between: string, word: string, rest: string)
    requires forall i :: 0 <= i < |before| ==> IsSpace(before[i])
    requires forall i :: 0 <= i < |between| ==> IsSpace(between[i])
    requires IsElement(word) && (rest == "" || (!IsWordChar(rest[0]) && rest[0] < '\U{0080}'))
    ensures
      var text := before + ("<" + (between + (word + rest)));
      Parse(lib, text) == Failure(if Contains(text, "{{") then Invalid else Unsupported)
  {
    var named := word + rest;
    var text := before + ("<" + (between + named));
    ElementIs(word);
    SpacesSkipped(before, "<" + (between + named));
    SpacesSkipped(between, named);
    assert ("<" + (between + named))[1..] == between + named;
    var i :| 0 <= i < |XML_ELEMENTS| && XML_ELEMENTS[i] == word;
    assert named[|word|..] == rest && WordEnds(lib, rest);
    hide Header, Statements, Contains, AfterSpaces, IsElement;
    assert XML_ELEMENTS[i] <= named && WordEnds(lib, named[|XML_ELEMENTS[i]|..]);
    assert IsXml(lib, text);
  }

  /** A text of nothing but white space and comments is refused. */
  lemma NothingIsRefused(lib: Library, gaps: seq<Gap>)
    requires GapsOk(gaps, "")
    ensures Parse(lib, GapsText(gaps)).Failure?
  {
    var text := GapsText(gaps);
    assert text + "" == text;
    GapsSkipped(gaps, "");
    hide GapsText, IsXml, Contains, Skip;
    assert !("[" <= "");
    assert Peek(text, "[") == Success((false, ""));
    SkipClean("");
    assert Statements(lib, "", []) == Success([]);
  }

  /** Statements of the language that this server does not support. */
  predicate IsOtherStatement(word: string) {
    || word == "area" || word == "derived" || word == "is_in" || word == "map_to_area" || word == "foreach" || word == "for"
    || word == "if" || word == "else" || word == "complete" || word == "make" || word == "convert" || word == "retro"
    || word == "compare" || word == "timeline" || word == "local"
  }

  lemma OtherStatementIs(word: string)
    requires IsOtherStatement(word)
    ensures IsIdentifier(word) && 'a' <= word[0] <= 'z'
    ensures TypesOf(word).None? && word != "out" && word in UNSUPPORTED_STATEMENTS
  {
    OtherStatementIsWord(word);
    hide IsIdentifier;
  }

  lemma OtherStatementIsWord(word: string)
    requires IsOtherStatement(word)
    ensures IsIdentifier(word) && 'a' <= word[0] <= 'z'
  {
  }

  lemma OtherStatementsAreRefused(lib: Library, word: string, rest: string, inUnion: bool)
    requires IsOtherStatement(word) && EndsWord(rest)
    ensures ParseStatement(lib, word + rest, inUnion) == Failure(Unsupported)
  {
    hide Accept, FromSet, RecurseSymbol, PeekWord, TypesOf, IsOtherStatement, PrintRest, QueryRest, ItemRest, UnionRest;
    OtherStatementIs(word);
    ShortWordBegins(word, rest);
    AcceptFirst(word + rest, "(");
  }

  /** Filters of the language that this server does not support. */
  predicate IsOtherFilter(word: string) {
    || word == "poly" || word == "area" || word == "pivot" || word == "user_touched" || word == "uid_touched" || word == "if"
    || word == "way_link" || word == "way_cnt"
  }

  lemma OtherFilterIs(word: string)
    requires IsOtherFilter(word)
    ensures IsIdentifier(word) && LinkOf(word).None? && word != "id" && word != "around" && word in UNSUPPORTED_FILTERS
    ensures word !in {"user", "uid", "newer", "changed"}
  {
  }

  lemma OtherFiltersAreRefused(lib: Library, word: string, rest: string)
    requires IsOtherFilter(word) && EndsWord(rest)
    ensures RoundFilter(lib, word + rest) == Failure(Unsupported)
  {
    hide PeekWord, LinkOf, IsOtherFilter, IdFilter, LinkFilter, AroundFilter, MetaFilter;
    OtherFilterIs(word);
    ShortWordRead(word, rest);
  }
}
