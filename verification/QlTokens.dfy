/** Each printed token is read back, and nothing of what follows with it. */
module QlTokens {
  import opened Wrappers
  import opened QlText
  import opened QlTrees
  import opened QlGrammar
  import opened QlPrinting

  /** Nothing is skipped at the beginning of such a text. */
  predicate Clean(s: string) {
    s == "" || (!IsSpace(s[0]) && s[0] != '/')
  }

  lemma SkipClean(s: string)
    requires Clean(s)
    ensures Skip(s) == Success(s)
  {
  }

  lemma SkipSpace(s: string)
    requires Clean(s)
    ensures Skip(" " + s) == Success(s)
  {
    assert (" " + s)[1..] == s;
  }

  // ----- Symbols -----

  lemma AcceptYes(symbol: string, rest: string)
    requires symbol != "" && Clean(symbol)
    ensures Accept(symbol + rest, symbol) == Success((true, rest))
    ensures Expect(symbol + rest, symbol) == Success(rest)
    ensures Peek(symbol + rest, symbol) == Success((true, symbol + rest))
  {
    SkipClean(symbol + rest);
    hide Skip;
  }

  lemma AcceptNo(s: string, symbol: string)
    requires Clean(s) && !(symbol <= s)
    ensures Accept(s, symbol) == Success((false, s)) && Peek(s, symbol) == Success((false, s))
  {
    SkipClean(s);
    hide Skip;
  }

  /** Another character begins the text. */
  lemma AcceptOther(s: string, symbol: string)
    requires Clean(s) && symbol != "" && (s == "" || s[0] != symbol[0])
    ensures Accept(s, symbol) == Success((false, s)) && Peek(s, symbol) == Success((false, s))
  {
    AcceptNo(s, symbol);
  }

  lemma AcceptAfterSpace(s: string, symbol: string)
    requires Clean(s) && symbol != "" && (s == "" || s[0] != symbol[0])
    ensures Accept(" " + s, symbol) == Success((false, s)) && Peek(" " + s, symbol) == Success((false, s))
  {
    SkipSpace(s);
    hide Skip;
  }

  // ----- Words and numbers -----

  lemma {:induction false} SpanOf(word: string, rest: string, p: char -> bool)
    requires forall i :: 0 <= i < |word| ==> p(word[i])
    requires rest == "" || !p(rest[0])
    ensures Span(word + rest, p) == |word|
  {
    if word == "" {
      assert word + rest == rest;
    } else {
      SpanOf(word[1..], rest, p);
      assert (word + rest)[1..] == word[1..] + rest;
    }
  }

  lemma IdentifierRead(word: string, rest: string)
    requires IsIdentifier(word) && (rest == "" || !IsWordChar(rest[0]))
    ensures IdentifierAt(word + rest) == Some(word)
    ensures Identifier(word + rest) == Success((Some(word), rest))
    ensures PeekWord(word + rest) == Success((Some(word), word + rest))
    ensures SetName(word + rest) == Success((word, rest))
  {
    SpanOf(word, rest, IsWordChar);
    assert (word + rest)[..|word|] == word && (word + rest)[|word|..] == rest;
    assert (word + rest)[0] == word[0];
    SkipClean(word + rest);
    hide Skip;
  }

  lemma NoIdentifier(s: string)
    requires Clean(s) && (s == "" || !IsWordStart(s[0]))
    ensures PeekWord(s) == Success((None, s)) && Identifier(s) == Success((None, s))
  {
    SkipClean(s);
    hide Skip;
  }

  lemma RunRead(word: string, rest: string, p: char -> bool)
    requires word != "" && (forall i :: 0 <= i < |word| ==> p(word[i])) && (rest == "" || !p(rest[0])) && Clean(word)
    ensures Run(word + rest, p) == Success((Some(word), rest))
  {
    SpanOf(word, rest, p);
    SkipClean(word + rest);
    hide Skip, Span;
  }

  lemma NoRun(s: string, p: char -> bool)
    requires Clean(s) && (s == "" || !p(s[0]))
    ensures Run(s, p) == Success((None, s))
  {
    SkipClean(s);
    hide Skip;
    assert s[..0] == "";
  }

  lemma {:induction false} DigitsRead(n: nat)
    ensures IntOf(Digits(n)) == n
  {
    if n >= 10 {
      DigitsRead(n / 10);
      var d := (n % 10) as char + '0';
      assert Digits(n) == Digits(n / 10) + [d] && DigitValue(d) == n % 10;
      assert Digits(n)[..|Digits(n)| - 1] == Digits(n / 10);
    } else {
      var d := n as char + '0';
      assert Digits(n)[..0] == "" && IntOf("") == 0;
    }
  }

  lemma {:induction false} DigitsAreFew(n: nat, k: nat)
    requires n < Pow10(k) && k > 0
    ensures |Digits(n)| <= k
  {
    if n >= 10 {
      DigitsAreFew(n / 10, k - 1);
    }
  }

  lemma DigitsClean(n: nat)
    ensures Clean(Digits(n))
  {
  }

  lemma ObjectIdRead(id: int, rest: string)
    requires 0 <= id < MAX_ID && (rest == "" || !IsDigit(rest[0]))
    ensures ObjectId(PrintInt(id, rest)) == Success((id, rest))
  {
    hide Digits, IntOf, Run;
    DigitsRead(id);
    DigitsAreFew(id, 18);
    DigitsClean(id);
    RunRead(Digits(id), rest, IsDigit);
  }

  lemma WholeRead(n: nat, rest: string)
    requires rest == "" || !IsDigit(rest[0])
    ensures Run(PrintInt(n, rest), IsDigit) == Success((Some(Digits(n)), rest)) && IntOf(Digits(n)) == n
  {
    hide Digits, IntOf, Run;
    DigitsRead(n);
    DigitsClean(n);
    RunRead(Digits(n), rest, IsDigit);
  }

  lemma SignRead(n: int, rest: string)
    ensures Sign(PrintInt(n, rest)) == (n < 0, Digits(Abs(n)) + rest)
  {
    if n < 0 {
      assert ("-" + (Digits(Abs(n)) + rest))[1..] == Digits(Abs(n)) + rest;
    } else {
      assert IsDigit((Digits(n) + rest)[0]);
    }
  }

  lemma ExponentRead(e: int, rest: string)
    requires rest == "" || !IsDigit(rest[0])
    ensures Exponent("e" + PrintInt(e, rest)) == (e, rest)
  {
    var s := "e" + PrintInt(e, rest);
    assert s[1..] == PrintInt(e, rest);
    SignRead(e, rest);
    SpanOf(Digits(Abs(e)), rest, IsDigit);
    DigitsRead(Abs(e));
    hide Digits, Span, IntOf, PrintInt, Sign;
    var t := Digits(Abs(e)) + rest;
    assert t[..|Digits(Abs(e))|] == Digits(Abs(e)) && t[|Digits(Abs(e))|..] == rest;
  }

  lemma NoFraction(s: string)
    requires s == "" || s[0] != '.'
    ensures Fraction(s) == ("", s)
  {
  }

  /** A whole number before something that is not of it. */
  lemma WholePart(m: int, tail: string)
    requires tail != "" && !IsDigit(tail[0])
    ensures
      var u := Digits(Abs(m)) + tail;
      var n := Span(u, IsDigit);
      && Skip(PrintInt(m, tail)) == Success(PrintInt(m, tail)) && Sign(PrintInt(m, tail)) == (m < 0, u)
      && n > 0 && u[..n] == Digits(Abs(m)) && u[n..] == tail
  {
    PrintIntClean(m, tail);
    SkipClean(PrintInt(m, tail));
    SignRead(m, tail);
    SpanOf(Digits(Abs(m)), tail, IsDigit);
    hide Digits, Span, PrintInt, Sign, Skip;
  }

  lemma DecimalRead(m: int, e: int, rest: string)
    requires rest == "" || !IsDigit(rest[0])
    ensures Number(PrintInt(m, "e" + PrintInt(e, rest))) == Success((Some(Scale(m, e)), rest))
  {
    hide Digits, Span, IntOf, PrintInt, Sign, Skip, Exponent, Scale, Fraction;
    var tail := "e" + PrintInt(e, rest);
    WholePart(m, tail);
    NoFraction(tail);
    ExponentRead(e, rest);
    DigitsRead(Abs(m));
    assert Digits(Abs(m)) + "" == Digits(Abs(m));
  }

  lemma PrintIntClean(n: int, rest: string)
    ensures Clean(PrintInt(n, rest)) && PrintInt(n, rest) != ""
    ensures PrintInt(n, rest)[0] == '-' || IsDigit(PrintInt(n, rest)[0])
  {
    if n >= 0 {
      assert IsDigit(Digits(n)[0]) && PrintInt(n, rest)[0] == Digits(n)[0];
    }
  }

  lemma NumberRead(x: real, rest: string)
    requires IsDecimal(x) && (rest == "" || !IsDigit(rest[0]))
    ensures Number(PrintNumber(x, rest)) == Success((Some(x), rest))
    ensures NumberHere(PrintNumber(x, rest)) == Success((x, rest))
    ensures PrintNumber(x, rest) != "" && Clean(PrintNumber(x, rest))
    ensures PrintNumber(x, rest)[0] == '-' || IsDigit(PrintNumber(x, rest)[0])
  {
    var m, e :| x == Scale(m, e) && PrintNumber(x, rest) == PrintInt(m, "e" + PrintInt(e, rest));
    DecimalRead(m, e, rest);
    PrintIntClean(m, "e" + PrintInt(e, rest));
    hide Number, PrintInt, Scale, PrintNumber;
  }

  // ----- Quoted strings -----

  lemma CharRead(c: char, rest: string, out: string)
    ensures StringBody(PrintChar(c, rest), '"', out) == StringBody(rest, '"', out + [c])
  {
    if c == '"' {
      assert ("\\\"" + rest)[2..] == rest;
    } else if c == '\\' {
      assert ("\\\\" + rest)[2..] == rest;
    } else if c == '{' {
      assert ("\\u007B" + rest)[6..] == rest;
      assert CharOf('0', '0', '7', 'B') == '{';
    } else {
      assert ([c] + rest)[1..] == rest;
    }
  }

  lemma {:induction false} BodyRead(text: string, rest: string, out: string)
    ensures StringBody(PrintBody(text, "\"" + rest), '"', out) == Success((out + text, rest))
    decreases |text|
  {
    if text == "" {
      assert ("\"" + rest)[1..] == rest && out + text == out;
    } else {
      CharRead(text[0], PrintBody(text[1..], "\"" + rest), out);
      BodyRead(text[1..], rest, out + [text[0]]);
      assert (out + [text[0]]) + text[1..] == out + text;
    }
  }

  lemma QuotedRead(text: string, rest: string)
    ensures Quoted(PrintQuoted(text, rest)) == Success((Some(text), rest))
    ensures TextValue(PrintQuoted(text, rest)) == Success((text, rest))
  {
    var s := PrintQuoted(text, rest);
    assert s[0] == '"' && s[1..] == PrintBody(text, "\"" + rest);
    SkipClean(s);
    BodyRead(text, rest, "");
    hide Skip, StringBody, PrintBody;
    assert "" + text == text;
  }

  lemma PrintQuotedClean(text: string, rest: string)
    ensures PrintQuoted(text, rest) != "" && PrintQuoted(text, rest)[0] == '"' && Clean(PrintQuoted(text, rest))
  {
  }

  lemma DateRead(lib: Library, t: int, rest: string)
    requires DateOk(lib, t)
    ensures Timestamp(lib, PrintDate(lib, t, rest)) == Success((t, rest))
  {
    var text :| lib.readDate(text) == Some(t) && PrintDate(lib, t, rest) == PrintQuoted(text, rest);
    QuotedRead(text, rest);
  }
}
