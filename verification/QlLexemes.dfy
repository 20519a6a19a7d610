/** What the characters of a text mean where it is not read word by word: which
    are skipped, which characters a quoted string has, and which number some
    digits are. Each reading function is what these say, and nothing else. */
module QlLexemes {
  import opened Wrappers
  import opened QlText
  import opened QlTokens

  // ----- White space and comments -----

  /** Something to skip: a white character, the text of a line after two slashes,
      or the text between the marks of a comment. */
  datatype Gap = White(c: char) | Line(text: string) | Block(text: string)

  function GapText(g: Gap): string {
    match g
    case White(c) => [c]
    case Line(text) => "//" + text
    case Block(text) => "/*" + (text + "*/")
  }

  /** A gap before the rest of a text: a line goes on to its end, and a block to
      the first mark that closes it. */
  ghost predicate GapOk(g: Gap, rest: string) {
    match g
    case White(c) => IsSpace(c)
    case Line(text) => '\n' !in text && (rest == "" || rest[0] == '\n')
    case Block(text) => forall i :: 0 <= i < |text| ==> !ClosesAt(text + "*/", i)
  }

  predicate ClosesAt(s: string, i: nat) {
    i + 1 < |s| && s[i] == '*' && s[i + 1] == '/'
  }

  function GapsText(gaps: seq<Gap>): string {
    if |gaps| == 0 then "" else GapText(gaps[0]) + GapsText(gaps[1..])
  }

  ghost predicate GapsOk(gaps: seq<Gap>, rest: string) {
    |gaps| > 0 ==> GapOk(gaps[0], GapsText(gaps[1..]) + rest) && GapsOk(gaps[1..], rest)
  }

  predicate BeginsGap(s: string) {
    s != "" && (IsSpace(s[0]) || "//" <= s || "/*" <= s)
  }

  lemma {:induction false} LineEndIs(text: string, rest: string)
    requires '\n' !in text && (rest == "" || rest[0] == '\n')
    ensures LineEnd(text + rest) == rest
  {
    if text == "" {
      assert text + rest == rest;
    } else {
      LineEndIs(text[1..], rest);
      assert (text + rest)[1..] == text[1..] + rest;
    }
  }

  lemma {:induction false} LineEndSplits(s: string) returns (text: string)
    ensures s == text + LineEnd(s) && '\n' !in text && (LineEnd(s) == "" || LineEnd(s)[0] == '\n')
  {
    if s == "" || s[0] == '\n' {
      text := "";
    } else {
      var more := LineEndSplits(s[1..]);
      text := [s[0]] + more;
      OneMore(s, more, LineEnd(s));
    }
  }

  lemma OneMore(s: string, more: string, after: string)
    requires s != "" && s[1..] == more + after && '\n' !in more && s[0] != '\n'
    ensures s == ([s[0]] + more) + after && '\n' !in [s[0]] + more
  {
    assert s == [s[0]] + s[1..];
  }

  lemma {:induction false} CommentEndIs(text: string, rest: string)
    requires forall i :: 0 <= i < |text| ==> !ClosesAt(text + "*/", i)
    ensures AfterComment((text + "*/") + rest) == Some(rest)
  {
    var s := (text + "*/") + rest;
    if text == "" {
      assert s[2..] == rest;
    } else {
      assert !ClosesAt(text + "*/", 0);
      forall i | 0 <= i < |text[1..]|
        ensures !ClosesAt(text[1..] + "*/", i)
      {
        assert !ClosesAt(text + "*/", i + 1);
      }
      CommentEndIs(text[1..], rest);
      assert s[1..] == (text[1..] + "*/") + rest;
    }
  }

  lemma OpensNot(c: char, more: string, i: nat)
    requires i < |more| + 1 && (c == '*' ==> (more + "*/")[0] != '/')
    requires i > 0 ==> !ClosesAt(more + "*/", i - 1)
    ensures !ClosesAt(([c] + more) + "*/", i)
  {
    assert ([c] + more) + "*/" == [c] + (more + "*/");
  }

  lemma {:induction false} CommentSplits(s: string) returns (text: string)
    requires AfterComment(s).Some?
    ensures s == (text + "*/") + AfterComment(s).value
    ensures forall i :: 0 <= i < |text| ==> !ClosesAt(text + "*/", i)
  {
    if s[0] == '*' && s[1] == '/' {
      text := "";
      assert s == "*/" + s[2..];
    } else {
      var more := CommentSplits(s[1..]);
      var after := AfterComment(s).value;
      text := [s[0]] + more;
      hide AfterComment, ClosesAt;
      assert s == [s[0]] + s[1..] && s[1..] == (more + "*/") + after;
      assert (more + "*/")[0] == s[1];
      forall i | 0 <= i < |text|
        ensures !ClosesAt(text + "*/", i)
      {
        assert i > 0 ==> !ClosesAt(more + "*/", i - 1);
        OpensNot(s[0], more, i);
      }
    }
  }

  lemma LineSkipped(text: string, rest: string)
    requires '\n' !in text && (rest == "" || rest[0] == '\n')
    ensures Skip("//" + (text + rest)) == Skip(rest)
  {
    var s := "//" + (text + rest);
    assert s[0] == '/' && s[1] == '/' && s[1..] == "/" + (text + rest);
    assert s[1..][1..] == text + rest;
    LineEndIs(text, rest);
  }

  lemma BlockSkipped(text: string, rest: string)
    requires AfterComment(text) == Some(rest)
    ensures Skip("/*" + text) == Skip(rest)
  {
    var s := "/*" + text;
    assert s[0] == '/' && s[1] == '*' && s[2..] == text;
  }

  lemma GapSkipped(g: Gap, rest: string)
    requires GapOk(g, rest)
    ensures Skip(GapText(g) + rest) == Skip(rest)
  {
    match g
    case White(c) =>
      assert ([c] + rest)[1..] == rest;
    case Line(text) =>
      LineSkipped(text, rest);
      assert ("//" + text) + rest == "//" + (text + rest);
    case Block(text) =>
      CommentEndIs(text, rest);
      BlockSkipped((text + "*/") + rest, rest);
      assert ("/*" + (text + "*/")) + rest == "/*" + ((text + "*/") + rest);
  }

  lemma {:induction false} GapsSkipped(gaps: seq<Gap>, rest: string)
    requires GapsOk(gaps, rest) && !BeginsGap(rest)
    ensures Skip(GapsText(gaps) + rest) == Success(rest)
  {
    if |gaps| == 0 {
      assert GapsText(gaps) + rest == rest;
    } else {
      GapSkipped(gaps[0], GapsText(gaps[1..]) + rest);
      GapsSkipped(gaps[1..], rest);
      assert GapsText(gaps) + rest == GapText(gaps[0]) + (GapsText(gaps[1..]) + rest);
    }
  }

  /** The gap that a text begins with, and the text after it. */
  lemma GapAhead(s: string) returns (g: Gap, after: string)
    requires BeginsGap(s) && Skip(s).Success?
    ensures s == GapText(g) + after && GapOk(g, after) && Skip(s) == Skip(after) && |after| < |s|
  {
    if IsSpace(s[0]) {
      g, after := White(s[0]), s[1..];
    } else if "//" <= s {
      var text := LineEndSplits(s[2..]);
      g, after := Line(text), LineEnd(s[2..]);
      assert s == "//" + s[2..] && s[1..][1..] == s[2..];
    } else {
      var text := CommentSplits(s[2..]);
      g, after := Block(text), AfterComment(s[2..]).value;
      assert s == "/*" + s[2..];
    }
  }

  lemma {:induction false} GapsAhead(s: string, rest: string) returns (gaps: seq<Gap>)
    requires Skip(s) == Success(rest)
    ensures !BeginsGap(rest) && GapsOk(gaps, rest) && s == GapsText(gaps) + rest
    decreases |s|
  {
    hide Skip, BeginsGap, GapText, GapOk;
    NoGap(s);
    if !BeginsGap(s) {
      gaps := [];
      assert s == "" + rest;
    } else {
      var g, after := GapAhead(s);
      var more := GapsAhead(after, rest);
      gaps := [g] + more;
      GapsMore(g, more, rest);
    }
  }

  lemma NoGap(s: string)
    ensures !BeginsGap(s) ==> Skip(s) == Success(s)
  {
  }

  lemma GapsMore(g: Gap, more: seq<Gap>, rest: string)
    requires GapOk(g, GapsText(more) + rest) && GapsOk(more, rest)
    ensures GapsOk([g] + more, rest) && GapsText([g] + more) + rest == GapText(g) + (GapsText(more) + rest)
  {
    hide GapText, GapOk;
    assert ([g] + more)[1..] == more;
  }

  /** Exactly the gaps that a text begins with are skipped. */
  lemma SkipIs(s: string, rest: string)
    ensures Skip(s) == Success(rest) <==>
      !BeginsGap(rest) && exists gaps :: GapsOk(gaps, rest) && s == GapsText(gaps) + rest
  {
    if Skip(s) == Success(rest) {
      var gaps := GapsAhead(s, rest);
    }
    if gaps :| !BeginsGap(rest) && GapsOk(gaps, rest) && s == GapsText(gaps) + rest {
      GapsSkipped(gaps, rest);
    }
  }

  // ----- Quoted strings -----

  /** How one character of a string is written: as it is, after a backslash, or by
      its code. */
  datatype Piece = Plain(c: char) | Escape(c: char) | Code(a: char, b: char, c: char, d: char)

  function PieceText(p: Piece): string {
    match p
    case Plain(c) => [c]
    case Escape(c) => ['\\', c]
    case Code(a, b, c, d) => ['\\', 'u', a, b, c, d]
  }

  predicate PieceOk(p: Piece, quote: char) {
    match p
    case Plain(c) => c != quote && c != '\\'
    case Escape(c) => c != 'u'
    case Code(a, b, c, d) => IsHex(a) && IsHex(b) && IsHex(c) && IsHex(d)
  }

  function CharIn(p: Piece, quote: char): char
    requires PieceOk(p, quote)
  {
    match p
    case Plain(c) => c
    case Escape(c) => if c == 'n' then '\n' else if c == 't' then '\t' else if c == 'r' then '\r' else c
    case Code(a, b, c, d) => CharOf(a, b, c, d)
  }

  predicate PiecesOk(pieces: seq<Piece>, quote: char) {
    forall i :: 0 <= i < |pieces| ==> PieceOk(pieces[i], quote)
  }

  function PiecesText(pieces: seq<Piece>): string {
    if |pieces| == 0 then "" else PieceText(pieces[0]) + PiecesText(pieces[1..])
  }

  function CharsIn(pieces: seq<Piece>, quote: char): string
    requires PiecesOk(pieces, quote)
  {
    if |pieces| == 0 then "" else [CharIn(pieces[0], quote)] + CharsIn(pieces[1..], quote)
  }

  lemma PieceRead(p: Piece, quote: char, rest: string, out: string)
    requires quote != '\\' && PieceOk(p, quote)
    ensures StringBody(PieceText(p) + rest, quote, out) == StringBody(rest, quote, out + [CharIn(p, quote)])
  {
    var s := PieceText(p) + rest;
    match p
    case Plain(c) => assert s[1..] == rest;
    case Escape(c) => assert s[2..] == rest;
    case Code(_, _, _, _) => assert s[6..] == rest;
  }

  lemma {:induction false} PiecesRead(pieces: seq<Piece>, quote: char, rest: string, out: string)
    requires quote != '\\' && PiecesOk(pieces, quote)
    ensures StringBody(PiecesText(pieces) + ([quote] + rest), quote, out) == Success((out + CharsIn(pieces, quote), rest))
    decreases |pieces|
  {
    var s := PiecesText(pieces) + ([quote] + rest);
    hide StringBody, PieceText, CharIn, PieceOk;
    if |pieces| == 0 {
      assert s == [quote] + rest && out + CharsIn(pieces, quote) == out;
      QuoteRead(quote, rest, out);
    } else {
      var c := CharIn(pieces[0], quote);
      PieceRead(pieces[0], quote, PiecesText(pieces[1..]) + ([quote] + rest), out);
      PiecesRead(pieces[1..], quote, rest, out + [c]);
      assert s == PieceText(pieces[0]) + (PiecesText(pieces[1..]) + ([quote] + rest));
      assert (out + [c]) + CharsIn(pieces[1..], quote) == out + CharsIn(pieces, quote);
    }
  }

  lemma QuoteRead(quote: char, rest: string, out: string)
    ensures StringBody([quote] + rest, quote, out) == Success((out, rest))
  {
    assert ([quote] + rest)[1..] == rest;
  }

  lemma SomeText(s: string, quote: char, out: string)
    requires StringBody(s, quote, out).Success?
    ensures s != ""
  {
  }

  lemma PieceIsText(p: Piece)
    ensures |PieceText(p)| > 0
  {
  }

  lemma PieceAhead(s: string, quote: char, out: string) returns (p: Piece, after: string)
    requires quote != '\\' && s != "" && s[0] != quote && StringBody(s, quote, out).Success?
    ensures PieceOk(p, quote) && s == PieceText(p) + after
  {
    if s[0] != '\\' {
      p, after := Plain(s[0]), s[1..];
    } else if s[1] == 'u' {
      p, after := Code(s[2], s[3], s[4], s[5]), s[6..];
    } else {
      p, after := Escape(s[1]), s[2..];
    }
  }

  lemma PiecesMore(p: Piece, more: seq<Piece>, quote: char, out: string, tail: string)
    requires PieceOk(p, quote) && PiecesOk(more, quote)
    ensures PiecesOk([p] + more, quote)
    ensures PiecesText([p] + more) + tail == PieceText(p) + (PiecesText(more) + tail)
    ensures out + CharsIn([p] + more, quote) == (out + [CharIn(p, quote)]) + CharsIn(more, quote)
  {
    hide PieceText, CharIn, PieceOk;
    assert ([p] + more)[1..] == more;
  }

  lemma {:induction false} PiecesAhead(s: string, quote: char, out: string, text: string, rest: string)
      returns (pieces: seq<Piece>)
    requires quote != '\\' && StringBody(s, quote, out) == Success((text, rest))
    ensures PiecesOk(pieces, quote) && s == PiecesText(pieces) + ([quote] + rest) && text == out + CharsIn(pieces, quote)
    decreases |s|
  {
    SomeText(s, quote, out);
    hide StringBody, PieceText, CharIn, PieceOk, PiecesOk;
    if s[0] == quote {
      pieces := [];
      hide PiecesText;
      NoPieces(quote, out, [quote] + rest);
      assert s == [quote] + s[1..];
      QuoteRead(quote, s[1..], out);
    } else {
      hide PiecesText, CharsIn;
      var p, after := PieceAhead(s, quote, out);
      PieceIsText(p);
      PieceRead(p, quote, after, out);
      var more := PiecesAhead(after, quote, out + [CharIn(p, quote)], text, rest);
      pieces := [p] + more;
      PiecesMore(p, more, quote, out, [quote] + rest);
    }
  }

  lemma NoPieces(quote: char, out: string, tail: string)
    ensures PiecesOk([], quote) && PiecesText([]) + tail == tail && out + CharsIn([], quote) == out
  {
  }

  /** A string is read exactly if it is written in such pieces up to its closing
      quote, and it has the character of each. */
  lemma StringBodyIs(s: string, quote: char, text: string, rest: string)
    requires quote != '\\'
    ensures StringBody(s, quote, "") == Success((text, rest)) <==>
      exists pieces :: PiecesOk(pieces, quote) && s == PiecesText(pieces) + ([quote] + rest) && text == CharsIn(pieces, quote)
  {
    if StringBody(s, quote, "") == Success((text, rest)) {
      var pieces := PiecesAhead(s, quote, "", text, rest);
      assert "" + CharsIn(pieces, quote) == CharsIn(pieces, quote);
    }
    if pieces :| PiecesOk(pieces, quote) && s == PiecesText(pieces) + ([quote] + rest) && text == CharsIn(pieces, quote) {
      PiecesRead(pieces, quote, rest, "");
      assert "" + CharsIn(pieces, quote) == CharsIn(pieces, quote);
    }
  }

  // ----- Numbers -----

  /** Digits after an e, with a sign or without. */
  datatype Power = Power(mark: char, sign: string, digits: string)

  /** A number as it is written: a sign, digits, digits after a point, and a power of ten. */
  datatype Numeral = Numeral(sign: string, whole: string, fraction: Option<string>, power: Option<Power>)

  predicate AllDigits(s: string) {
    forall i :: 0 <= i < |s| ==> IsDigit(s[i])
  }

  predicate IsSign(s: string) {
    s == "" || s == "-" || s == "+"
  }

  predicate NumeralOk(n: Numeral) {
    && IsSign(n.sign) && AllDigits(n.whole) && AllDigits(n.fraction.GetOr(""))
    && n.whole + n.fraction.GetOr("") != ""
    && (n.power.Some? ==> PowerOk(n.power.value))
  }

  predicate PowerOk(p: Power) {
    (p.mark == 'e' || p.mark == 'E') && IsSign(p.sign) && AllDigits(p.digits) && p.digits != ""
  }

  function FractionText(fraction: Option<string>): string {
    if fraction.Some? then "." + fraction.value else ""
  }

  function PowerText(power: Option<Power>): string {
    if power.Some? then [power.value.mark] + (power.value.sign + power.value.digits) else ""
  }

  function NumeralText(n: Numeral): string {
    n.sign + (n.whole + (FractionText(n.fraction) + PowerText(n.power)))
  }

  predicate BeginsDigit(s: string) {
    s != "" && IsDigit(s[0])
  }

  predicate BeginsPower(s: string) {
    s != "" && (s[0] == 'e' || s[0] == 'E') && BeginsDigit(Sign(s[1..]).1)
  }

  /** Nothing of what follows a number could have been part of it. */
  predicate NumeralEnds(n: Numeral, rest: string) {
    if n.power.Some? then !BeginsDigit(rest)
    else !BeginsPower(rest) && !BeginsDigit(rest) && (n.fraction.None? ==> !("." <= rest))
  }

  function PowerOf(power: Option<Power>): int
    requires power.Some? ==> PowerOk(power.value)
  {
    if power.None? then 0 else Signed(power.value.sign == "-", IntOf(power.value.digits))
  }

  /** What a numeral means: its whole and its fractional part, by a power of ten. */
  function NumeralValue(n: Numeral): real
    requires NumeralOk(n)
  {
    var fraction := n.fraction.GetOr("");
    var size := (IntOf(n.whole) as real + IntOf(fraction) as real / Pow10(|fraction|) as real) * Scale(1, PowerOf(n.power));
    if n.sign == "-" then -size else size
  }

  lemma {:induction false} IntOfBoth(a: string, b: string)
    requires AllDigits(a) && AllDigits(b)
    ensures AllDigits(a + b) && IntOf(a + b) == IntOf(a) * Pow10(|b|) + IntOf(b)
  {
    if b == "" {
      assert a + b == a;
    } else {
      var init := b[..|b| - 1];
      IntOfBoth(a, init);
      assert (a + b)[..|a + b| - 1] == a + init;
      assert IntOf(a) * Pow10(|b|) == IntOf(a) * Pow10(|init|) * 10;
    }
  }

  lemma {:induction false} Pow10Sum(j: nat, k: nat)
    ensures Pow10(j + k) == Pow10(j) * Pow10(k)
  {
    if j > 0 {
      Pow10Sum(j - 1, k);
    }
  }

  function Times(a: int, b: int): int {
    a * b
  }

  lemma Pow10Parts(n: nat, j: nat, k: nat)
    requires n == j + k
    ensures Pow10(n) == Times(Pow10(j), Pow10(k))
  {
    Pow10Sum(j, k);
  }

  lemma Cancels(m: real, b: real, c: real)
    requires b > 0.0 && c > 0.0
    ensures m / b * (b * c) == m * c
    ensures m / (b * c) * b == m / c
    ensures m / (b * c) == m / b * (1.0 / c)
  {
    var q := m / (b * c);
    assert q * (b * c) == m;
    assert q * b * c == m;
    assert q * b == m / c;
    assert m / b * b == m;
    assert q * c == m / b;
    assert m / b * (1.0 / c) == m / b / c;
  }

  lemma ProductReal(b: int, c: int)
    ensures (b * c) as real == b as real * c as real
  {
  }

  /** One decimal is another, scaled by a power of ten whose point is moved. */
  predicate Moved(scaled: real, m: int, p: nat, one: real) {
    p > 0 && scaled == m as real / p as real * one
  }

  lemma PointUp(m: int, p: nat, b: nat, c: nat, scaled: real, one: real)
    requires b > 0 && c > 0 && p == Times(b, c) && scaled == Times(m, c) as real && one == p as real
    ensures Moved(scaled, m, b, one)
  {
    ProductReal(b, c);
    ProductReal(m, c);
    Cancels(m as real, b as real, c as real);
  }

  lemma PointWithin(m: int, p: nat, b: nat, c: nat, scaled: real, one: real)
    requires b > 0 && c > 0 && p == Times(b, c) && scaled == m as real / c as real && one == b as real
    ensures Moved(scaled, m, p, one)
  {
    ProductReal(b, c);
    Cancels(m as real, b as real, c as real);
  }

  lemma PointDown(m: int, p: nat, b: nat, c: nat, scaled: real, one: real)
    requires b > 0 && c > 0 && p == Times(b, c) && p > 0 && scaled == m as real / p as real && one == 1.0 / c as real
    ensures Moved(scaled, m, b, one)
  {
    ProductReal(b, c);
    Cancels(m as real, b as real, c as real);
  }

  lemma ScaleIs(m: int, e: int)
    ensures Scale(m, e) == if e >= 0 then Times(m, Pow10(e)) as real else m as real / Pow10(-e) as real
  {
  }

  lemma ScaleOne(e: int)
    ensures Scale(1, e) == if e >= 0 then Pow10(e) as real else 1.0 / Pow10(-e) as real
  {
  }

  lemma ScaleUp(m: int, e: int, k: nat)
    requires e >= k
    ensures Moved(Scale(m, e - k), m, Pow10(k), Scale(1, e))
  {
    ScaleIs(m, e - k);
    ScaleOne(e);
    Pow10Parts(e, k, e - k);
    hide Pow10, Scale, Times, Moved;
    PointUp(m, Pow10(e), Pow10(k), Pow10(e - k), Scale(m, e - k), Scale(1, e));
  }

  lemma ScaleWithin(m: int, e: int, k: nat)
    requires 0 <= e < k
    ensures Moved(Scale(m, e - k), m, Pow10(k), Scale(1, e))
  {
    ScaleIs(m, e - k);
    ScaleOne(e);
    Pow10Parts(k, e, k - e);
    hide Pow10, Scale, Times, Moved;
    PointWithin(m, Pow10(k), Pow10(e), Pow10(k - e), Scale(m, e - k), Scale(1, e));
  }

  lemma ScaleDown(m: int, e: int, k: nat)
    requires e < 0
    ensures Moved(Scale(m, e - k), m, Pow10(k), Scale(1, e))
  {
    ScaleIs(m, e - k);
    ScaleOne(e);
    Pow10Parts(k - e, k, -e);
    hide Pow10, Scale, Times, Moved;
    PointDown(m, Pow10(k - e), Pow10(k), Pow10(-e), Scale(m, e - k), Scale(1, e));
  }

  /** Moving the point to the left divides by ten so often. */
  lemma ScaleSplit(m: int, e: int, k: nat)
    ensures Moved(Scale(m, e - k), m, Pow10(k), Scale(1, e))
  {
    if e >= k {
      ScaleUp(m, e, k);
    } else if e >= 0 {
      ScaleWithin(m, e, k);
    } else {
      ScaleDown(m, e, k);
    }
    hide Pow10, Scale, Moved;
  }
  /** The number that digits before and after the point are, as one decimal and as a sum. */
  lemma ValueOfSum(negative: bool, w: nat, f: nat, p: nat, m: int, scaled: real, one: real)
    requires m == Signed(negative, Times(w, p) + f) && Moved(scaled, m, p, one)
    ensures
      var size := (w as real + f as real / p as real) * one;
      scaled == if negative then -size else size
  {
    ProductReal(w, p);
    var x := w as real + f as real / p as real;
    Quotients(w as real, f as real, p as real, x);
    if negative {
      assert m as real == -(w as real * p as real + f as real);
      Negated(w as real * p as real + f as real, p as real, x, one);
    }
  }

  lemma Quotients(w: real, f: real, p: real, x: real)
    requires p > 0.0 && x == w + f / p
    ensures (w * p + f) / p == x
  {
    assert w * p / p == w;
  }

  lemma Negated(a: real, p: real, x: real, one: real)
    requires p > 0.0 && a / p == x
    ensures -a / p * one == -(x * one)
  {
    assert -a / p == -x;
  }

  lemma NumeralValueIs(n: Numeral)
    requires NumeralOk(n)
    ensures
      var f := n.fraction.GetOr("");
      AllDigits(n.whole + f) &&
      Scale(Signed(n.sign == "-", IntOf(n.whole + f)), PowerOf(n.power) - |f|) == NumeralValue(n)
  {
    hide IntOf, Pow10, Scale, Moved, Times, PowerOf, PowerOk;
    var f, e := n.fraction.GetOr(""), PowerOf(n.power);
    IntOfBoth(n.whole, f);
    ProductIsTimes(IntOf(n.whole), Pow10(|f|));
    var m := Signed(n.sign == "-", IntOf(n.whole + f));
    ScaleSplit(m, e, |f|);
    ValueOfSum(n.sign == "-", IntOf(n.whole), IntOf(f), Pow10(|f|), m, Scale(m, e - |f|), Scale(1, e));
  }

  lemma ProductIsTimes(a: int, b: int)
    ensures a * b == Times(a, b)
  {
  }

  lemma SignIs(sign: string, u: string)
    requires IsSign(sign) && u != "" && u[0] != '-' && u[0] != '+'
    ensures Sign(sign + u) == (sign == "-", u)
  {
    if sign != "" {
      assert (sign + u)[1..] == u;
    } else {
      assert sign + u == u;
    }
  }

  lemma SpanIs(digits: string, rest: string)
    requires AllDigits(digits) && !BeginsDigit(rest)
    ensures
      var s := digits + rest;
      Span(s, IsDigit) == |digits| && s[..|digits|] == digits && s[|digits|..] == rest
  {
    SpanOf(digits, rest, IsDigit);
  }

  lemma FractionIs(fraction: Option<string>, rest: string)
    requires AllDigits(fraction.GetOr("")) && !BeginsDigit(rest) && (fraction.None? ==> !("." <= rest))
    ensures Fraction(FractionText(fraction) + rest) == (fraction.GetOr(""), rest)
    ensures !BeginsDigit(FractionText(fraction) + rest)
  {
    if fraction.Some? {
      SpanIs(fraction.value, rest);
      var s := FractionText(fraction) + rest;
      assert s == "." + (fraction.value + rest) && s[1..] == fraction.value + rest;
    } else {
      assert FractionText(fraction) + rest == rest;
    }
  }

  lemma SomePowerIs(p: Power, rest: string)
    requires PowerOk(p) && !BeginsDigit(rest)
    ensures Exponent([p.mark] + (p.sign + (p.digits + rest))) == (PowerOf(Some(p)), rest)
  {
    var t := p.digits + rest;
    assert IsDigit(p.digits[0]) && t[0] == p.digits[0];
    SpanIs(p.digits, rest);
    SignIs(p.sign, t);
    MarkIs(p.mark, p.sign + t);
    hide Sign, Span, IntOf, IsDigit, IsSign, AllDigits;
  }

  lemma MarkIs(mark: char, t: string)
    requires mark == 'e' || mark == 'E'
    ensures var s := [mark] + t; s[1..] == t && ("e" <= s || "E" <= s)
  {
  }

  lemma NoPowerIs(rest: string)
    requires !BeginsPower(rest)
    ensures Exponent(rest) == (0, rest)
  {
    if rest != "" && (rest[0] == 'e' || rest[0] == 'E') {
      NoDigits(Sign(rest[1..]).1);
    }
  }

  lemma PowerIs(power: Option<Power>, rest: string)
    requires if power.Some? then PowerOk(power.value) && !BeginsDigit(rest) else !BeginsPower(rest)
    ensures Exponent(PowerText(power) + rest) == (PowerOf(power), rest)
  {
    hide Exponent, BeginsPower, PowerOk;
    if power.Some? {
      var p := power.value;
      SomePowerIs(p, rest);
      MoreText(p.mark, p.sign, p.digits, rest);
    } else {
      NoPowerIs(rest);
      assert PowerText(power) + rest == rest;
    }
  }

  lemma NoDigits(s: string)
    requires !BeginsDigit(s)
    ensures Span(s, IsDigit) == 0
  {
  }

  lemma PowerBegins(power: Option<Power>, rest: string)
    requires if power.Some? then PowerOk(power.value) else !BeginsDigit(rest)
    ensures !BeginsDigit(PowerText(power) + rest)
    ensures power.Some? ==> !("." <= PowerText(power) + rest)
    ensures power.None? ==> PowerText(power) + rest == rest
  {
  }

  /** A numeral that ends before the rest of a text is read, with its value. */
  lemma NumeralRead(n: Numeral, rest: string)
    requires NumeralOk(n) && NumeralEnds(n, rest)
    ensures NumberAt(NumeralText(n) + rest) == (Some(NumeralValue(n)), rest)
  {
    hide Sign, Span, IntOf, Fraction, Exponent, PowerText, FractionText, PowerOk, PowerOf, NumeralValue, Scale, Signed,
         BeginsPower;
    var x := PowerText(n.power) + rest;
    var v := FractionText(n.fraction) + x;
    var u := n.whole + v;
    assert NumeralText(n) + rest == n.sign + u;
    PowerBegins(n.power, rest);
    PowerIs(n.power, rest);
    FractionIs(n.fraction, x);
    SpanIs(n.whole, v);
    BeginsNoSign(n, x);
    SignIs(n.sign, u);
    NumeralValueIs(n);
  }

  lemma BeginsNoSign(n: Numeral, x: string)
    requires NumeralOk(n)
    ensures
      var u := n.whole + (FractionText(n.fraction) + x);
      u != "" && u[0] != '-' && u[0] != '+'
  {
    if n.whole != "" {
      assert IsDigit(n.whole[0]);
    }
  }
  lemma {:induction false} SpanStops(s: string)
    ensures
      var n := Span(s, IsDigit);
      AllDigits(s[..n]) && !BeginsDigit(s[n..]) && s == s[..n] + s[n..]
  {
    if BeginsDigit(s) {
      SpanStops(s[1..]);
      assert s[Span(s, IsDigit)..] == s[1..][Span(s[1..], IsDigit)..];
    }
  }

  lemma SignAhead(t: string) returns (sign: string)
    ensures IsSign(sign) && Sign(t).0 == (sign == "-") && t == sign + Sign(t).1
  {
    sign := if "-" <= t then "-" else if "+" <= t then "+" else "";
    assert t == "" + t && (t != "" ==> t == [t[0]] + t[1..]);
  }

  lemma FractionAhead(s: string) returns (fraction: Option<string>)
    ensures Fraction(s).0 == fraction.GetOr("") && AllDigits(fraction.GetOr(""))
    ensures s == FractionText(fraction) + Fraction(s).1
    ensures fraction.None? ==> !("." <= s) && Fraction(s).1 == s
    ensures fraction.Some? || !BeginsDigit(s) ==> !BeginsDigit(Fraction(s).1)
  {
    if "." <= s {
      fraction := Some(Fraction(s).0);
      SpanStops(s[1..]);
      assert s == "." + s[1..];
    } else {
      fraction := None;
      assert s == "" + s;
    }
  }

  lemma PowerAhead(s: string) returns (power: Option<Power>)
    ensures s == PowerText(power) + Exponent(s).1
    ensures if power.Some? then PowerOk(power.value) && !BeginsDigit(Exponent(s).1) else !BeginsPower(s)
    ensures Exponent(s).0 == PowerOf(power) && (power.None? ==> Exponent(s).1 == s)
  {
    if ("e" <= s || "E" <= s) && BeginsDigit(Sign(s[1..]).1) {
      var sign := SignAhead(s[1..]);
      var t := Sign(s[1..]).1;
      var n := Span(t, IsDigit);
      SpanStops(t);
      power := Some(Power(s[0], sign, t[..n]));
      hide Sign, Span, IntOf;
      MoreText(s[0], sign, t[..n], t[n..]);
      assert s == [s[0]] + s[1..];
    } else {
      power := None;
      if "e" <= s || "E" <= s {
        NoDigits(Sign(s[1..]).1);
      }
      assert s == "" + s;
    }
  }

  lemma MoreText(mark: char, sign: string, digits: string, rest: string)
    ensures [mark] + (sign + (digits + rest)) == ([mark] + (sign + digits)) + rest
  {
  }

  /** What the parts of a number are read from, one after another. */
  function AfterWhole(t: string): (string, string) {
    var u := Sign(t).1;
    (u[..Span(u, IsDigit)], u[Span(u, IsDigit)..])
  }

  lemma PartsAhead(t: string) returns (n: Numeral)
    requires NumberAt(t).0.Some?
    ensures
      var (whole, s) := AfterWhole(t);
      var (fraction, v) := Fraction(s);
      var (e, rest) := Exponent(v);
      && NumeralOk(n) && NumeralEnds(n, rest) && t == NumeralText(n) + rest
      && Sign(t).0 == (n.sign == "-") && whole == n.whole && fraction == n.fraction.GetOr("") && e == PowerOf(n.power)
  {
    var (whole, s) := AfterWhole(t);
    var v := Fraction(s).1;
    var sign := SignAhead(t);
    SpanStops(Sign(t).1);
    var fraction := FractionAhead(s);
    var power := PowerAhead(v);
    n := Numeral(sign, whole, fraction, power);
    SomeDigits(t);
    hide Sign, Span, IntOf, Fraction, Exponent, PowerText, FractionText, PowerOk, PowerOf, BeginsPower, NumberAt, AllDigits,
         BeginsDigit, IsSign;
    JoinText(sign, whole, FractionText(fraction), PowerText(power), Exponent(v).1);
  }

  lemma SomeDigits(t: string)
    ensures NumberAt(t).0.Some? <==> AfterWhole(t).0 + Fraction(AfterWhole(t).1).0 != ""
  {
    hide Sign, Span, IntOf, Fraction, Exponent, Scale;
  }

  lemma NumberOfParts(t: string, n: Numeral)
    requires NumeralOk(n) && NumberAt(t).0.Some?
    requires
      var (whole, s) := AfterWhole(t);
      var (fraction, v) := Fraction(s);
      && Sign(t).0 == (n.sign == "-") && whole == n.whole && fraction == n.fraction.GetOr("")
      && Exponent(v).0 == PowerOf(n.power)
    ensures NumberAt(t) == (Some(NumeralValue(n)), Exponent(Fraction(AfterWhole(t).1).1).1)
  {
    NumeralValueIs(n);
    hide Sign, Span, IntOf, Fraction, Exponent, PowerOk, PowerOf, NumeralValue, Scale, AllDigits, IsSign, Signed;
  }

  /** The numeral that a text begins with. */
  lemma NumeralAhead(t: string) returns (n: Numeral)
    requires NumberAt(t).0.Some?
    ensures
      var (x, rest) := NumberAt(t);
      NumeralOk(n) && NumeralEnds(n, rest) && t == NumeralText(n) + rest && x == Some(NumeralValue(n))
  {
    n := PartsAhead(t);
    NumberOfParts(t, n);
    hide NumberAt, NumeralOk, NumeralEnds, NumeralText, NumeralValue, AfterWhole, Fraction, Exponent, PowerOf;
  }

  lemma JoinText(a: string, b: string, c: string, d: string, e: string)
    ensures a + (b + (c + (d + e))) == (a + (b + (c + d))) + e
  {
  }

  /** A number is read exactly if the text begins with a numeral that ends there:
      as many digits, points and powers as there are. It is the numeral's value. */
  lemma NumberAtIs(t: string, x: real, rest: string)
    ensures NumberAt(t) == (Some(x), rest) <==>
      exists n :: NumeralOk(n) && NumeralEnds(n, rest) && t == NumeralText(n) + rest && x == NumeralValue(n)
  {
    hide NumberAt, NumeralValue, NumeralOk, NumeralEnds, NumeralText;
    if NumberAt(t) == (Some(x), rest) {
      var n := NumeralAhead(t);
    }
    if n :| NumeralOk(n) && NumeralEnds(n, rest) && t == NumeralText(n) + rest && x == NumeralValue(n) {
      NumeralRead(n, rest);
    }
  }
}
