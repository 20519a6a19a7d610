/** Reading the text of a query: white space and comments, symbols, words,
    numbers and quoted strings. Each function says what is read from the
    remaining text, and what remains after it. */
module QlText {
  import opened Wrappers

  datatype ParseError = Invalid | Unsupported

  /** A value that was read, and the text after it. */
  type Reading<T> = Result<(T, string), ParseError>

  // ----- White space and comments -----

  predicate IsSpace(c: char) {
    || '\U{0009}' <= c <= '\U{000D}' || '\U{001C}' <= c <= '\U{0020}' || c == '\U{0085}' || c == '\U{00A0}'
    || c == '\U{1680}' || '\U{2000}' <= c <= '\U{200A}' || c == '\U{2028}' || c == '\U{2029}' || c == '\U{202F}'
    || c == '\U{205F}' || c == '\U{3000}'
  }

  function LineEnd(s: string): (r: string)
    ensures |r| <= |s|
  {
    if s == "" || s[0] == '\n' then s else LineEnd(s[1..])
  }

  function AfterComment(s: string): (r: Option<string>)
    ensures r.Some? ==> |r.value| < |s|
  {
    if |s| < 2 then None else if s[0] == '*' && s[1] == '/' then Some(s[2..]) else AfterComment(s[1..])
  }

  /** What follows white space and comments. */
  function Skip(s: string): (r: Result<string, ParseError>)
    ensures r.Success? ==> |r.value| <= |s|
    decreases |s|
  {
    if s == "" then Success(s)
    else if IsSpace(s[0]) then Skip(s[1..])
    else if "//" <= s then Skip(LineEnd(s[1..]))
    else if "/*" <= s then
      var after := AfterComment(s[2..]);
      if after.None? then Failure(Invalid) else Skip(after.value)
    else Success(s)
  }

  // ----- Symbols -----

  function Peek(s: string, symbol: string): (r: Reading<bool>)
    ensures r.Success? ==> |r.value.1| <= |s| && (r.value.0 <==> symbol <= r.value.1)
  {
    var t :- Skip(s);
    Success((symbol <= t, t))
  }

  function Accept(s: string, symbol: string): (r: Reading<bool>)
    ensures r.Success? ==> |r.value.1| <= |s| - if r.value.0 then |symbol| else 0
  {
    var (there, t) :- Peek(s, symbol);
    Success((there, if there then t[|symbol|..] else t))
  }

  function Expect(s: string, symbol: string): (r: Result<string, ParseError>)
    ensures r.Success? ==> |r.value| <= |s| - |symbol|
  {
    var (there, t) :- Accept(s, symbol);
    if there then Success(t) else Failure(Invalid)
  }

  // ----- Words -----

  predicate IsDigit(c: char) {
    '0' <= c <= '9'
  }

  predicate IsWordStart(c: char) {
    'A' <= c <= 'Z' || 'a' <= c <= 'z' || c == '_'
  }

  predicate IsWordChar(c: char) {
    IsWordStart(c) || IsDigit(c)
  }

  /** How much of a text's beginning is of such characters. */
  function Span(s: string, p: char -> bool): (n: nat)
    ensures n <= |s|
    ensures forall i :: 0 <= i < n ==> p(s[i])
  {
    if s == "" || !p(s[0]) then 0 else 1 + Span(s[1..], p)
  }

  predicate IsIdentifier(word: string) {
    |word| > 0 && IsWordStart(word[0]) && forall i :: 0 <= i < |word| ==> IsWordChar(word[i])
  }

  function IdentifierAt(s: string): (r: Option<string>)
    ensures r.Some? ==> IsIdentifier(r.value) && r.value <= s
  {
    if s == "" || !IsWordStart(s[0]) then None
    else
      assert Span(s, IsWordChar) > 0;
      Some(s[..Span(s, IsWordChar)])
  }

  function Identifier(s: string): (r: Reading<Option<string>>)
    ensures r.Success? ==> |r.value.1| <= |s|
    ensures r.Success? && r.value.0.Some? ==> |r.value.1| < |s| && IsIdentifier(r.value.0.value)
  {
    var t :- Skip(s);
    var word := IdentifierAt(t);
    Success((word, if word.Some? then t[|word.value|..] else t))
  }

  /** A word that stays to be read. */
  function PeekWord(s: string): (r: Reading<Option<string>>)
    ensures r.Success? ==> |r.value.1| <= |s| && r.value.0 == IdentifierAt(r.value.1)
  {
    var t :- Skip(s);
    Success((IdentifierAt(t), t))
  }

  /** The longest run of such characters, if there is any. */
  function RunAt(t: string, p: char -> bool): (r: Option<string>)
    ensures r.Some? ==> |r.value| > 0 && r.value <= t && forall i :: 0 <= i < |r.value| ==> p(r.value[i])
  {
    var n := Span(t, p);
    if n > 0 then Some(t[..n]) else None
  }

  function Run(s: string, p: char -> bool): (r: Reading<Option<string>>)
    ensures r.Success? ==> |r.value.1| <= |s|
    ensures r.Success? && r.value.0.Some? ==>
      |r.value.0.value| > 0 && |r.value.1| < |s| && forall i :: 0 <= i < |r.value.0.value| ==> p(r.value.0.value[i])
  {
    var t :- Skip(s);
    var word := RunAt(t, p);
    Success((word, if word.Some? then t[|word.value|..] else t))
  }

  // ----- Numbers -----

  function DigitValue(c: char): nat
    requires IsDigit(c)
  {
    c as int - '0' as int
  }

  function IntOf(digits: string): nat
    requires forall i :: 0 <= i < |digits| ==> IsDigit(digits[i])
  {
    if digits == "" then 0
    else IntOf(digits[..|digits| - 1]) * 10 + DigitValue(digits[|digits| - 1])
  }

  function Pow10(k: nat): (p: nat)
    ensures p > 0
  {
    if k == 0 then 1 else 10 * Pow10(k - 1)
  }

  /** A decimal: m times ten to the power e. */
  function Scale(m: int, e: int): real {
    if e >= 0 then (m * Pow10(e)) as real else m as real / Pow10(-e) as real
  }

  function Sign(s: string): (r: (bool, string))
    ensures |r.1| <= |s|
  {
    if "-" <= s then (true, s[1..]) else if "+" <= s then (false, s[1..]) else (false, s)
  }

  function Signed(negative: bool, n: int): int {
    if negative then -n else n
  }

  /** An exponent, if there is one: without digits it is not part of the number. */
  function Exponent(s: string): (r: (int, string))
    ensures |r.1| <= |s|
  {
    if "e" <= s || "E" <= s then
      var (negative, t) := Sign(s[1..]);
      var n := Span(t, IsDigit);
      if n > 0 then (Signed(negative, IntOf(t[..n])), t[n..]) else (0, s)
    else (0, s)
  }

  function Fraction(s: string): (r: (string, string))
    ensures |r.1| <= |s|
    ensures forall i :: 0 <= i < |r.0| ==> IsDigit(r.0[i])
  {
    if "." <= s then
      var n := Span(s[1..], IsDigit);
      (s[1..][..n], s[1..][n..])
    else ("", s)
  }

  /** A number: digits with perhaps a point, or a point and digits; then perhaps an exponent. */
  function NumberAt(t: string): (r: (Option<real>, string))
    ensures |r.1| <= |t|
    ensures r.0.Some? ==> |r.1| < |t| && IsDecimal(r.0.value)
  {
    var (negative, u) := Sign(t);
    var n := Span(u, IsDigit);
    var (fraction, v) := Fraction(u[n..]);
    if n == 0 && fraction == "" then (None, t)
    else
      var (e, w) := Exponent(v);
      var digits := u[..n] + fraction;
      var m := Signed(negative, IntOf(digits));
      assert IsDecimal(Scale(m, e - |fraction|));
      (Some(Scale(m, e - |fraction|)), w)
  }

  function Number(s: string): (r: Reading<Option<real>>)
    ensures r.Success? ==> |r.value.1| <= |s|
    ensures r.Success? && r.value.0.Some? ==> |r.value.1| < |s| && IsDecimal(r.value.0.value)
  {
    var t :- Skip(s);
    Success(NumberAt(t))
  }

  ghost predicate IsDecimal(x: real) {
    exists m: int, e: int :: x == Scale(m, e)
  }

  // ----- Quoted strings -----

  function Escaped(c: char): char {
    match c
    case 'n' => '\n'
    case 't' => '\t'
    case 'r' => '\r'
    case _ => c
  }

  predicate IsHex(c: char) {
    IsDigit(c) || 'A' <= c <= 'F' || 'a' <= c <= 'f'
  }

  function HexValue(c: char): nat
    requires IsHex(c)
  {
    if IsDigit(c) then c as int - '0' as int
    else if 'A' <= c <= 'F' then c as int - 'A' as int + 10
    else c as int - 'a' as int + 10
  }

  /** The character of four hexadecimal digits; a lone surrogate is not a character here. */
  function CharOf(a: char, b: char, c: char, d: char): char
    requires IsHex(a) && IsHex(b) && IsHex(c) && IsHex(d)
  {
    var code := ((HexValue(a) * 16 + HexValue(b)) * 16 + HexValue(c)) * 16 + HexValue(d);
    if code < 0xD800 || 0xE000 <= code < 0x10000 then code as char else '\U{FFFD}'
  }

  /** The rest of a string after its opening quote, and some of it already read. */
  function StringBody(s: string, quote: char, out: string): (r: Reading<string>)
    ensures r.Success? ==> |r.value.1| < |s|
    decreases |s|
  {
    if s == "" then Failure(Invalid)
    else if s[0] == quote then Success((out, s[1..]))
    else if s[0] != '\\' then StringBody(s[1..], quote, out + [s[0]])
    else if |s| < 2 then Failure(Invalid)
    else if s[1] == 'u' then
      if |s| < 6 || !IsHex(s[2]) || !IsHex(s[3]) || !IsHex(s[4]) || !IsHex(s[5]) then Failure(Invalid)
      else StringBody(s[6..], quote, out + [CharOf(s[2], s[3], s[4], s[5])])
    else StringBody(s[2..], quote, out + [Escaped(s[1])])
  }

  /** Reads text in quotes, or nothing if no quote is next. */
  function Quoted(s: string): (r: Reading<Option<string>>)
    ensures r.Success? ==> |r.value.1| <= |s| && (r.value.0.Some? ==> |r.value.1| < |s|)
  {
    var t :- Skip(s);
    if t == "" || (t[0] != '"' && t[0] != '\'') then Success((None, t))
    else
      var (text, rest) :- StringBody(t[1..], t[0], "");
      Success((Some(text), rest))
  }
}
