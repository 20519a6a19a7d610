/** Whole queries: settings, then statements to the end of the text. */
module QlScripts {
  import opened Wrappers
  import opened Ql
  import opened QlText
  import opened QlTrees
  import opened QlGrammar

  // ----- Settings -----

  const UNSUPPORTED_SETTINGS := {"date", "diff", "adiff"}

  const CSV_SPECIAL_FIELDS := {"id", "type", "otype", "lat", "lon", "version", "timestamp", "changeset", "uid", "user",
                               "count", "count:nodes", "count:ways", "count:relations", "count:areas"}

  /** Reads text in quotes, or a word; after the word count, a single colon and another word are
      part of it. */
  function SpecialName(s: string): (r: Reading<Option<string>>)
    ensures r.Success? ==> |r.value.1| <= |s|
  {
    var (quoted, s) :- Quoted(s);
    if quoted.Some? then Success((quoted, s))
    else
      var (name, s) :- Identifier(s);
      if name != Some("count") then Success((name, s))
      else
        var (colon, s) :- Peek(s, ":");
        if !colon || "::" <= s then Success((name, s))
        else
          var (more, s) :- Identifier(s[1..]);
          Success((Some("count:" + more.GetOr("")), s))
  }

  function CsvField(s: string): (r: Reading<string>)
    ensures r.Success? ==> |r.value.1| <= |s|
  {
    var (special, s) :- Accept(s, "::");
    if !special then TextValue(s)
    else
      var (name, s) :- SpecialName(s);
      if name.Some? && name.value in CSV_SPECIAL_FIELDS then Success(("::" + name.value, s)) else Failure(Invalid)
  }

  /** The header option and separator of out:csv, if they are given. */
  function CsvOptions(s: string): (r: Reading<(bool, string)>)
    ensures r.Success? ==> |r.value.1| <= |s|
  {
    var (more, s) :- Accept(s, ";");
    if !more then Success(((true, "\t"), s))
    else
      var (word, s) :- Identifier(s);
      if word != Some("true") && word != Some("false") then Failure(Invalid)
      else
        var (more, s) :- Accept(s, ";");
        if !more then Success(((word == Some("true"), "\t"), s))
        else
          var (separator, s) :- Quoted(s);
          if separator.None? then Failure(Invalid) else Success(((word == Some("true"), separator.value), s))
  }

  /** Reads columns, options and the brackets around them; there is at least one column. */
  function CsvFormat(s: string): (r: Reading<OutputFormat>)
    ensures r.Success? ==> |r.value.1| <= |s| && r.value.0.Csv? && |r.value.0.columns| > 0
  {
    var s :- Expect(s, "(");
    var (columns, s) :- Items(CsvField, s);
    var (options, s) :- CsvOptions(s);
    var s :- Expect(s, ")");
    Success((Csv(columns, options.0, options.1), s))
  }

  function OutSetting(s: string): (r: Reading<OutputFormat>)
    ensures r.Success? ==> |r.value.1| <= |s| && (r.value.0.Csv? ==> |r.value.0.columns| > 0)
  {
    var (word, s) :- Identifier(s);
    if word == Some("custom") || word == Some("popup") then Failure(Unsupported)
    else if word == Some("xml") then Success((Xml, s))
    else if word == Some("json") then Success((Json, s))
    else if word == Some("csv") then CsvFormat(s)
    else Failure(Invalid)
  }

  function WholeNumber(s: string): (r: Reading<nat>)
    ensures r.Success? ==> |r.value.1| <= |s|
  {
    var (digits, s) :- Run(s, IsDigit);
    if digits.None? then Failure(Invalid) else Success((IntOf(digits.value), s))
  }

  function BoxSetting(s: string): (r: Reading<Bbox>)
    ensures r.Success? ==> |r.value.1| <= |s| && BoxOk(r.value.0)
  {
    var (south, s) :- NumberHere(s);
    var s :- Expect(s, ",");
    var (west, s) :- NumberHere(s);
    var s :- Expect(s, ",");
    var (north, s) :- NumberHere(s);
    var s :- Expect(s, ",");
    var (east, s) :- NumberHere(s);
    var b :- CheckBox((south, west, north, east));
    Success((b, s))
  }

  /** A setting's value, after its colon. */
  function Setting(s: string, name: string, script: Script): (r: Reading<Script>)
    requires SettingsOk(script) && (name == "bbox" ==> !script.bboxFromUrl)
    ensures r.Success? ==> |r.value.1| <= |s| && SettingsOk(r.value.0) && r.value.0.statements == script.statements
    ensures r.Success? && name != "bbox" ==> r.value.0.bbox == script.bbox
    ensures r.Success? ==> r.value.0.bboxFromUrl == script.bboxFromUrl
  {
    if name == "out" then
      var (output, s) :- OutSetting(s);
      Success((script.(output := output), s))
    else if name == "timeout" then
      var (n, s) :- WholeNumber(s);
      Success((script.(timeout := Some(n)), s))
    else if name == "maxsize" then
      var (n, s) :- WholeNumber(s);
      Success((script.(maxsize := Some(n)), s))
    else if name == "bbox" then
      var (b, s) :- BoxSetting(s);
      Success((script.(bbox := Some(b)), s))
    else Failure(Invalid)
  }

  /** What the settings read so far say of the bbox. */
  predicate BoxSeen(script: Script, seen: set<string>) {
    "bbox" !in seen ==> script.bbox.None? && !script.bboxFromUrl
  }

  /** Settings one after another, each at most once. */
  function Settings(s: string, script: Script, seen: set<string>): (r: Reading<Script>)
    requires SettingsOk(script) && BoxSeen(script, seen)
    ensures r.Success? ==> |r.value.1| <= |s| && SettingsOk(r.value.0) && r.value.0.statements == script.statements
    decreases |s|
  {
    var (open, s) :- Accept(s, "[");
    if !open then Success((script, s))
    else
      var (found, s) :- Identifier(s);
      if found.None? then Failure(Invalid)
      else
        var name := found.value;
        if name in UNSUPPORTED_SETTINGS then Failure(Unsupported)
        else if name in seen then Failure(Invalid)
        else
          var (close, s) :- if name == "bbox" then Accept(s, "]") else Success((false, s));
          if close then Settings(s, script.(bboxFromUrl := true), seen + {name})
          else
            var s :- Expect(s, ":");
            var (with, s) :- Setting(s, name, script);
            var s :- Expect(s, "]");
            Settings(s, with, seen + {name})
  }

  // ----- Which settings a text gives -----

  /** What follows a setting after its name, whatever its value is. */
  function AfterSetting(s: string, name: string): (r: Result<string, ParseError>)
    ensures r.Success? ==> |r.value| <= |s|
  {
    var (close, s) :- if name == "bbox" then Accept(s, "]") else Success((false, s));
    if close then Success(s)
    else
      var s :- Expect(s, ":");
      var (_, s) :- Setting(s, name, NO_SETTINGS);
      Expect(s, "]")
  }

  /** The names of the settings that a text begins with, as often as they are
      there, up to one whose value cannot be read. */
  function Given(s: string): (names: seq<string>)
    decreases |s|
  {
    match Accept(s, "[")
    case Failure(_) => []
    case Success((open, s)) =>
      if !open then []
      else
        match Identifier(s)
        case Failure(_) => []
        case Success((found, s)) =>
          if found.None? then []
          else
            var after := AfterSetting(s, found.value);
            [found.value] + if after.Success? then Given(after.value) else []
  }

  predicate AllDifferent(names: seq<string>) {
    forall i, j :: 0 <= i < j < |names| ==> names[i] != names[j]
  }

  const SETTINGS := {"out", "timeout", "maxsize", "bbox"}

  /** How far a setting's value goes does not depend on the settings before it. */
  lemma SettingEnds(s: string, name: string, script: Script)
    requires SettingsOk(script) && (name == "bbox" ==> !script.bboxFromUrl)
    ensures
      var a, b := Setting(s, name, script), Setting(s, name, NO_SETTINGS);
      && (a.Success? <==> b.Success?) && (a.Success? ==> a.value.1 == b.value.1 && name in SETTINGS)
    ensures
      var a := Setting(s, name, script);
      a.Success? ==>
        && (a.value.0.timeout.Some? <==> script.timeout.Some? || name == "timeout")
        && (a.value.0.maxsize.Some? <==> script.maxsize.Some? || name == "maxsize")
        && (a.value.0.bbox.Some? <==> script.bbox.Some? || name == "bbox")
        && (a.value.0.output != script.output ==> name == "out")
  {
    hide OutSetting, WholeNumber, BoxSetting;
  }

  lemma DifferentThen(name: string, names: seq<string>)
    requires AllDifferent(names) && name !in names
    ensures AllDifferent([name] + names)
  {
  }

  /** Settings that are read are all known ones, and none is given twice, nor one
      of those seen before; so a text that gives a setting twice is refused. What
      is set is exactly what is given. */
  lemma {:induction false} SettingsGivenOnce(s: string, script: Script, seen: set<string>)
    requires SettingsOk(script) && BoxSeen(script, seen)
    ensures
      var r := Settings(s, script, seen);
      r.Success? ==>
        && AllDifferent(Given(s)) && (forall name :: name in Given(s) ==> name in SETTINGS && name !in seen)
        && (r.value.0.timeout.Some? <==> script.timeout.Some? || "timeout" in Given(s))
        && (r.value.0.maxsize.Some? <==> script.maxsize.Some? || "maxsize" in Given(s))
        && (r.value.0.bbox.Some? || r.value.0.bboxFromUrl <==> script.bbox.Some? || script.bboxFromUrl || "bbox" in Given(s))
        && (r.value.0.output != script.output ==> "out" in Given(s))
    decreases |s|
  {
    hide Accept, Expect, Identifier, Setting, AllDifferent;
    NoneDiffer();
    var open := Accept(s, "[");
    if Settings(s, script, seen).Success? && open.value.0 {
      var (found, t) := Identifier(open.value.1).value;
      var name := found.value;
      assert name !in seen;
      var close := if name == "bbox" then Accept(t, "]") else Success((false, t));
      if close.value.0 {
        SettingsGivenOnce(close.value.1, script.(bboxFromUrl := true), seen + {name});
        DifferentThen(name, Given(close.value.1));
      } else {
        var u := Expect(close.value.1, ":").value;
        SettingEnds(u, name, script);
        var (with, v) := Setting(u, name, script).value;
        var w := Expect(v, "]").value;
        SettingsGivenOnce(w, with, seen + {name});
        DifferentThen(name, Given(w));
      }
    }
  }

  lemma NoneDiffer()
    ensures AllDifferent([])
  {
  }

  // ----- What is refused before anything is read -----

  predicate Contains(text: string, part: string) {
    part <= text || (text != "" && Contains(text[1..], part))
  }

  function AfterSpaces(s: string): (r: string)
    ensures |r| <= |s|
  {
    if s != "" && IsSpace(s[0]) then AfterSpaces(s[1..]) else s
  }

  const XML_ELEMENTS := ["?xml", "osm-script", "query", "union", "difference", "print", "bbox-query", "id-query", "recurse",
                         "item", "foreach", "around", "area-query", "user", "newer", "has-kv"]

  /** A word ends where no more of its characters follow. */
  predicate WordEnds(lib: Library, s: string) {
    s == "" || !(IsWordChar(s[0]) || (s[0] >= '\U{0080}' && lib.otherWordChar(s[0])))
  }

  /** A text that begins as an Overpass XML query does. */
  predicate IsXml(lib: Library, text: string) {
    var s := AfterSpaces(text);
    "<" <= s &&
    (var t := AfterSpaces(s[1..]);
     exists i :: 0 <= i < |XML_ELEMENTS| && XML_ELEMENTS[i] <= t && WordEnds(lib, t[|XML_ELEMENTS[i]|..]))
  }

  // ----- Scripts -----

  function Statements(lib: Library, s: string, statements: seq<Statement>): (r: Result<seq<Statement>, ParseError>)
    requires StatementsOk(lib, statements, false)
    ensures r.Success? ==> StatementsOk(lib, r.value, false)
    decreases |s|
  {
    var s :- Skip(s);
    if s == "" then Success(statements)
    else
      var (st, s) :- ParseStatement(lib, s, false);
      Statements(lib, s, statements + [st])
  }

  const NO_SETTINGS := Script([], Xml, None, None, None, false)

  function Header(text: string): (r: Reading<Script>)
    ensures r.Success? ==> SettingsOk(r.value.0)
  {
    var (bracket, s) :- Peek(text, "[");
    if !bracket then Success((NO_SETTINGS, s))
    else
      var (script, s) :- Settings(s, NO_SETTINGS, {});
      var s :- Expect(s, ";");
      Success((script, s))
  }

  /** A query: whatever it is read as is a tree that some text stands for. */
  function Parse(lib: Library, text: string): (r: Result<Script, ParseError>)
    ensures r.Success? ==> ScriptOk(lib, r.value)
  {
    if Contains(text, "{{") then Failure(Invalid)
    else if IsXml(lib, text) then Failure(Unsupported)
    else
      var (script, s) :- Header(text);
      var statements :- Statements(lib, s, []);
      if |statements| == 0 then Failure(Invalid) else Success(script.(statements := statements))
  }
}
