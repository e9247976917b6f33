/** The strict parser of role reports as functions on the text that is left. */
module JsonParser {
  import opened Errors
  import opened Wrappers
  import opened CodeUnits
  import opened JsonText


  predicate IsSpace(u: Unit) {
    u == 0x09 || u == 0x0a || u == 0x0d || u == 0x20
  }

  function AfterSpace(s: Text): (rest: Text)
    ensures |rest| <= |s|
  {
    if s != [] && IsSpace(s[0]) then AfterSpace(s[1..]) else s
  }

  predicate Starts(s: Text, u: Unit) {
    s != [] && s[0] == u
  }

  // ---------------------------------------------------------------- strings

  /** Length of a string body up to its closing quote. */
  function BodyLength(s: Text, escaped: bool): (n: Option<nat>)
    ensures n.Some? ==> n.value < |s|
  {
    if s == [] then None
    else if !escaped && s[0] == QUOTE then Some(0)
    else if !escaped && s[0] < 0x20 then None
    else
      var rest := BodyLength(s[1..], !escaped && s[0] == BACKSLASH);
      if rest.None? then None else Some(rest.value + 1)
  }

  function HexValue(u: Unit): (n: int)
    ensures -1 <= n < 16
  {
    if 0x30 <= u <= 0x39 then u - 0x30
    else if 0x61 <= u <= 0x66 then u - 0x61 + 10
    else if 0x41 <= u <= 0x46 then u - 0x41 + 10
    else -1
  }

  /** The code unit four hexadecimal digits stand for. */
  function HexUnit(s: Text): Option<Unit>
    requires |s| == 4
  {
    var a, b, c, d := HexValue(s[0]), HexValue(s[1]), HexValue(s[2]), HexValue(s[3]);
    if a < 0 || b < 0 || c < 0 || d < 0 then None else Some(a * 0x1000 + b * 0x100 + c * 0x10 + d)
  }

  function ShortMeaning(letter: Unit): Option<Unit> {
    if letter == QUOTE || letter == BACKSLASH || letter == 0x2f then Some(letter)
    else if letter == 0x62 then Some(0x08)
    else if letter == 0x66 then Some(0x0c)
    else if letter == 0x6e then Some(0x0a)
    else if letter == 0x72 then Some(0x0d)
    else if letter == 0x74 then Some(0x09)
    else None
  }

  /** The first code unit of a string body and the length of its text. */
  function DecodeUnit(s: Text): (u: Option<(Unit, nat)>)
    requires s != []
    ensures u.Some? ==> 1 <= u.value.1 <= |s|
  {
    if s[0] == BACKSLASH then
      if |s| >= 6 && s[1] == 0x75 then
        var u := HexUnit(s[2..6]);
        if u.None? then None else Some((u.value, 6))
      else if |s| >= 2 && ShortMeaning(s[1]).Some? then Some((ShortMeaning(s[1]).value, 2))
      else None
    else if s[0] < 0x20 || s[0] == QUOTE then None
    else Some((s[0], 1))
  }

  /** What `JSON.parse` makes of the text between the quotes. */
  function Decode(s: Text): Option<Text> {
    if s == [] then Some([])
    else
      var first := DecodeUnit(s);
      if first.None? then None
      else
        var rest := Decode(s[first.value.1..]);
        if rest.None? then None else Some([first.value.0] + rest.value)
  }

  function ParseString(s: Text): (r: Result<(Text, Text)>)
    ensures r.Ok? ==> |r.value.1| < |s|
  {
    var quoted := Starts(s, QUOTE);
    if !quoted then Err(ReportJsonInvalid) else
    var n := BodyLength(s[1..], false);
    if n.None? then Err(ReportJsonInvalid) else
    var decoded := Decode(s[1..n.value + 1]);
    if decoded.None? then Err(ReportJsonInvalid) else
    Ok((decoded.value, s[n.value + 2..]))
  }

  // ---------------------------------------------------------------- numerals

  predicate IsDigit(u: Unit) {
    0x30 <= u <= 0x39
  }

  function DigitRun(s: Text): (n: nat)
    ensures n <= |s|
  {
    if s != [] && IsDigit(s[0]) then 1 + DigitRun(s[1..]) else 0
  }

  /** `0` or a digit run without leading zero; 0 when there is none. */
  function WholeLength(s: Text): (n: nat)
    ensures n <= |s|
  {
    if Starts(s, 0x30) then 1 else DigitRun(s)
  }

  function FractionLength(s: Text): (n: nat)
    ensures n <= |s|
  {
    if Starts(s, 0x2e) && DigitRun(s[1..]) > 0 then 1 + DigitRun(s[1..]) else 0
  }

  function ExponentLength(s: Text): (n: nat)
    ensures n <= |s|
  {
    if Starts(s, 0x65) || Starts(s, 0x45) then
      var sign := if Starts(s[1..], 0x2b) || Starts(s[1..], 0x2d) then 1 else 0;
      var digits := DigitRun(s[1 + sign..]);
      if digits > 0 then 1 + sign + digits else 0
    else 0
  }

  /** Length of the longest numeral the text starts with, 0 for none. */
  function NumeralLength(s: Text): (n: nat)
    ensures n <= |s|
  {
    var sign := if Starts(s, 0x2d) then 1 else 0;
    var whole := WholeLength(s[sign..]);
    if whole == 0 then 0
    else
      var fraction := FractionLength(s[sign + whole..]);
      sign + whole + fraction + ExponentLength(s[sign + whole + fraction..])
  }

  predicate IsNumeral(n: Text) {
    n != [] && NumeralLength(n) == |n|
  }

  function ParseNumber(s: Text): (r: Result<(Json, Text)>)
    ensures r.Ok? ==> |r.value.1| < |s|
  {
    var n := NumeralLength(s);
    if n == 0 then Err(ReportJsonInvalid) else
    Ok((JNumber(s[..n]), s[n..]))
  }

  // ---------------------------------------------------------------- values

  function ParseValue(s: Text, depth: int): (r: Result<(Json, Text)>)
    ensures r.Ok? ==> |r.value.1| < |s|
    decreases |s|, 2
  {
    var shallow := depth <= MAX_JSON_DEPTH;
    if !shallow then Err(ReportJsonDepthExceeded) else
    var t := AfterSpace(s);
    if Starts(t, QUOTE) then
      var (text, rest) :- ParseString(t);
      Ok((JString(text), rest))
    else if Starts(t, OPEN_BRACE) then ParseObject(t[1..], depth + 1)
    else if Starts(t, OPEN_BRACKET) then ParseArray(t[1..], depth + 1)
    else if TRUE <= t then Ok((JBool(true), t[4..]))
    else if FALSE <= t then Ok((JBool(false), t[5..]))
    else if NULL <= t then Ok((JNull, t[4..]))
    else ParseNumber(t)
  }

  function ParseObject(s: Text, depth: int): (r: Result<(Json, Text)>)
    ensures r.Ok? ==> |r.value.1| < |s|
    decreases |s|, 1
  {
    var t := AfterSpace(s);
    if Starts(t, CLOSE_BRACE) then Ok((JObject(map[]), t[1..])) else ParseMembers(t, depth, map[])
  }

  /** The members from here to the closing brace, added to those already read. */
  function ParseMembers(s: Text, depth: int, fields: map<Text, Json>): (r: Result<(Json, Text)>)
    ensures r.Ok? ==> |r.value.1| < |s|
    decreases |s|, 0
  {
    var (key, afterKey) :- ParseString(AfterSpace(s));
    if key in fields then Err(ReportJsonDuplicateKey) else
    var colon := AfterSpace(afterKey);
    if !Starts(colon, COLON) then Err(ReportJsonInvalid) else
    var (value, afterValue) :- ParseValue(colon[1..], depth);
    var next := AfterSpace(afterValue);
    if Starts(next, CLOSE_BRACE) then Ok((JObject(fields[key := value]), next[1..]))
    else
      if !Starts(next, COMMA) then Err(ReportJsonInvalid) else
      ParseMembers(next[1..], depth, fields[key := value])
  }

  function ParseArray(s: Text, depth: int): (r: Result<(Json, Text)>)
    ensures r.Ok? ==> |r.value.1| < |s|
    decreases |s|, 4
  {
    var t := AfterSpace(s);
    if Starts(t, CLOSE_BRACKET) then Ok((JArray([]), t[1..])) else ParseItems(t, depth, [])
  }

  function ParseItems(s: Text, depth: int, items: seq<Json>): (r: Result<(Json, Text)>)
    ensures r.Ok? ==> |r.value.1| < |s|
    decreases |s|, 3
  {
    var some := s != [];
    if !some then Err(ReportJsonInvalid) else
    var (value, afterValue) :- ParseValue(s, depth);
    var next := AfterSpace(afterValue);
    if Starts(next, CLOSE_BRACKET) then Ok((JArray(items + [value]), next[1..]))
    else
      if !Starts(next, COMMA) then Err(ReportJsonInvalid) else
      ParseItems(next[1..], depth, items + [value])
  }

  /** `strictJsonParse`: one value, white space around it, nothing else. */
  function ParseText(text: Text): Result<Json> {
    var (value, rest) :- ParseValue(text, 0);
    if AfterSpace(rest) != [] then Err(ReportJsonInvalid) else
    Ok(value)
  }
}
