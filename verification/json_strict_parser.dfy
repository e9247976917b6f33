/** The strict parser as written: one shared offset that nested readers move forward. */
module JsonStrictParser {
  import opened Errors
  import opened Wrappers
  import opened CodeUnits
  import opened JsonText
  import opened JsonParser

  class StrictParser {
    const text: Text
    var offset: nat

    constructor (text: Text)
      ensures this.text == text && offset == 0
    {
      this.text, offset := text, 0;
    }

    predicate Valid()
      reads this
    {
      offset <= |text|
    }

    function Left(): (left: Text)
      reads this
      requires Valid()
      ensures |left| == |text| - offset
    {
      text[offset..]
    }

    method Whitespace()
      requires Valid()
      modifies this`offset
      ensures Valid() && offset >= old(offset) && Left() == AfterSpace(old(Left()))
    {
      while offset < |text| && IsSpace(text[offset])
        invariant Valid() && offset >= old(offset) && AfterSpace(Left()) == AfterSpace(old(Left()))
      {
        assert Left()[1..] == text[offset + 1..];
        offset := offset + 1;
      }
    }

    predicate At(u: Unit)
      reads this
      requires Valid()
      ensures At(u) <==> Starts(Left(), u)
    {
      offset < |text| && text[offset] == u
    }

    method Advance()
      requires Valid() && offset < |text|
      modifies this`offset
      ensures offset == old(offset) + 1 && Valid() && Left() == old(Left())[1..]
    {
      offset := offset + 1;
    }

    /** A string literal: scan to its closing quote, then decode what is between. */
    method String() returns (r: Result<Text>)
      requires Valid()
      modifies this`offset
      ensures Valid() && offset >= old(offset)
      ensures match ParseString(old(Left()))
              case Ok(parsed) => r == Ok(parsed.0) && Left() == parsed.1 && offset > old(offset)
              case Err(code) => r == Err(code)
    {
      if !At(QUOTE) {
        return Err(ReportJsonInvalid);
      }
      var start := offset;
      ghost var body := text[start + 1..];
      offset := offset + 1;
      var escaped := false;
      assert old(Left())[1..] == body;
      while offset < |text|
        invariant start < offset <= |text|
        invariant BodyLength(body, false) ==
                  match BodyLength(text[offset..], escaped)
                  case None => None
                  case Some(n) => Some(n + offset - start - 1)
      {
        var character := text[offset];
        assert text[offset..][1..] == text[offset + 1..];
        if !escaped && character == QUOTE {
          var decoded := Decode(text[start + 1..offset]);
          assert body[..offset - start - 1] == text[start + 1..offset];
          assert old(Left())[1..offset - start] == text[start + 1..offset];
          offset := offset + 1;
          assert old(Left())[offset - start..] == Left();
          if decoded.None? {
            return Err(ReportJsonInvalid);
          }
          return Ok(decoded.value);
        }
        if !escaped && character < 0x20 {
          return Err(ReportJsonInvalid);
        }
        escaped := !escaped && character == BACKSLASH;
        offset := offset + 1;
      }
      return Err(ReportJsonInvalid);
    }

    method Number() returns (r: Result<Json>)
      requires Valid()
      modifies this`offset
      ensures Valid() && offset >= old(offset)
      ensures match ParseNumber(old(Left()))
              case Ok(parsed) => r == Ok(parsed.0) && Left() == parsed.1 && offset > old(offset)
              case Err(code) => r == Err(code)
    {
      var n := NumeralLength(text[offset..]);
      if n == 0 {
        return Err(ReportJsonInvalid);
      }
      r := Ok(JNumber(text[offset..][..n]));
      offset := offset + n;
      assert old(Left())[n..] == Left();
    }

    /** One value; the result and the text left over are those of the specification. */
    method Value(depth: int) returns (r: Result<Json>)
      requires Valid()
      modifies this`offset
      ensures Valid() && offset >= old(offset)
      ensures match ParseValue(old(Left()), depth)
              case Ok(parsed) => r == Ok(parsed.0) && Left() == parsed.1 && offset > old(offset)
              case Err(code) => r == Err(code)
      decreases |text| - offset, 1
    {
      hide ParseString, ParseMembers, ParseItems, NumeralLength;
      if depth > MAX_JSON_DEPTH {
        return Err(ReportJsonDepthExceeded);
      }
      Whitespace();
      ghost var t := Left();
      if At(QUOTE) {
        var text :- String();
        return Ok(JString(text));
      }
      if At(OPEN_BRACE) {
        r := Object(depth + 1);
        return;
      }
      if At(OPEN_BRACKET) {
        r := Array(depth + 1);
        return;
      }
      if TRUE <= text[offset..] {
        offset := offset + 4;
        assert Left() == t[4..];
        return Ok(JBool(true));
      }
      if FALSE <= text[offset..] {
        offset := offset + 5;
        assert Left() == t[5..];
        return Ok(JBool(false));
      }
      if NULL <= text[offset..] {
        offset := offset + 4;
        assert Left() == t[4..];
        return Ok(JNull);
      }
      r := Number();
    }

    method Object(depth: int) returns (r: Result<Json>)
      requires Valid() && At(OPEN_BRACE)
      modifies this`offset
      ensures Valid() && offset >= old(offset)
      ensures match ParseObject(old(Left())[1..], depth)
              case Ok(parsed) => r == Ok(parsed.0) && Left() == parsed.1 && offset > old(offset)
              case Err(code) => r == Err(code)
      decreases |text| - offset, 0
    {
      hide ParseString, ParseValue, AfterSpace, StrictParser.Left;
      var result: map<Text, Json> := map[];
      ghost var inside := Left()[1..];
      Advance();
      Whitespace();
      if At(CLOSE_BRACE) {
        Advance();
        return Ok(JObject(result));
      }
      while offset < |text|
        invariant Valid() && offset > old(offset)
        invariant ParseObject(inside, depth) == ParseMembers(Left(), depth, result)
        decreases |text| - offset
      {
        Whitespace();
        var key :- String();
        if key in result {
          return Err(ReportJsonDuplicateKey);
        }
        Whitespace();
        if !At(COLON) {
          return Err(ReportJsonInvalid);
        }
        Advance();
        var value :- Value(depth);
        result := result[key := value];
        Whitespace();
        if At(CLOSE_BRACE) {
          Advance();
          return Ok(JObject(result));
        }
        if !At(COMMA) {
          return Err(ReportJsonInvalid);
        }
        Advance();
      }
      assert Left() == [];
      EndOfText(depth, result);
      return Err(ReportJsonInvalid);
    }

    method Array(depth: int) returns (r: Result<Json>)
      requires Valid() && At(OPEN_BRACKET)
      modifies this`offset
      ensures Valid() && offset >= old(offset)
      ensures match ParseArray(old(Left())[1..], depth)
              case Ok(parsed) => r == Ok(parsed.0) && Left() == parsed.1 && offset > old(offset)
              case Err(code) => r == Err(code)
      decreases |text| - offset, 0
    {
      hide ParseString, ParseValue, AfterSpace, StrictParser.Left;
      var result: seq<Json> := [];
      ghost var inside := Left()[1..];
      Advance();
      Whitespace();
      if At(CLOSE_BRACKET) {
        Advance();
        return Ok(JArray(result));
      }
      while offset < |text|
        invariant Valid() && offset > old(offset)
        invariant ParseArray(inside, depth) == ParseItems(Left(), depth, result)
        decreases |text| - offset
      {
        var value :- Value(depth);
        result := result + [value];
        Whitespace();
        if At(CLOSE_BRACKET) {
          Advance();
          return Ok(JArray(result));
        }
        if !At(COMMA) {
          return Err(ReportJsonInvalid);
        }
        Advance();
      }
      assert Left() == [];
      return Err(ReportJsonInvalid);
    }
  }

  lemma EndOfText(depth: int, fields: map<Text, Json>)
    ensures ParseMembers([], depth, fields) == Err(ReportJsonInvalid)
  {
  }

  /** `strictJsonParse` computes its specification. */
  method StrictJsonParse(text: Text) returns (r: Result<Json>)
    ensures r == ParseText(text)
  {
    var parser := new StrictParser(text);
    assert parser.Left() == text;
    var value :- parser.Value(0);
    parser.Whitespace();
    if parser.offset != |text| {
      return Err(ReportJsonInvalid);
    }
    return Ok(value);
  }
}
