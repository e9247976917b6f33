/** Parsing canonical text gives the printed value back, exactly when it is not nested too deeply. */
module JsonRoundTrip {
  import opened Errors
  import opened Wrappers
  import opened CodeUnits
  import opened JsonText
  import opened JsonParser

  // ---------------------------------------------------------------- strings

  lemma HexSum(u: Unit)
    ensures u == u / 0x1000 * 0x1000 + u / 0x100 % 0x10 * 0x100 + u / 0x10 % 0x10 * 0x10 + u % 0x10
    ensures 0 <= u / 0x1000 < 0x10
  {
    var q1 := u / 0x10;
    var q2 := q1 / 0x10;
    var q3 := q2 / 0x10;
    assert q2 == u / 0x100 && q3 == u / 0x1000;
    assert q1 == q2 * 0x10 + q1 % 0x10 && q2 == q3 * 0x10 + q2 % 0x10;
  }

  lemma HexRoundTrip(u: Unit)
    ensures UnicodeEscape(u)[2..6] == [HexDigit(u / 0x1000), HexDigit(u / 0x100 % 0x10), HexDigit(u / 0x10 % 0x10), HexDigit(u % 0x10)]
    ensures HexUnit(UnicodeEscape(u)[2..6]) == Some(u)
  {
    hide HexDigit, HexValue;
    HexSum(u);
    HexDigitValue(u / 0x1000);
    HexDigitValue(u / 0x100 % 0x10);
    HexDigitValue(u / 0x10 % 0x10);
    HexDigitValue(u % 0x10);
  }

  lemma HexDigitValue(n: int)
    requires 0 <= n < 16
    ensures HexValue(HexDigit(n)) == n && HexDigit(n) > 0x20 && HexDigit(n) != QUOTE && HexDigit(n) != BACKSLASH
  {
  }

  /** The text of one code unit, and of a surrogate pair's halves, decodes to that code unit. */
  lemma DecodeEscaped(u: Unit, more: Text)
    ensures DecodeUnit(EscapeUnit(u) + more) == Some((u, |EscapeUnit(u)|))
  {
    var s := EscapeUnit(u) + more;
    if ShortEscape(u).None? && (u < 0x20 || High(u) || Low(u)) {
      assert s[2..6] == UnicodeEscape(u)[2..6];
      HexRoundTrip(u);
    }
  }

  lemma DecodeStep(prefix: Text, u: Unit, more: Text)
    requires prefix != [] && DecodeUnit(prefix + more) == Some((u, |prefix|)) && Decode(more).Some?
    ensures Decode(prefix + more) == Some([u] + Decode(more).value)
  {
    assert (prefix + more)[|prefix|..] == more;
  }

  lemma PairText(a: Unit, b: Unit, more: Text, rest: Text)
    ensures [a, b] + more + rest == [a] + ([b] + (more + rest))
    ensures [a, b] + more == [a] + ([b] + more)
  {
  }

  lemma UnitText(head: Text, more: Text, rest: Text)
    ensures head + more + rest == head + (more + rest)
  {
  }

  predicate PairFirst(t: Text) {
    |t| > 1 && High(t[0]) && Low(t[1])
  }

  /** What the first one or two code units of a string contribute to its text. */
  lemma EscapeSplit(t: Text)
    requires t != []
    ensures PairFirst(t) ==> Escape(t) == [t[0]] + ([t[1]] + Escape(t[2..])) && t == [t[0]] + ([t[1]] + t[2..])
    ensures !PairFirst(t) ==> Escape(t) == EscapeUnit(t[0]) + Escape(t[1..]) && t == [t[0]] + t[1..]
  {
    hide EscapeUnit;
    if PairFirst(t) {
      PairText(t[0], t[1], Escape(t[2..]), []);
      PairText(t[0], t[1], t[2..], []);
    }
  }

  lemma {:induction false} DecodeRoundTrip(t: Text)
    ensures Decode(Escape(t)) == Some(t)
  {
    hide EscapeUnit, Escape, Decode;
    if t == [] {
      NothingToDecode();
    } else {
      EscapeSplit(t);
      if PairFirst(t) {
        DecodeRoundTrip(t[2..]);
        var more := Escape(t[2..]);
        DecodeStep([t[1]], t[1], more);
        DecodeStep([t[0]], t[0], [t[1]] + more);
      } else {
        DecodeRoundTrip(t[1..]);
        DecodeEscaped(t[0], Escape(t[1..]));
        EscapedSome(t[0]);
        DecodeStep(EscapeUnit(t[0]), t[0], Escape(t[1..]));
      }
    }
  }

  lemma NothingToDecode()
    ensures Decode(Escape([])) == Some([])
  {
  }

  lemma EscapedSome(u: Unit)
    ensures EscapeUnit(u) != []
  {
  }

  predicate Plain(u: Unit) {
    u >= 0x20 && u != QUOTE && u != BACKSLASH
  }

  lemma BodyHex(a: Unit, b: Unit, c: Unit, d: Unit, more: Text)
    requires Plain(a) && Plain(b) && Plain(c) && Plain(d)
    ensures BodyLength([BACKSLASH, 0x75, a, b, c, d] + more, false) ==
            if BodyLength(more, false).None? then None else Some(6 + BodyLength(more, false).value)
  {
    hide *;
    BodyPlain([d], more);
    BodyPlain([c], [d] + more);
    BodyPlain([b], [c] + ([d] + more));
    BodyPlain([a], [b] + ([c] + ([d] + more)));
    BodyPlain([BACKSLASH, 0x75], [a] + ([b] + ([c] + ([d] + more))));
    assert [BACKSLASH, 0x75, a, b, c, d] + more == [BACKSLASH, 0x75] + ([a] + ([b] + ([c] + ([d] + more))));
  }

  /** The scan for the closing quote passes over the text of one code unit. */
  lemma BodyStep(u: Unit, more: Text)
    ensures BodyLength(EscapeUnit(u) + more, false) ==
            if BodyLength(more, false).None? then None else Some(|EscapeUnit(u)| + BodyLength(more, false).value)
  {
    hide HexDigit, BodyLength;
    if ShortEscape(u).Some? {
      BodyPlain([BACKSLASH, ShortEscape(u).value], more);
    } else if u < 0x20 || High(u) || Low(u) {
      HexDigitValue(u / 0x1000);
      HexDigitValue(u / 0x100 % 0x10);
      HexDigitValue(u / 0x10 % 0x10);
      HexDigitValue(u % 0x10);
      BodyHex(HexDigit(u / 0x1000), HexDigit(u / 0x100 % 0x10), HexDigit(u / 0x10 % 0x10), HexDigit(u % 0x10), more);
    } else {
      BodyPlain([u], more);
    }
  }

  /** One plain code unit, or a backslash with the code unit after it. */
  lemma BodyPlain(s: Text, more: Text)
    requires (|s| == 1 && Plain(s[0])) || (|s| == 2 && s[0] == BACKSLASH)
    ensures BodyLength(s + more, false) == if BodyLength(more, false).None? then None else Some(|s| + BodyLength(more, false).value)
  {
    assert (s + more)[1..] == s[1..] + more;
    if |s| == 2 {
      assert (s[1..] + more)[1..] == more;
    } else {
      assert s[1..] + more == more;
    }
  }

  lemma {:induction false} BodyRoundTrip(t: Text, rest: Text)
    ensures BodyLength(Escape(t) + ([QUOTE] + rest), false) == Some(|Escape(t)|)
  {
    hide EscapeUnit, Escape, BodyLength;
    var end := [QUOTE] + rest;
    if t == [] {
      EmptyBody(rest);
    } else {
      EscapeSplit(t);
      if PairFirst(t) {
        BodyRoundTrip(t[2..], rest);
        var more := Escape(t[2..]) + end;
        BodyPlain([t[1]], more);
        BodyPlain([t[0]], [t[1]] + more);
        PairText(t[0], t[1], Escape(t[2..]), end);
      } else {
        BodyRoundTrip(t[1..], rest);
        BodyStep(t[0], Escape(t[1..]) + end);
        UnitText(EscapeUnit(t[0]), Escape(t[1..]), end);
      }
    }
  }

  lemma EmptyBody(rest: Text)
    ensures BodyLength(Escape([]) + ([QUOTE] + rest), false) == Some(|Escape([])|)
  {
    assert Escape([]) + ([QUOTE] + rest) == [QUOTE] + rest;
  }

  /** Reading a printed string gives the string back and leaves the rest. */
  lemma StringRoundTrip(t: Text, rest: Text)
    ensures ParseString(Quoted(t) + rest) == Ok((t, rest))
  {
    hide Decode;
    var s := Quoted(t) + rest;
    assert s[1..] == Escape(t) + ([QUOTE] + rest);
    BodyRoundTrip(t, rest);
    DecodeRoundTrip(t);
    assert s[1..|Escape(t)| + 1] == Escape(t);
    assert s[|Escape(t)| + 2..] == rest;
  }

  // ---------------------------------------------------------------- numerals

  /** Nothing here could continue a numeral. */
  predicate Stops(rest: Text) {
    rest == [] || rest[0] == COMMA || rest[0] == CLOSE_BRACKET || rest[0] == CLOSE_BRACE || IsSpace(rest[0])
  }

  lemma StopsDigits(rest: Text)
    requires Stops(rest)
    ensures rest != [] ==> !IsDigit(rest[0])
  {
    assert rest != [] ==> rest[0] == COMMA || rest[0] == CLOSE_BRACKET || rest[0] == CLOSE_BRACE || rest[0] <= 0x20;
    assert !IsDigit(COMMA) && !IsDigit(CLOSE_BRACKET) && !IsDigit(CLOSE_BRACE);
  }

  lemma {:induction false} DigitRunStops(s: Text, rest: Text)
    requires Stops(rest)
    ensures DigitRun(s + rest) == DigitRun(s)
  {
    if s == [] {
      assert s + rest == rest;
      StopsDigits(rest);
    } else {
      assert (s + rest)[1..] == s[1..] + rest;
      DigitRunStops(s[1..], rest);
    }
  }

  lemma Suffix(s: Text, rest: Text, k: nat)
    requires k <= |s|
    ensures (s + rest)[k..] == s[k..] + rest
  {
  }

  lemma FractionStops(s: Text, rest: Text)
    requires Stops(rest)
    ensures FractionLength(s + rest) == FractionLength(s)
  {
    if s != [] {
      Suffix(s, rest, 1);
      DigitRunStops(s[1..], rest);
    } else {
      assert s + rest == rest;
    }
  }

  lemma ExponentStops(s: Text, rest: Text)
    requires Stops(rest)
    ensures ExponentLength(s + rest) == ExponentLength(s)
  {
    if s == [] {
      assert s + rest == rest;
    } else {
      Suffix(s, rest, 1);
      if |s| == 1 {
        assert (s + rest)[1..] == rest;
        DigitRunStops([], rest);
        assert [] + rest == rest;
      } else {
        assert (s + rest)[1..][0] == s[1..][0];
        Suffix(s, rest, 2);
        DigitRunStops(s[1..], rest);
        DigitRunStops(s[2..], rest);
      }
    }
  }

  lemma WholeStops(s: Text, rest: Text)
    requires Stops(rest)
    ensures WholeLength(s + rest) == WholeLength(s)
  {
    DigitRunStops(s, rest);
    if s == [] {
      assert s + rest == rest;
    }
  }

  lemma NumeralStops(s: Text, rest: Text)
    requires Stops(rest)
    ensures NumeralLength(s + rest) == NumeralLength(s)
  {
    hide WholeLength, FractionLength, ExponentLength;
    if s == [] {
      assert s + rest == rest;
    }
    var sign := if Starts(s, 0x2d) then 1 else 0;
    Suffix(s, rest, sign);
    WholeStops(s[sign..], rest);
    var whole := WholeLength(s[sign..]);
    Suffix(s, rest, sign + whole);
    FractionStops(s[sign + whole..], rest);
    var fraction := FractionLength(s[sign + whole..]);
    Suffix(s, rest, sign + whole + fraction);
    ExponentStops(s[sign + whole + fraction..], rest);
  }

  /** A numeral starts with a digit or a minus sign. */
  lemma NumeralStart(s: Text)
    requires NumeralLength(s) > 0
    ensures s != [] && (IsDigit(s[0]) || s[0] == 0x2d)
  {
  }

  // ---------------------------------------------------------------- values

  /** Every number is a numeral; the printer makes nothing else of a finite number. */
  ghost predicate WellFormed(v: Json) {
    match v
    case JNumber(n) => IsNumeral(n)
    case JArray(items) => forall i :: 0 <= i < |items| ==> WellFormed(items[i])
    case JObject(fields) => forall k :: k in fields ==> WellFormed(fields[k])
    case _ => true
  }

  /** What a printed value starts with. */
  lemma PrintStart(v: Json)
    requires WellFormed(v)
    ensures Print(v) != []
    ensures var u := Print(v)[0]; !IsSpace(u) && u != CLOSE_BRACKET && u != CLOSE_BRACE
  {
    if v.JNumber? {
      NumeralStart(v.numeral);
    }
  }

  lemma ScalarRoundTrip(v: Json, rest: Text, depth: int)
    requires WellFormed(v) && Stops(rest) && !v.JArray? && !v.JObject? && depth <= MAX_JSON_DEPTH
    ensures ParseValue(Print(v) + rest, depth) == Ok((v, rest))
  {
    hide ParseString, NumeralLength;
    var s := Print(v) + rest;
    match v {
      case JString(t) => StringRoundTrip(t, rest);
      case JNumber(n) =>
        NumeralStops(n, rest);
        NumeralStart(n);
        assert s[..|n|] == n && s[|n|..] == rest;
      case JNull => assert s[4..] == rest;
      case JBool(b) => assert s[|Print(v)|..] == rest;
    }
  }

  lemma {:induction false} ValueRoundTrip(v: Json, rest: Text, depth: int)
    requires WellFormed(v) && Stops(rest)
    ensures ParseValue(Print(v) + rest, depth) == if depth + Height(v) <= MAX_JSON_DEPTH then Ok((v, rest)) else Err(ReportJsonDepthExceeded)
    decreases v, 1, 1
  {
    hide ParseItems, ParseMembers, PrintItems, PrintMembers, ItemsHeight, MembersHeight, NumeralLength, ParseString, Stops;
    var s := Print(v) + rest;
    if depth > MAX_JSON_DEPTH {
    } else if v.JArray? {
      ArrayRoundTrip(v, rest, depth);
    } else if v.JObject? {
      ObjectRoundTrip(v, rest, depth);
    } else {
      ScalarRoundTrip(v, rest, depth);
    }
  }

  lemma {:induction false} ArrayRoundTrip(v: Json, rest: Text, depth: int)
    requires v.JArray? && WellFormed(v) && Stops(rest) && depth <= MAX_JSON_DEPTH
    ensures ParseValue(Print(v) + rest, depth) == if depth + Height(v) <= MAX_JSON_DEPTH then Ok((v, rest)) else Err(ReportJsonDepthExceeded)
    decreases v, 1, 0
  {
    hide ParseItems, NumeralLength, ParseString, Stops, ParseObject;
    var s := Print(v) + rest;
    assert s[1..] == PrintItems(v, 0) + [CLOSE_BRACKET] + rest;
    if v.items == [] {
      assert s[1..] == [CLOSE_BRACKET] + rest;
      assert s[1..][1..] == rest;
    } else {
      PrintStart(v.items[0]);
      assert s[1..][0] == Print(v.items[0])[0];
      ItemsRoundTrip(v, 0, rest, depth + 1);
    }
  }

  lemma {:induction false} ItemsRoundTrip(v: Json, i: nat, rest: Text, depth: int)
    requires v.JArray? && WellFormed(v) && i < |v.items|
    ensures ParseItems(PrintItems(v, i) + [CLOSE_BRACKET] + rest, depth, v.items[..i]) ==
            if depth - 1 + ItemsHeight(v, i) <= MAX_JSON_DEPTH then Ok((v, rest)) else Err(ReportJsonDepthExceeded)
    decreases v, 0, |v.items| - i
  {
    hide ParseValue, Print, Height;
    var item, tail := v.items[i], PrintItems(v, i + 1) + [CLOSE_BRACKET] + rest;
    var more := (if i + 1 < |v.items| then [COMMA] else []) + tail;
    assert PrintItems(v, i) + [CLOSE_BRACKET] + rest == Print(item) + more;
    ValueRoundTrip(item, more, depth);
    PrintStart(item);
    assert v.items[..i] + [item] == v.items[..i + 1];
    if i + 1 < |v.items| {
      assert more[1..] == tail;
      ItemsRoundTrip(v, i + 1, rest, depth);
    } else {
      assert more == [CLOSE_BRACKET] + rest && more[1..] == rest;
      assert v.items[..i + 1] == v.items;
    }
  }

  lemma {:induction false} ObjectRoundTrip(v: Json, rest: Text, depth: int)
    requires v.JObject? && WellFormed(v) && Stops(rest) && depth <= MAX_JSON_DEPTH
    ensures ParseValue(Print(v) + rest, depth) == if depth + Height(v) <= MAX_JSON_DEPTH then Ok((v, rest)) else Err(ReportJsonDepthExceeded)
    decreases v, 1, 0
  {
    hide ParseMembers, NumeralLength, ParseString, Stops, ParseArray, SortedKeys, PrintMembers, MembersHeight;
    var s, keys := Print(v) + rest, SortedKeys(v.fields.Keys);
    assert s[1..] == PrintMembers(v, keys) + [CLOSE_BRACE] + rest;
    MembersStart(v, keys);
    if keys == [] {
      assert s[1..] == [CLOSE_BRACE] + rest;
      assert s[1..][1..] == rest;
      NoFields(v.fields, keys);
    } else {
      assert s[1..][0] == QUOTE;
      MembersRoundTrip(v, keys, map[], rest, depth + 1);
    }
  }

  lemma MembersStart(v: Json, keys: seq<Text>)
    requires v.JObject? && forall k :: k in keys ==> k in v.fields
    ensures if keys == [] then PrintMembers(v, keys) == [] && MembersHeight(v, keys) == 0 else Starts(PrintMembers(v, keys), QUOTE)
  {
    hide Escape, Print;
  }

  lemma NoFields(fields: map<Text, Json>, keys: seq<Text>)
    requires keys == [] && forall k :: k in keys <==> k in fields.Keys
    ensures fields == map[]
  {
    assert fields.Keys == {};
  }

  /** `read` holds the members before `keys`. */
  lemma {:induction false} MembersRoundTrip(v: Json, keys: seq<Text>, read: map<Text, Json>, rest: Text, depth: int)
    requires v.JObject? && WellFormed(v) && keys != [] && Sorted(keys)
    requires forall k :: k in v.fields <==> k in read || k in keys
    requires forall k :: k in read ==> k !in keys && read[k] == v.fields[k]
    ensures ParseMembers(PrintMembers(v, keys) + [CLOSE_BRACE] + rest, depth, read) ==
            if depth - 1 + MembersHeight(v, keys) <= MAX_JSON_DEPTH then Ok((v, rest)) else Err(ReportJsonDepthExceeded)
    decreases v, 0, |keys|
  {
    hide ParseValue, Print, Height, ParseString, Quoted, ParseMembers, Sorted, PrintMembers, Stops;
    var key, tail := keys[0], PrintMembers(v, keys[1..]) + [CLOSE_BRACE] + rest;
    var more := (if |keys| > 1 then [COMMA] else []) + tail;
    var value := v.fields[key];
    MembersText(v, keys, rest);
    MemberStep(key, Print(value) + more, depth, read);
    MoreStops(v, keys, rest);
    ValueRoundTrip(value, more, depth);
    FirstKey(keys);
    MembersStart(v, keys[1..]);
    if |keys| > 1 {
      assert more[1..] == tail;
      MembersRoundTrip(v, keys[1..], read[key := value], rest, depth);
    } else {
      assert more == [CLOSE_BRACE] + rest && more[1..] == rest;
      assert read[key := value] == v.fields;
    }
  }

  /** Reading one printed member: its key, then whatever the value parser makes of what follows. */
  lemma MemberStep(key: Text, body: Text, depth: int, read: map<Text, Json>)
    requires key !in read
    ensures ParseMembers(Quoted(key) + ([COLON] + body), depth, read) ==
            match ParseValue(body, depth)
            case Err(code) => Err(code)
            case Ok(parsed) =>
              var next := AfterSpace(parsed.1);
              if Starts(next, CLOSE_BRACE) then Ok((JObject(read[key := parsed.0]), next[1..]))
              else if Starts(next, COMMA) then ParseMembers(next[1..], depth, read[key := parsed.0])
              else Err(ReportJsonInvalid)
  {
    hide ParseValue, ParseString, Quoted;
    StringRoundTrip(key, [COLON] + body);
    QuotedStart(key, [COLON] + body);
    assert ([COLON] + body)[1..] == body;
  }

  lemma MemberText(key: Text, value: Text, separator: Text, others: Text, rest: Text)
    ensures key + [COLON] + value + separator + others + rest == key + ([COLON] + (value + (separator + (others + rest))))
  {
    UnitText(key, [COLON], value);
    UnitText(key + ([COLON] + value), separator, others);
    UnitText(key, [COLON] + value, separator + others);
    UnitText(key, [COLON] + value + (separator + others), rest);
    UnitText([COLON] + value, separator + others, rest);
    UnitText([COLON], value, separator + others + rest);
    UnitText(separator, others, rest);
  }

  lemma MembersText(v: Json, keys: seq<Text>, rest: Text)
    requires v.JObject? && keys != [] && forall k :: k in keys ==> k in v.fields
    ensures PrintMembers(v, keys) + [CLOSE_BRACE] + rest ==
            Quoted(keys[0]) + ([COLON] + (Print(v.fields[keys[0]])
            + ((if |keys| > 1 then [COMMA] else []) + (PrintMembers(v, keys[1..]) + [CLOSE_BRACE] + rest))))
  {
    hide Quoted, Print, PrintMembers;
    MembersOf(v, keys);
    MemberText(Quoted(keys[0]), Print(v.fields[keys[0]]), if |keys| > 1 then [COMMA] else [], PrintMembers(v, keys[1..]), [CLOSE_BRACE] + rest);
    assert PrintMembers(v, keys) + [CLOSE_BRACE] + rest == PrintMembers(v, keys) + ([CLOSE_BRACE] + rest);
    assert PrintMembers(v, keys[1..]) + [CLOSE_BRACE] + rest == PrintMembers(v, keys[1..]) + ([CLOSE_BRACE] + rest);
  }

  lemma MembersOf(v: Json, keys: seq<Text>)
    requires v.JObject? && keys != [] && forall k :: k in keys ==> k in v.fields
    ensures PrintMembers(v, keys) == Quoted(keys[0]) + [COLON] + Print(v.fields[keys[0]]) + (if |keys| > 1 then [COMMA] else []) + PrintMembers(v, keys[1..])
  {
    hide Quoted, Print;
  }

  lemma MoreStops(v: Json, keys: seq<Text>, rest: Text)
    requires v.JObject? && keys != [] && forall k :: k in keys ==> k in v.fields
    ensures Stops((if |keys| > 1 then [COMMA] else []) + (PrintMembers(v, keys[1..]) + [CLOSE_BRACE] + rest))
  {
    MembersStart(v, keys[1..]);
    hide PrintMembers;
  }

  lemma QuotedStart(t: Text, rest: Text)
    ensures AfterSpace(Quoted(t) + rest) == Quoted(t) + rest
  {
  }

  lemma FirstKey(keys: seq<Text>)
    requires Sorted(keys) && keys != []
    ensures keys[0] !in keys[1..] && Sorted(keys[1..]) && forall k :: k in keys <==> k == keys[0] || k in keys[1..]
  {
    forall i | 1 <= i < |keys| ensures keys[i] != keys[0] {
      BeforeTotal(keys[0], keys[i]);
    }
    assert keys == [keys[0]] + keys[1..];
  }

  /** Strictly parsing the canonical text of a value gives exactly that value when the value is within
      the depth limit, and the depth error otherwise. */
  lemma CanonicalRoundTrip(v: Json)
    requires WellFormed(v)
    ensures ParseText(Print(v)) == if Height(v) <= MAX_JSON_DEPTH then Ok(v) else Err(ReportJsonDepthExceeded)
  {
    hide ParseValue, Print, Height;
    ValueRoundTrip(v, [], 0);
    assert Print(v) + [] == Print(v);
  }

  /** Canonical text tells values apart; the order in which an object's members were added is the only
      thing it forgets. */
  lemma CanonicalInjective(v: Json, w: Json)
    requires WellFormed(v) && WellFormed(w) && Print(v) == Print(w)
    ensures v == w
  {
    hide ParseValue, Print, Height;
    var depth := MAX_JSON_DEPTH - Height(v) - Height(w);
    ValueRoundTrip(v, [], depth);
    ValueRoundTrip(w, [], depth);
    assert Print(v) + [] == Print(v) && Print(w) + [] == Print(w);
  }
}
