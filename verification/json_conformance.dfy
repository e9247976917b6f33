/** The strict parser reads exactly the texts of the grammar, and what they mean. */
module JsonConformance {
  import opened Errors
  import opened Wrappers
  import opened CodeUnits
  import opened JsonText
  import opened JsonParser
  import opened JsonRoundTrip
  import G = JsonGrammar

  // ---------------------------------------------------------------- white space

  lemma {:induction false} SkipsBlank(space: Text, rest: Text)
    requires G.Blank(space)
    ensures AfterSpace(space + rest) == AfterSpace(rest)
  {
    if space == [] {
      assert space + rest == rest;
    } else {
      assert (space + rest)[1..] == space[1..] + rest;
      SkipsBlank(space[1..], rest);
    }
  }

  lemma {:induction false} SkippedBlank(s: Text) returns (space: Text)
    ensures G.Blank(space) && s == space + AfterSpace(s)
  {
    if s != [] && IsSpace(s[0]) {
      var more := SkippedBlank(s[1..]);
      space := [s[0]] + more;
      assert s == [s[0]] + s[1..];
    } else {
      space := [];
    }
  }

  // ---------------------------------------------------------------- strings, from the tree

  lemma HexRead(d: G.HexDigit)
    ensures HexValue(G.HexText(d)) == d.value && Plain(G.HexText(d))
  {
  }

  lemma PieceRead(p: G.Piece, more: Text)
    requires G.LegalPiece(p)
    ensures DecodeUnit(G.PieceText(p) + more) == Some((G.PieceUnit(p), |G.PieceText(p)|))
  {
    var s := G.PieceText(p) + more;
    match p
    case Unescaped(_) =>
    case Short(_) =>
    case Long(a, b, c, d) =>
      HexRead(a);
      HexRead(b);
      HexRead(c);
      HexRead(d);
      assert s[2..6] == [G.HexText(a), G.HexText(b), G.HexText(c), G.HexText(d)];
      hide G.HexText, HexValue;
  }

  lemma {:induction false} BodyRead(pieces: seq<G.Piece>)
    requires G.LegalPieces(pieces)
    ensures Decode(G.BodyText(pieces)) == Some(G.BodyUnits(pieces))
  {
    hide G.PieceText, G.PieceUnit, DecodeUnit, G.LegalPiece;
    if pieces != [] {
      BodyRead(pieces[1..]);
      PieceRead(pieces[0], G.BodyText(pieces[1..]));
      assert G.PieceText(pieces[0]) != [] by { SomeText(pieces[0]); }
      DecodeStep(G.PieceText(pieces[0]), G.PieceUnit(pieces[0]), G.BodyText(pieces[1..]));
    }
  }

  lemma SomeText(p: G.Piece)
    ensures G.PieceText(p) != []
  {
  }

  lemma PieceScanned(p: G.Piece, more: Text)
    requires G.LegalPiece(p)
    ensures BodyLength(G.PieceText(p) + more, false) ==
            if BodyLength(more, false).None? then None else Some(|G.PieceText(p)| + BodyLength(more, false).value)
  {
    hide BodyLength, G.HexText;
    match p
    case Unescaped(u) => BodyPlain([u], more);
    case Short(e) => BodyPlain([BACKSLASH, G.EscapeLetter(e)], more);
    case Long(a, b, c, d) =>
      HexRead(a);
      HexRead(b);
      HexRead(c);
      HexRead(d);
      BodyHex(G.HexText(a), G.HexText(b), G.HexText(c), G.HexText(d), more);
  }

  lemma {:induction false} BodyScanned(pieces: seq<G.Piece>, rest: Text)
    requires G.LegalPieces(pieces)
    ensures BodyLength(G.BodyText(pieces) + ([QUOTE] + rest), false) == Some(|G.BodyText(pieces)|)
  {
    hide G.PieceText, G.LegalPiece;
    var end := [QUOTE] + rest;
    if pieces == [] {
      assert G.BodyText(pieces) + end == end;
    } else {
      hide BodyLength;
      BodyScanned(pieces[1..], rest);
      PieceScanned(pieces[0], G.BodyText(pieces[1..]) + end);
      UnitText(G.PieceText(pieces[0]), G.BodyText(pieces[1..]), end);
    }
  }

  lemma StringRead(pieces: seq<G.Piece>, rest: Text)
    requires G.LegalPieces(pieces)
    ensures ParseString(G.StringText(pieces) + rest) == Ok((G.BodyUnits(pieces), rest))
  {
    hide Decode, BodyLength, G.BodyText, G.BodyUnits;
    var s, body := G.StringText(pieces) + rest, G.BodyText(pieces);
    assert s[1..] == body + ([QUOTE] + rest);
    BodyScanned(pieces, rest);
    BodyRead(pieces);
    assert s[1..|body| + 1] == body;
    assert s[|body| + 2..] == rest;
  }

  // ---------------------------------------------------------------- strings, from the text

  lemma HexFound(u: Unit) returns (d: G.HexDigit)
    requires HexValue(u) >= 0
    ensures G.HexText(d) == u && d.value == HexValue(u)
  {
    d := G.HexDigit(HexValue(u), 0x41 <= u <= 0x46);
  }

  lemma PieceFound(s: Text) returns (p: G.Piece)
    requires s != [] && DecodeUnit(s).Some?
    ensures G.LegalPiece(p) && DecodeUnit(s) == Some((G.PieceUnit(p), |G.PieceText(p)|)) && G.PieceText(p) <= s
  {
    if s[0] != BACKSLASH {
      p := G.Unescaped(s[0]);
    } else if |s| >= 6 && s[1] == 0x75 {
      var digits := s[2..6];
      var a := HexFound(digits[0]);
      var b := HexFound(digits[1]);
      var c := HexFound(digits[2]);
      var d := HexFound(digits[3]);
      hide G.HexText, HexValue;
      p := G.Long(a, b, c, d);
      assert s[..6] == [BACKSLASH, 0x75, s[2], s[3], s[4], s[5]];
    } else {
      p := G.Short(EscapeFound(s[1]));
      assert s[..2] == [BACKSLASH, s[1]];
    }
  }

  function EscapeFound(letter: Unit): G.Escape {
    if letter == 0x22 then G.Quotation
    else if letter == 0x5c then G.Reverse
    else if letter == 0x2f then G.Solidus
    else if letter == 0x62 then G.Backspace
    else if letter == 0x66 then G.FormFeed
    else if letter == 0x6e then G.LineFeed
    else if letter == 0x72 then G.CarriageReturn
    else G.Tab
  }

  lemma {:induction false} BodyFound(s: Text) returns (pieces: seq<G.Piece>)
    requires Decode(s).Some?
    ensures G.LegalPieces(pieces) && G.BodyText(pieces) == s && Decode(s) == Some(G.BodyUnits(pieces))
  {
    hide G.PieceText, G.PieceUnit, DecodeUnit, G.LegalPiece;
    if s == [] {
      pieces := [];
    } else {
      var first := PieceFound(s);
      var n := |G.PieceText(first)|;
      var more := BodyFound(s[n..]);
      pieces := [first] + more;
      assert pieces[1..] == more;
      assert s == s[..n] + s[n..];
    }
  }

  lemma {:induction false} QuoteFound(s: Text, escaped: bool)
    requires BodyLength(s, escaped).Some?
    ensures s[BodyLength(s, escaped).value] == QUOTE
  {
    if !(!escaped && s[0] == QUOTE) {
      QuoteFound(s[1..], !escaped && s[0] == BACKSLASH);
    }
  }

  lemma StringFound(s: Text) returns (pieces: seq<G.Piece>)
    requires ParseString(s).Ok?
    ensures G.LegalPieces(pieces) && ParseString(s).value.0 == G.BodyUnits(pieces) && s == G.StringText(pieces) + ParseString(s).value.1
  {
    hide Decode, BodyLength, G.BodyText, G.BodyUnits;
    var n := BodyLength(s[1..], false).value;
    QuoteFound(s[1..], false);
    pieces := BodyFound(s[1..n + 1]);
    assert s[1..][n] == s[n + 1] == QUOTE;
    assert s == [s[0]] + s[1..n + 1] + [s[n + 1]] + s[n + 2..];
  }

  // ---------------------------------------------------------------- numerals

  predicate NoDigit(s: Text) {
    s == [] || !IsDigit(s[0])
  }

  lemma {:induction false} DigitsRun(digits: Text, rest: Text)
    requires G.Digits(digits) && NoDigit(rest)
    ensures DigitRun(digits + rest) == |digits|
  {
    if digits == [] {
      assert digits + rest == rest;
    } else {
      assert (digits + rest)[1..] == digits[1..] + rest;
      DigitsRun(digits[1..], rest);
    }
  }

  lemma {:induction false} RunDigits(s: Text)
    ensures G.Digits(s[..DigitRun(s)]) && NoDigit(s[DigitRun(s)..])
  {
    if s != [] && IsDigit(s[0]) {
      RunDigits(s[1..]);
      assert s[..DigitRun(s)] == [s[0]] + s[1..][..DigitRun(s[1..])];
      assert s[DigitRun(s)..] == s[1..][DigitRun(s[1..])..];
    }
  }

  function FractionText(fraction: Text): Text {
    if fraction == [] then [] else [0x2e] + fraction
  }

  lemma ExponentRead(e: G.Exponent)
    requires e.Exponent? ==> e.digits != [] && G.Digits(e.digits)
    ensures ExponentLength(G.ExponentText(e)) == |G.ExponentText(e)|
    ensures NoDigit(G.ExponentText(e)) && !Starts(G.ExponentText(e), 0x2e)
  {
    if e.Exponent? {
      var s, n := G.ExponentText(e), if e.sign == G.NoSign then 0 else 1;
      assert s[1 + n..] == e.digits;
      assert s[1..] == if e.sign == G.NoSign then e.digits else [s[1]] + e.digits;
      assert e.digits + [] == e.digits;
      DigitsRun(e.digits, []);
    }
  }

  lemma FractionRead(fraction: Text, rest: Text)
    requires G.Digits(fraction) && NoDigit(rest) && !Starts(rest, 0x2e)
    ensures FractionLength(FractionText(fraction) + rest) == |FractionText(fraction)|
    ensures NoDigit(FractionText(fraction) + rest)
  {
    var s := FractionText(fraction) + rest;
    if fraction == [] {
      assert s == rest;
    } else {
      assert s[1..] == fraction + rest;
      DigitsRun(fraction, rest);
    }
  }

  lemma WholeRead(whole: Text, rest: Text)
    requires whole != [] && G.Digits(whole) && (whole[0] == 0x30 ==> |whole| == 1) && NoDigit(rest)
    ensures WholeLength(whole + rest) == |whole| && !Starts(whole + rest, 0x2d)
  {
    DigitsRun(whole, rest);
  }

  lemma Slices(a: Text, w: Text, f: Text, e: Text)
    ensures var s := a + (w + (f + e));
            s[|a|..] == w + (f + e) && s[|a| + |w|..] == f + e && s[|a| + |w| + |f|..] == e && |s| == |a| + |w| + |f| + |e|
  {
    assert (a + (w + (f + e)))[|a|..] == w + (f + e);
    assert (w + (f + e))[|w|..] == f + e;
    assert (f + e)[|f|..] == e;
  }

  /** The sign is all there is before a number that does not start with one. */
  lemma SignRead(minus: bool, rest: Text)
    requires !Starts(rest, 0x2d)
    ensures var sign := if minus then [0x2d] else []; Starts(sign + rest, 0x2d) == minus
  {
  }

  lemma NumberRead(n: G.Number)
    requires G.LegalNumber(n)
    ensures NumeralLength(G.NumberText(n)) == |G.NumberText(n)| > 0
  {
    hide ExponentLength, FractionLength, WholeLength, G.ExponentText, FractionText, G.NumberText;
    var sign: Text := if n.minus then [0x2d] else [];
    var fraction, exponent := FractionText(n.fraction), G.ExponentText(n.exponent);
    ExponentRead(n.exponent);
    FractionRead(n.fraction, exponent);
    WholeRead(n.whole, fraction + exponent);
    NumberParts(n);
    Slices(sign, n.whole, fraction, exponent);
    SignRead(n.minus, n.whole + (fraction + exponent));
  }

  lemma NumberParts(n: G.Number)
    ensures G.NumberText(n) == (if n.minus then [0x2d] else []) + (n.whole + (FractionText(n.fraction) + G.ExponentText(n.exponent)))
  {
    hide G.ExponentText;
  }

  lemma ExponentFound(s: Text) returns (e: G.Exponent)
    ensures G.ExponentText(e) == s[..ExponentLength(s)]
    ensures e.Exponent? ==> e.digits != [] && G.Digits(e.digits)
  {
    var n := ExponentLength(s);
    if n == 0 {
      e := G.NoExponent;
    } else {
      var sign := if Starts(s[1..], 0x2b) then G.Plus else if Starts(s[1..], 0x2d) then G.Minus else G.NoSign;
      var k := if sign == G.NoSign then 1 else 2;
      RunDigits(s[k..]);
      Part(s, k, n - k);
      e := G.Exponent(s[0] == 0x45, sign, s[k..n]);
      Headed(s, k, n);
    }
  }

  /** A letter, at most a sign, and what follows. */
  lemma Headed(s: Text, k: nat, n: nat)
    requires 1 <= k <= 2 && k <= n <= |s|
    ensures s[..n] == [s[0]] + (if k == 1 then [] else [s[1]]) + s[k..n]
  {
  }

  lemma FractionFound(s: Text) returns (fraction: Text)
    ensures FractionText(fraction) == s[..FractionLength(s)] && G.Digits(fraction)
  {
    var n := FractionLength(s);
    if n == 0 {
      fraction := [];
    } else {
      RunDigits(s[1..]);
      fraction := s[1..n];
      assert s[1..n] == s[1..][..DigitRun(s[1..])];
      assert s[..n] == [s[0]] + s[1..n];
    }
  }

  lemma WholeFound(s: Text)
    requires WholeLength(s) > 0
    ensures var whole := s[..WholeLength(s)]; whole != [] && G.Digits(whole) && (whole[0] == 0x30 ==> |whole| == 1)
  {
    RunDigits(s);
  }

  lemma Part(s: Text, i: nat, n: nat)
    requires i + n <= |s|
    ensures s[i..][..n] == s[i..i + n]
  {
  }

  lemma Parts(s: Text, a: nat, b: nat, c: nat, d: nat)
    requires a <= b <= c <= d <= |s|
    ensures s[..d] == s[..a] + (s[a..b] + (s[b..c] + s[c..d]))
  {
  }

  lemma NumberFound(s: Text) returns (n: G.Number)
    requires NumeralLength(s) > 0
    ensures G.LegalNumber(n) && G.NumberText(n) == s[..NumeralLength(s)]
  {
    hide ExponentLength, FractionLength, WholeLength, G.ExponentText, FractionText;
    var sign := if Starts(s, 0x2d) then 1 else 0;
    var w := sign + WholeLength(s[sign..]);
    var f := w + FractionLength(s[w..]);
    var x := f + ExponentLength(s[f..]);
    WholeFound(s[sign..]);
    Part(s, sign, WholeLength(s[sign..]));
    Part(s, w, FractionLength(s[w..]));
    Part(s, f, ExponentLength(s[f..]));
    var fraction := FractionFound(s[w..]);
    var exponent := ExponentFound(s[f..]);
    n := G.Number(sign == 1, s[sign..w], fraction, exponent);
    NumberParts(n);
    Parts(s, sign, w, f, x);
    assert s[..sign] == if sign == 1 then [0x2d] else [];
  }

  /** A numeral is what the grammar calls a number. */
  lemma NumeralIsNumber(s: Text)
    ensures IsNumeral(s) <==> exists n :: G.LegalNumber(n) && G.NumberText(n) == s
  {
    if IsNumeral(s) {
      var n := NumberFound(s);
      assert s[..|s|] == s;
    }
    forall n | G.LegalNumber(n) && G.NumberText(n) == s ensures IsNumeral(s) {
      NumberRead(n);
    }
  }

  // ---------------------------------------------------------------- values, from the tree

  predicate NoSpace(s: Text) {
    s == [] || !IsSpace(s[0])
  }

  lemma SpaceAfter(after: Text, tail: Text)
    requires G.Blank(after) && Stops(tail) && NoSpace(tail)
    ensures Stops(after + tail) && AfterSpace(after + tail) == tail
  {
    SkipsBlank(after, tail);
    if after == [] {
      assert after + tail == tail;
    }
  }

  lemma ValueStart(v: G.Value, depth: int, rest: Text)
    requires G.Legal(v, depth)
    ensures var t := G.ValueText(v) + rest; t != [] && NoSpace(t) && !Starts(t, CLOSE_BRACKET) && !Starts(t, CLOSE_BRACE)
  {
    hide G.ItemsText, G.MembersText, G.LegalItems, G.LegalMembers, G.BodyText;
    if v.ValueNumber? {
      NumberRead(v.number);
      NumeralStart(G.NumberText(v.number));
    }
  }

  lemma ParseSkips(space: Text, t: Text, depth: int)
    requires G.Blank(space)
    ensures ParseValue(space + t, depth) == ParseValue(t, depth)
  {
    hide ParseObject, ParseArray, ParseString, ParseNumber;
    SkipsBlank(space, t);
  }

  lemma SimpleRead(v: G.Value, rest: Text, depth: int)
    requires G.Legal(v, MAX_JSON_DEPTH - depth) && Stops(rest)
    requires v.ValueNull? || v.ValueTrue? || v.ValueFalse? || v.ValueNumber? || v.ValueString?
    ensures ParseValue(G.ValueText(v) + rest, depth) == Ok((G.Meaning(v), rest))
  {
    hide ParseObject, ParseArray, ParseString, NumeralLength, G.StringText, G.NumberText, G.LegalNumber;
    var s := G.ValueText(v) + rest;
    match v
    case ValueNull => assert s[4..] == rest;
    case ValueTrue => assert s[4..] == rest;
    case ValueFalse => assert s[5..] == rest;
    case ValueNumber(n) =>
      NumberRead(n);
      NumeralStops(G.NumberText(n), rest);
      NumeralStart(G.NumberText(n));
      assert s[..|G.NumberText(n)|] == G.NumberText(n) && s[|G.NumberText(n)|..] == rest;
    case ValueString(pieces) =>
      StringRead(pieces, rest);
      StringStart(pieces, rest);
  }

  lemma StringStart(pieces: seq<G.Piece>, rest: Text)
    ensures Starts(G.StringText(pieces) + rest, QUOTE) && NoSpace(G.StringText(pieces) + rest)
  {
    hide G.BodyText;
  }

  lemma EmptyRead(v: G.Value, rest: Text, depth: int)
    requires G.Legal(v, MAX_JSON_DEPTH - depth) && (v.EmptyArray? || v.EmptyObject?)
    ensures ParseValue(G.ValueText(v) + rest, depth) == Ok((G.Meaning(v), rest))
  {
    hide ParseItems, ParseMembers;
    var s := G.ValueText(v) + rest;
    var close := if v.EmptyArray? then CLOSE_BRACKET else CLOSE_BRACE;
    assert s[1..] == v.space + ([close] + rest);
    SkipsBlank(v.space, [close] + rest);
    assert ([close] + rest)[1..] == rest;
  }

  /** What follows an item. */
  function ItemsTail(items: G.Items, rest: Text): Text {
    match items
    case LastItem(_, _, _) => [CLOSE_BRACKET] + rest
    case NextItem(_, _, _, more) => [COMMA] + (G.ItemsText(more) + ([CLOSE_BRACKET] + rest))
  }

  lemma Nested(a: Text, b: Text, c: Text, d: Text)
    ensures a + b + c + d == a + (b + (c + d))
  {
    UnitText(a + b, c, d);
    UnitText(a, b, c + d);
  }

  lemma ItemsSplit(items: G.Items, rest: Text)
    ensures G.ItemsText(items) + ([CLOSE_BRACKET] + rest) == items.before + (G.ValueText(items.value) + (items.after + ItemsTail(items, rest)))
  {
    hide G.ValueText, G.ItemsText;
    var a, b, c, end := items.before, G.ValueText(items.value), items.after, [CLOSE_BRACKET] + rest;
    if items.LastItem? {
      assert G.ItemsText(items) == a + b + c by { LastItemText(items); }
      Nested(a, b, c, end);
    } else {
      var d := G.ItemsText(items.more);
      assert G.ItemsText(items) == a + b + c + [COMMA] + d by { NextItemText(items); }
      Nested(a + b + c, [COMMA], d, end);
      Nested(a, b, c, [COMMA] + (d + end));
    }
  }

  lemma LastItemText(items: G.Items)
    requires items.LastItem?
    ensures G.ItemsText(items) == items.before + G.ValueText(items.value) + items.after
  {
  }

  lemma NextItemText(items: G.Items)
    requires items.NextItem?
    ensures G.ItemsText(items) == items.before + G.ValueText(items.value) + items.after + [COMMA] + G.ItemsText(items.more)
  {
  }

  lemma {:induction false} ValueRead(v: G.Value, rest: Text, depth: int)
    requires G.Legal(v, MAX_JSON_DEPTH - depth) && Stops(rest)
    ensures ParseValue(G.ValueText(v) + rest, depth) == Ok((G.Meaning(v), rest))
    decreases v
  {
    hide ParseItems, ParseMembers, ParseString, ParseNumber, G.ItemsText, G.MembersText, G.ItemsMeaning, G.MembersMeaning, G.LegalItems, G.LegalMembers,
      Stops;
    if v.Array? {
      var s := G.ValueText(v) + rest;
      assert s[1..] == G.ItemsText(v.items) + ([CLOSE_BRACKET] + rest);
      ItemsRead(v.items, [], rest, depth + 1);
      ItemsStart(v.items, rest, depth + 1, []);
      assert [] + G.ItemsMeaning(v.items) == G.ItemsMeaning(v.items);
    } else if v.Object? {
      var s := G.ValueText(v) + rest;
      assert s[1..] == G.MembersText(v.members) + ([CLOSE_BRACE] + rest);
      MembersRead(v.members, map[], rest, depth + 1);
      MembersStart(v.members, rest, depth + 1, map[]);
      assert map[] + G.MembersMeaning(v.members) == G.MembersMeaning(v.members);
    } else if v.EmptyArray? || v.EmptyObject? {
      EmptyRead(v, rest, depth);
    } else {
      SimpleRead(v, rest, depth);
    }
  }

  /** White space before the first item is skipped twice. */
  lemma ItemsStart(items: G.Items, rest: Text, depth: int, read: seq<Json>)
    requires G.LegalItems(items, MAX_JSON_DEPTH - depth)
    ensures var s := G.ItemsText(items) + ([CLOSE_BRACKET] + rest); var t := AfterSpace(s);
            !Starts(t, CLOSE_BRACKET) && ParseItems(t, depth, read) == ParseItems(s, depth, read)
  {
    hide G.ItemsText, G.ValueText, G.Legal, ItemsTail, ParseValue;
    ItemsSplit(items, rest);
    var tail := items.after + ItemsTail(items, rest);
    var t := G.ValueText(items.value) + tail;
    ItemsLegal(items, MAX_JSON_DEPTH - depth);
    ValueStart(items.value, MAX_JSON_DEPTH - depth, tail);
    SkipsBlank(items.before, t);
    ParseSkips(items.before, t, depth);
  }

  lemma ItemsLegal(items: G.Items, depth: int)
    requires G.LegalItems(items, depth)
    ensures G.Blank(items.before) && G.Legal(items.value, depth) && G.Blank(items.after)
    ensures items.NextItem? ==> G.LegalItems(items.more, depth)
  {
    hide G.Legal, G.Blank;
  }

  lemma {:induction false} ItemsRead(items: G.Items, read: seq<Json>, rest: Text, depth: int)
    requires G.LegalItems(items, MAX_JSON_DEPTH - depth)
    ensures ParseItems(G.ItemsText(items) + ([CLOSE_BRACKET] + rest), depth, read) == Ok((JArray(read + G.ItemsMeaning(items)), rest))
    decreases items
  {
    hide G.ItemsText, G.ValueText, G.Legal, ParseValue, G.LegalItems, G.Meaning, ParseItems;
    var value, tail := items.value, ItemsTail(items, rest);
    ItemsSplit(items, rest);
    ItemsLegal(items, MAX_JSON_DEPTH - depth);
    SpaceAfter(items.after, tail);
    ParseSkips(items.before, G.ValueText(value) + (items.after + tail), depth);
    ValueStart(value, MAX_JSON_DEPTH - depth, items.after + tail);
    ValueRead(value, items.after + tail, depth);
    OneItem(items.before + (G.ValueText(value) + (items.after + tail)), depth, read);
    if items.NextItem? {
      assert tail[1..] == G.ItemsText(items.more) + ([CLOSE_BRACKET] + rest);
      ItemsRead(items.more, read + [G.Meaning(value)], rest, depth);
      assert read + [G.Meaning(value)] + G.ItemsMeaning(items.more) == read + ([G.Meaning(value)] + G.ItemsMeaning(items.more));
    } else {
      assert tail[1..] == rest;
    }
  }

  lemma OneItem(s: Text, depth: int, read: seq<Json>)
    requires s != [] && ParseValue(s, depth).Ok?
    ensures var (value, after) := ParseValue(s, depth).value;
            var next := AfterSpace(after);
            ParseItems(s, depth, read) == if Starts(next, CLOSE_BRACKET) then Ok((JArray(read + [value]), next[1..]))
                                          else if Starts(next, COMMA) then ParseItems(next[1..], depth, read + [value])
                                          else Err(ReportJsonInvalid)
  {
    hide ParseValue;
  }

  // ---------------------------------------------------------------- members

  function MembersTail(members: G.Members, rest: Text): Text {
    match members
    case LastMember(_, _, _, _, _, _) => [CLOSE_BRACE] + rest
    case NextMember(_, _, _, _, _, _, more) => [COMMA] + (G.MembersText(more) + ([CLOSE_BRACE] + rest))
  }

  /** What follows the key of a member. */
  function MemberBody(members: G.Members, rest: Text): Text {
    members.beforeColon + ([COLON] + (members.afterColon + (G.ValueText(members.value) + (members.after + MembersTail(members, rest)))))
  }

  lemma MemberSplit(a: Text, b: Text, c: Text, d: Text, e: Text, f: Text, tail: Text)
    ensures a + b + c + [COLON] + d + e + f + tail == a + (b + (c + ([COLON] + (d + (e + (f + tail))))))
  {
    Nested(a + b + c + [COLON] + d, e, f, tail);
    UnitText(a + b + c + [COLON], d, e + (f + tail));
    UnitText(a + b + c, [COLON], d + (e + (f + tail)));
    UnitText(a + b, c, [COLON] + (d + (e + (f + tail))));
    UnitText(a, b, c + ([COLON] + (d + (e + (f + tail)))));
  }

  lemma MembersSplit(members: G.Members, rest: Text)
    ensures G.MembersText(members) + ([CLOSE_BRACE] + rest) == members.before + (G.StringText(members.key) + MemberBody(members, rest))
  {
    hide G.ValueText, G.StringText, G.MembersText;
    var a, b, c, d, e, f := members.before, G.StringText(members.key), members.beforeColon, members.afterColon, G.ValueText(members.value), members.after;
    var end := [CLOSE_BRACE] + rest;
    MemberSplit(a, b, c, d, e, f, MembersTail(members, rest));
    if members.LastMember? {
      LastMemberText(members);
    } else {
      NextMemberText(members);
      var more := G.MembersText(members.more);
      Nested(a + b + c + [COLON] + d + e + f, [COMMA], more, end);
    }
  }

  lemma LastMemberText(m: G.Members)
    requires m.LastMember?
    ensures G.MembersText(m) == m.before + G.StringText(m.key) + m.beforeColon + [COLON] + m.afterColon + G.ValueText(m.value) + m.after
  {
  }

  lemma NextMemberText(m: G.Members)
    requires m.NextMember?
    ensures G.MembersText(m) == m.before + G.StringText(m.key) + m.beforeColon + [COLON] + m.afterColon + G.ValueText(m.value) + m.after + [COMMA]
                                + G.MembersText(m.more)
  {
  }

  lemma MembersLegal(members: G.Members, depth: int)
    requires G.LegalMembers(members, depth)
    ensures G.Blank(members.before) && G.LegalPieces(members.key) && G.Blank(members.beforeColon) && G.Blank(members.afterColon)
    ensures G.Legal(members.value, depth) && G.Blank(members.after)
    ensures members.NextMember? ==> G.LegalMembers(members.more, depth) && G.BodyUnits(members.key) !in G.MembersMeaning(members.more)
  {
    hide G.Legal, G.Blank, G.LegalPieces, G.BodyUnits, G.MembersMeaning;
  }

  lemma MembersStart(members: G.Members, rest: Text, depth: int, read: map<Text, Json>)
    requires G.LegalMembers(members, MAX_JSON_DEPTH - depth)
    ensures var s := G.MembersText(members) + ([CLOSE_BRACE] + rest); var t := AfterSpace(s);
            !Starts(t, CLOSE_BRACE) && ParseMembers(t, depth, read) == ParseMembers(s, depth, read)
  {
    hide G.MembersText, MemberBody, ParseValue, ParseString, G.StringText;
    MembersSplit(members, rest);
    MembersLegal(members, MAX_JSON_DEPTH - depth);
    var t := G.StringText(members.key) + MemberBody(members, rest);
    StringStart(members.key, MemberBody(members, rest));
    SkipsBlank(members.before, t);
  }

  lemma OneMember(s: Text, key: Text, body: Text, depth: int, read: map<Text, Json>)
    requires ParseString(AfterSpace(s)) == Ok((key, body)) && key !in read && Starts(AfterSpace(body), COLON)
    requires ParseValue(AfterSpace(body)[1..], depth).Ok?
    ensures var (value, after) := ParseValue(AfterSpace(body)[1..], depth).value;
            var next := AfterSpace(after);
            ParseMembers(s, depth, read) == if Starts(next, CLOSE_BRACE) then Ok((JObject(read[key := value]), next[1..]))
                                            else if Starts(next, COMMA) then ParseMembers(next[1..], depth, read[key := value])
                                            else Err(ReportJsonInvalid)
  {
    hide ParseValue, ParseString;
  }

  /** The first member, given that its value is read; what is left is read on. */
  lemma MemberRead(members: G.Members, read: map<Text, Json>, rest: Text, depth: int)
    requires G.LegalMembers(members, MAX_JSON_DEPTH - depth) && G.BodyUnits(members.key) !in read
    requires var end := members.after + MembersTail(members, rest); ParseValue(G.ValueText(members.value) + end, depth) == Ok((G.Meaning(members.value), end))
    ensures var next := read[G.BodyUnits(members.key) := G.Meaning(members.value)];
            ParseMembers(G.MembersText(members) + ([CLOSE_BRACE] + rest), depth, read) ==
            match members
            case LastMember(_, _, _, _, _, _) => Ok((JObject(next), rest))
            case NextMember(_, _, _, _, _, _, more) => ParseMembers(G.MembersText(more) + ([CLOSE_BRACE] + rest), depth, next)
  {
    hide G.MembersText, G.ValueText, G.Legal, ParseValue, ParseString, G.StringText, G.LegalMembers, G.Meaning, ParseMembers, G.BodyUnits, G.LegalPieces;
    var key, value, tail := G.BodyUnits(members.key), members.value, MembersTail(members, rest);
    var body := MemberBody(members, rest);
    MembersSplit(members, rest);
    MembersLegal(members, MAX_JSON_DEPTH - depth);
    SkipsBlank(members.before, G.StringText(members.key) + body);
    StringStart(members.key, body);
    StringRead(members.key, body);
    var afterColon := members.afterColon + (G.ValueText(value) + (members.after + tail));
    SkipsBlank(members.beforeColon, [COLON] + afterColon);
    UnitFirst(COLON, afterColon);
    SpaceAfter(members.after, tail);
    ParseSkips(members.afterColon, G.ValueText(value) + (members.after + tail), depth);
    OneMember(members.before + (G.StringText(members.key) + body), key, body, depth, read);
    match members {
      case LastMember(_, _, _, _, _, _) => UnitFirst(CLOSE_BRACE, rest);
      case NextMember(_, _, _, _, _, _, more) => UnitFirst(COMMA, G.MembersText(more) + ([CLOSE_BRACE] + rest));
    }
  }

  lemma UnitFirst(u: Unit, rest: Text)
    ensures ([u] + rest)[1..] == rest && Starts([u] + rest, u)
  {
  }

  lemma {:induction false} MembersRead(members: G.Members, read: map<Text, Json>, rest: Text, depth: int)
    requires G.LegalMembers(members, MAX_JSON_DEPTH - depth) && forall k :: k in read ==> k !in G.MembersMeaning(members)
    ensures ParseMembers(G.MembersText(members) + ([CLOSE_BRACE] + rest), depth, read) == Ok((JObject(read + G.MembersMeaning(members)), rest))
    decreases members
  {
    hide G.MembersText, G.ValueText, G.Legal, ParseValue, G.LegalMembers, G.Meaning, ParseMembers, G.BodyUnits, MembersTail;
    var value, end := members.value, members.after + MembersTail(members, rest);
    MembersLegal(members, MAX_JSON_DEPTH - depth);
    TailStops(members, rest);
    ValueRead(value, end, depth);
    MemberRead(members, read, rest, depth);
    var next := read[G.BodyUnits(members.key) := G.Meaning(value)];
    if members.NextMember? {
      MembersRead(members.more, next, rest, depth);
      assert next + G.MembersMeaning(members.more) == read + (map[G.BodyUnits(members.key) := G.Meaning(value)] + G.MembersMeaning(members.more));
    } else {
      assert next == read + map[G.BodyUnits(members.key) := G.Meaning(value)];
    }
  }

  lemma TailStops(members: G.Members, rest: Text)
    requires G.Blank(members.after)
    ensures Stops(members.after + MembersTail(members, rest))
  {
    hide G.MembersText;
    SpaceAfter(members.after, MembersTail(members, rest));
  }

  // ---------------------------------------------------------------- values, from the text

  /** What was read here, from this depth on. */
  predicate Spelt(s: Text, space: Text, v: G.Value, value: Json, rest: Text, depth: int) {
    && G.Blank(space) && G.Legal(v, MAX_JSON_DEPTH - depth) && G.Meaning(v) == value && s == space + (G.ValueText(v) + rest)
  }

  lemma SimpleFound(t: Text, depth: int) returns (v: G.Value)
    requires depth <= MAX_JSON_DEPTH && ParseValue(t, depth).Ok? && AfterSpace(t) == t
    requires !Starts(t, OPEN_BRACE) && !Starts(t, OPEN_BRACKET)
    ensures var (value, rest) := ParseValue(t, depth).value;
            G.Legal(v, MAX_JSON_DEPTH - depth) && G.Meaning(v) == value && t == G.ValueText(v) + rest
  {
    hide ParseString, NumeralLength, ParseObject, ParseArray, G.NumberText, G.StringText, G.LegalNumber, G.LegalPieces;
    if Starts(t, QUOTE) {
      var pieces := StringFound(t);
      v := G.ValueString(pieces);
    } else if TRUE <= t {
      v := G.ValueTrue;
    } else if FALSE <= t {
      v := G.ValueFalse;
    } else if NULL <= t {
      v := G.ValueNull;
    } else {
      var n := NumberFound(t);
      v := G.ValueNumber(n);
    }
  }

  lemma EmptyFound(u: Text, close: Unit) returns (space: Text)
    requires Starts(AfterSpace(u), close)
    ensures G.Blank(space) && u == space + ([close] + AfterSpace(u)[1..])
  {
    space := SkippedBlank(u);
    assert AfterSpace(u) == [close] + AfterSpace(u)[1..];
  }

  lemma {:induction false} ValueFound(s: Text, depth: int) returns (space: Text, v: G.Value)
    requires ParseValue(s, depth).Ok?
    ensures Spelt(s, space, v, ParseValue(s, depth).value.0, ParseValue(s, depth).value.1, depth)
    decreases |s|, 3
  {
    hide ParseItems, ParseMembers, ParseString, ParseNumber, G.ItemsText, G.MembersText, G.ItemsMeaning, G.MembersMeaning, G.LegalItems, G.LegalMembers;
    space := SkippedBlank(s);
    var t := AfterSpace(s);
    assert AfterSpace(t) == t by { SkippedTwice(s); }
    assert ParseValue(t, depth) == ParseValue(s, depth);
    if Starts(t, OPEN_BRACE) {
      v := ObjectFound(t[1..], depth + 1);
      assert t == [OPEN_BRACE] + t[1..];
    } else if Starts(t, OPEN_BRACKET) {
      v := ArrayFound(t[1..], depth + 1);
      assert t == [OPEN_BRACKET] + t[1..];
    } else {
      v := SimpleFound(t, depth);
    }
  }

  lemma {:induction false} SkippedTwice(s: Text)
    ensures AfterSpace(AfterSpace(s)) == AfterSpace(s)
  {
    if s != [] && IsSpace(s[0]) {
      SkippedTwice(s[1..]);
    }
  }

  lemma {:induction false} ArrayFound(u: Text, depth: int) returns (v: G.Value)
    requires ParseArray(u, depth).Ok? && depth - 1 <= MAX_JSON_DEPTH
    ensures var (value, rest) := ParseArray(u, depth).value;
            G.Legal(v, MAX_JSON_DEPTH - depth + 1) && G.Meaning(v) == value && [OPEN_BRACKET] + u == G.ValueText(v) + rest
    decreases |u|, 6
  {
    hide ParseItems, G.ItemsText, G.ItemsMeaning, G.LegalItems;
    var rest := ParseArray(u, depth).value.1;
    if Starts(AfterSpace(u), CLOSE_BRACKET) {
      var space := EmptyFound(u, CLOSE_BRACKET);
      v := G.EmptyArray(space);
      Nested([OPEN_BRACKET], space, [CLOSE_BRACKET], rest);
    } else {
      var blank := SkippedBlank(u);
      var items := ItemsFound(AfterSpace(u), depth, []);
      var spaced := SpaceItems(blank, items, MAX_JSON_DEPTH - depth);
      v := G.Array(spaced);
      assert [] + G.ItemsMeaning(items) == G.ItemsMeaning(items);
      UnitText(blank, G.ItemsText(items), [CLOSE_BRACKET] + rest);
      Nested([OPEN_BRACKET], G.ItemsText(spaced), [CLOSE_BRACKET], rest);
    }
  }

  /** More white space in front of the first item. */
  lemma SpaceItems(blank: Text, items: G.Items, depth: int) returns (spaced: G.Items)
    requires G.Blank(blank) && G.LegalItems(items, depth)
    ensures G.LegalItems(spaced, depth) && G.ItemsMeaning(spaced) == G.ItemsMeaning(items) && G.ItemsText(spaced) == blank + G.ItemsText(items)
  {
    hide G.ValueText, G.Meaning, G.Legal;
    spaced := items.(before := blank + items.before);
    var a, b, c, d := blank, items.before, G.ValueText(items.value), items.after;
    Nested(a, b, c, d);
    UnitText(b, c, d);
    if items.NextItem? {
      UnitText(a, b + c + d, [COMMA]);
      UnitText(a, b + c + d + [COMMA], G.ItemsText(items.more));
      UnitText(a + b, c, d);
    }
  }

  lemma {:induction false} ItemsFound(s: Text, depth: int, read: seq<Json>) returns (items: G.Items)
    requires ParseItems(s, depth, read).Ok?
    ensures var (value, rest) := ParseItems(s, depth, read).value;
            && G.LegalItems(items, MAX_JSON_DEPTH - depth) && value == JArray(read + G.ItemsMeaning(items))
            && s == G.ItemsText(items) + ([CLOSE_BRACKET] + rest)
    decreases |s|, 4
  {
    hide ParseValue, G.Legal, G.ValueText, G.Meaning, G.ItemsText, ItemsTail;
    var before, v := ValueFound(s, depth);
    var (value, afterValue) := ParseValue(s, depth).value;
    var after := SkippedBlank(afterValue);
    var next := AfterSpace(afterValue);
    if Starts(next, CLOSE_BRACKET) {
      items := G.LastItem(before, v, after);
      ItemFits(s, before, v, after, next, items, next[1..]);
    } else {
      var more := ItemsFound(next[1..], depth, read + [value]);
      items := G.NextItem(before, v, after, more);
      ItemFits(s, before, v, after, next, items, ParseItems(s, depth, read).value.1);
      assert read + [value] + G.ItemsMeaning(more) == read + ([value] + G.ItemsMeaning(more));
    }
  }

  /** One item and what is left after it make up the text. */
  lemma ItemFits(s: Text, before: Text, v: G.Value, after: Text, next: Text, items: G.Items, rest: Text)
    requires items.before == before && items.value == v && items.after == after && next != []
    requires s == before + (G.ValueText(v) + (after + next))
    requires if items.LastItem? then next[0] == CLOSE_BRACKET && next[1..] == rest
             else next[0] == COMMA && next[1..] == G.ItemsText(items.more) + ([CLOSE_BRACKET] + rest)
    ensures s == G.ItemsText(items) + ([CLOSE_BRACKET] + rest)
  {
    hide G.ValueText, G.ItemsText;
    ItemsSplit(items, rest);
    assert next == [next[0]] + next[1..];
  }

  lemma {:induction false} ObjectFound(u: Text, depth: int) returns (v: G.Value)
    requires ParseObject(u, depth).Ok? && depth - 1 <= MAX_JSON_DEPTH
    ensures var (value, rest) := ParseObject(u, depth).value;
            G.Legal(v, MAX_JSON_DEPTH - depth + 1) && G.Meaning(v) == value && [OPEN_BRACE] + u == G.ValueText(v) + rest
    decreases |u|, 6
  {
    hide ParseMembers, G.MembersText, G.MembersMeaning, G.LegalMembers;
    var rest := ParseObject(u, depth).value.1;
    if Starts(AfterSpace(u), CLOSE_BRACE) {
      var space := EmptyFound(u, CLOSE_BRACE);
      v := G.EmptyObject(space);
      Nested([OPEN_BRACE], space, [CLOSE_BRACE], rest);
    } else {
      var blank := SkippedBlank(u);
      var members := MembersFound(AfterSpace(u), depth, map[]);
      var spaced := SpaceMembers(blank, members, MAX_JSON_DEPTH - depth);
      v := G.Object(spaced);
      assert map[] + G.MembersMeaning(members) == G.MembersMeaning(members);
      UnitText(blank, G.MembersText(members), [CLOSE_BRACE] + rest);
      Nested([OPEN_BRACE], G.MembersText(spaced), [CLOSE_BRACE], rest);
    }
  }

  lemma SpaceMembers(blank: Text, members: G.Members, depth: int) returns (spaced: G.Members)
    requires G.Blank(blank) && G.LegalMembers(members, depth)
    ensures G.LegalMembers(spaced, depth) && G.MembersMeaning(spaced) == G.MembersMeaning(members)
    ensures G.MembersText(spaced) == blank + G.MembersText(members)
  {
    hide G.ValueText, G.Meaning, G.Legal, G.MembersText, G.StringText;
    spaced := members.(before := blank + members.before);
    var rest: Text := [];
    MembersSplit(members, rest);
    MembersSplit(spaced, rest);
    assert MemberBody(spaced, rest) == MemberBody(members, rest);
    UnitText(blank, members.before, G.StringText(members.key) + MemberBody(members, rest));
    UnitText(blank, G.MembersText(members), [CLOSE_BRACE] + rest);
    SameFront(G.MembersText(spaced), blank + G.MembersText(members), [CLOSE_BRACE] + rest);
  }

  lemma SameFront(a: Text, b: Text, end: Text)
    requires a + end == b + end
    ensures a == b
  {
    assert |a| == |b|;
    assert a == (a + end)[..|a|] && b == (b + end)[..|b|];
  }

  /** One member, and what is left after it. */
  predicate MemberIs(s: Text, m: G.Members, key: Text, value: Json, next: Text, depth: int) {
    && G.Blank(m.before) && G.LegalPieces(m.key) && G.Blank(m.beforeColon) && G.Blank(m.afterColon)
    && G.Legal(m.value, MAX_JSON_DEPTH - depth) && G.Blank(m.after) && G.BodyUnits(m.key) == key && G.Meaning(m.value) == value
    && s == m.before + (G.StringText(m.key) + (m.beforeColon + ([COLON] + (m.afterColon + (G.ValueText(m.value) + (m.after + next))))))
  }

  lemma {:induction false} MemberFound(s: Text, depth: int, read: map<Text, Json>) returns (m: G.Members, key: Text, value: Json, next: Text)
    requires ParseMembers(s, depth, read).Ok?
    ensures m.LastMember? && MemberIs(s, m, key, value, next, depth) && key !in read && |next| < |s|
    ensures if Starts(next, CLOSE_BRACE) then ParseMembers(s, depth, read) == Ok((JObject(read[key := value]), next[1..]))
            else Starts(next, COMMA) && ParseMembers(s, depth, read) == ParseMembers(next[1..], depth, read[key := value])
    decreases |s|, 4
  {
    hide ParseValue, ParseString, G.Legal, G.ValueText, G.Meaning, G.StringText, G.BodyUnits, G.LegalPieces;
    var before := SkippedBlank(s);
    var pieces := StringFound(AfterSpace(s));
    key := ParseString(AfterSpace(s)).value.0;
    var afterKey := ParseString(AfterSpace(s)).value.1;
    var beforeColon := SkippedBlank(afterKey);
    var colon := AfterSpace(afterKey);
    assert colon == [COLON] + colon[1..];
    var afterColon, v := ValueFound(colon[1..], depth);
    value := ParseValue(colon[1..], depth).value.0;
    var afterValue := ParseValue(colon[1..], depth).value.1;
    var after := SkippedBlank(afterValue);
    next := AfterSpace(afterValue);
    m := G.LastMember(before, pieces, beforeColon, afterColon, v, after);
  }

  lemma {:induction false} MembersFound(s: Text, depth: int, read: map<Text, Json>) returns (members: G.Members)
    requires ParseMembers(s, depth, read).Ok?
    ensures var (value, rest) := ParseMembers(s, depth, read).value;
            && G.LegalMembers(members, MAX_JSON_DEPTH - depth) && value == JObject(read + G.MembersMeaning(members))
            && (forall k :: k in read ==> k !in G.MembersMeaning(members))
            && s == G.MembersText(members) + ([CLOSE_BRACE] + rest)
    decreases |s|, 5
  {
    hide ParseMembers, G.Legal, G.ValueText, G.Meaning, G.StringText, G.BodyUnits, G.LegalPieces, G.MembersText, G.Blank;
    var m, key, value, next := MemberFound(s, depth, read);
    assert next == [next[0]] + next[1..];
    if Starts(next, CLOSE_BRACE) {
      members := m;
      MembersSplit(members, next[1..]);
      assert read[key := value] == read + map[key := value];
    } else {
      var more := MembersFound(next[1..], depth, read[key := value]);
      members := G.NextMember(m.before, m.key, m.beforeColon, m.afterColon, m.value, m.after, more);
      MembersSplit(members, ParseMembers(s, depth, read).value.1);
      assert read[key := value] + G.MembersMeaning(more) == read + (map[key := value] + G.MembersMeaning(more));
    }
  }

  // ---------------------------------------------------------------- whole texts

  /** Every text of the grammar is read, and as what it means. */
  lemma GrammarRead(text: Text, before: Text, v: G.Value, after: Text)
    requires G.Spells(text, before, v, after)
    ensures ParseText(text) == Ok(G.Meaning(v))
  {
    hide ParseValue, G.Legal, G.ValueText;
    UnitText(before, G.ValueText(v), after);
    ParseSkips(before, G.ValueText(v) + after, 0);
    assert Stops(after) && AfterSpace(after) == [] by {
      SkipsBlank(after, []);
      assert after + [] == after;
    }
    ValueRead(v, after, 0);
  }

  /** Nothing else is read. */
  lemma ReadIsGrammar(text: Text) returns (before: Text, v: G.Value, after: Text)
    requires ParseText(text).Ok?
    ensures G.Spells(text, before, v, after) && ParseText(text) == Ok(G.Meaning(v))
  {
    hide ParseValue, G.Legal, G.ValueText;
    before, v := ValueFound(text, 0);
    after := SkippedBlank(ParseValue(text, 0).value.1);
    assert after + [] == after;
    UnitText(before, G.ValueText(v), after);
  }

  /** The strict parser gives a value for a text if and only if the text spells that value in the grammar of
      RFC 8259, nested at most sixteen deep and without repeated names. */
  lemma StrictConforms(text: Text, value: Json)
    ensures ParseText(text) == Ok(value) <==> exists before, v, after :: G.Spells(text, before, v, after) && G.Meaning(v) == value
  {
    hide ParseText, G.Spells, G.Meaning;
    if ParseText(text) == Ok(value) {
      var before, v, after := ReadIsGrammar(text);
      assert G.Spells(text, before, v, after) && G.Meaning(v) == value;
    }
    forall before, v, after | G.Spells(text, before, v, after) && G.Meaning(v) == value ensures ParseText(text) == Ok(value) {
      GrammarRead(text, before, v, after);
    }
  }
}
