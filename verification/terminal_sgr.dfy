/** What the SGR parameters of ECMA-48, section 8.3.117, and the 256 indexed colours mean, attribute by attribute. */
module TerminalSgr {
  import opened Wrappers
  import opened CodeUnits
  import opened TerminalStyle

  // ---------------------------------------------------------------- colours as numbers

  function DigitValue(c: char): int {
    if '0' <= c <= '9' then c as int - '0' as int
    else if 'a' <= c <= 'f' then c as int - 'a' as int + 10
    else -1
  }

  /** The colour is `#` and these three bytes, two digits each. */
  predicate Shows(color: string, r: int, g: int, b: int) {
    && |color| == 7 && color[0] == '#'
    && DigitValue(color[1]) * 16 + DigitValue(color[2]) == r && DigitValue(color[3]) * 16 + DigitValue(color[4]) == g
    && DigitValue(color[5]) * 16 + DigitValue(color[6]) == b
  }

  lemma DigitsValue()
    ensures forall n :: 0 <= n < 16 ==> DigitValue(HEX_DIGITS[n]) == n
  {
  }

  lemma RgbShows(r: int, g: int, b: int)
    requires 0 <= r <= 255 && 0 <= g <= 255 && 0 <= b <= 255
    ensures Shows(Rgb(r, g, b), r, g, b)
  {
    hide DigitValue;
    DigitsValue();
  }

  // black, red, green, yellow, blue, magenta, cyan, white, and the same again brighter
  const RED: seq<int> := [0, 205, 13, 229, 36, 188, 17, 229, 102, 241, 35, 245, 59, 214, 41, 255]
  const GREEN: seq<int> := [0, 49, 188, 229, 114, 63, 168, 229, 102, 76, 209, 245, 142, 112, 184, 255]
  const BLUE: seq<int> := [0, 49, 121, 16, 200, 188, 205, 229, 102, 76, 139, 67, 234, 214, 219, 255]

  lemma CharValues()
    ensures DigitValue('0') == 0 && DigitValue('1') == 1 && DigitValue('2') == 2 && DigitValue('3') == 3 && DigitValue('4') == 4
    ensures DigitValue('5') == 5 && DigitValue('6') == 6 && DigitValue('7') == 7 && DigitValue('8') == 8 && DigitValue('9') == 9
    ensures DigitValue('a') == 10 && DigitValue('b') == 11 && DigitValue('c') == 12 && DigitValue('d') == 13 && DigitValue('e') == 14 && DigitValue('f') == 15
  {
  }

  /** A colour text by its characters. */
  lemma TextShows(color: string, a: char, b: char, c: char, d: char, e: char, f: char)
    requires color == ['#', a, b, c, d, e, f]
    ensures Shows(color, DigitValue(a) * 16 + DigitValue(b), DigitValue(c) * 16 + DigitValue(d), DigitValue(e) * 16 + DigitValue(f))
  {
    hide DigitValue;
  }

  lemma DarkShows(i: int)
    requires 0 <= i < 8
    ensures Shows(StandardColor(i), RED[i], GREEN[i], BLUE[i])
  {
    hide DigitValue, Shows;
    CharValues();
    match i
    case 0 => TextShows("#000000", '0', '0', '0', '0', '0', '0');
    case 1 => TextShows("#cd3131", 'c', 'd', '3', '1', '3', '1');
    case 2 => TextShows("#0dbc79", '0', 'd', 'b', 'c', '7', '9');
    case 3 => TextShows("#e5e510", 'e', '5', 'e', '5', '1', '0');
    case 4 => TextShows("#2472c8", '2', '4', '7', '2', 'c', '8');
    case 5 => TextShows("#bc3fbc", 'b', 'c', '3', 'f', 'b', 'c');
    case 6 => TextShows("#11a8cd", '1', '1', 'a', '8', 'c', 'd');
    case _ => TextShows("#e5e5e5", 'e', '5', 'e', '5', 'e', '5');
  }

  lemma BrightShows(i: int)
    requires 8 <= i < 16
    ensures Shows(StandardColor(i), RED[i], GREEN[i], BLUE[i])
  {
    hide DigitValue, Shows;
    CharValues();
    match i
    case 8 => TextShows("#666666", '6', '6', '6', '6', '6', '6');
    case 9 => TextShows("#f14c4c", 'f', '1', '4', 'c', '4', 'c');
    case 10 => TextShows("#23d18b", '2', '3', 'd', '1', '8', 'b');
    case 11 => TextShows("#f5f543", 'f', '5', 'f', '5', '4', '3');
    case 12 => TextShows("#3b8eea", '3', 'b', '8', 'e', 'e', 'a');
    case 13 => TextShows("#d670d6", 'd', '6', '7', '0', 'd', '6');
    case 14 => TextShows("#29b8db", '2', '9', 'b', '8', 'd', 'b');
    case _ => TextShows("#ffffff", 'f', 'f', 'f', 'f', 'f', 'f');
  }

  lemma StandardShows(i: int)
    requires 0 <= i < 16
    ensures Shows(StandardColor(i), RED[i], GREEN[i], BLUE[i])
  {
    hide Shows, StandardColor;
    if i < 8 {
      DarkShows(i);
    } else {
      BrightShows(i);
    }
  }

  // the six intensities of the colour cube
  const LEVELS: seq<int> := [0, 95, 135, 175, 215, 255]

  /** Sixteen colours of their own, a cube of six intensities each for red, green and blue, and twenty-four greys. */
  lemma IndexedShows(index: int)
    ensures IndexedColor(index).Some? <==> 0 <= index <= 255
    ensures match IndexedColor(index)
            case None => true
            case Some(color) =>
              (index < 16 && Shows(color, RED[index], GREEN[index], BLUE[index]))
              || (exists r, g, b | 0 <= r < 6 && 0 <= g < 6 && 0 <= b < 6 :: index == 16 + 36 * r + 6 * g + b && Shows(color, LEVELS[r], LEVELS[g], LEVELS[b]))
              || (exists k | 0 <= k < 24 :: index == 232 + k && Shows(color, 8 + 10 * k, 8 + 10 * k, 8 + 10 * k))
  {
    hide Shows, Rgb, StandardColor;
    if 0 <= index < 16 {
      StandardShows(index);
    } else if 16 <= index < 232 {
      var r, g, b := (index - 16) / 36, (index - 16) % 36 / 6, (index - 16) % 6;
      assert index == 16 + 36 * r + 6 * g + b;
      Levels();
      RgbShows(Channel(r), Channel(g), Channel(b));
      assert Shows(IndexedColor(index).value, LEVELS[r], LEVELS[g], LEVELS[b]);
    } else if 232 <= index <= 255 {
      RgbShows(8 + (index - 232) * 10, 8 + (index - 232) * 10, 8 + (index - 232) * 10);
      assert Shows(IndexedColor(index).value, 8 + 10 * (index - 232), 8 + 10 * (index - 232), 8 + 10 * (index - 232));
    }
  }

  lemma Levels()
    ensures forall k :: 0 <= k < 6 ==> Channel(k) == LEVELS[k]
  {
  }

  // ---------------------------------------------------------------- one parameter

  /** Which of the sixteen colours a parameter sets, counted from this base. */
  function ColorSet(code: int, base: int): Option<int> {
    if base <= code < base + 8 then Some(code - base)
    else if base + 60 <= code < base + 68 then Some(code - base - 60 + 8)
    else None
  }

  /** Set by some parameters, taken back by others and by 0, and untouched by the rest. */
  predicate Switched(code: int, on: set<int>, off: set<int>, before: bool, after: bool) {
    after == (code in on || (before && code !in off))
  }

  predicate Colored(code: int, base: int, before: string, after: string) {
    match ColorSet(code, base)
    case Some(i) => after == StandardColor(i)
    case None => after == if code == 0 || code == base + 9 then "" else before
  }

  lemma SwitchEffects(style: Style, code: int)
    ensures var next := Plain(style, code);
            && Switched(code, {1}, {0, 22}, style.bold, next.bold) && Switched(code, {2}, {0, 22}, style.dim, next.dim)
            && Switched(code, {3}, {0, 23}, style.italic, next.italic)
  {
    hide StandardColor;
  }

  lemma MoreSwitchEffects(style: Style, code: int)
    ensures var next := Plain(style, code);
            Switched(code, {4, 21}, {0, 24}, style.underline, next.underline) && Switched(code, {7}, {0, 27}, style.inverse, next.inverse)
  {
    hide StandardColor;
  }

  lemma ForegroundEffects(style: Style, code: int)
    ensures Colored(code, 30, style.fg, Plain(style, code).fg)
  {
    hide StandardColor;
  }

  lemma BackgroundEffects(style: Style, code: int)
    ensures Colored(code, 40, style.bg, Plain(style, code).bg)
  {
    hide StandardColor;
  }

  /** The ordinary parameters, each attribute on its own. */
  lemma PlainEffects(style: Style, code: int)
    ensures var next := Plain(style, code);
            && Switched(code, {1}, {0, 22}, style.bold, next.bold) && Switched(code, {2}, {0, 22}, style.dim, next.dim)
            && Switched(code, {3}, {0, 23}, style.italic, next.italic) && Switched(code, {4, 21}, {0, 24}, style.underline, next.underline)
            && Switched(code, {7}, {0, 27}, style.inverse, next.inverse)
            && Colored(code, 30, style.fg, next.fg) && Colored(code, 40, style.bg, next.bg)
  {
    hide Plain, Switched, Colored;
    SwitchEffects(style, code);
    MoreSwitchEffects(style, code);
    ForegroundEffects(style, code);
    BackgroundEffects(style, code);
  }

  // ---------------------------------------------------------------- parameters in a row

  /** Parameters are read from the front. */
  lemma {:induction false} SgrFrom(style: Style, ps: seq<int>, index: nat)
    requires index <= |ps|
    ensures Sgr(style, ps, index) == Sgr(style, ps[index..], 0)
    decreases |ps| - index
  {
    hide Plain, IndexedColor, Rgb;
    if index < |ps| {
      var rest := ps[index..];
      var n := if ps[index] == 38 || ps[index] == 48 then
                 (if ExtendedColor(ps, index).Some? then ExtendedColor(ps, index).value.1 + 1 else |rest|)
               else 1;
      ExtendedFrom(ps, index);
      var next := if ps[index] == 38 || ps[index] == 48 then
                    (if ExtendedColor(ps, index).None? then style
                     else if ps[index] == 38 then style.(fg := ExtendedColor(ps, index).value.0) else style.(bg := ExtendedColor(ps, index).value.0))
                  else Plain(style, ps[index]);
      if n < |rest| || ps[index] !in {38, 48} || ExtendedColor(ps, index).Some? {
        SgrFrom(next, ps, index + n);
        SgrFrom(next, rest, n);
        assert rest[n..] == ps[index + n..];
      }
    }
  }

  lemma ExtendedFrom(ps: seq<int>, index: nat)
    requires index < |ps|
    ensures ExtendedColor(ps, index) == ExtendedColor(ps[index..], 0)
    ensures ExtendedColor(ps, index).Some? ==> index + ExtendedColor(ps, index).value.1 < |ps|
  {
    hide IndexedColor, Rgb;
  }

  /** An ordinary parameter takes effect, and the others go on from there. */
  lemma OrdinaryParameter(style: Style, code: int, more: seq<int>)
    requires code != 38 && code != 48
    ensures Sgr(style, [code] + more, 0) == Sgr(Plain(style, code), more, 0)
  {
    SgrFrom(Plain(style, code), [code] + more, 1);
    assert ([code] + more)[1..] == more;
  }

  /** 38 and 48 with 5 take one index, with 2 three bytes, and set the foreground or the background to that colour. */
  lemma ExtendedParameters(style: Style, back: bool, index: int, r: int, g: int, b: int, more: seq<int>)
    requires 0 <= index <= 255 && 0 <= r <= 255 && 0 <= g <= 255 && 0 <= b <= 255
    ensures IndexedColor(index).Some?
    ensures var (code, color) := (if back then 48 else 38, IndexedColor(index).value);
            Sgr(style, [code, 5, index] + more, 0) == Sgr(if back then style.(bg := color) else style.(fg := color), more, 0)
    ensures var (code, color) := (if back then 48 else 38, Rgb(r, g, b));
            Sgr(style, [code, 2, r, g, b] + more, 0) == Sgr(if back then style.(bg := color) else style.(fg := color), more, 0)
  {
    hide Rgb;
    var code := if back then 48 else 38;
    IndexedShows(index);
    var color := IndexedColor(index).value;
    hide IndexedColor;
    SgrFrom(if back then style.(bg := color) else style.(fg := color), [code, 5, index] + more, 3);
    assert ([code, 5, index] + more)[3..] == more;
    SgrFrom(if back then style.(bg := Rgb(r, g, b)) else style.(fg := Rgb(r, g, b)), [code, 2, r, g, b] + more, 5);
    assert ([code, 2, r, g, b] + more)[5..] == more;
  }

  /** Anything else after 38 or 48 is malformed: the style stays, and no more is read. */
  lemma MalformedParameters(style: Style, code: int, more: seq<int>)
    requires code == 38 || code == 48
    requires !(|more| >= 2 && more[0] == 5 && 0 <= more[1] <= 255)
    requires !(|more| >= 4 && more[0] == 2 && 0 <= more[1] <= 255 && 0 <= more[2] <= 255 && 0 <= more[3] <= 255)
    ensures Sgr(style, [code] + more, 0) == (style, false)
  {
    hide Rgb;
  }

  // ---------------------------------------------------------------- the text of the parameters

  function Joined(parts: seq<Text>): Text
    requires parts != []
  {
    if |parts| == 1 then parts[0] else parts[0] + [0x3b] + Joined(parts[1..])
  }

  /** The parts are what stands between the semicolons. */
  lemma {:induction false} SplitParts(raw: Text)
    ensures Joined(Split(raw)) == raw && forall i, k :: 0 <= i < |Split(raw)| && 0 <= k < |Split(raw)[i]| ==> Split(raw)[i][k] != 0x3b
  {
    if raw != [] {
      SplitParts(raw[1..]);
      var rest := Split(raw[1..]);
      assert raw == [raw[0]] + raw[1..];
      if raw[0] == SEMICOLON {
        assert ([[]] + rest)[1..] == rest;
      } else {
        assert ([[raw[0]] + rest[0]] + rest[1..])[1..] == rest[1..];
        assert |rest| > 1 ==> [raw[0]] + rest[0] + [0x3b] + Joined(rest[1..]) == [raw[0]] + (rest[0] + [0x3b] + Joined(rest[1..]));
      }
    }
  }

  /** Each part counts as its number, an empty one as 0; one that is no number spoils them all. */
  lemma {:induction false} NumbersRead(parts: seq<Text>, number: Text -> Option<nat>)
    ensures Numbers(parts, number).None? <==> exists i :: 0 <= i < |parts| && parts[i] != [] && number(parts[i]) == None
    ensures match Numbers(parts, number)
            case None => true
            case Some(ns) => |ns| == |parts| && forall i :: 0 <= i < |parts| ==> if parts[i] == [] then ns[i] == 0 else Some(ns[i]) == number(parts[i])
  {
    if parts != [] {
      NumbersRead(parts[1..], number);
      assert forall i :: 0 < i < |parts| ==> parts[i] == parts[1..][i - 1];
      if exists i :: 0 <= i < |parts[1..]| && parts[1..][i] != [] && number(parts[1..][i]) == None {
        var i :| 0 <= i < |parts[1..]| && parts[1..][i] != [] && number(parts[1..][i]) == None;
        assert parts[i + 1] == parts[1..][i];
      }
    }
  }
}
