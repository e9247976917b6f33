/** Terminal styles, colours and the SGR parameters that change them. */
module TerminalStyle {
  import opened Wrappers
  import opened CodeUnits

  datatype Style = Style(fg: string, bg: string, bold: bool, dim: bool, italic: bool, underline: bool, inverse: bool)

  const FRESH_STYLE := Style("", "", false, false, false, false, false)

  /** A stretch of text in one style. */
  datatype StyleRun = StyleRun(start: int, end: int, style: Style)

  // ---------------------------------------------------------------- colours

  const HEX_DIGITS := "0123456789abcdef"

  function ByteHex(n: int): string
    requires 0 <= n <= 255
  {
    [HEX_DIGITS[n / 16], HEX_DIGITS[n % 16]]
  }

  function Rgb(r: int, g: int, b: int): string
    requires 0 <= r <= 255 && 0 <= g <= 255 && 0 <= b <= 255
  {
    "#" + ByteHex(r) + ByteHex(g) + ByteHex(b)
  }

  function StandardColor(i: int): string
    requires 0 <= i < 16
  {
    ["#000000", "#cd3131", "#0dbc79", "#e5e510", "#2472c8", "#bc3fbc", "#11a8cd", "#e5e5e5",
     "#666666", "#f14c4c", "#23d18b", "#f5f543", "#3b8eea", "#d670d6", "#29b8db", "#ffffff"][i]
  }

  function Channel(part: int): int {
    if part == 0 then 0 else 55 + part * 40
  }

  /** The colour of an index, for the 256 there are. */
  function IndexedColor(index: int): Option<string> {
    if !(0 <= index <= 255) then None
    else if index < 16 then Some(StandardColor(index))
    else if index < 232 then
      var offset := index - 16;
      Some(Rgb(Channel(offset / 36), Channel(offset % 36 / 6), Channel(offset % 6)))
    else Some(Rgb(8 + (index - 232) * 10, 8 + (index - 232) * 10, 8 + (index - 232) * 10))
  }

  // ---------------------------------------------------------------- SGR

  const SEMICOLON: Unit := 0x3b

  function Split(raw: Text): (parts: seq<Text>)
    ensures parts != []
  {
    if raw == [] then [[]]
    else
      var rest := Split(raw[1..]);
      if raw[0] == SEMICOLON then [[]] + rest else [[raw[0]] + rest[0]] + rest[1..]
  }

  /** The parameter parts as numbers; `number` is the numeric reading of a text, if it is a non-negative integer. */
  function Numbers(parts: seq<Text>, number: Text -> Option<nat>): Option<seq<int>> {
    if parts == [] then Some([])
    else
      var first := if parts[0] == [] then Some(0) else number(parts[0]);
      var rest := Numbers(parts[1..], number);
      if first.None? || rest.None? then None else Some([first.value] + rest.value)
  }

  function SgrParameters(raw: Text, number: Text -> Option<nat>): Option<seq<int>> {
    if raw == [] then Some([0]) else Numbers(Split(raw), number)
  }

  /** The colour an extended colour parameter gives and how many parameters it takes. */
  function ExtendedColor(ps: seq<int>, index: nat): Option<(string, nat)> {
    if index + 1 >= |ps| then None
    else if ps[index + 1] == 5 then
      if index + 2 >= |ps| || IndexedColor(ps[index + 2]).None? then None else Some((IndexedColor(ps[index + 2]).value, 2))
    else if ps[index + 1] == 2 then
      if index + 4 >= |ps| || !(0 <= ps[index + 2] <= 255 && 0 <= ps[index + 3] <= 255 && 0 <= ps[index + 4] <= 255) then None
      else Some((Rgb(ps[index + 2], ps[index + 3], ps[index + 4]), 4))
    else None
  }

  /** The effect of one ordinary parameter; unsupported ones have none. */
  function Plain(style: Style, code: int): Style {
    if code == 0 then FRESH_STYLE
    else if code == 1 then style.(bold := true)
    else if code == 2 then style.(dim := true)
    else if code == 3 then style.(italic := true)
    else if code == 4 || code == 21 then style.(underline := true)
    else if code == 7 then style.(inverse := true)
    else if code == 22 then style.(bold := false, dim := false)
    else if code == 23 then style.(italic := false)
    else if code == 24 then style.(underline := false)
    else if code == 27 then style.(inverse := false)
    else if 30 <= code <= 37 then style.(fg := StandardColor(code - 30))
    else if 40 <= code <= 47 then style.(bg := StandardColor(code - 40))
    else if 90 <= code <= 97 then style.(fg := StandardColor(code - 90 + 8))
    else if 100 <= code <= 107 then style.(bg := StandardColor(code - 100 + 8))
    else if code == 39 then style.(fg := "")
    else if code == 49 then style.(bg := "")
    else style
  }

  /** The parameters from index on; false when an extended colour is malformed, with the style reached by then. */
  function Sgr(style: Style, ps: seq<int>, index: nat): (Style, bool)
    decreases |ps| - index
  {
    if index >= |ps| then (style, true)
    else if ps[index] == 38 || ps[index] == 48 then
      var color := ExtendedColor(ps, index);
      if color.None? then (style, false)
      else Sgr(if ps[index] == 38 then style.(fg := color.value.0) else style.(bg := color.value.0), ps, index + color.value.1 + 1)
    else Sgr(Plain(style, ps[index]), ps, index + 1)
  }

  function SgrEffect(style: Style, raw: Text, number: Text -> Option<nat>): (Style, bool) {
    var ps := SgrParameters(raw, number);
    if ps.None? then (style, false) else Sgr(style, ps.value, 0)
  }

  // ---------------------------------------------------------------- canonical colours

  predicate HexDigit(c: char) {
    '0' <= c <= '9' || 'a' <= c <= 'f'
  }

  /** `#` and six lower-case hexadecimal digits, or no colour. */
  predicate CanonicalColor(color: string) {
    color == "" || (|color| == 7 && color[0] == '#' && forall i :: 1 <= i < 7 ==> HexDigit(color[i]))
  }

  predicate CanonicalStyle(style: Style) {
    CanonicalColor(style.fg) && CanonicalColor(style.bg)
  }

  lemma RgbCanonical(r: int, g: int, b: int)
    requires 0 <= r <= 255 && 0 <= g <= 255 && 0 <= b <= 255
    ensures CanonicalColor(Rgb(r, g, b)) && Rgb(r, g, b) != ""
  {
    DigitsCanonical();
  }

  lemma DigitsCanonical()
    ensures forall n :: 0 <= n < 16 ==> HexDigit(HEX_DIGITS[n])
  {
  }

  lemma StandardCanonical(i: int)
    requires 0 <= i < 16
    ensures CanonicalColor(StandardColor(i)) && StandardColor(i) != ""
  {
  }

  lemma IndexedCanonical(index: int)
    ensures IndexedColor(index).Some? ==> CanonicalColor(IndexedColor(index).value)
  {
    hide Rgb, CanonicalColor;
    if 0 <= index < 16 {
      StandardCanonical(index);
    } else if 16 <= index < 232 {
      var offset := index - 16;
      RgbCanonical(Channel(offset / 36), Channel(offset % 36 / 6), Channel(offset % 6));
    } else if 232 <= index <= 255 {
      RgbCanonical(8 + (index - 232) * 10, 8 + (index - 232) * 10, 8 + (index - 232) * 10);
    }
  }

  lemma PlainCanonical(style: Style, code: int)
    requires CanonicalStyle(style)
    ensures CanonicalStyle(Plain(style, code))
  {
    hide CanonicalColor, StandardColor;
    NoColorCanonical();
    if 30 <= code <= 37 {
      StandardCanonical(code - 30);
    } else if 40 <= code <= 47 {
      StandardCanonical(code - 40);
    } else if 90 <= code <= 97 {
      StandardCanonical(code - 90 + 8);
    } else if 100 <= code <= 107 {
      StandardCanonical(code - 100 + 8);
    }
  }

  lemma NoColorCanonical()
    ensures CanonicalColor("")
  {
  }

  /** SGR only ever produces canonical colours. */
  lemma {:induction false} SgrCanonical(style: Style, ps: seq<int>, index: nat)
    requires CanonicalStyle(style)
    ensures CanonicalStyle(Sgr(style, ps, index).0)
    decreases |ps| - index
  {
    hide CanonicalColor, Plain, Rgb, IndexedColor;
    if index < |ps| {
      if ps[index] == 38 || ps[index] == 48 {
        var color := ExtendedColor(ps, index);
        if color.Some? {
          if ps[index + 1] == 5 {
            IndexedCanonical(ps[index + 2]);
          } else {
            RgbCanonical(ps[index + 2], ps[index + 3], ps[index + 4]);
          }
          SgrCanonical(if ps[index] == 38 then style.(fg := color.value.0) else style.(bg := color.value.0), ps, index + color.value.1 + 1);
        }
      } else {
        PlainCanonical(style, ps[index]);
        SgrCanonical(Plain(style, ps[index]), ps, index + 1);
      }
    }
  }
}
