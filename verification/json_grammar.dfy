/** The grammar of JSON texts (RFC 8259, sections 2 to 7) as syntax trees: what a tree spells and what it means. */
module JsonGrammar {
  import opened CodeUnits
  import opened JsonText

  // ---------------------------------------------------------------- section 7: strings

  type Nibble = n: int | 0 <= n < 16

  // 0123456789abcdef
  const LOWER_DIGITS: Text := [0x30, 0x31, 0x32, 0x33, 0x34, 0x35, 0x36, 0x37, 0x38, 0x39, 0x61, 0x62, 0x63, 0x64, 0x65, 0x66]
  // 0123456789ABCDEF
  const UPPER_DIGITS: Text := [0x30, 0x31, 0x32, 0x33, 0x34, 0x35, 0x36, 0x37, 0x38, 0x39, 0x41, 0x42, 0x43, 0x44, 0x45, 0x46]

  /** A hexadecimal digit, in lower or upper case. */
  datatype HexDigit = HexDigit(value: Nibble, upper: bool)

  function HexText(d: HexDigit): Unit {
    if d.upper then UPPER_DIGITS[d.value] else LOWER_DIGITS[d.value]
  }

  /** Quotation mark, reverse solidus, solidus, backspace, form feed, line feed, carriage return, tab. */
  datatype Escape = Quotation | Reverse | Solidus | Backspace | FormFeed | LineFeed | CarriageReturn | Tab

  function EscapeLetter(e: Escape): Unit {
    match e
    case Quotation => 0x22
    case Reverse => 0x5c
    case Solidus => 0x2f
    case Backspace => 0x62
    case FormFeed => 0x66
    case LineFeed => 0x6e
    case CarriageReturn => 0x72
    case Tab => 0x74
  }

  function EscapeUnit(e: Escape): Unit {
    match e
    case Quotation => 0x22
    case Reverse => 0x5c
    case Solidus => 0x2f
    case Backspace => 0x08
    case FormFeed => 0x0c
    case LineFeed => 0x0a
    case CarriageReturn => 0x0d
    case Tab => 0x09
  }

  /** How one code unit is written in a string. */
  datatype Piece = Unescaped(u: Unit) | Short(escape: Escape) | Long(a: HexDigit, b: HexDigit, c: HexDigit, d: HexDigit)

  predicate LegalPiece(p: Piece) {
    match p
    case Unescaped(u) => 0x20 <= u <= 0x21 || 0x23 <= u <= 0x5b || 0x5d <= u
    case _ => true
  }

  function PieceText(p: Piece): Text {
    match p
    case Unescaped(u) => [u]
    case Short(e) => [0x5c, EscapeLetter(e)]
    case Long(a, b, c, d) => [0x5c, 0x75, HexText(a), HexText(b), HexText(c), HexText(d)]
  }

  function PieceUnit(p: Piece): Unit {
    match p
    case Unescaped(u) => u
    case Short(e) => EscapeUnit(e)
    case Long(a, b, c, d) => a.value * 0x1000 + b.value * 0x100 + c.value * 0x10 + d.value
  }

  predicate LegalPieces(pieces: seq<Piece>) {
    forall i :: 0 <= i < |pieces| ==> LegalPiece(pieces[i])
  }

  function BodyText(pieces: seq<Piece>): Text {
    if pieces == [] then [] else PieceText(pieces[0]) + BodyText(pieces[1..])
  }

  function BodyUnits(pieces: seq<Piece>): Text {
    if pieces == [] then [] else [PieceUnit(pieces[0])] + BodyUnits(pieces[1..])
  }

  function StringText(pieces: seq<Piece>): Text {
    [0x22] + BodyText(pieces) + [0x22]
  }

  // ---------------------------------------------------------------- section 6: numbers

  datatype Sign = NoSign | Plus | Minus
  datatype Exponent = NoExponent | Exponent(upper: bool, sign: Sign, digits: Text)
  datatype Number = Number(minus: bool, whole: Text, fraction: Text, exponent: Exponent)

  predicate Digits(t: Text) {
    forall i :: 0 <= i < |t| ==> 0x30 <= t[i] <= 0x39
  }

  /** No leading zeros, and digits wherever there are to be some; without a fraction part there is no point. */
  predicate LegalNumber(n: Number) {
    && n.whole != [] && Digits(n.whole) && (n.whole[0] == 0x30 ==> |n.whole| == 1) && Digits(n.fraction)
    && (n.exponent.Exponent? ==> n.exponent.digits != [] && Digits(n.exponent.digits))
  }

  function ExponentText(e: Exponent): Text {
    match e
    case NoExponent => []
    case Exponent(upper, sign, digits) =>
      [if upper then 0x45 else 0x65] + (match sign case NoSign => [] case Plus => [0x2b] case Minus => [0x2d]) + digits
  }

  function NumberText(n: Number): Text {
    (if n.minus then [0x2d] else []) + n.whole + (if n.fraction == [] then [] else [0x2e] + n.fraction) + ExponentText(n.exponent)
  }

  // ---------------------------------------------------------------- sections 2 to 5: values, objects, arrays

  /** Items and members come with the white space around them. */
  datatype Value = ValueNull | ValueTrue | ValueFalse | ValueNumber(number: Number) | ValueString(pieces: seq<Piece>)
    | EmptyArray(space: Text) | Array(items: Items) | EmptyObject(space: Text) | Object(members: Members)
  datatype Items = LastItem(before: Text, value: Value, after: Text) | NextItem(before: Text, value: Value, after: Text, more: Items)
  datatype Members = LastMember(before: Text, key: seq<Piece>, beforeColon: Text, afterColon: Text, value: Value, after: Text)
    | NextMember(before: Text, key: seq<Piece>, beforeColon: Text, afterColon: Text, value: Value, after: Text, more: Members)

  predicate Blank(t: Text) {
    forall i :: 0 <= i < |t| ==> t[i] == 0x20 || t[i] == 0x09 || t[i] == 0x0a || t[i] == 0x0d
  }

  function ValueText(v: Value): Text {
    match v
    case ValueNull => NULL
    case ValueTrue => TRUE
    case ValueFalse => FALSE
    case ValueNumber(n) => NumberText(n)
    case ValueString(pieces) => StringText(pieces)
    case EmptyArray(space) => [0x5b] + space + [0x5d]
    case Array(items) => [0x5b] + ItemsText(items) + [0x5d]
    case EmptyObject(space) => [0x7b] + space + [0x7d]
    case Object(members) => [0x7b] + MembersText(members) + [0x7d]
  }

  function ItemsText(items: Items): Text {
    match items
    case LastItem(before, value, after) => before + ValueText(value) + after
    case NextItem(before, value, after, more) => before + ValueText(value) + after + [0x2c] + ItemsText(more)
  }

  function MembersText(members: Members): Text {
    match members
    case LastMember(before, key, beforeColon, afterColon, value, after) =>
      before + StringText(key) + beforeColon + [0x3a] + afterColon + ValueText(value) + after
    case NextMember(before, key, beforeColon, afterColon, value, after, more) =>
      before + StringText(key) + beforeColon + [0x3a] + afterColon + ValueText(value) + after + [0x2c] + MembersText(more)
  }

  /** The value a tree stands for; a number is its text. */
  function Meaning(v: Value): Json {
    match v
    case ValueNull => JNull
    case ValueTrue => JBool(true)
    case ValueFalse => JBool(false)
    case ValueNumber(n) => JNumber(NumberText(n))
    case ValueString(pieces) => JString(BodyUnits(pieces))
    case EmptyArray(_) => JArray([])
    case Array(items) => JArray(ItemsMeaning(items))
    case EmptyObject(_) => JObject(map[])
    case Object(members) => JObject(MembersMeaning(members))
  }

  function ItemsMeaning(items: Items): seq<Json> {
    match items
    case LastItem(_, value, _) => [Meaning(value)]
    case NextItem(_, value, _, more) => [Meaning(value)] + ItemsMeaning(more)
  }

  function MembersMeaning(members: Members): map<Text, Json> {
    match members
    case LastMember(_, key, _, _, value, _) => map[BodyUnits(key) := Meaning(value)]
    case NextMember(_, key, _, _, value, _, more) => map[BodyUnits(key) := Meaning(value)] + MembersMeaning(more)
  }

  /** Well-formed, nested no deeper than this, and no object names a key twice. */
  predicate Legal(v: Value, depth: int) {
    && depth >= 0
    && match v
       case ValueNumber(n) => LegalNumber(n)
       case ValueString(pieces) => LegalPieces(pieces)
       case EmptyArray(space) => Blank(space)
       case Array(items) => LegalItems(items, depth - 1)
       case EmptyObject(space) => Blank(space)
       case Object(members) => LegalMembers(members, depth - 1)
       case _ => true
  }

  predicate LegalItems(items: Items, depth: int) {
    match items
    case LastItem(before, value, after) => Blank(before) && Legal(value, depth) && Blank(after)
    case NextItem(before, value, after, more) => Blank(before) && Legal(value, depth) && Blank(after) && LegalItems(more, depth)
  }

  predicate LegalMembers(members: Members, depth: int) {
    match members
    case LastMember(before, key, beforeColon, afterColon, value, after) =>
      Blank(before) && LegalPieces(key) && Blank(beforeColon) && Blank(afterColon) && Legal(value, depth) && Blank(after)
    case NextMember(before, key, beforeColon, afterColon, value, after, more) =>
      && Blank(before) && LegalPieces(key) && Blank(beforeColon) && Blank(afterColon) && Legal(value, depth) && Blank(after)
      && BodyUnits(key) !in MembersMeaning(more) && LegalMembers(more, depth)
  }

  /** A text is a value with white space around it. */
  predicate Spells(text: Text, before: Text, v: Value, after: Text) {
    text == before + ValueText(v) + after && Blank(before) && Blank(after) && Legal(v, MAX_JSON_DEPTH)
  }
}
