/** The text of a JSON document indented by two spaces, and how many bytes it takes in UTF-8. */
module JsonDocuments {
  import opened JsonBytes
  import Calendar

  /** A document; `Fixed` is a string of so many ASCII characters, like a digest or a time. */
  datatype Doc =
    | Null
    | Truth(value: bool)
    | Whole(n: int)
    | Words(text: string)
    | Fixed(width: nat)
    | Items(items: seq<Doc>)
    | Fields(fields: seq<Field>)

  /** Keys are names of the program, of ASCII characters. */
  datatype Field = Field(key: Key, value: Doc)
  type Key = s: string | Ascii(s)

  predicate Ascii(s: string) {
    forall i :: 0 <= i < |s| ==> s[i] < '\U{80}'
  }

  // ---------------------------------------------------------------- the text

  function Repeated(s: string, n: nat): string {
    if n == 0 then "" else s + Repeated(s, n - 1)
  }

  const HEX := "0123456789abcdef"

  /** What stands for a character in a string: short escapes, `u` escapes for the other controls. */
  function Escaped(c: char): string {
    if c == '"' then "\\\""
    else if c == '\\' then "\\\\"
    else if c == '\n' then "\\n"
    else if c == '\r' then "\\r"
    else if c == '\t' then "\\t"
    else if c as int == 8 then "\\b"
    else if c as int == 12 then "\\f"
    else if c < ' ' then "\\u00" + [HEX[c as int / 16], HEX[c as int % 16]]
    else [c]
  }

  function EscapedText(s: string): string {
    if s == "" then "" else Escaped(s[0]) + EscapedText(s[1..])
  }

  function Decimal(n: nat): string {
    if n < 10 then [HEX[n]] else Decimal(n / 10) + [HEX[n % 10]]
  }

  /** A new line, indented for this depth. */
  function Line(depth: nat): string {
    "\n" + Repeated("  ", depth)
  }

  function DocText(depth: nat, d: Doc): string
    decreases d
  {
    match d
    case Null => "null"
    case Truth(value) => if value then "true" else "false"
    case Whole(n) => if n < 0 then "-" + Decimal(-n) else Decimal(n)
    case Words(text) => "\"" + EscapedText(text) + "\""
    case Fixed(width) => "\"" + Repeated("0", width) + "\""
    case Items(items) => if items == [] then "[]" else "[" + ItemsText(depth + 1, items) + Line(depth) + "]"
    case Fields(fields) => if fields == [] then "{}" else "{" + FieldsText(depth + 1, fields) + Line(depth) + "}"
  }

  function ItemsText(depth: nat, items: seq<Doc>): string
    requires items != []
    decreases items
  {
    Line(depth) + DocText(depth, items[0]) + if |items| == 1 then "" else "," + ItemsText(depth, items[1..])
  }

  function FieldsText(depth: nat, fields: seq<Field>): string
    requires fields != []
    decreases fields
  {
    Line(depth) + "\"" + fields[0].key + "\": " + DocText(depth, fields[0].value)
    + if |fields| == 1 then "" else "," + FieldsText(depth, fields[1..])
  }

  /** The bytes of a text in UTF-8. */
  function Utf8(s: string): nat {
    if s == "" then 0
    else (if s[0] < '\U{80}' then 1 else if s[0] < '\U{800}' then 2 else if s[0] < '\U{10000}' then 3 else 4) + Utf8(s[1..])
  }

  // ---------------------------------------------------------------- its bytes

  /** The bytes of a document, added up part by part. */
  function DocBytes(depth: nat, d: Doc): nat
    decreases d
  {
    match d
    case Null => NULL
    case Truth(value) => BoolBytes(value)
    case Whole(n) => IntBytes(n)
    case Words(text) => Quoted(text)
    case Fixed(width) => 2 + width
    case Items(items) => ListFrame(depth, |items|) + ItemsBytes(depth + 1, items)
    case Fields(fields) => if fields == [] then 2 else Frame(depth, Keys(|fields|, KeyChars(fields))) + FieldsBytes(depth + 1, fields)
  }

  function ItemsBytes(depth: nat, items: seq<Doc>): nat
    decreases items
  {
    if items == [] then 0 else DocBytes(depth, items[0]) + ItemsBytes(depth, items[1..])
  }

  function FieldsBytes(depth: nat, fields: seq<Field>): nat
    decreases fields
  {
    if fields == [] then 0 else DocBytes(depth, fields[0].value) + FieldsBytes(depth, fields[1..])
  }

  function KeyChars(fields: seq<Field>): nat {
    if fields == [] then 0 else |fields[0].key| + KeyChars(fields[1..])
  }

  // ---------------------------------------------------------------- the bytes of the text

  lemma {:induction false} Utf8Together(s: string, t: string)
    ensures Utf8(s + t) == Utf8(s) + Utf8(t)
  {
    if s == "" {
      assert s + t == t;
    } else {
      Utf8Together(s[1..], t);
      assert (s + t)[1..] == s[1..] + t;
    }
  }

  lemma {:induction false} AsciiBytes(s: string)
    requires Ascii(s)
    ensures Utf8(s) == |s|
  {
    if s != "" {
      AsciiBytes(s[1..]);
    }
  }

  lemma EscapedBytes(c: char)
    ensures Utf8(Escaped(c)) == CharBytes(c)
  {
    var e := Escaped(c);
    if c == '"' || c == '\\' || c < ' ' {
      assert Ascii(e);
      AsciiBytes(e);
    } else {
      assert e[1..] == "";
    }
  }

  lemma {:induction false} WordsBytes(s: string)
    ensures Utf8(EscapedText(s)) == TextBytes(s)
  {
    hide Escaped, CharBytes;
    if s != "" {
      EscapedBytes(s[0]);
      WordsBytes(s[1..]);
      Utf8Together(Escaped(s[0]), EscapedText(s[1..]));
    }
  }

  lemma {:induction false} DecimalBytes(n: nat)
    ensures Ascii(Decimal(n)) && |Decimal(n)| == Digits(n)
  {
    if n >= 10 {
      DecimalBytes(n / 10);
    }
  }

  lemma {:induction false} RepeatedBytes(s: string, n: nat)
    requires Ascii(s)
    ensures Ascii(Repeated(s, n)) && |Repeated(s, n)| == n * |s|
  {
    if n > 0 {
      RepeatedBytes(s, n - 1);
    }
  }

  lemma LineBytes(depth: nat)
    ensures Utf8(Line(depth)) == 1 + 2 * depth
  {
    RepeatedBytes("  ", depth);
    AsciiBytes(Line(depth));
  }

  lemma QuotedBytes(text: string)
    ensures Utf8("\"" + text + "\"") == 2 + Utf8(text)
  {
    hide Utf8;
    Utf8Together("\"", text);
    Utf8Together("\"" + text, "\"");
    AsciiBytes("\"");
  }

  lemma SimpleBytes(depth: nat, d: Doc)
    requires !d.Items? && !d.Fields?
    ensures Utf8(DocText(depth, d)) == DocBytes(depth, d)
  {
    hide Utf8, EscapedText, Decimal, Repeated, Digits, TextBytes;
    match d {
      case Words(text) =>
        WordsBytes(text);
        QuotedBytes(EscapedText(text));
      case Fixed(width) =>
        RepeatedBytes("0", width);
        AsciiBytes(DocText(depth, d));
      case Whole(n) =>
        DecimalBytes(if n < 0 then -n else n);
        AsciiBytes(DocText(depth, d));
      case Truth(_) => AsciiBytes(DocText(depth, d));
      case Null => AsciiBytes(DocText(depth, d));
    }
  }

  lemma {:induction false} DocumentBytes(depth: nat, d: Doc)
    ensures Utf8(DocText(depth, d)) == DocBytes(depth, d)
    decreases d
  {
    hide Utf8;
    match d {
      case Items(items) =>
        if items == [] {
          AsciiBytes("[]");
        } else {
          ItemsTextBytes(depth + 1, items);
          LineBytes(depth);
          Enclosed("[", ItemsText(depth + 1, items), Line(depth), "]");
        }
      case Fields(fields) =>
        if fields == [] {
          AsciiBytes("{}");
        } else {
          FieldsTextBytes(depth + 1, fields);
          LineBytes(depth);
          Enclosed("{", FieldsText(depth + 1, fields), Line(depth), "}");
        }
      case _ => SimpleBytes(depth, d);
    }
  }

  lemma Enclosed(open: string, inside: string, line: string, close: string)
    requires |open| == |close| == 1 && Ascii(open) && Ascii(close)
    ensures Utf8(open + inside + line + close) == 2 + Utf8(inside) + Utf8(line)
  {
    hide Utf8;
    AsciiBytes(open);
    AsciiBytes(close);
    Utf8Together(open, inside);
    Utf8Together(open + inside, line);
    Utf8Together(open + inside + line, close);
  }

  lemma {:induction false} ItemsTextBytes(depth: nat, items: seq<Doc>)
    requires items != []
    ensures Utf8(ItemsText(depth, items)) == |items| * (2 * depth + 2) - 1 + ItemsBytes(depth, items)
    decreases items
  {
    hide Utf8, DocText, DocBytes;
    var first := Line(depth) + DocText(depth, items[0]);
    DocumentBytes(depth, items[0]);
    LineBytes(depth);
    Utf8Together(Line(depth), DocText(depth, items[0]));
    if |items| == 1 {
      assert first + "" == first && items[1..] == [];
    } else {
      ItemsTextBytes(depth, items[1..]);
      Utf8Together(first, "," + ItemsText(depth, items[1..]));
      Utf8Together(",", ItemsText(depth, items[1..]));
      AsciiBytes(",");
      assert |items| * (2 * depth + 2) == |items[1..]| * (2 * depth + 2) + (2 * depth + 2);
    }
  }

  lemma {:induction false} FieldsTextBytes(depth: nat, fields: seq<Field>)
    requires fields != []
    ensures Utf8(FieldsText(depth, fields)) == |fields| * (2 * depth + 6) - 1 + KeyChars(fields) + FieldsBytes(depth, fields)
    decreases fields
  {
    hide Utf8, DocText, DocBytes;
    var key, value := Line(depth) + "\"" + fields[0].key + "\": ", DocText(depth, fields[0].value);
    DocumentBytes(depth, fields[0].value);
    KeyBytes(depth, fields[0].key);
    Utf8Together(key, value);
    if |fields| == 1 {
      assert key + value + "" == key + value && fields[1..] == [];
    } else {
      FieldsTextBytes(depth, fields[1..]);
      Utf8Together(key + value, "," + FieldsText(depth, fields[1..]));
      Utf8Together(",", FieldsText(depth, fields[1..]));
      AsciiBytes(",");
      assert |fields| * (2 * depth + 6) == |fields[1..]| * (2 * depth + 6) + (2 * depth + 6);
    }
  }

  lemma KeyBytes(depth: nat, key: Key)
    ensures Utf8(Line(depth) + "\"" + key + "\": ") == 2 * depth + 5 + |key|
  {
    hide Utf8;
    RepeatedBytes("  ", depth);
    AsciiBytes(Line(depth) + "\"" + key + "\": ");
  }

  // ---------------------------------------------------------------- times

  lemma Years()
    ensures Calendar.DayFromYear(0) == -719528 && Calendar.DayFromYear(10000) == 2932897
  {
  }

  /** A time takes 24 characters in the years 0 to 9999, and 27 in others. */
  lemma TimesTake(at: int)
    ensures TimeBytes(at) == DocBytes(0, Fixed(if 0 <= Calendar.YearOf(at / 86400000) <= 9999 then |"YYYY-MM-DDTHH:MM:SS.mmmZ"| else |"+YYYYYY-MM-DDTHH:MM:SS.mmmZ"|))
  {
    hide Calendar.DayFromYear;
    var year := Calendar.YearOf(at / 86400000);
    Years();
    Calendar.YearsGrow(year + 1, 0);
    Calendar.YearsGrow(0, year);
    Calendar.YearsGrow(year + 1, 10000);
    Calendar.YearsGrow(10000, year);
  }
}
