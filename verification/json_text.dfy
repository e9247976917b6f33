/** JSON values, the canonical printer, and the strict parser as functions on the remaining text. */
module JsonText {
  import opened Wrappers
  import opened CodeUnits

  /** A number is kept as its numeral. */
  datatype Json = JNull | JBool(value: bool) | JNumber(numeral: Text) | JString(text: Text)
    | JArray(items: seq<Json>) | JObject(fields: map<Text, Json>)

  const MAX_JSON_DEPTH := 16

  const QUOTE: Unit := 0x22
  const BACKSLASH: Unit := 0x5c
  const COMMA: Unit := 0x2c
  const COLON: Unit := 0x3a
  const OPEN_BRACKET: Unit := 0x5b
  const CLOSE_BRACKET: Unit := 0x5d
  const OPEN_BRACE: Unit := 0x7b
  const CLOSE_BRACE: Unit := 0x7d
  const TRUE: Text := [0x74, 0x72, 0x75, 0x65]
  const FALSE: Text := [0x66, 0x61, 0x6c, 0x73, 0x65]
  const NULL: Text := [0x6e, 0x75, 0x6c, 0x6c]

  // ---------------------------------------------------------------- string literals

  predicate High(u: Unit) {
    0xd800 <= u <= 0xdbff
  }

  predicate Low(u: Unit) {
    0xdc00 <= u <= 0xdfff
  }

  /** The letter of a two-character escape, for the code units that have one. */
  function ShortEscape(u: Unit): Option<Unit> {
    if u == 0x08 then Some(0x62)
    else if u == 0x09 then Some(0x74)
    else if u == 0x0a then Some(0x6e)
    else if u == 0x0c then Some(0x66)
    else if u == 0x0d then Some(0x72)
    else if u == QUOTE || u == BACKSLASH then Some(u)
    else None
  }

  function HexDigit(n: int): Unit
    requires 0 <= n < 16
  {
    if n < 10 then 0x30 + n else 0x61 + n - 10
  }

  function UnicodeEscape(u: Unit): Text {
    [BACKSLASH, 0x75, HexDigit(u / 0x1000), HexDigit(u / 0x100 % 0x10), HexDigit(u / 0x10 % 0x10), HexDigit(u % 0x10)]
  }

  function EscapeUnit(u: Unit): Text {
    if ShortEscape(u).Some? then [BACKSLASH, ShortEscape(u).value]
    else if u < 0x20 || High(u) || Low(u) then UnicodeEscape(u)
    else [u]
  }

  /** Well-formed `JSON.stringify` of a string, without the quotes: surrogate pairs stay, lone ones are escaped. */
  function Escape(t: Text): Text {
    if t == [] then []
    else if |t| > 1 && High(t[0]) && Low(t[1]) then [t[0], t[1]] + Escape(t[2..])
    else EscapeUnit(t[0]) + Escape(t[1..])
  }

  function Quoted(t: Text): Text {
    [QUOTE] + Escape(t) + [QUOTE]
  }

  // ---------------------------------------------------------------- canonical printing

  /** The order `sort` puts keys in: code unit by code unit. */
  predicate Before(a: Text, b: Text) {
    b != [] && (a == [] || a[0] < b[0] || (a[0] == b[0] && Before(a[1..], b[1..])))
  }

  predicate Sorted(keys: seq<Text>) {
    forall i, j :: 0 <= i < j < |keys| ==> Before(keys[i], keys[j])
  }

  lemma {:induction false} BeforeTotal(a: Text, b: Text)
    ensures a == b || Before(a, b) || Before(b, a)
    ensures !(Before(a, b) && Before(b, a)) && !Before(a, a)
  {
    if a != [] && b != [] && a[0] == b[0] {
      BeforeTotal(a[1..], b[1..]);
      assert a == [a[0]] + a[1..] && b == [b[0]] + b[1..];
    }
    if a != [] {
      BeforeTotal(a[1..], a[1..]);
    }
  }

  lemma {:induction false} BeforeTransitive(a: Text, b: Text, c: Text)
    requires Before(a, b) && Before(b, c)
    ensures Before(a, c)
  {
    if a != [] && a[0] == b[0] && b[0] == c[0] {
      BeforeTransitive(a[1..], b[1..], c[1..]);
    }
  }

  predicate Least(key: Text, keys: set<Text>) {
    key in keys && forall k :: k in keys && k != key ==> Before(key, k)
  }

  lemma {:induction false} LeastExists(keys: set<Text>)
    requires keys != {}
    ensures exists key :: Least(key, keys)
    decreases |keys|
  {
    var k :| k in keys;
    var rest := keys - {k};
    if rest == {} {
      assert keys == {k} && Least(k, keys);
    } else {
      LeastExists(rest);
      var other :| Least(other, rest);
      BeforeTotal(k, other);
      if Before(k, other) {
        forall j | j in keys && j != k && j != other ensures Before(k, j) {
          assert j in rest;
          BeforeTransitive(k, other, j);
        }
        assert Least(k, keys);
      } else {
        assert Least(other, keys);
      }
    }
  }

  /** The keys of an object in sorted order. */
  ghost function SortedKeys(keys: set<Text>): (sorted: seq<Text>)
    ensures Sorted(sorted) && forall k :: k in sorted <==> k in keys
    decreases |keys|
  {
    if keys == {} then []
    else
      LeastExists(keys);
      var least :| Least(least, keys);
      var rest := SortedKeys(keys - {least});
      assert forall k :: k in rest ==> k in keys && k != least && Before(least, k);
      assert forall i :: 0 <= i < |rest| ==> rest[i] in rest;
      [least] + rest
  }

  lemma NoKeys(keys: seq<Text>)
    ensures (forall k :: k !in keys) ==> keys == []
  {
    if keys != [] {
      assert keys[0] in keys;
    }
  }

  /** Sorting puts any enumeration of the keys in this one order. */
  lemma {:induction false} SortedUnique(a: seq<Text>, b: seq<Text>)
    requires Sorted(a) && Sorted(b) && forall k :: k in a <==> k in b
    ensures a == b
  {
    if a == [] || b == [] {
      NoKeys(if a == [] then b else a);
    } else {
      BeforeTotal(a[0], b[0]);
      assert a[0] in b && b[0] in a;
      assert a[0] == b[0];
      BeforeTotal(a[0], a[0]);
      forall k ensures k in a[1..] <==> k in b[1..] {
        assert k in a[1..] ==> k in b && Before(a[0], k);
        assert k in b[1..] ==> k in a && Before(b[0], k);
        BeforeTotal(k, k);
      }
      SortedUnique(a[1..], b[1..]);
      assert a == [a[0]] + a[1..] && b == [b[0]] + b[1..];
    }
  }

  ghost function Print(v: Json): Text
    decreases v, 1, 0
  {
    match v
    case JNull => NULL
    case JBool(b) => if b then TRUE else FALSE
    case JNumber(n) => n
    case JString(t) => Quoted(t)
    case JArray(items) => [OPEN_BRACKET] + PrintItems(v, 0) + [CLOSE_BRACKET]
    case JObject(fields) => [OPEN_BRACE] + PrintMembers(v, SortedKeys(fields.Keys)) + [CLOSE_BRACE]
  }

  /** The items from position i on, separated by commas. */
  ghost function PrintItems(v: Json, i: nat): Text
    requires v.JArray? && i <= |v.items|
    decreases v, 0, |v.items| - i
  {
    if i == |v.items| then []
    else Print(v.items[i]) + (if i + 1 < |v.items| then [COMMA] else []) + PrintItems(v, i + 1)
  }

  ghost function PrintMembers(v: Json, keys: seq<Text>): Text
    requires v.JObject? && forall k :: k in keys ==> k in v.fields
    decreases v, 0, |keys|
  {
    if keys == [] then []
    else
      Quoted(keys[0]) + [COLON] + Print(v.fields[keys[0]]) + (if |keys| > 1 then [COMMA] else [])
      + PrintMembers(v, keys[1..])
  }

  /** Nesting that the parser counts: a container with something in it is one deeper than its contents. */
  ghost function Height(v: Json): nat
    decreases v, 1, 0
  {
    match v
    case JArray(items) => ItemsHeight(v, 0)
    case JObject(fields) => MembersHeight(v, SortedKeys(fields.Keys))
    case _ => 0
  }

  ghost function ItemsHeight(v: Json, i: nat): nat
    requires v.JArray? && i <= |v.items|
    decreases v, 0, |v.items| - i
  {
    if i == |v.items| then 0
    else
      var first, rest := 1 + Height(v.items[i]), ItemsHeight(v, i + 1);
      if first < rest then rest else first
  }

  ghost function MembersHeight(v: Json, keys: seq<Text>): nat
    requires v.JObject? && forall k :: k in keys ==> k in v.fields
    decreases v, 0, |keys|
  {
    if keys == [] then 0
    else
      var first, rest := 1 + Height(v.fields[keys[0]]), MembersHeight(v, keys[1..]);
      if first < rest then rest else first
  }
}
