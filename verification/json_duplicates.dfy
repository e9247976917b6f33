/** Strict parsing is permissive parsing plus distinct keys at every level. */
module JsonDuplicates {
  import opened Errors
  import opened Wrappers
  import opened CodeUnits
  import opened JsonText
  import opened JsonParser

  /** A parsed text with every member it spells out, repeated keys included. */
  datatype Raw = RNull | RBool(value: bool) | RNumber(numeral: Text) | RString(text: Text) | RArray(items: seq<Raw>) | RObject(members: seq<Member>)
  datatype Member = Member(key: Text, value: Raw)

  function RawValue(s: Text, depth: int): (r: Result<(Raw, Text)>)
    ensures r.Ok? ==> |r.value.1| < |s|
    decreases |s|, 2
  {
    var shallow := depth <= MAX_JSON_DEPTH;
    if !shallow then Err(ReportJsonDepthExceeded) else
    var t := AfterSpace(s);
    if Starts(t, QUOTE) then
      var (text, rest) :- ParseString(t);
      Ok((RString(text), rest))
    else if Starts(t, OPEN_BRACE) then
      var u := AfterSpace(t[1..]);
      if Starts(u, CLOSE_BRACE) then Ok((RObject([]), u[1..])) else RawMembers(u, depth + 1, [])
    else if Starts(t, OPEN_BRACKET) then
      var u := AfterSpace(t[1..]);
      if Starts(u, CLOSE_BRACKET) then Ok((RArray([]), u[1..])) else RawItems(u, depth + 1, [])
    else if TRUE <= t then Ok((RBool(true), t[4..]))
    else if FALSE <= t then Ok((RBool(false), t[5..]))
    else if NULL <= t then Ok((RNull, t[4..]))
    else
      var n := NumeralLength(t);
      if n == 0 then Err(ReportJsonInvalid) else
      Ok((RNumber(t[..n]), t[n..]))
  }

  function RawMembers(s: Text, depth: int, members: seq<Member>): (r: Result<(Raw, Text)>)
    ensures r.Ok? ==> |r.value.1| < |s|
    ensures r.Ok? ==> r.value.0.RObject? && members <= r.value.0.members
    decreases |s|, 0
  {
    var (key, afterKey) :- ParseString(AfterSpace(s));
    var colon := AfterSpace(afterKey);
    if !Starts(colon, COLON) then Err(ReportJsonInvalid) else
    var (value, afterValue) :- RawValue(colon[1..], depth);
    var next := AfterSpace(afterValue);
    if Starts(next, CLOSE_BRACE) then Ok((RObject(members + [Member(key, value)]), next[1..]))
    else
      if !Starts(next, COMMA) then Err(ReportJsonInvalid) else
      RawMembers(next[1..], depth, members + [Member(key, value)])
  }

  function RawItems(s: Text, depth: int, items: seq<Raw>): (r: Result<(Raw, Text)>)
    ensures r.Ok? ==> |r.value.1| < |s|
    ensures r.Ok? ==> r.value.0.RArray? && items <= r.value.0.items
    decreases |s|, 3
  {
    var some := s != [];
    if !some then Err(ReportJsonInvalid) else
    var (value, afterValue) :- RawValue(s, depth);
    var next := AfterSpace(afterValue);
    if Starts(next, CLOSE_BRACKET) then Ok((RArray(items + [value]), next[1..]))
    else
      if !Starts(next, COMMA) then Err(ReportJsonInvalid) else
      RawItems(next[1..], depth, items + [value])
  }

  function RawText(text: Text): Result<Raw> {
    var (value, rest) :- RawValue(text, 0);
    if AfterSpace(rest) != [] then Err(ReportJsonInvalid) else
    Ok(value)
  }

  /** No object, at any level, spells the same key twice. */
  predicate DistinctKeys(raw: Raw) {
    match raw
    case RArray(items) => forall i :: 0 <= i < |items| ==> DistinctKeys(items[i])
    case RObject(members) =>
      && (forall i :: 0 <= i < |members| ==> DistinctKeys(members[i].value))
      && (forall i, j :: 0 <= i < j < |members| ==> members[i].key != members[j].key)
    case _ => true
  }

  function Meaning(raw: Raw): Json {
    match raw
    case RNull => JNull
    case RBool(b) => JBool(b)
    case RNumber(n) => JNumber(n)
    case RString(t) => JString(t)
    case RArray(items) => JArray(seq(|items|, i requires 0 <= i < |items| => Meaning(items[i])))
    case RObject(members) => JObject(Fields(raw, |members|))
  }

  /** The fields the first n members give. */
  function Fields(raw: Raw, n: nat): map<Text, Json>
    requires raw.RObject? && n <= |raw.members|
    decreases raw, 0, n
  {
    if n == 0 then map[] else Fields(raw, n - 1)[raw.members[n - 1].key := Meaning(raw.members[n - 1].value)]
  }

  lemma {:induction false} FieldsPrefix(raw: Raw, more: Raw, n: nat)
    requires raw.RObject? && more.RObject? && raw.members <= more.members && n <= |raw.members|
    ensures Fields(raw, n) == Fields(more, n)
  {
    if n > 0 {
      FieldsPrefix(raw, more, n - 1);
    }
  }

  lemma {:induction false} FieldsKeys(raw: Raw, n: nat)
    requires raw.RObject? && n <= |raw.members|
    ensures forall k :: k in Fields(raw, n) <==> exists i :: 0 <= i < n && raw.members[i].key == k
  {
    if n > 0 {
      FieldsKeys(raw, n - 1);
    }
  }

  /** What strict parsing makes of a text that permissive parsing reads. */
  predicate Agrees(strict: Result<(Json, Text)>, raw: Result<(Raw, Text)>) {
    match raw
    case Err(_) => strict.Err?
    case Ok(parsed) => if DistinctKeys(parsed.0) then strict == Ok((Meaning(parsed.0), parsed.1)) else strict == Err(ReportJsonDuplicateKey)
  }

  lemma {:induction false} ValueAgrees(s: Text, depth: int)
    ensures Agrees(ParseValue(s, depth), RawValue(s, depth))
    decreases |s|, 2
  {
    hide ParseMembers, ParseItems, RawMembers, RawItems, NumeralLength, ParseString, Agrees;
    var t := AfterSpace(s);
    if depth > MAX_JSON_DEPTH {
      BothFail(ParseValue(s, depth), RawValue(s, depth));
    } else if Starts(t, QUOTE) || (!Starts(t, OPEN_BRACE) && !Starts(t, OPEN_BRACKET)) {
      ScalarAgrees(s, depth);
    } else {
      var u := AfterSpace(t[1..]);
      if Starts(t, OPEN_BRACE) {
        MembersAgree(u, depth + 1, []);
        EmptyObject(u);
      } else {
        ItemsAgree(u, depth + 1, []);
        EmptyArray(u);
      }
    }
  }

  lemma BothFail(strict: Result<(Json, Text)>, raw: Result<(Raw, Text)>)
    requires strict.Err? && raw.Err?
    ensures Agrees(strict, raw)
  {
  }

  lemma EmptyObject(u: Text)
    ensures u != [] ==> Agrees(Ok((JObject(map[]), u[1..])), Ok((RObject([]), u[1..])))
    ensures Fields(RObject([]), 0) == map[]
  {
  }

  lemma EmptyArray(u: Text)
    ensures u != [] ==> Agrees(Ok((JArray([]), u[1..])), Ok((RArray([]), u[1..])))
    ensures Meaning(RArray([])) == JArray([])
  {
    assert Meaning(RArray([])).items == [];
  }

  lemma ScalarAgrees(s: Text, depth: int)
    requires depth <= MAX_JSON_DEPTH
    requires Starts(AfterSpace(s), QUOTE) || (!Starts(AfterSpace(s), OPEN_BRACE) && !Starts(AfterSpace(s), OPEN_BRACKET))
    ensures Agrees(ParseValue(s, depth), RawValue(s, depth))
  {
    hide NumeralLength, ParseString;
  }

  /** A later member cannot repair a repeated key. */
  lemma PrefixDistinct(ms: seq<Member>, raw: Raw)
    requires raw.RObject? && ms <= raw.members && DistinctKeys(raw)
    ensures DistinctKeys(RObject(ms))
  {
  }

  lemma ItemsDistinct(items: seq<Raw>, raw: Raw)
    requires raw.RArray? && items <= raw.items && DistinctKeys(raw)
    ensures DistinctKeys(RArray(items))
  {
  }

  lemma MemberAdded(ms: seq<Member>, m: Member)
    requires DistinctKeys(RObject(ms))
    ensures DistinctKeys(RObject(ms + [m])) <==> DistinctKeys(m.value) && m.key !in Fields(RObject(ms), |ms|)
  {
    hide Fields, Meaning;
    var more := RObject(ms + [m]);
    FieldsKeys(RObject(ms), |ms|);
    assert more.members[|ms|] == m;
    assert forall i :: 0 <= i < |ms| ==> more.members[i] == ms[i];
    if DistinctKeys(more) {
      assert forall i :: 0 <= i < |ms| ==> ms[i].key != m.key;
    }
  }

  lemma FieldAdded(ms: seq<Member>, m: Member)
    ensures Fields(RObject(ms + [m]), |ms| + 1) == Fields(RObject(ms), |ms|)[m.key := Meaning(m.value)]
  {
    var more := RObject(ms + [m]);
    FieldsPrefix(RObject(ms), more, |ms|);
    assert more.members[|ms|] == m;
  }

  lemma ItemAdded(items: seq<Raw>, item: Raw)
    requires DistinctKeys(RArray(items))
    ensures DistinctKeys(RArray(items + [item])) <==> DistinctKeys(item)
    ensures Meaning(RArray(items + [item])) == JArray(Meaning(RArray(items)).items + [Meaning(item)])
  {
    var more := items + [item];
    assert more[|items|] == item;
    assert forall i :: 0 <= i < |items| ==> more[i] == items[i];
  }

  lemma {:induction false} MembersAgree(s: Text, depth: int, ms: seq<Member>)
    requires DistinctKeys(RObject(ms))
    ensures Agrees(ParseMembers(s, depth, Fields(RObject(ms), |ms|)), RawMembers(s, depth, ms))
    decreases |s|, 0
  {
    hide ParseValue, RawValue, ParseString, Fields, DistinctKeys, Meaning;
    var key := ParseString(AfterSpace(s));
    if key.Ok? {
      var colon := AfterSpace(key.value.1);
      if Starts(colon, COLON) {
        ValueAgrees(colon[1..], depth);
        var value := RawValue(colon[1..], depth);
        if value.Ok? {
          var m := Member(key.value.0, value.value.0);
          var next := AfterSpace(value.value.1);
          MemberAdded(ms, m);
          FieldAdded(ms, m);
          ObjectMeaning(ms + [m]);
          if DistinctKeys(RObject(ms + [m])) {
            if Starts(next, COMMA) {
              MembersAgree(next[1..], depth, ms + [m]);
            }
          } else if RawMembers(s, depth, ms).Ok? {
            var raw := RawMembers(s, depth, ms).value.0;
            assert ms + [m] <= raw.members;
            if DistinctKeys(raw) {
              PrefixDistinct(ms + [m], raw);
            }
          }
        }
      }
    }
  }

  lemma ObjectMeaning(ms: seq<Member>)
    ensures Meaning(RObject(ms)) == JObject(Fields(RObject(ms), |ms|))
  {
  }

  lemma {:induction false} ItemsAgree(s: Text, depth: int, items: seq<Raw>)
    requires DistinctKeys(RArray(items))
    ensures Agrees(ParseItems(s, depth, Meaning(RArray(items)).items), RawItems(s, depth, items))
    decreases |s|, 3
  {
    hide ParseValue, RawValue, DistinctKeys, Meaning;
    if s != [] {
      ValueAgrees(s, depth);
      var value := RawValue(s, depth);
      if value.Ok? {
        var item, next := value.value.0, AfterSpace(value.value.1);
        ItemAdded(items, item);
        if DistinctKeys(item) {
          if Starts(next, COMMA) {
            ItemsAgree(next[1..], depth, items + [item]);
          }
        } else if RawItems(s, depth, items).Ok? {
          var raw := RawItems(s, depth, items).value.0;
          assert items + [item] <= raw.items;
          if DistinctKeys(raw) {
            ItemsDistinct(items + [item], raw);
          }
        }
      }
    }
  }

  /** The strict parser accepts exactly the texts the permissive one reads without a repeated key, with
      the same meaning; a text that only repeats a key is refused for that reason. */
  lemma StrictIsPermissiveAndDistinct(text: Text)
    ensures match RawText(text)
            case Err(_) => ParseText(text).Err?
            case Ok(raw) => ParseText(text) == if DistinctKeys(raw) then Ok(Meaning(raw)) else Err(ReportJsonDuplicateKey)
  {
    hide ParseValue, RawValue, DistinctKeys, Meaning;
    ValueAgrees(text, 0);
  }
}
