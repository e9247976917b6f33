/** How canonical JSON writes strings and orders keys. */
module JsonCanonical {
  import opened CodeUnits
  import opened JsonText

  predicate Leading(u: Unit) {
    0xd800 <= u < 0xdc00
  }

  predicate Trailing(u: Unit) {
    0xdc00 <= u < 0xe000
  }

  predicate LowerHex(u: Unit) {
    '0' as Unit <= u <= '9' as Unit || 'a' as Unit <= u <= 'f' as Unit
  }

  /** Two characters for what has a short escape, six for other controls and for half a surrogate pair, and every
      other unit as it is. */
  predicate Written(u: Unit, t: Text) {
    if u == '"' as Unit || u == '\\' as Unit then t == ['\\' as Unit, u]
    else if u == 8 then t == ['\\' as Unit, 'b' as Unit]
    else if u == 9 then t == ['\\' as Unit, 't' as Unit]
    else if u == 10 then t == ['\\' as Unit, 'n' as Unit]
    else if u == 12 then t == ['\\' as Unit, 'f' as Unit]
    else if u == 13 then t == ['\\' as Unit, 'r' as Unit]
    else if u < 0x20 || Leading(u) || Trailing(u) then
      |t| == 6 && t[0] == '\\' as Unit && t[1] == 'u' as Unit && LowerHex(t[2]) && LowerHex(t[3]) && LowerHex(t[4]) && LowerHex(t[5])
    else t == [u]
  }

  lemma HexLower(n: int)
    requires 0 <= n < 16
    ensures LowerHex(HexDigit(n))
  {
  }

  lemma UnitWritten(u: Unit)
    ensures Written(u, EscapeUnit(u))
  {
    hide HexDigit, LowerHex;
    HexLower(u / 0x1000);
    HexLower(u / 0x100 % 0x10);
    HexLower(u / 0x10 % 0x10);
    HexLower(u % 0x10);
  }

  lemma OneWritten(a: Text)
    ensures |a| == 1 ==> Written(a[0], Escape(a))
    ensures |a| == 2 && Leading(a[0]) && Trailing(a[1]) ==> Escape(a) == a
  {
    hide EscapeUnit, Written;
    if |a| == 1 {
      UnitWritten(a[0]);
      assert a[1..] == [] && EscapeUnit(a[0]) + [] == EscapeUnit(a[0]);
    } else if |a| == 2 {
      assert a[2..] == [] && a == [a[0], a[1]] + [];
    }
  }

  lemma PairFirst(high: Unit, low: Unit, rest: Text)
    requires Leading(high) && Trailing(low)
    ensures Escape([high, low] + rest) == [high, low] + Escape(rest)
  {
    hide EscapeUnit;
    assert ([high, low] + rest)[2..] == rest;
  }

  lemma UnitFirst(u: Unit, rest: Text)
    requires !(Leading(u) && rest != [] && Trailing(rest[0]))
    ensures Escape([u] + rest) == EscapeUnit(u) + Escape(rest)
  {
    hide EscapeUnit;
    assert ([u] + rest)[1..] == rest;
  }

  lemma Regrouped(a: Text, b: Text, c: Text)
    ensures a + (b + c) == a + b + c
  {
  }

  lemma {:induction false} PartsWritten(a: Text, b: Text)
    requires !(a != [] && b != [] && Leading(a[|a| - 1]) && Trailing(b[0]))
    ensures Escape(a + b) == Escape(a) + Escape(b)
    decreases |a|
  {
    hide EscapeUnit, Escape;
    if a == [] {
      assert a + b == b && Escape([]) == [] && [] + Escape(b) == Escape(b) by { EscapeNothing(b); }
    } else if |a| > 1 && Leading(a[0]) && Trailing(a[1]) {
      var pair, rest := [a[0], a[1]], a[2..];
      assert a == pair + rest;
      PartsWritten(rest, b);
      PairFirst(a[0], a[1], rest);
      PairFirst(a[0], a[1], rest + b);
      Regrouped(pair, rest, b);
      Regrouped(pair, Escape(rest), Escape(b));
    } else {
      var first, rest := [a[0]], a[1..];
      assert a == first + rest;
      PartsWritten(rest, b);
      UnitFirst(a[0], rest);
      assert rest + b != [] ==> (rest + b)[0] == if rest == [] then b[0] else rest[0];
      UnitFirst(a[0], rest + b);
      Regrouped(first, rest, b);
      Regrouped(EscapeUnit(a[0]), Escape(rest), Escape(b));
    }
  }

  lemma EscapeNothing(b: Text)
    ensures [] + b == b && Escape([]) == [] && [] + Escape(b) == Escape(b)
  {
  }

  /** Strings are written unit by unit: a single one as above, a surrogate pair as it is, and a string that is not cut
      inside of a pair part by part. */
  lemma StringWritten(a: Text, b: Text)
    ensures |a| == 1 ==> Written(a[0], Escape(a))
    ensures |a| == 2 && Leading(a[0]) && Trailing(a[1]) ==> Escape(a) == a
    ensures !(a != [] && b != [] && Leading(a[|a| - 1]) && Trailing(b[0])) ==> Escape(a + b) == Escape(a) + Escape(b)
  {
    hide Escape, Written;
    OneWritten(a);
    if !(a != [] && b != [] && Leading(a[|a| - 1]) && Trailing(b[0])) {
      PartsWritten(a, b);
    }
  }

  /** Keys are ordered by the first unit in which they differ, and a key comes before those it begins. */
  lemma {:induction false} KeyOrder(a: Text, b: Text)
    ensures Before(a, b) <==> a < b || exists k :: 0 <= k < |a| && k < |b| && a[..k] == b[..k] && a[k] < b[k]
  {
    if a != [] && b != [] && a[0] == b[0] {
      KeyOrder(a[1..], b[1..]);
      if Before(a[1..], b[1..]) && !(a[1..] < b[1..]) {
        var k :| 0 <= k < |a[1..]| && k < |b[1..]| && a[1..][..k] == b[1..][..k] && a[1..][k] < b[1..][k];
        assert a[..k + 1] == [a[0]] + a[1..][..k] && b[..k + 1] == [b[0]] + b[1..][..k];
        assert a[k + 1] < b[k + 1];
      }
      if k :| 0 <= k < |a| && k < |b| && a[..k] == b[..k] && a[k] < b[k] {
        assert k > 0 && a[1..][k - 1] < b[1..][k - 1];
        assert a[1..][..k - 1] == a[..k][1..] && b[1..][..k - 1] == b[..k][1..];
      }
    } else if a != [] && b != [] {
      assert a[..0] == b[..0];
    }
  }
}
