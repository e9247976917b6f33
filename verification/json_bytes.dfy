/** Bytes of JSON text indented by two spaces, in UTF-8. */
module JsonBytes {
  import opened Wrappers

  function Digits(n: nat): nat {
    if n < 10 then 1 else 1 + Digits(n / 10)
  }

  function IntBytes(n: int): nat {
    if n < 0 then 1 + Digits(-n) else Digits(n)
  }

  /** One character of a string: quotes, backslashes and controls are escaped. */
  function CharBytes(c: char): nat {
    if c == '"' || c == '\\' || c as int in {8, 9, 10, 12, 13} then 2
    else if c < ' ' then 6
    else if c < '\U{80}' then 1
    else if c < '\U{800}' then 2
    else if c < '\U{10000}' then 3
    else 4
  }

  function TextBytes(s: string): nat {
    if s == "" then 0 else CharBytes(s[0]) + TextBytes(s[1..])
  }

  function Quoted(s: string): nat {
    2 + TextBytes(s)
  }

  /** A name of the program, of letters and underscores. */
  function Name(s: string): nat {
    2 + |s|
  }

  const NULL := 4
  const EMPTY_TEXT := 2
  const DIGEST := 66

  function BoolBytes(b: bool): nat {
    if b then 4 else 5
  }

  /** An ISO time: years outside of 0 to 9999 are written with a sign and six digits. */
  function TimeBytes(at: int): nat {
    if -62167219200000 <= at < 253402300800000 then 26 else 29
  }

  function OptionalTime(at: Option<int>): nat {
    if at.Some? then TimeBytes(at.value) else NULL
  }

  /** The keys of an object: how many there are, and their characters. */
  datatype Keys = Keys(count: nat, chars: nat)

  /** An object inside of so many others: braces, indents, quoted keys, commas and newlines, but no values. */
  function Frame(depth: nat, keys: Keys): nat {
    2 * depth + 2 + keys.count * (2 * depth + 8) + keys.chars
  }

  /** The same for an array of n items. */
  function ListFrame(depth: nat, n: nat): nat {
    if n == 0 then 2 else 2 * depth + 2 + n * (2 * depth + 4)
  }

  function TextsSum(texts: seq<string>): nat {
    if texts == [] then 0 else TextsSum(texts[..|texts| - 1]) + Quoted(texts[|texts| - 1])
  }

  function TextsBytes(depth: nat, texts: seq<string>): nat {
    ListFrame(depth, |texts|) + TextsSum(texts)
  }

  // ---------------------------------------------------------------- texts and numbers

  lemma NoText()
    ensures Quoted("") == EMPTY_TEXT
  {
  }

  /** A text of letters and spaces is as long as it looks. */
  lemma {:induction false} PlainText(s: string)
    requires forall i :: 0 <= i < |s| ==> ' ' <= s[i] < '\U{80}' && s[i] != '"' && s[i] != '\\'
    ensures TextBytes(s) == |s|
  {
    if s != "" {
      assert CharBytes(s[0]) == 1;
      PlainText(s[1..]);
    }
  }

  lemma {:induction false} TextTogether(s: string, t: string)
    ensures TextBytes(s + t) == TextBytes(s) + TextBytes(t)
  {
    if s == "" {
      assert s + t == t;
    } else {
      TextTogether(s[1..], t);
      assert (s + t)[1..] == s[1..] + t;
    }
  }

  lemma {:induction false} DigitsGrow(n: nat)
    ensures Digits(n) <= Digits(n + 1) <= Digits(n) + 1
  {
    if n >= 10 {
      if (n + 1) / 10 == n / 10 + 1 {
        DigitsGrow(n / 10);
      } else {
        assert (n + 1) / 10 == n / 10;
      }
    }
  }

  lemma NextInt(n: int)
    ensures IntBytes(n + 1) <= IntBytes(n) + 1
  {
    hide Digits;
    if n >= 0 {
      DigitsGrow(n);
    } else if n < -1 {
      DigitsGrow(-n - 1);
    } else {
      assert Digits(0) == Digits(1) == 1 by { OneDigit(); }
    }
  }

  lemma OneDigit()
    ensures Digits(0) == Digits(1) == 1
  {
  }
}
