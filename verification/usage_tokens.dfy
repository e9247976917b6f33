/** Token counts: saturating sums of canonical usage form a commutative monoid. */
module UsageTokens {

  const MAX_SAFE_INTEGER := 9007199254740991

  datatype Tokens = Tokens(input: int, cachedInput: int, output: int, reasoningOutput: int, total: int)

  const ZERO := Tokens(0, 0, 0, 0, 0)

  function Min(a: int, b: int): int {
    if a < b then a else b
  }

  /** Anything but a safe non-negative integer counts as nothing. */
  function TokenCount(n: int): int {
    if 0 <= n <= MAX_SAFE_INTEGER then n else 0
  }

  function Canonical(input: int, cachedInput: int, output: int, reasoningOutput: int): (t: Tokens)
    ensures ValidTokens(t)
  {
    var i, o := TokenCount(input), TokenCount(output);
    Tokens(i, Min(i, TokenCount(cachedInput)), o, Min(o, TokenCount(reasoningOutput)), Min(MAX_SAFE_INTEGER, i + o))
  }

  predicate ValidTokens(t: Tokens) {
    && 0 <= t.input <= MAX_SAFE_INTEGER && 0 <= t.cachedInput <= t.input
    && 0 <= t.output <= MAX_SAFE_INTEGER && 0 <= t.reasoningOutput <= t.output
    && t.total == Min(MAX_SAFE_INTEGER, t.input + t.output)
  }

  function AddTokens(a: Tokens, b: Tokens): (sum: Tokens)
    ensures ValidTokens(sum)
  {
    Canonical(Min(MAX_SAFE_INTEGER, a.input + b.input), Min(MAX_SAFE_INTEGER, a.cachedInput + b.cachedInput),
              Min(MAX_SAFE_INTEGER, a.output + b.output), Min(MAX_SAFE_INTEGER, a.reasoningOutput + b.reasoningOutput))
  }

  /** The growth since the previous counters; nothing when any counter went back. */
  function SubtractTokens(current: Tokens, previous: Tokens): (delta: Tokens)
    ensures ValidTokens(delta)
  {
    if current.input < previous.input || current.cachedInput < previous.cachedInput || current.output < previous.output
       || current.reasoningOutput < previous.reasoningOutput || current.total < previous.total
    then ZERO
    else Canonical(current.input - previous.input, current.cachedInput - previous.cachedInput,
                   current.output - previous.output, current.reasoningOutput - previous.reasoningOutput)
  }

  predicate HasTokens(t: Tokens) {
    t.input > 0 || t.cachedInput > 0 || t.output > 0 || t.reasoningOutput > 0 || t.total > 0
  }

  lemma AddCommutes(a: Tokens, b: Tokens)
    ensures AddTokens(a, b) == AddTokens(b, a)
  {
  }

  /** Saturation does not depend on how the sum is bracketed. */
  lemma AddAssociates(a: Tokens, b: Tokens, c: Tokens)
    requires ValidTokens(a) && ValidTokens(b) && ValidTokens(c)
    ensures AddTokens(AddTokens(a, b), c) == AddTokens(a, AddTokens(b, c))
  {
  }

  lemma AddZero(a: Tokens)
    requires ValidTokens(a)
    ensures AddTokens(a, ZERO) == a && AddTokens(ZERO, a) == a
  {
  }

  lemma AddSwap(a: Tokens, b: Tokens, c: Tokens)
    requires ValidTokens(a) && ValidTokens(b) && ValidTokens(c)
    ensures AddTokens(AddTokens(a, b), c) == AddTokens(AddTokens(a, c), b)
  {
    AddAssociates(a, b, c);
    AddCommutes(b, c);
    AddAssociates(a, c, b);
  }

  /** A sum is empty only when both parts are. */
  lemma AddHasTokens(a: Tokens, b: Tokens)
    requires ValidTokens(a) && ValidTokens(b)
    ensures HasTokens(AddTokens(a, b)) <==> HasTokens(a) || HasTokens(b)
    ensures !HasTokens(a) <==> a == ZERO
  {
  }

  /** Growing counters lose nothing: previous counters and growth give the current ones, up to the
      cached and reasoning parts, which never exceed the growth they belong to. */
  lemma GrowthAddsBack(current: Tokens, previous: Tokens)
    requires ValidTokens(current) && ValidTokens(previous)
    requires previous.input <= current.input && previous.cachedInput <= current.cachedInput && previous.output <= current.output
             && previous.reasoningOutput <= current.reasoningOutput
    ensures var sum := AddTokens(previous, SubtractTokens(current, previous));
            sum.input == current.input && sum.output == current.output && sum.total == current.total
            && sum.cachedInput <= current.cachedInput && sum.reasoningOutput <= current.reasoningOutput
  {
  }

  // ---------------------------------------------------------------- sums over sources

  ghost predicate AllValid(m: map<string, Tokens>) {
    forall k :: k in m ==> ValidTokens(m[k])
  }

  ghost function MapSum(m: map<string, Tokens>): (sum: Tokens)
    ensures ValidTokens(sum)
    decreases |m|
  {
    if m == map[] then ZERO else var k :| k in m; AddTokens(m[k], MapSum(m - {k}))
  }

  lemma {:induction false} MapSumRemove(m: map<string, Tokens>, k: string)
    requires AllValid(m) && k in m
    ensures MapSum(m) == AddTokens(m[k], MapSum(m - {k}))
    decreases |m|
  {
    hide AddTokens, ValidTokens;
    var j :| j in m && MapSum(m) == AddTokens(m[j], MapSum(m - {j}));
    if j != k {
      MapSumRemove(m - {j}, k);
      MapSumRemove(m - {k}, j);
      assert m - {j} - {k} == m - {k} - {j};
      var rest := MapSum(m - {j} - {k});
      AddAssociates(m[j], m[k], rest);
      AddCommutes(m[j], m[k]);
      AddAssociates(m[k], m[j], rest);
    }
  }

  /** Adding to one source's part adds to the sum. */
  lemma MapSumAdd(m: map<string, Tokens>, k: string, x: Tokens)
    requires AllValid(m) && ValidTokens(x)
    ensures MapSum(m[k := AddTokens(if k in m then m[k] else ZERO, x)]) == AddTokens(MapSum(m), x)
  {
    hide AddTokens, ValidTokens;
    var part := if k in m then m[k] else ZERO;
    assert ValidTokens(ZERO) by { ZeroValid(); }
    var m' := m[k := AddTokens(part, x)];
    MapSumRemove(m', k);
    assert m' - {k} == m - {k};
    var rest := MapSum(m - {k});
    if k in m {
      MapSumRemove(m, k);
      AddSwap(part, rest, x);
    } else {
      assert m - {k} == m;
      AddZero(x);
      AddCommutes(x, rest);
    }
  }

  lemma ZeroValid()
    ensures ValidTokens(ZERO)
  {
  }

  // ---------------------------------------------------------------- counts over sources

  ghost function CountSum(m: map<string, nat>): nat
    decreases |m|
  {
    if m == map[] then 0 else var k :| k in m; m[k] + CountSum(m - {k})
  }

  lemma {:induction false} CountSumRemove(m: map<string, nat>, k: string)
    requires k in m
    ensures CountSum(m) == m[k] + CountSum(m - {k})
    decreases |m|
  {
    var j :| j in m && CountSum(m) == m[j] + CountSum(m - {j});
    if j != k {
      CountSumRemove(m - {j}, k);
      CountSumRemove(m - {k}, j);
      assert m - {j} - {k} == m - {k} - {j};
    }
  }

  lemma CountSumAdd(m: map<string, nat>, k: string, n: nat)
    ensures CountSum(m[k := (if k in m then m[k] else 0) + n]) == CountSum(m) + n
  {
    var m' := m[k := (if k in m then m[k] else 0) + n];
    CountSumRemove(m', k);
    assert m' - {k} == m - {k};
    if k in m {
      CountSumRemove(m, k);
    } else {
      assert m - {k} == m;
    }
  }

  /** Growth is counted only when no counter went back; a restarted counter gives nothing until it grows again. */
  lemma GrowthOrNothing(current: Tokens, previous: Tokens)
    requires ValidTokens(current) && ValidTokens(previous)
    ensures var grown := SubtractTokens(current, previous);
            if previous.input <= current.input && previous.cachedInput <= current.cachedInput && previous.output <= current.output
               && previous.reasoningOutput <= current.reasoningOutput && previous.total <= current.total
            then grown.input == current.input - previous.input && grown.output == current.output - previous.output
            else grown == Tokens(0, 0, 0, 0, 0)
  {
  }
}
