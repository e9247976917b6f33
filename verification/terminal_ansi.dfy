/** Parsing captured terminal output: the readable text and its style runs. */
module TerminalAnsi {
  import opened Wrappers
  import opened CodeUnits
  import opened TerminalStyle

  const ESC: Unit := 0x1b
  const NEWLINE: Unit := 0x0a
  const RETURN: Unit := 0x0d
  const TAB: Unit := 0x09
  const DEFAULT_MAX_STYLE_RUNS := 12000

  /** Line endings, made uniform. */
  function Newlines(s: Text): Text {
    if s == [] then []
    else if s[0] == RETURN then
      if |s| > 1 && s[1] == NEWLINE then [NEWLINE] + Newlines(s[2..]) else [NEWLINE] + Newlines(s[1..])
    else [s[0]] + Newlines(s[1..])
  }

  // ---------------------------------------------------------------- control sequences

  predicate FinalByte(u: Unit) {
    0x40 <= u <= 0x7e
  }

  /** The first final byte from here on, if there is one. */
  predicate FirstFinal(v: Text, start: nat, end: Option<nat>) {
    && (end.Some? ==> start <= end.value < |v| && FinalByte(v[end.value]))
    && forall i :: start <= i < (if end.Some? then end.value else |v|) && i < |v| ==> !FinalByte(v[i])
  }

  /** Position of the final byte of a control sequence. */
  function ControlEnd(v: Text, start: nat): (end: Option<nat>)
    ensures end.Some? ==> start <= end.value < |v|
    decreases |v| - start
  {
    if start >= |v| then None
    else if FinalByte(v[start]) then Some(start)
    else ControlEnd(v, start + 1)
  }

  lemma {:induction false} ControlEndIsFirst(v: Text, start: nat)
    ensures FirstFinal(v, start, ControlEnd(v, start))
    decreases |v| - start
  {
    if start < |v| && !FinalByte(v[start]) {
      ControlEndIsFirst(v, start + 1);
    }
  }

  method ControlSequenceEnd(v: Text, start: nat) returns (end: Option<nat>)
    ensures end == ControlEnd(v, start) && FirstFinal(v, start, end)
  {
    hide FirstFinal;
    ControlEndIsFirst(v, start);
    var index := start;
    while index < |v|
      invariant ControlEnd(v, start) == ControlEnd(v, index)
    {
      if FinalByte(v[index]) {
        return Some(index);
      }
      index := index + 1;
    }
    return None;
  }

  /** A string terminator starts here: bell or `0x9c` alone, or an escape with a backslash. */
  predicate TerminatorAt(v: Text, i: nat)
    requires i < |v|
  {
    v[i] == 0x07 || v[i] == 0x9c || (v[i] == ESC && i + 1 < |v| && v[i + 1] == 0x5c)
  }

  /** Where the terminator that starts at i ends. */
  function TerminatorEnd(v: Text, i: nat): nat
    requires i < |v|
  {
    if v[i] == ESC then i + 1 else i
  }

  /** The last unit of the first string terminator from here on, if there is one. */
  predicate FirstTerminator(v: Text, start: nat, end: Option<nat>) {
    match end
    case None => forall i :: start <= i < |v| ==> !TerminatorAt(v, i)
    case Some(e) =>
      exists i :: start <= i < |v| && TerminatorAt(v, i) && TerminatorEnd(v, i) == e && forall j :: start <= j < i ==> !TerminatorAt(v, j)
  }

  /** Position of the last unit of a string terminator. */
  function StringEnd(v: Text, start: nat): (end: Option<nat>)
    ensures end.Some? ==> start <= end.value < |v|
    decreases |v| - start
  {
    if start >= |v| then None
    else if v[start] == 0x07 || v[start] == 0x9c then Some(start)
    else if v[start] == ESC && start + 1 < |v| && v[start + 1] == 0x5c then Some(start + 1)
    else StringEnd(v, start + 1)
  }

  lemma {:induction false} StringEndIsFirst(v: Text, start: nat)
    ensures FirstTerminator(v, start, StringEnd(v, start))
    decreases |v| - start
  {
    if start < |v| {
      if TerminatorAt(v, start) {
        assert TerminatorEnd(v, start) == StringEnd(v, start).value;
      } else {
        StringEndIsFirst(v, start + 1);
      }
    }
  }

  method StringControlEnd(v: Text, start: nat) returns (end: Option<nat>)
    ensures end == StringEnd(v, start) && FirstTerminator(v, start, end)
  {
    hide FirstTerminator;
    StringEndIsFirst(v, start);
    var index := start;
    while index < |v|
      invariant StringEnd(v, start) == StringEnd(v, index)
    {
      if v[index] == 0x07 || v[index] == 0x9c {
        return Some(index);
      }
      if v[index] == ESC && index + 1 < |v| && v[index + 1] == 0x5c {
        return Some(index + 1);
      }
      index := index + 1;
    }
    return None;
  }

  /** What starts at a position, and where the next thing starts. */
  datatype Token = Emit(unit: Unit) | Skip | SgrToken(raw: Text) | Unterminated

  function ControlToken(v: Text, start: nat): (Token, nat) {
    var end := ControlEnd(v, start);
    if end.None? then (Unterminated, |v|)
    else if v[end.value] == 0x6d then (SgrToken(v[start..end.value]), end.value + 1)
    else (Skip, end.value + 1)
  }

  function StringToken(v: Text, start: nat): (Token, nat) {
    var end := StringEnd(v, start);
    if end.None? then (Unterminated, |v|) else (Skip, end.value + 1)
  }

  predicate StringIntroducer(u: Unit) {
    u == 0x90 || u == 0x98 || u == 0x9d || u == 0x9e || u == 0x9f
  }

  /** After an escape: `]`, `P`, `X`, `^`, `_`; an escape at the end of the text counts as one. */
  predicate StringMarker(v: Text, i: nat) {
    i >= |v| || v[i] == 0x5d || v[i] == 0x50 || v[i] == 0x58 || v[i] == 0x5e || v[i] == 0x5f
  }

  function TokenAt(v: Text, i: nat): (token: (Token, nat))
    requires i < |v|
    ensures i < token.1 <= |v|
  {
    var code := v[i];
    if code == ESC then
      if i + 1 < |v| && v[i + 1] == 0x5b then ControlToken(v, i + 2)
      else if StringMarker(v, i + 1) then StringToken(v, i + 2)
      else (Skip, i + 2)
    else if code == 0x9b then ControlToken(v, i + 1)
    else if StringIntroducer(code) then StringToken(v, i + 1)
    else if 0x80 <= code <= 0x9f then (Skip, i + 1)
    else if code < 0x20 || code == 0x7f then
      if code == NEWLINE || code == TAB then (Emit(code), i + 1) else (Skip, i + 1)
    else (Emit(code), i + 1)
  }

  // ---------------------------------------------------------------- one unit at a time

  /** The readable text with the style of each of its units, and whether every sequence was understood. */
  datatype Reading = Reading(text: Text, styles: seq<Style>, reliable: bool)

  function Interpret(v: Text, i: nat, style: Style, number: Text -> Option<nat>): (r: Reading)
    ensures |r.text| == |r.styles|
    decreases |v| - i
  {
    if i >= |v| then Reading([], [], true)
    else
      var (token, next) := TokenAt(v, i);
      match token
      case Unterminated => Reading([], [], false)
      case Skip => Interpret(v, next, style, number)
      case Emit(u) =>
        var rest := Interpret(v, next, style, number);
        Reading([u] + rest.text, [style] + rest.styles, rest.reliable)
      case SgrToken(raw) =>
        var (changed, understood) := SgrEffect(style, raw, number);
        var rest := Interpret(v, next, changed, number);
        Reading(rest.text, rest.styles, understood && rest.reliable)
  }

  // ---------------------------------------------------------------- style runs

  /** The style the runs give a position. */
  function StyleAt(runs: seq<StyleRun>, i: int): Style {
    if runs == [] then FRESH_STYLE
    else if runs[|runs| - 1].start <= i < runs[|runs| - 1].end then runs[|runs| - 1].style
    else StyleAt(runs[..|runs| - 1], i)
  }

  /** Runs in order, apart, within the text, none empty or default, neighbours in one style merged. */
  predicate Tidy(runs: seq<StyleRun>, limit: int) {
    && (forall i :: 0 <= i < |runs| ==>
          0 <= runs[i].start < runs[i].end <= limit && runs[i].style != FRESH_STYLE && CanonicalStyle(runs[i].style))
    && (forall i, j :: 0 <= i < j < |runs| ==> runs[i].end <= runs[j].start)
    && (forall i :: 0 < i < |runs| ==> !(runs[i - 1].end == runs[i].start && runs[i - 1].style == runs[i].style))
  }

  /** The runs give every position of the text its style. */
  predicate Paints(runs: seq<StyleRun>, styles: seq<Style>) {
    forall i :: 0 <= i < |styles| ==> StyleAt(runs, i) == styles[i]
  }

  function Flushed(runs: seq<StyleRun>, start: nat, end: nat, style: Style): seq<StyleRun> {
    if end <= start || style == FRESH_STYLE then runs
    else if runs != [] && runs[|runs| - 1].end == start && runs[|runs| - 1].style == style then
      runs[..|runs| - 1] + [runs[|runs| - 1].(end := end)]
    else runs + [StyleRun(start, end, style)]
  }

  lemma {:induction false} NotCovered(runs: seq<StyleRun>, i: int)
    requires forall k :: 0 <= k < |runs| ==> runs[k].end <= i
    ensures StyleAt(runs, i) == FRESH_STYLE
  {
    if runs != [] {
      NotCovered(runs[..|runs| - 1], i);
    }
  }

  lemma StyleAtAppended(runs: seq<StyleRun>, last: StyleRun, i: int)
    ensures StyleAt(runs + [last], i) == if last.start <= i < last.end then last.style else StyleAt(runs, i)
  {
    assert (runs + [last])[..|runs|] == runs;
  }

  lemma FlushTidy(runs: seq<StyleRun>, start: nat, end: nat, style: Style)
    requires start <= end && Tidy(runs, start) && CanonicalStyle(style)
    ensures Tidy(Flushed(runs, start, end, style), end)
  {
    hide CanonicalStyle;
  }

  lemma FlushStyle(runs: seq<StyleRun>, start: nat, end: nat, style: Style, i: int)
    requires start <= end && 0 <= i < end && Tidy(runs, start)
    ensures StyleAt(Flushed(runs, start, end, style), i) == if i < start then StyleAt(runs, i) else style
  {
    hide CanonicalStyle;
    var flushed := Flushed(runs, start, end, style);
    if i >= start {
      NotCovered(runs, i);
    }
    if |flushed| > |runs| {
      StyleAtAppended(runs, StyleRun(start, end, style), i);
    } else if flushed != runs {
      var init, last := runs[..|runs| - 1], runs[|runs| - 1];
      StyleAtAppended(init, last.(end := end), i);
      assert runs == init + [last];
      StyleAtAppended(init, last, i);
    }
  }

  /** The runs of a styled text, built up one unit at a time. */
  function RunsOf(styles: seq<Style>): seq<StyleRun> {
    if styles == [] then []
    else Flushed(RunsOf(styles[..|styles| - 1]), |styles| - 1, |styles|, styles[|styles| - 1])
  }

  predicate AllCanonical(styles: seq<Style>) {
    forall i :: 0 <= i < |styles| ==> CanonicalStyle(styles[i])
  }

  /** The runs are tidy and give back the style of every unit. */
  lemma {:induction false} RunsPaint(styles: seq<Style>)
    requires AllCanonical(styles)
    ensures Tidy(RunsOf(styles), |styles|) && Paints(RunsOf(styles), styles)
  {
    hide Tidy, Flushed, StyleAt, CanonicalStyle;
    if styles == [] {
      NoRuns();
    } else {
      var init, n := styles[..|styles| - 1], |styles| - 1;
      RunsPaint(init);
      FlushTidy(RunsOf(init), n, n + 1, styles[n]);
      forall i | 0 <= i <= n ensures StyleAt(RunsOf(styles), i) == styles[i] {
        FlushStyle(RunsOf(init), n, n + 1, styles[n], i);
        if i < n {
          assert init[i] == styles[i];
        }
      }
    }
  }

  lemma NoRuns()
    ensures Tidy([], 0)
  {
  }

  /** Flushing a longer stretch in one style is flushing its units one by one. */
  lemma {:induction false} FlushIsRuns(styles: seq<Style>, start: nat, style: Style)
    requires start <= |styles| && forall i :: start <= i < |styles| ==> styles[i] == style
    ensures RunsOf(styles) == Flushed(RunsOf(styles[..start]), start, |styles|, style)
    decreases |styles|
  {
    if start == |styles| {
      assert styles[..start] == styles;
    } else {
      var init := styles[..|styles| - 1];
      FlushIsRuns(init, start, style);
      assert init[..start] == styles[..start];
      hide RunsOf;
      FlushTwice(RunsOf(styles[..start]), start, |styles| - 1, style);
      LastFlush(styles);
    }
  }

  lemma LastFlush(styles: seq<Style>)
    requires styles != []
    ensures RunsOf(styles) == Flushed(RunsOf(styles[..|styles| - 1]), |styles| - 1, |styles|, styles[|styles| - 1])
  {
  }

  lemma FlushTwice(runs: seq<StyleRun>, start: nat, middle: nat, style: Style)
    requires start <= middle
    ensures Flushed(Flushed(runs, start, middle, style), middle, middle + 1, style) == Flushed(runs, start, middle + 1, style)
  {
  }

  lemma {:induction false} InterpretCanonical(v: Text, i: nat, style: Style, number: Text -> Option<nat>)
    requires CanonicalStyle(style)
    ensures AllCanonical(Interpret(v, i, style, number).styles)
    decreases |v| - i
  {
    hide CanonicalStyle, SgrEffect, TokenAt;
    if i < |v| {
      var (token, next) := TokenAt(v, i);
      if token.SgrToken? {
        EffectCanonical(style, token.raw, number);
        InterpretCanonical(v, next, SgrEffect(style, token.raw, number).0, number);
      } else if !token.Unterminated? {
        InterpretCanonical(v, next, style, number);
      }
    }
  }

  lemma EffectCanonical(style: Style, raw: Text, number: Text -> Option<nat>)
    requires CanonicalStyle(style)
    ensures CanonicalStyle(SgrEffect(style, raw, number).0)
  {
    hide CanonicalStyle, Sgr, SgrParameters;
    var ps := SgrParameters(raw, number);
    if ps.Some? {
      SgrCanonical(style, ps.value, 0);
    }
  }

  /** A reading continued by another. */
  function Onward(a: Reading, b: Reading): Reading {
    Reading(a.text + b.text, a.styles + b.styles, a.reliable && b.reliable)
  }

  /** A reading continued from a token on. */
  function Continued(a: Reading, token: Token, v: Text, next: nat, style: Style, number: Text -> Option<nat>): Reading {
    match token
    case Unterminated => Reading(a.text, a.styles, false)
    case Skip => Onward(a, Interpret(v, next, style, number))
    case Emit(u) => Onward(Reading(a.text + [u], a.styles + [style], a.reliable), Interpret(v, next, style, number))
    case SgrToken(raw) =>
      Onward(Reading(a.text, a.styles, a.reliable && SgrEffect(style, raw, number).1),
             Interpret(v, next, SgrEffect(style, raw, number).0, number))
  }

  /** One token further in the interpreter. */
  lemma ReadOn(v: Text, i: nat, style: Style, number: Text -> Option<nat>, a: Reading)
    requires i < |v|
    ensures Onward(a, Interpret(v, i, style, number)) == Continued(a, TokenAt(v, i).0, v, TokenAt(v, i).1, style, number)
  {
    hide TokenAt, SgrEffect;
  }

  lemma ReadEnd(v: Text, style: Style, number: Text -> Option<nat>, a: Reading)
    ensures Onward(a, Interpret(v, |v|, style, number)) == a && Onward(Reading([], [], true), a) == a
  {
    hide SgrEffect;
  }

  // ---------------------------------------------------------------- the parser, updating in place

  datatype Status = Styled | StyleLimit | PlainFallback

  class AnsiParser {
    const number: Text -> Option<nat>
    var style: Style
    var styleRuns: seq<StyleRun>
    var output: Text
    var runStart: nat

    constructor (number: Text -> Option<nat>)
      ensures this.number == number && style == FRESH_STYLE && styleRuns == [] && output == [] && runStart == 0
    {
      this.number := number;
      style, styleRuns, output, runStart := FRESH_STYLE, [], [], 0;
    }

    /** The runs are those of what was flushed, and everything since is in the current style. */
    ghost predicate Tracks(styles: seq<Style>)
      reads this
    {
      && runStart <= |output| == |styles| && styleRuns == RunsOf(styles[..runStart])
      && forall i :: runStart <= i < |styles| ==> styles[i] == style
    }

    method Flush(ghost styles: seq<Style>)
      requires Tracks(styles)
      modifies this`styleRuns, this`runStart
      ensures Tracks(styles) && runStart == |output| && styleRuns == RunsOf(styles)
    {
      hide RunsOf;
      FlushIsRuns(styles, runStart, style);
      assert styles[..|output|] == styles;
      if |output| > runStart && style != FRESH_STYLE {
        if styleRuns != [] && styleRuns[|styleRuns| - 1].end == runStart && styleRuns[|styleRuns| - 1].style == style {
          styleRuns := styleRuns[..|styleRuns| - 1] + [styleRuns[|styleRuns| - 1].(end := |output|)];
        } else {
          styleRuns := styleRuns + [StyleRun(runStart, |output|, style)];
        }
      }
      runStart := |output|;
    }

    /** Changes the style in place; false when a parameter is malformed. */
    method ApplySgr(raw: Text) returns (understood: bool)
      modifies this`style
      ensures (style, understood) == SgrEffect(old(style), raw, number)
    {
      var parameters := SgrParameters(raw, number);
      if parameters.None? {
        return false;
      }
      var ps, index := parameters.value, 0;
      hide Plain, ExtendedColor;
      while index < |ps|
        invariant Sgr(style, ps, index) == Sgr(old(style), ps, 0)
        decreases |ps| - index
      {
        if ps[index] == 38 || ps[index] == 48 {
          var color := ExtendedColor(ps, index);
          if color.None? {
            return false;
          }
          style := if ps[index] == 38 then style.(fg := color.value.0) else style.(bg := color.value.0);
          index := index + color.value.1;
        } else {
          style := Plain(style, ps[index]);
        }
        index := index + 1;
      }
      return true;
    }

    /** A control sequence whose parameters start here; `m` sequences change the style. */
    method ControlSequence(v: Text, start: nat, ghost styles: seq<Style>) returns (next: Option<nat>, understood: bool)
      requires Tracks(styles)
      modifies this`style, this`styleRuns, this`runStart
      ensures Tracks(styles)
      ensures match ControlToken(v, start)
              case (SgrToken(raw), after) => next == Some(after) && (style, understood) == SgrEffect(old(style), raw, number)
              case (Skip, after) => next == Some(after) && style == old(style) && understood
              case _ => next == None && style == old(style)
    {
      hide FirstFinal;
      var end := ControlSequenceEnd(v, start);
      if end.None? {
        return None, false;
      }
      understood := true;
      if v[end.value] == 0x6d {
        Flush(styles);
        understood := ApplySgr(v[start..end.value]);
      }
      next := Some(end.value + 1);
    }

    /** The main loop; the readings of text, styles and reliability are those of the interpreter. */
    method Parse(v: Text) returns (reliable: bool)
      requires style == FRESH_STYLE && styleRuns == [] && output == [] && runStart == 0
      modifies this
      ensures var reading := Interpret(v, 0, FRESH_STYLE, number);
              output == reading.text && styleRuns == RunsOf(reading.styles) && reliable == reading.reliable
    {
      hide SgrEffect, ControlEnd, StringEnd, FirstFinal, FirstTerminator, Interpret, Onward;
      ghost var styles: seq<Style> := [];
      ghost var whole := Interpret(v, 0, FRESH_STYLE, number);
      ReadEnd(v, style, number, whole);
      reliable := true;
      var index := 0;
      while index < |v|
        invariant index <= |v| && Tracks(styles)
        invariant whole == Onward(Reading(output, styles, reliable), Interpret(v, index, style, number))
        decreases |v| - index
      {
        ReadOn(v, index, style, number, Reading(output, styles, reliable));
        var code := v[index];
        if code == ESC || code == 0x9b || StringIntroducer(code) {
          if code == 0x9b || (code == ESC && index + 1 < |v| && v[index + 1] == 0x5b) {
            var next, understood := ControlSequence(v, if code == ESC then index + 2 else index + 1, styles);
            if next.None? {
              Flush(styles);
              return false;
            }
            reliable := reliable && understood;
            index := next.value;
          } else if code != ESC || StringMarker(v, index + 1) {
            var end := StringControlEnd(v, if code == ESC then index + 2 else index + 1);
            if end.None? {
              Flush(styles);
              return false;
            }
            index := end.value + 1;
          } else {
            index := index + 2;
          }
        } else if 0x80 <= code <= 0x9f || ((code < 0x20 || code == 0x7f) && code != NEWLINE && code != TAB) {
          index := index + 1;
        } else {
          assert (styles + [style])[..runStart] == styles[..runStart];
          output := output + [code];
          styles := styles + [style];
          index := index + 1;
        }
      }
      ReadEnd(v, style, number, Reading(output, styles, reliable));
      Flush(styles);
    }
  }

  /** Readable text, its style runs, and whether they can be relied on. */
  datatype Parsed = Parsed(text: Text, styleRuns: seq<StyleRun>, status: Status)

  function ParsedOf(input: Text, maximumRuns: nat, number: Text -> Option<nat>): Parsed {
    var reading := Interpret(Newlines(input), 0, FRESH_STYLE, number);
    var runs := RunsOf(reading.styles);
    if !reading.reliable then Parsed(reading.text, [], PlainFallback)
    else if |runs| > maximumRuns then Parsed(reading.text, [], StyleLimit)
    else Parsed(reading.text, runs, Styled)
  }

  method ParseTerminalAnsi(input: Text, maximumRuns: nat, number: Text -> Option<nat>) returns (p: Parsed)
    ensures p == ParsedOf(input, maximumRuns, number)
  {
    hide Interpret, RunsOf, Newlines;
    var parser := new AnsiParser(number);
    var stylesReliable := parser.Parse(Newlines(input));
    var withinLimit := |parser.styleRuns| <= maximumRuns;
    p := Parsed(parser.output, if stylesReliable && withinLimit then parser.styleRuns else [],
                if stylesReliable then (if withinLimit then Styled else StyleLimit) else PlainFallback);
  }

  // ---------------------------------------------------------------- what callers rely on

  /** A styled result is exactly the unit-by-unit reading: its runs are in order, apart, not default and
      maximally merged, and expanding them gives each unit the style it was written in. */
  lemma StyledIsExact(input: Text, maximumRuns: nat, number: Text -> Option<nat>)
    requires ParsedOf(input, maximumRuns, number).status == Styled
    ensures var p := ParsedOf(input, maximumRuns, number);
            var reading := Interpret(Newlines(input), 0, FRESH_STYLE, number);
            && p.text == reading.text && reading.reliable && |reading.styles| == |p.text|
            && Tidy(p.styleRuns, |p.text|) && Paints(p.styleRuns, reading.styles)
  {
    hide Interpret, RunsOf, Newlines, Tidy, Paints;
    InterpretCanonical(Newlines(input), 0, FRESH_STYLE, number);
    RunsPaint(Interpret(Newlines(input), 0, FRESH_STYLE, number).styles);
  }

  /** No control character but newline and tab. */
  predicate Readable(text: Text) {
    forall i :: 0 <= i < |text| ==>
      text[i] == NEWLINE || text[i] == TAB || (text[i] >= 0x20 && text[i] != 0x7f && !(0x80 <= text[i] <= 0x9f))
  }

  lemma {:induction false} InterpretReadable(v: Text, i: nat, style: Style, number: Text -> Option<nat>)
    ensures Readable(Interpret(v, i, style, number).text)
    decreases |v| - i
  {
    hide SgrEffect, ControlEnd, StringEnd;
    if i < |v| {
      var (token, next) := TokenAt(v, i);
      match token {
        case SgrToken(raw) => InterpretReadable(v, next, SgrEffect(style, raw, number).0, number);
        case Unterminated =>
        case Emit(u) => InterpretReadable(v, next, style, number);
        case Skip => InterpretReadable(v, next, style, number);
      }
    }
  }

  lemma {:induction false} ReadableIsPlain(v: Text, i: nat, number: Text -> Option<nat>)
    requires Readable(v) && i <= |v|
    ensures Interpret(v, i, FRESH_STYLE, number) == Reading(v[i..], seq(|v| - i, _ => FRESH_STYLE), true)
    decreases |v| - i
  {
    hide ControlEnd, StringEnd, Sgr;
    if i < |v| {
      ReadableIsPlain(v, i + 1, number);
      assert v[i..] == [v[i]] + v[i + 1..];
    }
  }

  lemma {:induction false} ReadableLines(s: Text)
    requires Readable(s)
    ensures Newlines(s) == s
  {
    if s != [] {
      assert forall i :: 0 <= i < |s[1..]| ==> s[1..][i] == s[i + 1];
      ReadableLines(s[1..]);
    }
  }

  lemma {:induction false} DefaultHasNoRuns(styles: seq<Style>)
    requires forall i :: 0 <= i < |styles| ==> styles[i] == FRESH_STYLE
    ensures RunsOf(styles) == []
  {
    if styles != [] {
      DefaultHasNoRuns(styles[..|styles| - 1]);
    }
  }

  /** The text never carries a control character but newline and tab, and parsing it again returns it
      unchanged and unstyled. */
  lemma ParsedTextIsPlain(input: Text, maximumRuns: nat, number: Text -> Option<nat>)
    ensures var text := ParsedOf(input, maximumRuns, number).text;
            Readable(text) && ParsedOf(text, maximumRuns, number) == Parsed(text, [], Styled)
  {
    hide RunsOf, Interpret, Newlines, Readable;
    InterpretReadable(Newlines(input), 0, FRESH_STYLE, number);
    var text := ParsedOf(input, maximumRuns, number).text;
    ReadableLines(text);
    ReadableIsPlain(text, 0, number);
    DefaultHasNoRuns(seq(|text|, _ => FRESH_STYLE));
    assert text[0..] == text;
  }
}
