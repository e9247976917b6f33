/** Presenting terminal text: accepted style runs, accepted search matches, and the slices both cut it into. */
module TerminalPresentation {
  import opened Wrappers
  import opened CodeUnits
  import opened TerminalStyle
  import TerminalAnsi

  const MAX_STYLE_RUNS := 12000

  // ---------------------------------------------------------------- colours and style runs

  predicate AnyHexDigit(c: char) {
    '0' <= c <= '9' || 'a' <= c <= 'f' || 'A' <= c <= 'F'
  }

  predicate ColorPattern(color: string) {
    |color| == 7 && color[0] == '#' && forall i :: 1 <= i < 7 ==> AnyHexDigit(color[i])
  }

  function LowerHex(c: char): char {
    if 'A' <= c <= 'F' then (c as int - 'A' as int + 'a' as int) as char else c
  }

  function NormalizedColor(color: string): string {
    if ColorPattern(color) then seq(|color|, i requires 0 <= i < |color| => LowerHex(color[i])) else ""
  }

  function NormalizedStyle(style: Style): Style {
    style.(fg := NormalizedColor(style.fg), bg := NormalizedColor(style.bg))
  }

  predicate AcceptedColor(color: string) {
    color == "" || ColorPattern(color)
  }

  /** A run that follows one ending at `previousEnd` in a text of this length. */
  predicate AcceptedRun(run: StyleRun, previousEnd: int, length: int) {
    0 <= run.start && previousEnd <= run.start < run.end <= length && AcceptedColor(run.style.fg) && AcceptedColor(run.style.bg)
  }

  /** Where the run before this one ends. */
  function EndBefore(runs: seq<StyleRun>, i: nat): int
    requires i <= |runs|
  {
    if i == 0 then 0 else runs[i - 1].end
  }

  predicate AcceptedAt(runs: seq<StyleRun>, i: nat, length: int)
    requires i < |runs|
  {
    AcceptedRun(runs[i], EndBefore(runs, i), length)
  }

  predicate AcceptedRuns(runs: seq<StyleRun>, length: int) {
    && |runs| <= MAX_STYLE_RUNS
    && forall i :: 0 <= i < |runs| ==> AcceptedAt(runs, i, length)
  }

  function NormalizedRun(run: StyleRun): StyleRun {
    run.(style := NormalizedStyle(run.style))
  }

  /** All runs normalised, or none when one of them is not acceptable. */
  function NormalizedRuns(runs: seq<StyleRun>, length: int): seq<StyleRun> {
    if AcceptedRuns(runs, length) then seq(|runs|, i requires 0 <= i < |runs| => NormalizedRun(runs[i])) else []
  }

  method NormalizedTerminalStyleRuns(length: nat, values: seq<StyleRun>) returns (normalized: seq<StyleRun>)
    ensures normalized == NormalizedRuns(values, length)
  {
    if |values| > MAX_STYLE_RUNS {
      return [];
    }
    normalized := [];
    var previousEnd := 0;
    for i := 0 to |values|
      invariant |normalized| == i && forall j :: 0 <= j < i ==> normalized[j] == NormalizedRun(values[j])
      invariant previousEnd == EndBefore(values, i)
      invariant forall j :: 0 <= j < i ==> AcceptedAt(values, j, length)
    {
      var value := values[i];
      if value.start < previousEnd || value.start < 0 || value.end <= value.start || value.end > length
         || (value.style.fg != "" && !ColorPattern(value.style.fg)) || (value.style.bg != "" && !ColorPattern(value.style.bg)) {
        assert !AcceptedAt(values, i, length);
        return [];
      }
      normalized := normalized + [NormalizedRun(value)];
      previousEnd := value.end;
    }
  }

  lemma CanonicalColorKept(color: string)
    requires CanonicalColor(color)
    ensures AcceptedColor(color) && NormalizedColor(color) == color
  {
    if color != "" {
      assert forall i :: 0 <= i < |color| ==> LowerHex(color[i]) == color[i];
    }
  }

  const LOWER := "0123456789abcdef"
  const UPPER := "0123456789ABCDEF"

  /** The colour is these six hexadecimal digits after a number sign, each in either case. */
  predicate Spelled(color: string, digits: seq<int>) {
    && |color| == 7 && color[0] == '#' && |digits| == 6
    && forall i :: 0 <= i < 6 ==> 0 <= digits[i] < 16 && (color[i + 1] == LOWER[digits[i]] || color[i + 1] == UPPER[digits[i]])
  }

  lemma DigitOf(c: char) returns (digit: int)
    ensures AnyHexDigit(c) ==> 0 <= digit < 16 && (c == LOWER[digit] || c == UPPER[digit])
  {
    digit := if '0' <= c <= '9' then c as int - '0' as int else if 'a' <= c <= 'f' then c as int - 'a' as int + 10 else c as int - 'A' as int + 10;
  }

  lemma DigitChars(digit: int)
    requires 0 <= digit < 16
    ensures AnyHexDigit(LOWER[digit]) && AnyHexDigit(UPPER[digit]) && LowerHex(LOWER[digit]) == LOWER[digit] == LowerHex(UPPER[digit])
  {
  }

  lemma ColorDigits(color: string) returns (digits: seq<int>)
    requires ColorPattern(color)
    ensures Spelled(color, digits)
  {
    hide AnyHexDigit;
    digits := [];
    for i := 0 to 6
      invariant |digits| == i
      invariant forall j :: 0 <= j < i ==> 0 <= digits[j] < 16 && (color[j + 1] == LOWER[digits[j]] || color[j + 1] == UPPER[digits[j]])
    {
      var digit := DigitOf(color[i + 1]);
      digits := digits + [digit];
    }
  }

  /** A style keeps its switches and its colours in lower case; what is no colour counts as none. */
  lemma StylesMean(style: Style)
    ensures var next := NormalizedStyle(style);
            && ColorMeans(style.fg, next.fg) && ColorMeans(style.bg, next.bg) && next.bold == style.bold && next.dim == style.dim
            && next.italic == style.italic && next.underline == style.underline && next.inverse == style.inverse
  {
    hide ColorPattern, Spelled, NormalizedColor, ColorMeans;
    ColorsMean(style.fg);
    ColorsMean(style.bg);
  }

  ghost predicate ColorMeans(color: string, lower: string) {
    if exists digits :: Spelled(color, digits)
    then |lower| == 7 && forall digits :: Spelled(color, digits) ==> Spelled(lower, digits) && forall i :: 0 <= i < 6 ==> lower[i + 1] == LOWER[digits[i]]
    else lower == ""
  }

  lemma ColorsMean(color: string)
    ensures ColorMeans(color, NormalizedColor(color)) && (ColorPattern(color) <==> exists digits :: Spelled(color, digits))
  {
    hide AnyHexDigit, LowerHex;
    if ColorPattern(color) {
      var digits := ColorDigits(color);
    }
    forall digits | Spelled(color, digits)
      ensures ColorPattern(color) && Spelled(NormalizedColor(color), digits)
              && forall i :: 0 <= i < 6 ==> NormalizedColor(color)[i + 1] == LOWER[digits[i]]
    {
      forall i | 1 <= i < 7 ensures AnyHexDigit(color[i]) && LowerHex(color[i]) == LOWER[digits[i - 1]] {
        assert color[i] == color[(i - 1) + 1];
        DigitChars(digits[i - 1]);
      }
      assert LowerHex('#') == '#' by { NumberSign(); }
    }
  }

  lemma NumberSign()
    ensures LowerHex('#') == '#'
  {
  }

  /** The runs of a styled parse are accepted unchanged. */
  lemma ParsedRunsAccepted(input: Text, number: Text -> Option<nat>)
    ensures var p := TerminalAnsi.ParsedOf(input, TerminalAnsi.DEFAULT_MAX_STYLE_RUNS, number);
            NormalizedRuns(p.styleRuns, |p.text|) == p.styleRuns
  {
    hide TerminalAnsi.ParsedOf, TerminalAnsi.Interpret;
    var p := TerminalAnsi.ParsedOf(input, TerminalAnsi.DEFAULT_MAX_STYLE_RUNS, number);
    StatusRuns(input, number);
    if p.status == TerminalAnsi.Styled {
      TerminalAnsi.StyledIsExact(input, TerminalAnsi.DEFAULT_MAX_STYLE_RUNS, number);
      TidyAccepted(p.styleRuns, |p.text|);
    }
  }

  lemma StatusRuns(input: Text, number: Text -> Option<nat>)
    ensures var p := TerminalAnsi.ParsedOf(input, TerminalAnsi.DEFAULT_MAX_STYLE_RUNS, number);
            (p.status != TerminalAnsi.Styled ==> p.styleRuns == []) && |p.styleRuns| <= MAX_STYLE_RUNS
  {
    hide TerminalAnsi.Interpret;
  }

  lemma TidyAccepted(runs: seq<StyleRun>, length: nat)
    requires TerminalAnsi.Tidy(runs, length) && |runs| <= MAX_STYLE_RUNS
    ensures NormalizedRuns(runs, length) == runs
  {
    hide CanonicalColor, NormalizedColor, AcceptedColor;
    forall i | 0 <= i < |runs|
      ensures AcceptedAt(runs, i, length) && NormalizedRun(runs[i]) == runs[i]
    {
      CanonicalColorKept(runs[i].style.fg);
      CanonicalColorKept(runs[i].style.bg);
    }
  }

  // ---------------------------------------------------------------- matches

  datatype Match = Match(start: int, end: int, index: int)

  /** Accepted matches: each offset that starts inside the text after the match before it. */
  function Matches(offsets: seq<int>, matchLength: int, length: int): seq<Match> {
    if offsets == [] then []
    else
      var before, start := Matches(offsets[..|offsets| - 1], matchLength, length), offsets[|offsets| - 1];
      if start < 0 || start + matchLength > length || start < (if before == [] then 0 else before[|before| - 1].end) then before
      else before + [Match(start, start + matchLength, |before|)]
  }

  predicate Apart(matches: seq<Match>, length: int) {
    && (forall i :: 0 <= i < |matches| ==> 0 <= matches[i].start < matches[i].end <= length && matches[i].index == i)
    && (forall i, j :: 0 <= i < j < |matches| ==> matches[i].end <= matches[j].start)
  }

  lemma {:induction false} MatchesApart(offsets: seq<int>, matchLength: int, length: int)
    requires matchLength > 0
    ensures Apart(Matches(offsets, matchLength, length), length)
  {
    if offsets != [] {
      MatchesApart(offsets[..|offsets| - 1], matchLength, length);
    }
  }

  method AcceptedMatches(offsets: seq<int>, matchLength: int, length: nat) returns (matches: seq<Match>)
    requires matchLength > 0
    ensures matches == Matches(offsets, matchLength, length)
  {
    matches := [];
    for i := 0 to |offsets|
      invariant matches == Matches(offsets[..i], matchLength, length)
    {
      assert offsets[..i + 1][..i] == offsets[..i];
      var start := offsets[i];
      if start < 0 || start + matchLength > length || start < (if matches == [] then 0 else matches[|matches| - 1].end) {
        continue;
      }
      matches := matches + [Match(start, start + matchLength, |matches|)];
    }
    assert offsets[..|offsets|] == offsets;
  }

  // ---------------------------------------------------------------- boundaries

  predicate Ascending(s: seq<int>) {
    forall i, j :: 0 <= i < j < |s| ==> s[i] < s[j]
  }

  /** Adds a number to an ascending list, once. */
  function Insert(x: int, s: seq<int>): (r: seq<int>)
    requires Ascending(s)
    ensures Ascending(r) && forall y :: y in r <==> y == x || y in s
  {
    if s == [] || x < s[0] then [x] + s
    else if x == s[0] then s
    else
      assert s == [s[0]] + s[1..];
      var rest := Insert(x, s[1..]);
      assert forall i :: 0 <= i < |rest| ==> rest[i] in rest;
      [s[0]] + rest
  }

  // ---------------------------------------------------------------- slices

  datatype Slice = Slice(start: int, end: int, text: Text, style: Option<Style>, matchIndex: int, current: bool)

  /** The slice lies inside this run or match, or apart from it. */
  predicate Within(start: int, end: int, slice: Slice) {
    start <= slice.start && slice.end <= end
  }

  predicate ApartFrom(start: int, end: int, slice: Slice) {
    end <= slice.start || slice.end <= start
  }

  predicate StyledBy(slice: Slice, styles: seq<StyleRun>) {
    if slice.style.Some? then exists i :: 0 <= i < |styles| && Within(styles[i].start, styles[i].end, slice) && slice.style.value == NormalizedStyle(styles[i].style)
    else forall i :: 0 <= i < |styles| ==> ApartFrom(styles[i].start, styles[i].end, slice)
  }

  predicate MatchedBy(slice: Slice, matches: seq<Match>, currentMatch: int) {
    && (if slice.matchIndex == -1 then forall i :: 0 <= i < |matches| ==> ApartFrom(matches[i].start, matches[i].end, slice)
        else 0 <= slice.matchIndex < |matches| && Within(matches[slice.matchIndex].start, matches[slice.matchIndex].end, slice))
    && (slice.current <==> slice.matchIndex != -1 && slice.matchIndex == currentMatch)
  }

  function SliceStart(slices: seq<Slice>, i: nat): int
    requires i <= |slices|
  {
    if i == 0 then 0 else slices[i - 1].end
  }

  predicate Joins(slices: seq<Slice>, i: nat, content: Text)
    requires i < |slices|
  {
    var slice := slices[i];
    slice.start == SliceStart(slices, i) && 0 <= slice.start < slice.end <= |content| && slice.text == content[slice.start..slice.end]
  }

  /** Slices side by side from the start of the text. */
  predicate Adjacent(slices: seq<Slice>, content: Text) {
    forall i :: 0 <= i < |slices| ==> Joins(slices, i, content)
  }

  function Texts(slices: seq<Slice>): Text {
    if slices == [] then [] else Texts(slices[..|slices| - 1]) + slices[|slices| - 1].text
  }

  lemma {:induction false} TextsOf(slices: seq<Slice>, content: Text)
    requires Adjacent(slices, content)
    ensures 0 <= SliceStart(slices, |slices|) <= |content| && Texts(slices) == content[..SliceStart(slices, |slices|)]
  {
    if slices != [] {
      var init, last := slices[..|slices| - 1], slices[|slices| - 1];
      forall i | 0 <= i < |init| ensures Joins(init, i, content) {
        assert Joins(slices, i, content);
      }
      assert Joins(slices, |init|, content);
      TextsOf(init, content);
      assert content[..last.start] + content[last.start..last.end] == content[..last.end];
    }
  }

  // ---------------------------------------------------------------- cutting

  /** Normalised runs in order, apart and inside the text. */
  predicate Ordered(styles: seq<StyleRun>, length: int) {
    && (forall i :: 0 <= i < |styles| ==> 0 <= styles[i].start < styles[i].end <= length)
    && (forall i, j :: 0 <= i < j < |styles| ==> styles[i].end <= styles[j].start)
  }

  lemma {:induction false} AcceptedOrdered(runs: seq<StyleRun>, length: int, j: nat)
    requires AcceptedRuns(runs, length) && j < |runs|
    ensures 0 <= runs[j].start < runs[j].end <= length && forall i :: 0 <= i < j ==> runs[i].end <= runs[j].start
    decreases j
  {
    assert AcceptedAt(runs, j, length);
    if j > 0 {
      AcceptedOrdered(runs, length, j - 1);
    }
  }

  lemma NormalizedOrdered(runs: seq<StyleRun>, length: int)
    ensures Ordered(NormalizedRuns(runs, length), length)
  {
    hide NormalizedStyle;
    if AcceptedRuns(runs, length) {
      forall j | 0 <= j < |runs|
        ensures 0 <= runs[j].start < runs[j].end <= length && forall i :: 0 <= i < j ==> runs[i].end <= runs[j].start
      {
        AcceptedOrdered(runs, length, j);
      }
    }
  }

  /** Every place where a run or match starts or ends, and both ends of the text, in order. */
  predicate Boundaries(offsets: seq<int>, styles: seq<StyleRun>, matches: seq<Match>, length: int) {
    && Ascending(offsets) && 0 in offsets && length in offsets && (forall y :: y in offsets ==> 0 <= y <= length)
    && (forall i :: 0 <= i < |styles| ==> styles[i].start in offsets && styles[i].end in offsets)
    && (forall i :: 0 <= i < |matches| ==> matches[i].start in offsets && matches[i].end in offsets)
  }

  method BoundaryOffsets(styles: seq<StyleRun>, matches: seq<Match>, length: nat) returns (offsets: seq<int>)
    requires Ordered(styles, length) && Apart(matches, length)
    ensures Boundaries(offsets, styles, matches, length)
  {
    hide Insert, Boundaries;
    offsets := Insert(length, [0]);
    TextEnds(offsets, length);
    for i := 0 to |styles|
      invariant Boundaries(offsets, styles[..i], [], length)
    {
      RunEnds(offsets, styles, [], i, length);
      offsets := Insert(styles[i].end, Insert(styles[i].start, offsets));
    }
    assert styles[..|styles|] == styles;
    assert matches[..0] == [];
    for i := 0 to |matches|
      invariant Boundaries(offsets, styles, matches[..i], length)
    {
      MatchEnds(offsets, styles, matches, i, length);
      offsets := Insert(matches[i].end, Insert(matches[i].start, offsets));
    }
    assert matches[..|matches|] == matches;
  }

  lemma TextEnds(offsets: seq<int>, length: nat)
    requires Ascending(offsets) && forall y :: y in offsets <==> y == length || y in [0]
    ensures Boundaries(offsets, [], [], length)
  {
  }

  lemma RunEnds(offsets: seq<int>, styles: seq<StyleRun>, matches: seq<Match>, i: nat, length: int)
    requires i < |styles| && Boundaries(offsets, styles[..i], matches, length) && 0 <= styles[i].start < styles[i].end <= length
    ensures Ascending(offsets) && Boundaries(Insert(styles[i].end, Insert(styles[i].start, offsets)), styles[..i + 1], matches, length)
  {
    hide Insert;
    assert styles[..i + 1] == styles[..i] + [styles[i]];
  }

  lemma MatchEnds(offsets: seq<int>, styles: seq<StyleRun>, matches: seq<Match>, i: nat, length: int)
    requires i < |matches| && Boundaries(offsets, styles, matches[..i], length) && 0 <= matches[i].start < matches[i].end <= length
    ensures Ascending(offsets) && Boundaries(Insert(matches[i].end, Insert(matches[i].start, offsets)), styles, matches[..i + 1], length)
  {
    hide Insert;
    assert matches[..i + 1] == matches[..i] + [matches[i]];
  }

  /** Nothing begins or ends strictly between two neighbouring boundaries. */
  lemma Neighbours(offsets: seq<int>, k: nat, y: int)
    requires Ascending(offsets) && k + 1 < |offsets| && y in offsets
    ensures y <= offsets[k] || offsets[k + 1] <= y
  {
    var j :| 0 <= j < |offsets| && offsets[j] == y;
  }

  lemma EndsOfText(offsets: seq<int>, styles: seq<StyleRun>, matches: seq<Match>, length: int)
    requires Boundaries(offsets, styles, matches, length)
    ensures offsets != [] && offsets[0] == 0 && offsets[|offsets| - 1] == length
  {
    var j :| 0 <= j < |offsets| && offsets[j] == 0;
    var k :| 0 <= k < |offsets| && offsets[k] == length;
    assert offsets[0] in offsets && offsets[|offsets| - 1] in offsets;
  }

  /** The run at the index decides: earlier ones have ended, and boundaries rule out partial overlap. */
  lemma StyleDecides(styles: seq<StyleRun>, offsets: seq<int>, matches: seq<Match>, k: nat, length: int, styleIndex: nat)
    requires Ordered(styles, length) && Boundaries(offsets, styles, matches, length) && k + 1 < |offsets| && styleIndex <= |styles|
    requires forall j :: 0 <= j < styleIndex ==> styles[j].end <= offsets[k]
    requires styleIndex < |styles| ==> styles[styleIndex].end > offsets[k]
    ensures forall j :: 0 <= j < |styles| && j != styleIndex ==> styles[j].end <= offsets[k] || offsets[k + 1] <= styles[j].start
    ensures styleIndex < |styles| && !(styles[styleIndex].start <= offsets[k] && styles[styleIndex].end >= offsets[k + 1]) ==>
              offsets[k + 1] <= styles[styleIndex].start
  {
    forall j | styleIndex < j < |styles| ensures offsets[k + 1] <= styles[j].start {
      Neighbours(offsets, k, styles[j].start);
    }
    if styleIndex < |styles| {
      Neighbours(offsets, k, styles[styleIndex].start);
      Neighbours(offsets, k, styles[styleIndex].end);
    }
  }

  lemma MatchDecides(styles: seq<StyleRun>, offsets: seq<int>, matches: seq<Match>, k: nat, length: int, matchIndex: nat)
    requires Apart(matches, length) && Boundaries(offsets, styles, matches, length) && k + 1 < |offsets| && matchIndex <= |matches|
    requires forall j :: 0 <= j < matchIndex ==> matches[j].end <= offsets[k]
    requires matchIndex < |matches| ==> matches[matchIndex].end > offsets[k]
    ensures forall j :: 0 <= j < |matches| && j != matchIndex ==> matches[j].end <= offsets[k] || offsets[k + 1] <= matches[j].start
    ensures matchIndex < |matches| && !(matches[matchIndex].start <= offsets[k] && matches[matchIndex].end >= offsets[k + 1]) ==>
              offsets[k + 1] <= matches[matchIndex].start
  {
    forall j | matchIndex < j < |matches| ensures offsets[k + 1] <= matches[j].start {
      Neighbours(offsets, k, matches[j].start);
    }
    if matchIndex < |matches| {
      Neighbours(offsets, k, matches[matchIndex].start);
      Neighbours(offsets, k, matches[matchIndex].end);
    }
  }

  /** The slices tile the text without gaps or empty pieces, and each lies wholly inside one style run or
      none, and wholly inside one match or none, for every list of runs and offsets. */
  method TerminalPresentationSlices(content: Text, styleValues: seq<StyleRun>, matchOffsets: seq<int>, queryLength: int, currentMatch: int)
    returns (slices: seq<Slice>, ghost styles: seq<StyleRun>, ghost matches: seq<Match>)
    ensures styles == NormalizedRuns(styleValues, |content|)
    ensures matches == if queryLength > 0 then Matches(matchOffsets, queryLength, |content|) else []
    ensures Adjacent(slices, content) && Texts(slices) == content
    ensures forall i :: 0 <= i < |slices| ==> StyledBy(slices[i], styles) && MatchedBy(slices[i], matches, currentMatch)
  {
    hide AcceptedRuns, NormalizedRuns, Matches, NormalizedStyle;
    var accepted := NormalizedTerminalStyleRuns(|content|, styleValues);
    NormalizedOrdered(styleValues, |content|);
    var found: seq<Match> := [];
    if queryLength > 0 {
      found := AcceptedMatches(matchOffsets, queryLength, |content|);
      MatchesApart(matchOffsets, queryLength, |content|);
    }
    styles, matches := accepted, found;
    var offsets := BoundaryOffsets(accepted, found, |content|);
    EndsOfText(offsets, accepted, found, |content|);
    slices := CutAt(content, offsets, accepted, found, currentMatch);
    TextsOf(slices, content);
    assert content[..|content|] == content;
  }

  method CutAt(content: Text, offsets: seq<int>, styles: seq<StyleRun>, matches: seq<Match>, currentMatch: int) returns (slices: seq<Slice>)
    requires Ordered(styles, |content|) && Apart(matches, |content|) && Boundaries(offsets, styles, matches, |content|)
    requires offsets != [] && offsets[0] == 0 && offsets[|offsets| - 1] == |content|
    ensures Adjacent(slices, content) && SliceStart(slices, |slices|) == |content|
    ensures forall i :: 0 <= i < |slices| ==> StyledBy(slices[i], styles) && MatchedBy(slices[i], matches, currentMatch)
  {
    hide Boundaries, NormalizedStyle, StyledBy, MatchedBy;
    slices := [];
    var styleIndex, matchIndex := 0, 0;
    for index := 0 to |offsets| - 1
      invariant |slices| == index && Adjacent(slices, content) && SliceStart(slices, index) == offsets[index]
      invariant styleIndex <= |styles| && forall j :: 0 <= j < styleIndex ==> styles[j].end <= offsets[index]
      invariant matchIndex <= |matches| && forall j :: 0 <= j < matchIndex ==> matches[j].end <= offsets[index]
      invariant forall i :: 0 <= i < |slices| ==> StyledBy(slices[i], styles) && MatchedBy(slices[i], matches, currentMatch)
    {
      var start, end := offsets[index], offsets[index + 1];
      Range(offsets, styles, matches, |content|, index);
      while styleIndex < |styles| && styles[styleIndex].end <= start
        invariant styleIndex <= |styles| && forall j :: 0 <= j < styleIndex ==> styles[j].end <= start
      {
        styleIndex := styleIndex + 1;
      }
      while matchIndex < |matches| && matches[matchIndex].end <= start
        invariant matchIndex <= |matches| && forall j :: 0 <= j < matchIndex ==> matches[j].end <= start
      {
        matchIndex := matchIndex + 1;
      }
      var style := if styleIndex < |styles| && styles[styleIndex].start <= start && styles[styleIndex].end >= end
                   then Some(NormalizedStyle(styles[styleIndex].style)) else None;
      var match_ := if matchIndex < |matches| && matches[matchIndex].start <= start && matches[matchIndex].end >= end
                    then matches[matchIndex].index else -1;
      var slice := Slice(start, end, content[start..end], style, match_, match_ != -1 && match_ == currentMatch);
      SliceStyled(slice, offsets, styles, matches, index, |content|, styleIndex);
      SliceMatched(slice, offsets, styles, matches, index, |content|, matchIndex, currentMatch);
      SliceAdded(slices, slice, content);
      slices := slices + [slice];
    }
  }

  lemma Range(offsets: seq<int>, styles: seq<StyleRun>, matches: seq<Match>, length: int, k: nat)
    requires Boundaries(offsets, styles, matches, length) && k + 1 < |offsets|
    ensures 0 <= offsets[k] < offsets[k + 1] <= length
  {
    assert offsets[k] in offsets && offsets[k + 1] in offsets;
  }

  lemma SliceAdded(slices: seq<Slice>, slice: Slice, content: Text)
    requires Adjacent(slices, content) && 0 <= slice.start < slice.end <= |content| && slice.text == content[slice.start..slice.end]
    requires slice.start == SliceStart(slices, |slices|)
    ensures Adjacent(slices + [slice], content) && SliceStart(slices + [slice], |slices| + 1) == slice.end
  {
    forall i | 0 <= i < |slices| + 1 ensures Joins(slices + [slice], i, content) {
      if i < |slices| {
        assert Joins(slices, i, content);
      }
    }
  }

  lemma SliceStyled(slice: Slice, offsets: seq<int>, styles: seq<StyleRun>, matches: seq<Match>, k: nat, length: int, styleIndex: nat)
    requires Ordered(styles, length) && Boundaries(offsets, styles, matches, length) && k + 1 < |offsets| && styleIndex <= |styles|
    requires forall j :: 0 <= j < styleIndex ==> styles[j].end <= offsets[k]
    requires styleIndex < |styles| ==> styles[styleIndex].end > offsets[k]
    requires slice.start == offsets[k] && slice.end == offsets[k + 1]
    requires slice.style == if styleIndex < |styles| && styles[styleIndex].start <= slice.start && styles[styleIndex].end >= slice.end
                            then Some(NormalizedStyle(styles[styleIndex].style)) else None
    ensures StyledBy(slice, styles)
  {
    hide NormalizedStyle, Boundaries;
    StyleDecides(styles, offsets, matches, k, length, styleIndex);
  }

  lemma SliceMatched(slice: Slice, offsets: seq<int>, styles: seq<StyleRun>, matches: seq<Match>, k: nat, length: int, matchIndex: nat, currentMatch: int)
    requires Apart(matches, length) && Boundaries(offsets, styles, matches, length) && k + 1 < |offsets| && matchIndex <= |matches|
    requires forall j :: 0 <= j < matchIndex ==> matches[j].end <= offsets[k]
    requires matchIndex < |matches| ==> matches[matchIndex].end > offsets[k]
    requires slice.start == offsets[k] && slice.end == offsets[k + 1]
    requires slice.matchIndex == if matchIndex < |matches| && matches[matchIndex].start <= slice.start && matches[matchIndex].end >= slice.end
                                 then matches[matchIndex].index else -1
    requires slice.current <==> slice.matchIndex != -1 && slice.matchIndex == currentMatch
    ensures MatchedBy(slice, matches, currentMatch)
  {
    hide Boundaries;
    MatchDecides(styles, offsets, matches, k, length, matchIndex);
  }
}
