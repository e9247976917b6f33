/** Terminal text as a sequence of characters, control functions and control strings (ECMA-48), and how it is read. */
module TerminalGrammar {
  import opened Wrappers
  import opened CodeUnits
  import opened TerminalStyle
  import opened TerminalAnsi

  /** The control strings: DCS, SOS, OSC, PM and APC. */
  datatype StringKind = DeviceControl | StartOfString | OperatingSystem | PrivacyMessage | ApplicationProgram
  datatype Terminator = Bell | StringTerminator | EscapedTerminator

  /** One thing in a text. Control sequences and control strings are introduced by one control character, or by
      an escape and another unit. */
  datatype Piece =
    | Shown(unit: Unit)
    | Ignored(unit: Unit)
    | Escaped(unit: Unit)
    | Sequence(short: bool, parameters: Text, final: Unit)
    | String(short: bool, kind: StringKind, body: Text, end: Terminator)

  predicate Printing(u: Unit) {
    0x20 <= u < 0x7f || 0xa0 <= u
  }


  function ShortIntroducer(kind: StringKind): Unit {
    match kind
    case DeviceControl => 0x90
    case StartOfString => 0x98
    case OperatingSystem => 0x9d
    case PrivacyMessage => 0x9e
    case ApplicationProgram => 0x9f
  }

  /** After an escape: P, X, ], ^ and _. */
  function LongIntroducer(kind: StringKind): Unit {
    match kind
    case DeviceControl => 'P' as Unit
    case StartOfString => 'X' as Unit
    case OperatingSystem => ']' as Unit
    case PrivacyMessage => '^' as Unit
    case ApplicationProgram => '_' as Unit
  }

  function Ending(end: Terminator): Text {
    match end
    case Bell => [0x07]
    case StringTerminator => [0x9c]
    case EscapedTerminator => [0x1b, '\\' as Unit]
  }

  /** A terminator starts at the i-th unit. */
  predicate EndsAt(t: Text, i: nat)
    requires i < |t|
  {
    exists end :: Ending(end) <= t[i..]
  }

  /** A final unit of a control sequence. */
  predicate Final(u: Unit) {
    '@' as Unit <= u <= '~' as Unit
  }

  predicate Legal(p: Piece) {
    match p
    case Shown(u) => Printing(u) || u == '\n' as Unit || u == '\t' as Unit
    case Ignored(u) =>
      && !Printing(u) && u != '\n' as Unit && u != '\t' as Unit && u != 0x1b && u != 0x9b
      && forall kind: StringKind :: u != ShortIntroducer(kind)
    case Escaped(u) => u != '[' as Unit && forall kind: StringKind :: u != LongIntroducer(kind)
    case Sequence(_, parameters, final) => Final(final) && forall i :: 0 <= i < |parameters| ==> !Final(parameters[i])
    case String(_, _, body, end) => forall i :: 0 <= i < |body| ==> !EndsAt(body + Ending(end), i)
  }

  function SequenceStart(short: bool): Text {
    if short then [0x9b] else [0x1b, '[' as Unit]
  }

  function StringStart(short: bool, kind: StringKind): Text {
    if short then [ShortIntroducer(kind)] else [0x1b, LongIntroducer(kind)]
  }

  function PieceText(p: Piece): Text {
    match p
    case Shown(u) => [u]
    case Ignored(u) => [u]
    case Escaped(u) => [0x1b, u]
    case Sequence(short, parameters, final) => SequenceStart(short) + parameters + [final]
    case String(short, kind, body, end) => StringStart(short, kind) + body + Ending(end)
  }

  function TextOf(pieces: seq<Piece>): Text {
    if pieces == [] then [] else PieceText(pieces[0]) + TextOf(pieces[1..])
  }

  /** An escape and nothing more, or a control sequence or control string that never ends. */
  ghost predicate CutOff(t: Text) {
    || t == [0x1b]
    || (exists short, more :: t == SequenceStart(short) + more && forall i :: 0 <= i < |more| ==> !Final(more[i]))
    || (exists short, kind, more :: t == StringStart(short, kind) + more && forall i :: 0 <= i < |more| ==> !EndsAt(more, i))
  }

  /** A text by its pieces, with what is cut off at its end. */
  ghost predicate Spells(v: Text, pieces: seq<Piece>, cut: Text) {
    v == TextOf(pieces) + cut && (forall i :: 0 <= i < |pieces| ==> Legal(pieces[i])) && (cut == [] || CutOff(cut))
  }

  /** Characters are shown in the style of the moment, which only sequences that end in `m` change. */
  function Meaning(pieces: seq<Piece>, style: Style, number: Text -> Option<nat>): Reading {
    if pieces == [] then Reading([], [], true)
    else
      match pieces[0]
      case Shown(u) =>
        var rest := Meaning(pieces[1..], style, number);
        Reading([u] + rest.text, [style] + rest.styles, rest.reliable)
      case Sequence(_, parameters, final) =>
        if final == 'm' as Unit then
          var (changed, understood) := SgrEffect(style, parameters, number);
          var rest := Meaning(pieces[1..], changed, number);
          rest.(reliable := understood && rest.reliable)
        else Meaning(pieces[1..], style, number)
      case _ => Meaning(pieces[1..], style, number)
  }

  // ---------------------------------------------------------------- one piece is one token

  function TokenOf(p: Piece): Token {
    match p
    case Shown(u) => Emit(u)
    case Sequence(_, parameters, final) => if final == 'm' as Unit then SgrToken(parameters) else Skip
    case _ => Skip
  }

  lemma ControlEndIs(v: Text, start: nat, n: nat)
    requires start + n < |v| && Final(v[start + n]) && forall i :: start <= i < start + n ==> !Final(v[i])
    ensures ControlEnd(v, start) == Some(start + n)
  {
    ControlEndIsFirst(v, start);
  }

  lemma NoControlEnd(v: Text, start: nat)
    requires start <= |v| && forall i :: start <= i < |v| ==> !Final(v[i])
    ensures ControlEnd(v, start) == None
  {
    ControlEndIsFirst(v, start);
  }

  lemma EndsMeans(t: Text, i: nat)
    requires i < |t|
    ensures EndsAt(t, i) <==> TerminatorAt(t, i)
  {
    if TerminatorAt(t, i) {
      if t[i] == 0x07 {
        assert Ending(Bell) <= t[i..];
      } else if t[i] == 0x9c {
        assert Ending(StringTerminator) <= t[i..];
      } else {
        assert Ending(EscapedTerminator) <= t[i..];
      }
    }
    if EndsAt(t, i) {
      var end :| Ending(end) <= t[i..];
      assert t[i..][0] == t[i] == Ending(end)[0];
      if end == EscapedTerminator {
        assert t[i..][1] == t[i + 1] == Ending(end)[1];
      }
    }
  }

  /** This stands at the i-th unit. */
  predicate At(v: Text, i: nat, t: Text) {
    i + |t| <= |v| && forall k :: 0 <= k < |t| ==> v[i + k] == t[k]
  }

  lemma Parts(v: Text, i: nat, a: Text, b: Text)
    requires At(v, i, a + b)
    ensures At(v, i, a) && At(v, i + |a|, b)
  {
    forall k | 0 <= k < |a| ensures v[i + k] == a[k] {
      assert v[i + k] == (a + b)[k];
    }
    forall k | 0 <= k < |b| ensures v[i + |a| + k] == b[k] {
      assert v[i + (|a| + k)] == (a + b)[|a| + k] == b[k];
    }
  }

  lemma Beginning(v: Text, i: nat, first: Text, rest: Text)
    requires i <= |v| && v[i..] == first + rest
    ensures At(v, i, first) && v[i + |first|..] == rest
  {
    forall k | 0 <= k < |first| ensures v[i + k] == first[k] {
      assert v[i..][k] == v[i + k];
    }
    assert v[i..][|first|..] == rest;
  }

  /** The terminator that starts first is the one a control string ends with. */
  lemma StringEndIs(v: Text, start: nat, n: nat, end: Terminator)
    requires At(v, start + n, Ending(end)) && forall i :: start <= i < start + n ==> !TerminatorAt(v, i)
    ensures StringEnd(v, start) == Some(start + n + |Ending(end)| - 1)
  {
    assert v[start + n + 0] == Ending(end)[0] && (end == EscapedTerminator ==> v[start + n + 1] == Ending(end)[1]);
    assert TerminatorAt(v, start + n) && TerminatorEnd(v, start + n) == start + n + |Ending(end)| - 1;
    StringEndIsFirst(v, start);
  }

  lemma NoStringEnd(v: Text, start: nat)
    requires start <= |v| && forall i :: start <= i < |v| ==> !TerminatorAt(v, i)
    ensures StringEnd(v, start) == None
  {
    StringEndIsFirst(v, start);
  }

  lemma Introducers()
    ensures forall u: Unit :: StringIntroducer(u) <==> exists kind: StringKind :: u == ShortIntroducer(kind)
    ensures forall v: Text, i: nat :: i < |v| ==> (StringMarker(v, i) <==> exists kind: StringKind :: v[i] == LongIntroducer(kind))
  {
    assert ShortIntroducer(DeviceControl) == 0x90 && ShortIntroducer(StartOfString) == 0x98 && ShortIntroducer(OperatingSystem) == 0x9d
           && ShortIntroducer(PrivacyMessage) == 0x9e && ShortIntroducer(ApplicationProgram) == 0x9f;
    assert LongIntroducer(DeviceControl) == 0x50 && LongIntroducer(StartOfString) == 0x58 && LongIntroducer(OperatingSystem) == 0x5d
           && LongIntroducer(PrivacyMessage) == 0x5e && LongIntroducer(ApplicationProgram) == 0x5f;
  }

  lemma CharacterToken(v: Text, i: nat, p: Piece)
    requires At(v, i, PieceText(p)) && Legal(p) && (p.Shown? || p.Ignored? || p.Escaped?)
    ensures i < |v| && TokenAt(v, i) == (TokenOf(p), i + |PieceText(p)|)
  {
    hide ControlEnd, StringEnd;
    Introducers();
    assert v[i] == PieceText(p)[0] && (p.Escaped? ==> v[i + 1] == PieceText(p)[1]);
  }

  /** An introducer starts a control sequence or a control string. */
  lemma SequenceStarts(v: Text, i: nat, short: bool)
    requires At(v, i, SequenceStart(short))
    ensures i < |v| && TokenAt(v, i) == ControlToken(v, i + |SequenceStart(short)|)
  {
    hide ControlToken, StringToken;
    assert v[i] == SequenceStart(short)[0] && (!short ==> v[i + 1] == SequenceStart(short)[1]);
  }

  lemma StringStarts(v: Text, i: nat, short: bool, kind: StringKind)
    requires At(v, i, StringStart(short, kind))
    ensures i < |v| && TokenAt(v, i) == StringToken(v, i + |StringStart(short, kind)|)
  {
    hide ControlToken, StringToken;
    Introducers();
    assert v[i] == StringStart(short, kind)[0] && (!short ==> v[i + 1] == StringStart(short, kind)[1]);
  }

  lemma SequenceToken(v: Text, i: nat, p: Piece)
    requires At(v, i, PieceText(p)) && Legal(p) && p.Sequence?
    ensures i < |v| && TokenAt(v, i) == (TokenOf(p), i + |PieceText(p)|)
  {
    hide ControlEnd, TokenAt, SequenceStart;
    var start := SequenceStart(p.short);
    var j := i + |start|;
    Parts(v, i, start + p.parameters, [p.final]);
    Parts(v, i, start, p.parameters);
    SequenceStarts(v, i, p.short);
    assert v[j + |p.parameters| + 0] == [p.final][0];
    forall k | j <= k < j + |p.parameters| ensures !Final(v[k]) {
      assert v[j + (k - j)] == p.parameters[k - j];
    }
    ControlEndIs(v, j, |p.parameters|);
    assert v[j..j + |p.parameters|] == p.parameters;
  }

  /** Nothing ends a control string before its terminator does. */
  lemma NotEnded(v: Text, j: nat, body: Text, end: Terminator)
    requires At(v, j, body + Ending(end)) && forall i :: 0 <= i < |body| ==> !EndsAt(body + Ending(end), i)
    ensures forall k :: j <= k < j + |body| ==> k < |v| && !TerminatorAt(v, k)
  {
    hide EndsAt;
    var ended := body + Ending(end);
    forall k | j <= k < j + |body| ensures k < |v| && !TerminatorAt(v, k) {
      EndsMeans(ended, k - j);
      assert v[j + (k - j)] == ended[k - j] && (k - j + 1 < |ended| ==> v[j + (k - j + 1)] == ended[k - j + 1]);
    }
  }

  lemma StringPieceText(p: Piece)
    requires p.String?
    ensures PieceText(p) == StringStart(p.short, p.kind) + (p.body + Ending(p.end))
    ensures |PieceText(p)| == |StringStart(p.short, p.kind)| + |p.body| + |Ending(p.end)| && Ending(p.end) != []
  {
    hide StringStart;
  }

  lemma StringPieceToken(v: Text, i: nat, p: Piece)
    requires At(v, i, PieceText(p)) && Legal(p) && p.String?
    ensures i < |v| && TokenAt(v, i) == (TokenOf(p), i + |PieceText(p)|)
  {
    hide StringEnd, TokenAt, Ending, StringStart, TerminatorAt, EndsAt, At, PieceText;
    var start := StringStart(p.short, p.kind);
    StringPieceText(p);
    Parts(v, i, start, p.body + Ending(p.end));
    StringStarts(v, i, p.short, p.kind);
    NotEnded(v, i + |start|, p.body, p.end);
    Parts(v, i + |start|, p.body, Ending(p.end));
    StringEndIs(v, i + |start|, |p.body|, p.end);
  }

  lemma PieceToken(v: Text, i: nat, p: Piece)
    requires At(v, i, PieceText(p)) && Legal(p)
    ensures i < |v| && TokenAt(v, i) == (TokenOf(p), i + |PieceText(p)|)
  {
    hide PieceText, Legal, TokenOf, TokenAt, At;
    match p {
      case Sequence(_, _, _) => SequenceToken(v, i, p);
      case String(_, _, _, _) => StringPieceToken(v, i, p);
      case _ => CharacterToken(v, i, p);
    }
  }

  // ---------------------------------------------------------------- what is cut off

  lemma LoneEscape(v: Text, i: nat)
    requires i <= |v| && v[i..] == [0x1b]
    ensures i < |v| && TokenAt(v, i) == (Unterminated, |v|)
  {
    assert v[i] == v[i..][0];
  }

  lemma CutSequence(v: Text, i: nat, short: bool, more: Text)
    requires i <= |v| && v[i..] == SequenceStart(short) + more && forall k :: 0 <= k < |more| ==> !Final(more[k])
    ensures i < |v| && TokenAt(v, i) == (Unterminated, |v|)
  {
    hide ControlEnd, TokenAt, SequenceStart, At;
    var j := i + |SequenceStart(short)|;
    Beginning(v, i, SequenceStart(short), more);
    SequenceStarts(v, i, short);
    forall k | j <= k < |v| ensures !Final(v[k]) {
      assert v[j..][k - j] == v[k];
    }
    NoControlEnd(v, j);
  }

  lemma CutString(v: Text, i: nat, short: bool, kind: StringKind, more: Text)
    requires i <= |v| && v[i..] == StringStart(short, kind) + more && forall k :: 0 <= k < |more| ==> !EndsAt(more, k)
    ensures i < |v| && TokenAt(v, i) == (Unterminated, |v|)
  {
    hide StringEnd, TokenAt, StringStart, At, EndsAt, TerminatorAt;
    var j := i + |StringStart(short, kind)|;
    Beginning(v, i, StringStart(short, kind), more);
    StringStarts(v, i, short, kind);
    forall k | j <= k < |v| ensures !TerminatorAt(v, k) {
      NoTerminator(v, j, k - j);
    }
    NoStringEnd(v, j);
  }

  lemma NoTerminator(v: Text, j: nat, k: nat)
    requires j + k < |v|
    ensures EndsAt(v[j..], k) <==> TerminatorAt(v, j + k)
  {
    EndsMeans(v[j..], k);
  }

  lemma CutToken(v: Text, i: nat)
    requires i <= |v| && CutOff(v[i..])
    ensures i < |v| && TokenAt(v, i) == (Unterminated, |v|)
  {
    hide TokenAt, SequenceStart, StringStart, EndsAt, Final;
    if v[i..] == [0x1b] {
      LoneEscape(v, i);
    } else if short, more :| v[i..] == SequenceStart(short) + more && forall k :: 0 <= k < |more| ==> !Final(more[k]) {
      CutSequence(v, i, short, more);
    } else {
      var short, kind, more :| v[i..] == StringStart(short, kind) + more && forall k :: 0 <= k < |more| ==> !EndsAt(more, k);
      CutString(v, i, short, kind, more);
    }
  }

  // ---------------------------------------------------------------- reading

  /** From any place in a text: what is spelled there is read as it is meant, up to what is cut off. */
  lemma {:induction false} ReadAsSpelled(v: Text, i: nat, pieces: seq<Piece>, cut: Text, style: Style, number: Text -> Option<nat>)
    requires i <= |v| && Spells(v[i..], pieces, cut)
    ensures var meaning := Meaning(pieces, style, number);
            Interpret(v, i, style, number) == meaning.(reliable := meaning.reliable && cut == [])
    decreases |pieces|
  {
    hide PieceText, Legal, TokenAt, SgrEffect, CutOff, At;
    if pieces == [] {
      assert v[i..] == cut;
      if cut != [] {
        CutToken(v, i);
      }
    } else {
      var p, more := pieces[0], pieces[1..];
      assert v[i..] == PieceText(p) + (TextOf(more) + cut);
      Beginning(v, i, PieceText(p), TextOf(more) + cut);
      PieceToken(v, i, p);
      var next := i + |PieceText(p)|;
      assert Spells(v[next..], more, cut);
      var changed := match TokenOf(p) { case SgrToken(raw) => SgrEffect(style, raw, number).0 case _ => style };
      ReadAsSpelled(v, next, more, cut, changed, number);
    }
  }

  // ---------------------------------------------------------------- every text is spelled somehow

  /** The first piece of a text, or none when it is cut off. */
  ghost predicate First(v: Text, p: Option<Piece>, rest: Text) {
    match p
    case None => CutOff(v)
    case Some(piece) => Legal(piece) && v == PieceText(piece) + rest && |rest| < |v|
  }

  lemma SequenceFirst(v: Text, short: bool, more: Text) returns (p: Option<Piece>, rest: Text)
    requires v == SequenceStart(short) + more
    ensures First(v, p, rest)
  {
    hide SequenceStart;
    ControlEndIsFirst(more, 0);
    match ControlEnd(more, 0) {
      case None =>
        p, rest := None, v;
        assert forall i :: 0 <= i < |more| ==> !Final(more[i]);
      case Some(end) =>
        p, rest := Some(Sequence(short, more[..end], more[end])), more[end + 1..];
        assert more == more[..end] + [more[end]] + rest;
        Regrouped(SequenceStart(short), more[..end], [more[end]], rest);
    }
  }

  lemma Regrouped(a: Text, b: Text, c: Text, d: Text)
    ensures a + (b + c + d) == a + b + c + d
  {
  }

  lemma StringFirst(v: Text, short: bool, kind: StringKind, more: Text) returns (p: Option<Piece>, rest: Text)
    requires v == StringStart(short, kind) + more
    ensures First(v, p, rest)
  {
    hide StringStart, EndsAt, TerminatorAt, First, Ending;
    StringEndIsFirst(more, 0);
    match StringEnd(more, 0) {
      case None =>
        p, rest := None, v;
        forall i | 0 <= i < |more| ensures !EndsAt(more, i) {
          EndsMeans(more, i);
        }
        assert First(v, p, rest) by { CutFirst(v, short, kind, more); }
      case Some(e) =>
        var i :| 0 <= i < |more| && TerminatorAt(more, i) && TerminatorEnd(more, i) == e && forall j :: 0 <= j < i ==> !TerminatorAt(more, j);
        var end := WhichEnd(more, i);
        rest := Ended(more, i, end);
        p := Some(String(short, kind, more[..i], end));
        Regrouped(StringStart(short, kind), more[..i], Ending(end), rest);
        FirstString(v, short, kind, more[..i], end, rest);
    }
  }

  lemma CutFirst(v: Text, short: bool, kind: StringKind, more: Text)
    requires v == StringStart(short, kind) + more && forall i :: 0 <= i < |more| ==> !EndsAt(more, i)
    ensures First(v, None, v)
  {
    hide EndsAt;
  }

  lemma FirstString(v: Text, short: bool, kind: StringKind, body: Text, end: Terminator, rest: Text)
    requires v == StringStart(short, kind) + body + Ending(end) + rest
    requires forall j :: 0 <= j < |body| ==> !EndsAt(body + Ending(end), j)
    ensures First(v, Some(String(short, kind, body, end)), rest)
  {
    hide EndsAt;
  }

  lemma Ended(t: Text, i: nat, end: Terminator) returns (rest: Text)
    requires At(t, i, Ending(end)) && forall j :: 0 <= j < i ==> !TerminatorAt(t, j)
    ensures t == t[..i] + Ending(end) + rest && |rest| < |t|
    ensures forall j :: 0 <= j < i ==> !EndsAt(t[..i] + Ending(end), j)
  {
    hide TerminatorAt, EndsAt;
    rest := t[i + |Ending(end)|..];
    assert t[i..i + |Ending(end)|] == Ending(end);
    forall j | 0 <= j < i ensures !EndsAt(t[..i] + Ending(end), j) {
      EndsMeans(t, j);
      NotYet(t, i, end, j);
    }
  }

  lemma WhichEnd(t: Text, i: nat) returns (end: Terminator)
    requires i < |t| && TerminatorAt(t, i)
    ensures At(t, i, Ending(end))
  {
    end := if t[i] == 0x07 then Bell else if t[i] == 0x9c then StringTerminator else EscapedTerminator;
  }

  /** A terminator that starts before the first one would be there in the whole text too. */
  lemma NotYet(t: Text, i: nat, end: Terminator, j: nat)
    requires j < i && At(t, i, Ending(end))
    ensures EndsAt(t[..i] + Ending(end), j) ==> EndsAt(t, j)
  {
    var ended := t[..i] + Ending(end);
    EndsMeans(ended, j);
    EndsMeans(t, j);
    assert ended[j] == t[j];
    if j + 1 < |ended| {
      assert ended[j + 1] == t[j + 1] by { assert j + 1 == i ==> t[i + 0] == Ending(end)[0]; }
    }
  }

  lemma PieceFirst(v: Text) returns (p: Option<Piece>, rest: Text)
    requires v != []
    ensures First(v, p, rest)
  {
    hide SequenceStart, StringStart;
    Introducers();
    var u := v[0];
    if u == 0x1b && |v| == 1 {
      p, rest := None, v;
    } else if u == 0x1b && v[1] == '[' as Unit {
      StartIs(v, false);
      p, rest := SequenceFirst(v, false, v[2..]);
    } else if u == 0x9b {
      StartIs(v, true);
      p, rest := SequenceFirst(v, true, v[1..]);
    } else if kind: StringKind :| u == ShortIntroducer(kind) {
      StringStartIs(v, true, kind);
      p, rest := StringFirst(v, true, kind, v[1..]);
    } else if kind: StringKind :| u == 0x1b && v[1] == LongIntroducer(kind) {
      StringStartIs(v, false, kind);
      p, rest := StringFirst(v, false, kind, v[2..]);
    } else if u == 0x1b {
      p, rest := Some(Escaped(v[1])), v[2..];
      assert v == [0x1b, v[1]] + rest;
    } else {
      p, rest := Some(if Printing(u) || u == '\n' as Unit || u == '\t' as Unit then Shown(u) else Ignored(u)), v[1..];
      assert v == [u] + rest;
    }
  }

  lemma StartIs(v: Text, short: bool)
    requires if short then |v| >= 1 && v[0] == 0x9b else |v| >= 2 && v[0] == 0x1b && v[1] == '[' as Unit
    ensures v == SequenceStart(short) + v[if short then 1 else 2..]
  {
  }

  lemma StringStartIs(v: Text, short: bool, kind: StringKind)
    requires if short then |v| >= 1 && v[0] == ShortIntroducer(kind) else |v| >= 2 && v[0] == 0x1b && v[1] == LongIntroducer(kind)
    ensures v == StringStart(short, kind) + v[if short then 1 else 2..]
  {
  }

  /** Every text is pieces, and at most something cut off at its end. */
  lemma {:induction false} Spelled(v: Text) returns (pieces: seq<Piece>, cut: Text)
    ensures Spells(v, pieces, cut)
    decreases |v|
  {
    hide PieceText, Legal, CutOff;
    if v == [] {
      pieces, cut := [], [];
    } else {
      var first, rest := PieceFirst(v);
      match first {
        case None => pieces, cut := [], v;
        case Some(p) =>
          var more, left := Spelled(rest);
          pieces, cut := [p] + more, left;
          assert pieces[1..] == more;
          assert v == PieceText(p) + TextOf(more) + cut;
      }
    }
  }

  /** A text is read as this if and only if it is spelled by pieces that mean it; what is cut off at its end makes
      the styles unreliable, and is not shown. */
  lemma TextConforms(v: Text, style: Style, number: Text -> Option<nat>, r: Reading)
    ensures Interpret(v, 0, style, number) == r <==>
              exists pieces, cut :: Spells(v, pieces, cut)
                && r == Meaning(pieces, style, number).(reliable := Meaning(pieces, style, number).reliable && cut == [])
  {
    hide Interpret, Spells, Meaning;
    assert v[0..] == v;
    var pieces, cut := Spelled(v);
    ReadAsSpelled(v, 0, pieces, cut, style, number);
    forall more, left | Spells(v, more, left)
      ensures Interpret(v, 0, style, number) == Meaning(more, style, number).(reliable := Meaning(more, style, number).reliable && left == [])
    {
      ReadAsSpelled(v, 0, more, left, style, number);
    }
  }

  // ---------------------------------------------------------------- line endings

  lemma {:induction false} Unbroken(line: Text, rest: Text)
    requires forall i :: 0 <= i < |line| ==> line[i] != '\r' as Unit
    ensures Newlines(line + rest) == line + Newlines(rest)
  {
    if line == [] {
      assert line + rest == rest;
    } else {
      Unbroken(line[1..], rest);
      assert line + rest == [line[0]] + (line[1..] + rest);
    }
  }

  lemma Broken(more: Text)
    ensures Newlines(['\r' as Unit, '\n' as Unit] + more) == ['\n' as Unit] + Newlines(more)
    ensures !(['\n' as Unit] <= more) ==> Newlines(['\r' as Unit] + more) == ['\n' as Unit] + Newlines(more)
  {
    assert (['\r' as Unit, '\n' as Unit] + more)[2..] == more && (['\r' as Unit] + more)[1..] == more;
    assert !(['\n' as Unit] <= more) ==> more == [] || more[0] != '\n' as Unit;
  }

  /** A carriage return ends a line, alone or with the line feed after it; nothing else changes. */
  lemma LineEndings(line: Text, more: Text)
    requires forall i :: 0 <= i < |line| ==> line[i] != '\r' as Unit
    ensures Newlines(line) == line
    ensures Newlines(line + (['\r' as Unit, '\n' as Unit] + more)) == line + (['\n' as Unit] + Newlines(more))
    ensures !(['\n' as Unit] <= more) ==> Newlines(line + (['\r' as Unit] + more)) == line + (['\n' as Unit] + Newlines(more))
  {
    Unbroken(line, []);
    assert line + [] == line && line + Newlines([]) == line;
    Broken(more);
    Unbroken(line, ['\r' as Unit, '\n' as Unit] + more);
    Unbroken(line, ['\r' as Unit] + more);
  }
}
