/** Reading a session log in chunks: complete lines only, the same for every division into chunks. */
module UsageReader {
  import opened Wrappers

  type Byte = x: int | 0 <= x < 0x100

  const NEWLINE: Byte := 0x0a

  datatype EventBatch<E> = EventBatch(startOffset: nat, fileSize: nat, nextOffset: nat, completeThrough: bool, events: seq<E>)

  /** The bytes before the first newline, if there is one. */
  function NewlineAt(s: seq<Byte>): (i: Option<nat>)
    ensures i.Some? ==> i.value < |s| && s[i.value] == NEWLINE && NEWLINE !in s[..i.value]
    ensures i.None? ==> NEWLINE !in s
  {
    if s == [] then None
    else if s[0] == NEWLINE then Some(0)
    else
      var i := NewlineAt(s[1..]);
      assert s == [s[0]] + s[1..];
      if i.None? then None else
      assert s[..i.value + 1] == [s[0]] + s[1..][..i.value];
      Some(i.value + 1)
  }

  /** The complete lines of a text, and the bytes after the last of them. */
  function Lines(s: seq<Byte>): seq<seq<Byte>> {
    var i := NewlineAt(s);
    if i.None? then [] else [s[..i.value]] + Lines(s[i.value + 1..])
  }

  function Rest(s: seq<Byte>): (rest: seq<Byte>)
    ensures |rest| <= |s| && NEWLINE !in rest
  {
    var i := NewlineAt(s);
    if i.None? then s else Rest(s[i.value + 1..])
  }

  /** The events among some lines. */
  function Events<E>(lines: seq<seq<Byte>>, parse: seq<Byte> -> Option<E>): seq<E> {
    if lines == [] then []
    else Events(lines[..|lines| - 1], parse) + match parse(lines[|lines| - 1]) { case Some(e) => [e] case None => [] }
  }

  function Joined(fragments: seq<seq<Byte>>): seq<Byte> {
    if fragments == [] then [] else Joined(fragments[..|fragments| - 1]) + fragments[|fragments| - 1]
  }

  lemma {:induction false} EventsSplit<E>(a: seq<seq<Byte>>, b: seq<seq<Byte>>, parse: seq<Byte> -> Option<E>)
    ensures Events(a + b, parse) == Events(a, parse) + Events(b, parse)
    decreases |b|
  {
    if b == [] {
      assert a + b == a;
    } else {
      assert (a + b)[..|a + b| - 1] == a + b[..|b| - 1];
      EventsSplit(a, b[..|b| - 1], parse);
    }
  }

  lemma OneMoreLine<E>(lines: seq<seq<Byte>>, line: seq<Byte>, parse: seq<Byte> -> Option<E>)
    ensures Events(lines + [line], parse) == if parse(line).Some? then Events(lines, parse) + [parse(line).value] else Events(lines, parse)
  {
    assert (lines + [line])[..|lines|] == lines;
  }

  lemma FirstNewline(s: seq<Byte>, x: seq<Byte>, y: seq<Byte>)
    requires s == x + [NEWLINE] + y && NEWLINE !in x
    ensures NewlineAt(s) == Some(|x|)
  {
    assert s[|x|] == NEWLINE;
    assert forall k :: 0 <= k < |x| ==> s[k] == x[k];
  }

  /** Reading on from a text is reading on from its unfinished last line. */
  lemma {:induction false} LinesSplit(a: seq<Byte>, b: seq<Byte>)
    ensures Lines(a + b) == Lines(a) + Lines(Rest(a) + b) && Rest(a + b) == Rest(Rest(a) + b)
    ensures |a| - |Rest(a)| >= 0 && a[|a| - |Rest(a)|..] == Rest(a)
    decreases |a|
  {
    var i := NewlineAt(a);
    if i.Some? {
      var tail := a[i.value + 1..];
      assert a == a[..i.value] + [NEWLINE] + tail;
      assert a + b == a[..i.value] + [NEWLINE] + (tail + b);
      FirstNewline(a + b, a[..i.value], tail + b);
      assert (a + b)[..i.value] == a[..i.value] && (a + b)[i.value + 1..] == tail + b;
      LinesSplit(tail, b);
    }
  }

  /** Bytes without a newline only lengthen the unfinished line. */
  lemma LineGrows(a: seq<Byte>, x: seq<Byte>)
    requires NEWLINE !in x
    ensures Lines(a + x) == Lines(a) && Rest(a + x) == Rest(a) + x
  {
    LinesSplit(a, x);
  }

  /** A newline finishes it. */
  lemma LineEnds(a: seq<Byte>, x: seq<Byte>)
    requires NEWLINE !in x
    ensures Lines(a + (x + [NEWLINE])) == Lines(a) + [Rest(a) + x] && Rest(a + (x + [NEWLINE])) == []
  {
    hide Lines, Rest;
    LinesSplit(a, x + [NEWLINE]);
    var line := Rest(a) + x;
    assert Rest(a) + (x + [NEWLINE]) == line + [NEWLINE];
    OneLine(line);
  }

  lemma OneLine(line: seq<Byte>)
    requires NEWLINE !in line
    ensures Lines(line + [NEWLINE]) == [line] && Rest(line + [NEWLINE]) == []
  {
    assert line + [NEWLINE] == line + [NEWLINE] + [];
    FirstNewline(line + [NEWLINE], line, []);
    assert (line + [NEWLINE])[..|line|] == line && (line + [NEWLINE])[|line| + 1..] == [];
  }

  /** One past the last newline: what is read to the end, and nothing unfinished. */
  function Consumed(s: seq<Byte>): nat {
    |s| - |Rest(s)|
  }

  lemma ConsumedIsLastNewline(s: seq<Byte>)
    ensures Consumed(s) <= |s| && (Consumed(s) > 0 ==> s[Consumed(s) - 1] == NEWLINE)
    ensures forall i :: Consumed(s) <= i < |s| ==> s[i] != NEWLINE
    decreases |s|
  {
    LinesSplit(s, []);
    forall i | Consumed(s) <= i < |s| ensures s[i] != NEWLINE {
      assert s[i] == s[Consumed(s)..][i - Consumed(s)];
      assert Rest(s)[i - Consumed(s)] in Rest(s);
    }
    var i := NewlineAt(s);
    if i.Some? {
      ConsumedIsLastNewline(s[i.value + 1..]);
      if Consumed(s[i.value + 1..]) > 0 {
        assert s[Consumed(s) - 1] == s[i.value + 1..][Consumed(s[i.value + 1..]) - 1];
      }
    }
  }

  // ---------------------------------------------------------------- the reader

  /** What reading a file from an offset gives, whatever the chunks. */
  function BatchOf<E>(content: seq<Byte>, requestedStart: nat, parse: seq<Byte> -> Option<E>): EventBatch<E> {
    var start := if requestedStart > |content| then |content| else requestedStart;
    var next := start + Consumed(content[start..]);
    EventBatch(requestedStart, |content|, next, next == |content|, Events(Lines(content[start..]), parse))
  }

  /** The reader: chunk by chunk, with the unfinished line kept in fragments from one chunk to the next. */
  method ReadCodexUsageEventBatch<E>(content: seq<Byte>, requestedStart: nat, chunks: seq<seq<Byte>>, parse: seq<Byte> -> Option<E>)
    returns (batch: EventBatch<E>)
    requires requestedStart <= |content| ==> Joined(chunks) == content[requestedStart..]
    ensures batch == BatchOf(content, requestedStart, parse)
  {
    var cursorPastEnd := requestedStart > |content|;
    var boundedStart := if cursorPastEnd then |content| else requestedStart;
    var events: seq<E> := [];
    var nextOffset := boundedStart;
    if |content| > boundedStart {
      var fragments: seq<seq<Byte>> := [];
      ghost var read: seq<Byte> := [];
      for k := 0 to |chunks|
        invariant read == Joined(chunks[..k])
        invariant Joined(fragments) == Rest(read) && nextOffset == boundedStart + Consumed(read)
        invariant events == Events(Lines(read), parse)
      {
        assert chunks[..k + 1][..k] == chunks[..k];
        ghost var before := read;
        nextOffset, events, fragments := ReadChunk(chunks[k], before, boundedStart, nextOffset, events, fragments, parse);
        read := before + chunks[k];
      }
      assert chunks[..|chunks|] == chunks;
    } else {
      assert content[boundedStart..] == [];
    }
    batch := EventBatch(if cursorPastEnd then requestedStart else boundedStart, |content|, nextOffset, |content| == nextOffset, events);
  }

  /** Reading up to and over the newline of the unfinished line. */
  lemma NewlineStep<E>(before: seq<Byte>, chunk: seq<Byte>, lineStart: nat, newline: nat, parse: seq<Byte> -> Option<E>)
    requires lineStart <= newline < |chunk| && chunk[newline] == NEWLINE && NEWLINE !in chunk[lineStart..newline]
    ensures var read, after := before + chunk[..lineStart], before + chunk[..newline + 1];
            var line := Rest(read) + chunk[lineStart..newline];
            && Rest(after) == [] && Consumed(after) == Consumed(read) + |line| + 1
            && Events(Lines(after), parse) ==
               if parse(line).Some? then Events(Lines(read), parse) + [parse(line).value] else Events(Lines(read), parse)
  {
    hide Lines, Rest, Events;
    var read, x := before + chunk[..lineStart], chunk[lineStart..newline];
    LineEnds(read, x);
    assert before + chunk[..newline + 1] == read + (x + [NEWLINE]);
    OneMoreLine(Lines(read), Rest(read) + x, parse);
  }

  /** What is left of a chunk begins the next line. */
  lemma ChunkEnd(before: seq<Byte>, chunk: seq<Byte>, lineStart: nat)
    requires lineStart <= |chunk| && NEWLINE !in chunk[lineStart..]
    ensures var read := before + chunk[..lineStart];
            && Lines(before + chunk) == Lines(read) && Rest(before + chunk) == Rest(read) + chunk[lineStart..]
            && Consumed(before + chunk) == Consumed(read)
  {
    hide Lines, Rest;
    var read := before + chunk[..lineStart];
    assert before + chunk == read + chunk[lineStart..];
    LineGrows(read, chunk[lineStart..]);
  }

  lemma FragmentAdded(fragments: seq<seq<Byte>>, last: seq<Byte>)
    ensures Joined(fragments + [last]) == Joined(fragments) + last && Joined([]) == []
  {
    assert (fragments + [last])[..|fragments|] == fragments;
  }

  /** One chunk: every newline in it ends a line that may have begun chunks earlier. */
  method ReadChunk<E>(chunk: seq<Byte>, ghost before: seq<Byte>, start: nat, nextOffset0: nat, events0: seq<E>, fragments0: seq<seq<Byte>>,
                      parse: seq<Byte> -> Option<E>)
    returns (nextOffset: nat, events: seq<E>, fragments: seq<seq<Byte>>)
    requires Joined(fragments0) == Rest(before) && nextOffset0 == start + Consumed(before) && events0 == Events(Lines(before), parse)
    ensures Joined(fragments) == Rest(before + chunk) && nextOffset == start + Consumed(before + chunk)
    ensures events == Events(Lines(before + chunk), parse)
  {
    nextOffset, events, fragments := nextOffset0, events0, fragments0;
    var lineStart := 0;
    var index := NewlineAt(chunk);
    assert before + chunk[..0] == before;
    hide Lines, Rest, NewlineAt, Events, Consumed, Joined;
    while index.Some?
      invariant 0 <= lineStart <= |chunk| && index == NewlineAt(chunk[lineStart..])
      invariant Joined(fragments) == Rest(before + chunk[..lineStart])
      invariant nextOffset == start + Consumed(before + chunk[..lineStart])
      invariant events == Events(Lines(before + chunk[..lineStart]), parse)
      decreases |chunk| - lineStart
    {
      var newline := lineStart + index.value;
      assert chunk[lineStart..newline] == chunk[lineStart..][..index.value];
      NewlineStep(before, chunk, lineStart, newline, parse);
      var line := Joined(fragments) + chunk[lineStart..newline];
      var parsed := parse(line);
      if parsed.Some? {
        events := events + [parsed.value];
      }
      nextOffset := nextOffset + |line| + 1;
      FragmentAdded([], []);
      fragments := [];
      lineStart := newline + 1;
      index := NewlineAt(chunk[lineStart..]);
    }
    ChunkEnd(before, chunk, lineStart);
    if lineStart < |chunk| {
      FragmentAdded(fragments, chunk[lineStart..]);
      fragments := fragments + [chunk[lineStart..]];
    }
  }

  // ---------------------------------------------------------------- what a reader can rely on

  /** The next offset is one past the last newline, and never before the start. */
  lemma NextOffsetIsLineStart<E>(content: seq<Byte>, start: nat, parse: seq<Byte> -> Option<E>)
    requires start <= |content|
    ensures var next := BatchOf(content, start, parse).nextOffset;
            && start <= next <= |content| && (next > start ==> content[next - 1] == NEWLINE)
            && forall i :: next <= i < |content| ==> content[i] != NEWLINE
  {
    var s := content[start..];
    ConsumedIsLastNewline(s);
    forall i | start + Consumed(s) <= i < |content| ensures content[i] != NEWLINE {
      assert s[i - start] == content[i];
    }
  }

  /** Reading, then reading on from the returned offset after the file grew, gives the events of one read. */
  lemma ResumeIsOneRead<E>(content: seq<Byte>, more: seq<Byte>, start: nat, parse: seq<Byte> -> Option<E>)
    requires start <= |content|
    ensures var first := BatchOf(content, start, parse);
            var second := BatchOf(content + more, first.nextOffset, parse);
            var whole := BatchOf(content + more, start, parse);
            && first.events + second.events == whole.events && second.nextOffset == whole.nextOffset
            && second.completeThrough == whole.completeThrough
  {
    hide Lines, Rest, Events;
    var s := content[start..];
    var next := start + Consumed(s);
    assert (content + more)[start..] == s + more;
    LinesSplit(s, more);
    assert (content + more)[next..] == Rest(s) + more;
    EventsSplit(Lines(s), Lines(Rest(s) + more), parse);
    LinesSplit(s + more, []);
  }
}
