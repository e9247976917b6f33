/** From the bytes of growing session logs to the usage store: what the reader delivers is what replay expects. */
module UsageChain {
  import opened Wrappers
  import opened UsageReader
  import R = UsageReplay
  import opened UsageRefinement
  import opened UsageIncremental

  type Parser = seq<Byte> -> Option<R.Event>

  function LineAt(line: seq<Byte>, offset: nat, parse: Parser): seq<Line> {
    var e := parse(line);
    if e.Some? then [Line(offset, e.value)] else []
  }

  /** The log of a file: the events of its complete lines, each at the offset its line starts at. */
  function Located(s: seq<Byte>, base: nat, parse: Parser): seq<Line> {
    var i := NewlineAt(s);
    if i.None? then [] else LineAt(s[..i.value], base, parse) + Located(s[i.value + 1..], base + i.value + 1, parse)
  }

  /** The file may be read from here: a line starts. */
  predicate LineStart(s: seq<Byte>, offset: nat) {
    offset <= |s| && Rest(s[..offset]) == []
  }

  // ---------------------------------------------------------------- offsets of lines

  lemma LocatedStep(line: seq<Byte>, tail: seq<Byte>, base: nat, parse: Parser)
    requires NEWLINE !in line
    ensures Located(line + [NEWLINE] + tail, base, parse) == LineAt(line, base, parse) + Located(tail, base + |line| + 1, parse)
  {
    hide LineAt, NewlineAt;
    var s := line + [NEWLINE] + tail;
    FirstNewline(s, line, tail);
    assert s[..|line|] == line && s[|line| + 1..] == tail;
  }

  /** A text cut at its first newline. */
  lemma CutLine(a: seq<Byte>, b: seq<Byte>, i: nat)
    requires i < |a| && a[i] == NEWLINE
    ensures a == a[..i] + [NEWLINE] + a[i + 1..] && a + b == a[..i] + [NEWLINE] + (a[i + 1..] + b)
  {
  }

  lemma Regroup(xs: seq<Line>, ys: seq<Line>, zs: seq<Line>)
    ensures xs + (ys + zs) == (xs + ys) + zs
  {
  }

  lemma {:induction false} LocatedSplit(a: seq<Byte>, b: seq<Byte>, base: nat, parse: Parser)
    requires Rest(a) == []
    ensures Located(a + b, base, parse) == Located(a, base, parse) + Located(b, base + |a|, parse)
    decreases |a|
  {
    hide Located, LineAt;
    var i := NewlineAt(a);
    if i.None? {
      assert a == [] && a + b == b;
      assert Located(a, base, parse) == [] by { NoLines(base, parse); }
    } else {
      var line, tail, next := a[..i.value], a[i.value + 1..], base + i.value + 1;
      CutLine(a, b, i.value);
      LocatedStep(line, tail, base, parse);
      LocatedStep(line, tail + b, base, parse);
      LocatedSplit(tail, b, next, parse);
      Regroup(LineAt(line, base, parse), Located(tail, next, parse), Located(b, base + |a|, parse));
    }
  }

  lemma NoLines(base: nat, parse: Parser)
    ensures Located([], base, parse) == []
  {
  }

  predicate Within(lines: seq<Line>, from: nat, to: nat) {
    forall i :: 0 <= i < |lines| ==> from <= lines[i].offset < to
  }

  lemma {:induction false} LocatedWithin(s: seq<Byte>, base: nat, parse: Parser)
    ensures Within(Located(s, base, parse), base, base + Consumed(s)) && Ascending(Located(s, base, parse))
    decreases |s|
  {
    LinesSplit(s, []);
    var i := NewlineAt(s);
    if i.Some? {
      LocatedWithin(s[i.value + 1..], base + i.value + 1, parse);
    }
  }

  function EventsOf(lines: seq<Line>): seq<R.Event> {
    seq(|lines|, i requires 0 <= i < |lines| => lines[i].event)
  }

  lemma {:induction false} BetweenAll(lines: seq<Line>, from: nat, to: nat)
    requires Within(lines, from, to)
    ensures Between(lines, from, to) == EventsOf(lines)
    decreases |lines|
  {
    if lines != [] {
      BetweenAll(lines[..|lines| - 1], from, to);
    }
  }

  lemma {:induction false} BetweenParts(xs: seq<Line>, ys: seq<Line>, from: nat, to: nat)
    ensures Between(xs + ys, from, to) == Between(xs, from, to) + Between(ys, from, to)
    decreases |ys|
  {
    if ys == [] {
      assert xs + ys == xs;
    } else {
      assert (xs + ys)[..|xs + ys| - 1] == xs + ys[..|ys| - 1];
      BetweenParts(xs, ys[..|ys| - 1], from, to);
    }
  }

  lemma {:induction false} BetweenNone(lines: seq<Line>, from: nat, to: nat)
    requires forall i :: 0 <= i < |lines| ==> lines[i].offset < from || to <= lines[i].offset
    ensures Between(lines, from, to) == []
    decreases |lines|
  {
    if lines != [] {
      BetweenNone(lines[..|lines| - 1], from, to);
    }
  }

  /** The events of located lines are the events of the lines. */
  lemma {:induction false} LocatedEvents(s: seq<Byte>, base: nat, parse: Parser)
    ensures EventsOf(Located(s, base, parse)) == Events(Lines(s), parse)
    decreases |s|
  {
    hide Events, LineAt;
    var i := NewlineAt(s);
    if i.Some? {
      var line, tail := s[..i.value], s[i.value + 1..];
      LocatedEvents(tail, base + i.value + 1, parse);
      EventsSplit([line], Lines(tail), parse);
      LineEvents(line, base, parse);
      assert EventsOf(LineAt(line, base, parse) + Located(tail, base + i.value + 1, parse)) ==
             EventsOf(LineAt(line, base, parse)) + EventsOf(Located(tail, base + i.value + 1, parse));
    } else {
      assert Events([], parse) == [] by { NoEvents(parse); }
    }
  }

  lemma NoEvents(parse: Parser)
    ensures Events([], parse) == []
  {
  }

  lemma LineEvents(line: seq<Byte>, offset: nat, parse: Parser)
    ensures EventsOf(LineAt(line, offset, parse)) == Events([line], parse)
  {
    assert [line][..0] == [];
  }

  // ---------------------------------------------------------------- one reading

  /** A line start stays one when complete lines follow it. */
  lemma LineStartAfter(s: seq<Byte>, start: nat, next: nat)
    requires LineStart(s, start) && start <= next <= |s| && Rest(s[start..next]) == []
    ensures LineStart(s, next)
  {
    hide Rest, Lines;
    assert s[..next] == s[..start] + s[start..next];
    LinesSplit(s[..start], s[start..next]);
    assert [] + s[start..next] == s[start..next];
  }

  lemma {:induction false} RestAt(s: seq<Byte>, j: nat)
    requires j < |Rest(s)|
    ensures s[|s| - |Rest(s)| + j] == Rest(s)[j]
    decreases |s|
  {
    hide NewlineAt;
    var i := NewlineAt(s);
    if i.Some? {
      RestAt(s[i.value + 1..], j);
    }
  }

  lemma EndsWith(s: seq<Byte>, rest: seq<Byte>, k: nat)
    requires |s| == k + |rest| && forall j :: 0 <= j < |rest| ==> s[k + j] == rest[j]
    ensures s[k..] == rest && s == s[..k] + rest
  {
  }

  lemma RestFrom(s: seq<Byte>, k: nat)
    requires k + |Rest(s)| == |s|
    ensures s[k..] == Rest(s) && s == s[..k] + Rest(s)
  {
    hide Rest;
    forall j | 0 <= j < |Rest(s)| ensures s[k + j] == Rest(s)[j] {
      RestAt(s, j);
    }
    EndsWith(s, Rest(s), k);
  }

  lemma RestIsEnd(s: seq<Byte>)
    ensures Consumed(s) <= |s| && s[Consumed(s)..] == Rest(s) && s == s[..Consumed(s)] + Rest(s)
  {
    var k := Consumed(s);
    assert k + |Rest(s)| == |s|;
    hide Rest, Consumed;
    RestFrom(s, k);
  }

  /** What is after the last newline adds no line. */
  lemma LinesUpTo(s: seq<Byte>)
    ensures Consumed(s) <= |s| && Rest(s[..Consumed(s)]) == [] && Lines(s) == Lines(s[..Consumed(s)])
  {
    hide Rest, Lines, Consumed;
    RestIsEnd(s);
    MiddleComplete(s, Consumed(s));
    LineGrows(s[..Consumed(s)], Rest(s));
  }

  /** Reading a file on from a line start, up to the last newline. */
  lemma ReadUpTo(s: seq<Byte>, start: nat, next: nat)
    requires LineStart(s, start) && next == start + Consumed(s[start..])
    ensures start <= next <= |s| && Rest(s[start..next]) == [] && LineStart(s, next) && Lines(s[start..]) == Lines(s[start..next])
  {
    hide Rest, Lines, Consumed, LineStart;
    assert start <= |s| by { StartInside(s, start); }
    LinesUpTo(s[start..]);
    assert s[start..][..Consumed(s[start..])] == s[start..next];
    LineStartAfter(s, start, next);
  }

  lemma StartInside(s: seq<Byte>, start: nat)
    requires LineStart(s, start)
    ensures start <= |s|
  {
  }

  lemma RestStep(line: seq<Byte>, tail: seq<Byte>)
    requires NEWLINE !in line
    ensures Rest(line + [NEWLINE] + tail) == Rest(tail) && Consumed(line + [NEWLINE] + tail) == |line| + 1 + Consumed(tail)
  {
    hide NewlineAt;
    var s := line + [NEWLINE] + tail;
    FirstNewline(s, line, tail);
    assert s[|line| + 1..] == tail;
  }

  lemma TakeCut(line: seq<Byte>, tail: seq<Byte>, n: nat)
    requires n <= |tail|
    ensures (line + [NEWLINE] + tail)[..|line| + 1 + n] == line + [NEWLINE] + tail[..n]
  {
  }

  lemma {:induction false} MiddleComplete(s: seq<Byte>, n: nat)
    requires n == Consumed(s)
    ensures n <= |s| && Rest(s[..n]) == []
    decreases |s|
  {
    var i := NewlineAt(s);
    hide Rest, Consumed;
    if i.Some? {
      var line, tail := s[..i.value], s[i.value + 1..];
      CutLine(s, [], i.value);
      RestStep(line, tail);
      MiddleComplete(tail, Consumed(tail));
      TakeCut(line, tail, Consumed(tail));
      RestStep(line, tail[..Consumed(tail)]);
    } else {
      NothingComplete(s);
    }
  }

  lemma NothingComplete(s: seq<Byte>)
    requires NewlineAt(s).None?
    ensures Consumed(s) == 0 && Rest(s[..0]) == []
  {
  }

  /** A file in three parts: read before, read now, not read yet. */
  lemma LocatedParts(file: seq<Byte>, start: nat, next: nat, parse: Parser)
    requires LineStart(file, start) && start <= next <= |file| && Rest(file[start..next]) == []
    ensures Located(file, 0, parse) ==
            Located(file[..start], 0, parse) + (Located(file[start..next], start, parse) + Located(file[next..], next, parse))
  {
    hide Located, Rest;
    var middle, after := file[start..next], file[next..];
    assert file == file[..start] + (middle + after);
    LocatedSplit(file[..start], middle + after, 0, parse);
    LocatedSplit(middle, after, start, parse);
  }

  lemma BetweenMiddle(before: seq<Line>, during: seq<Line>, after: seq<Line>, start: nat, next: nat)
    requires (forall i :: 0 <= i < |before| ==> before[i].offset < start) && Within(during, start, next)
    requires forall i :: 0 <= i < |after| ==> next <= after[i].offset
    ensures Between(before + (during + after), start, next) == EventsOf(during)
  {
    hide Between;
    BetweenParts(before, during + after, start, next);
    BetweenParts(during, after, start, next);
    BetweenNone(before, start, next);
    BetweenNone(after, start, next);
    BetweenAll(during, start, next);
  }

  /** What the reader gives for a file of which only a part may have been written by then. */
  lemma ReadingCuts(file: seq<Byte>, size: nat, start: nat, parse: Parser)
    requires start <= size <= |file| && LineStart(file, start)
    ensures var batch := BatchOf(file[..size], start, parse);
            && start <= batch.nextOffset <= size && LineStart(file, batch.nextOffset)
            && batch.events == Between(Located(file, 0, parse), start, batch.nextOffset)
  {
    hide Located, Between, Rest, Lines, Events, Consumed;
    var content := file[..size];
    assert content[..start] == file[..start];
    var next := start + Consumed(content[start..]);
    ReadUpTo(content, start, next);
    assert content[start..next] == file[start..next] && content[..next] == file[..next];
    LocatedParts(file, start, next, parse);
    LocatedWithin(file[..start], 0, parse);
    LocatedWithin(file[start..next], start, parse);
    LocatedWithin(file[next..], next, parse);
    ConsumedBounds(file[..start]);
    ConsumedBounds(file[start..next]);
    BetweenMiddle(Located(file[..start], 0, parse), Located(file[start..next], start, parse), Located(file[next..], next, parse), start, next);
    LocatedEvents(file[start..next], start, parse);
  }

  lemma ConsumedBounds(s: seq<Byte>)
    ensures Consumed(s) <= |s|
  {
  }

  // ---------------------------------------------------------------- chains of readings

  /** One reading of a session file, at a time when it had this size. */
  datatype Reading = Reading(sourceId: string, start: nat, size: nat)

  /** The files as they are in the end; at any earlier time a file was a prefix of that. */
  datatype Files = Files(content: map<string, seq<Byte>>, session: string -> string, parse: Parser)

  function BatchFor(f: Files, rd: Reading): R.Batch
    requires rd.sourceId in f.content && rd.size <= |f.content[rd.sourceId]|
  {
    var batch := BatchOf(f.content[rd.sourceId][..rd.size], rd.start, f.parse);
    R.Batch(rd.sourceId, f.session(rd.sourceId), batch.startOffset, batch.nextOffset, batch.events)
  }

  function LogsOf(f: Files): map<string, Log> {
    map s | s in f.content :: Log(f.session(s), Located(f.content[s], 0, f.parse))
  }

  predicate Readable(f: Files, readings: seq<Reading>) {
    forall i :: 0 <= i < |readings| ==> readings[i].sourceId in f.content && readings[i].size <= |f.content[readings[i].sourceId]|
  }

  function BatchesOf(f: Files, readings: seq<Reading>): seq<R.Batch>
    requires Readable(f, readings)
  {
    seq(|readings|, i requires 0 <= i < |readings| => BatchFor(f, readings[i]))
  }

  /** The reading starts at the beginning of its file, or where an earlier one of it ended. */
  predicate Continues(f: Files, readings: seq<Reading>, i: nat)
    requires Readable(f, readings) && i < |readings|
  {
    readings[i].start == 0
    || exists j :: 0 <= j < i && readings[j].sourceId == readings[i].sourceId && readings[j].size <= readings[i].size
                   && readings[i].start == BatchFor(f, readings[j]).nextOffset
  }

  /** Files are read in instalments while they grow, in any order and as often as one likes. */
  predicate Chained(f: Files, readings: seq<Reading>) {
    Readable(f, readings) && forall i :: 0 <= i < |readings| ==> Continues(f, readings, i)
  }

  lemma LogsValid(f: Files)
    ensures ValidLogs(LogsOf(f))
  {
    hide Located, Ascending;
    forall s | s in LogsOf(f) ensures Ascending(LogsOf(f)[s].lines) {
      LocatedWithin(f.content[s], 0, f.parse);
    }
  }

  lemma FileStart(s: seq<Byte>)
    ensures LineStart(s, 0)
  {
    assert s[..0] == [];
  }

  /** Every reading of a chain starts at a line, and its batch is cut from the log of the whole file. */
  lemma {:induction false} ChainCuts(f: Files, readings: seq<Reading>, i: nat)
    requires Chained(f, readings) && i < |readings|
    ensures var (rd, b) := (readings[i], BatchFor(f, readings[i]));
            && rd.start <= b.nextOffset <= rd.size && LineStart(f.content[rd.sourceId], b.nextOffset)
            && CutFrom(b, LogsOf(f)) && b.startOffset == rd.start
    decreases i
  {
    hide Located, Between, BatchOf, LineStart;
    var rd := readings[i];
    assert Continues(f, readings, i);
    if rd.start == 0 {
      FileStart(f.content[rd.sourceId]);
    } else {
      var j :| 0 <= j < i && readings[j].sourceId == rd.sourceId && readings[j].size <= rd.size
               && rd.start == BatchFor(f, readings[j]).nextOffset;
      ChainCuts(f, readings, j);
    }
    ReadingCuts(f.content[rd.sourceId], rd.size, rd.start, f.parse);
    StartKept(f.content[rd.sourceId][..rd.size], rd.start, f.parse);
  }

  lemma StartKept(content: seq<Byte>, start: nat, parse: Parser)
    ensures BatchOf(content, start, parse).startOffset == start
  {
  }

  /** What the reader delivers over growing files is what incremental replay takes for granted. */
  lemma ChainDeliverable(f: Files, readings: seq<Reading>)
    requires Chained(f, readings)
    ensures ValidLogs(LogsOf(f)) && Deliverable(BatchesOf(f, readings), LogsOf(f))
  {
    hide BatchFor, CutFrom, LogsOf;
    LogsValid(f);
    var batches := BatchesOf(f, readings);
    forall i | 0 <= i < |batches|
      ensures CutFrom(batches[i], LogsOf(f)) && (batches[i].sourceId !in Sources(batches[..i]) ==> batches[i].startOffset == 0)
    {
      ChainCuts(f, readings, i);
      assert Continues(f, readings, i);
      if readings[i].start != 0 {
        var j :| 0 <= j < i && readings[j].sourceId == readings[i].sourceId && readings[j].size <= readings[i].size
                 && readings[i].start == BatchFor(f, readings[j]).nextOffset;
        SourceOf(f, readings[i]);
        SourceOf(f, readings[j]);
        assert batches[..i][j].sourceId == batches[i].sourceId;
      }
    }
  }

  lemma SourceOf(f: Files, rd: Reading)
    requires rd.sourceId in f.content && rd.size <= |f.content[rd.sourceId]|
    ensures BatchFor(f, rd).sourceId == rd.sourceId
  {
    hide BatchOf;
  }

  // ---------------------------------------------------------------- reading where the store stands

  /** A look at a session file when it had this size. */
  datatype Visit = Visit(sourceId: string, size: nat)

  function LastSize(visits: seq<Visit>, s: string): nat {
    if visits == [] then 0
    else if visits[|visits| - 1].sourceId == s then visits[|visits| - 1].size
    else LastSize(visits[..|visits| - 1], s)
  }

  function Visited(visits: seq<Visit>): set<string> {
    set i | 0 <= i < |visits| :: visits[i].sourceId
  }

  predicate Seen(f: Files, visits: seq<Visit>) {
    forall i :: 0 <= i < |visits| ==> visits[i].sourceId in f.content && visits[i].size <= |f.content[visits[i].sourceId]|
  }

  /** Each file is only seen growing. */
  predicate Growing(f: Files, visits: seq<Visit>) {
    Seen(f, visits) && forall i :: 0 <= i < |visits| ==> LastSize(visits[..i], visits[i].sourceId) <= visits[i].size
  }

  /** The store after these visits: each reads its file on from the store's cursor and replays what it got. */
  function Followed(f: Files, c: Context, visits: seq<Visit>): R.Usage
    requires Seen(f, visits)
  {
    if visits == [] then Fresh(c)
    else
      var u, v := Followed(f, c, visits[..|visits| - 1]), visits[|visits| - 1];
      R.ReplayBatch(u, BatchFor(f, Reading(v.sourceId, Offset(u, v.sourceId), v.size)), c.windows, false)
  }

  /** Where reading on from a line start gets to is where reading from the beginning does. */
  lemma ConsumedOn(s: seq<Byte>, start: nat)
    requires LineStart(s, start)
    ensures start + Consumed(s[start..]) == Consumed(s)
  {
    hide Lines;
    assert s == s[..start] + s[start..];
    LinesSplit(s[..start], s[start..]);
    assert [] + s[start..] == s[start..];
  }

  lemma ConsumedIsStart(s: seq<Byte>, size: nat)
    requires size <= |s|
    ensures Consumed(s[..size]) <= size && LineStart(s, Consumed(s[..size]))
  {
    hide Lines;
    MiddleComplete(s[..size], Consumed(s[..size]));
    assert s[..size][..Consumed(s[..size])] == s[..Consumed(s[..size])];
  }

  lemma NextOf(f: Files, rd: Reading)
    requires rd.sourceId in f.content && rd.start <= rd.size <= |f.content[rd.sourceId]| && LineStart(f.content[rd.sourceId], rd.start)
    ensures BatchFor(f, rd).nextOffset == Consumed(f.content[rd.sourceId][..rd.size])
    ensures CutFrom(BatchFor(f, rd), LogsOf(f)) && BatchFor(f, rd).startOffset == rd.start && BatchFor(f, rd).sourceId == rd.sourceId
  {
    hide Located, Between, Consumed, Rest;
    var file := f.content[rd.sourceId];
    ReadingCuts(file, rd.size, rd.start, f.parse);
    assert file[..rd.size][..rd.start] == file[..rd.start];
    ConsumedOn(file[..rd.size], rd.start);
  }

  lemma GrowingPrefix(f: Files, visits: seq<Visit>)
    requires Growing(f, visits) && visits != []
    ensures Growing(f, visits[..|visits| - 1])
  {
    hide LastSize;
    var init := visits[..|visits| - 1];
    forall i | 0 <= i < |init| ensures LastSize(init[..i], init[i].sourceId) <= init[i].size {
      assert init[..i] == visits[..i];
    }
  }

  lemma VisitedNext(visits: seq<Visit>)
    requires visits != []
    ensures Visited(visits) == Visited(visits[..|visits| - 1]) + {visits[|visits| - 1].sourceId}
  {
    var init := visits[..|visits| - 1];
    forall s | s in Visited(init) ensures s in Visited(visits) {
      var i :| 0 <= i < |init| && init[i].sourceId == s;
      assert visits[i].sourceId == s;
    }
    forall s | s in Visited(visits) ensures s in Visited(init) + {visits[|visits| - 1].sourceId} {
      var i :| 0 <= i < |visits| && visits[i].sourceId == s;
      assert i < |init| ==> init[i].sourceId == s;
    }
  }

  /** The store holds the events of every complete line seen, and stands at its end. */
  lemma {:induction false} FollowedTracked(f: Files, c: Context, visits: seq<Visit>)
    requires Growing(f, visits)
    ensures var u := Followed(f, c, visits);
            && Tracked(u, c, LogsOf(f)) && u.cursors.Keys == Visited(visits)
            && forall s :: s in f.content ==>
                 LastSize(visits, s) <= |f.content[s]| && Offset(u, s) == Consumed(f.content[s][..LastSize(visits, s)])
    decreases |visits|
  {
    hide Tracked, Consumed, LineStart, BatchFor, CutFrom, R.ReplayBatch, LogsOf;
    LogsValid(f);
    if visits == [] {
      FreshTracked(c, LogsOf(f));
      NothingRead(f, c);
    } else {
      var init, v := visits[..|visits| - 1], visits[|visits| - 1];
      GrowingPrefix(f, visits);
      VisitedNext(visits);
      FollowedTracked(f, c, init);
      var u, file := Followed(f, c, init), f.content[v.sourceId];
      assert LastSize(init, v.sourceId) <= v.size;
      ConsumedIsStart(file, LastSize(init, v.sourceId));
      NextOf(f, Reading(v.sourceId, Offset(u, v.sourceId), v.size));
      NotYetRead(u, v.sourceId);
      BatchTracked(u, c, LogsOf(f), BatchFor(f, Reading(v.sourceId, Offset(u, v.sourceId), v.size)));
    }
  }

  lemma NothingRead(f: Files, c: Context)
    ensures Followed(f, c, []) == Fresh(c) && Fresh(c).cursors.Keys == Visited([])
    ensures forall s :: s in f.content ==> Offset(Fresh(c), s) == Consumed(f.content[s][..LastSize([], s)])
  {
    hide R.ReplayBatch;
    forall s | s in f.content ensures Consumed(f.content[s][..0]) == 0 {
      assert f.content[s][..0] == [];
    }
  }

  lemma NotYetRead(u: R.Usage, s: string)
    ensures s !in u.cursors ==> Offset(u, s) == 0
  {
  }

  /** One reading of each of these sources, from the beginning up to the last size seen. */
  function WholeReadings(visits: seq<Visit>, sources: seq<string>): seq<Reading> {
    seq(|sources|, i requires 0 <= i < |sources| => Reading(sources[i], 0, LastSize(visits, sources[i])))
  }

  /** Following growing session files in instalments, each read on from the store's cursor, in any order
      and at any times, gives the store of one rebuild that reads every file once from the beginning. */
  lemma FollowingIsRebuild(f: Files, c: Context, visits: seq<Visit>, sources: seq<string>)
    requires Growing(f, visits) && (forall i, j :: 0 <= i < j < |sources| ==> sources[i] != sources[j])
    requires forall s :: s in sources <==> s in Visited(visits)
    ensures Readable(f, WholeReadings(visits, sources))
    ensures Followed(f, c, visits) == ReplayAll(Fresh(c), BatchesOf(f, WholeReadings(visits, sources)), c.windows, true)
  {
    hide Tracked, Consumed, BatchFor, LogsOf, Followed, ReplayAll, Fresh, Readable;
    LogsValid(f);
    FollowedTracked(f, c, visits);
    WholeBatches(f, c, visits, sources);
    var batches := BatchesOf(f, WholeReadings(visits, sources));
    RebuildIsReplay(c, LogsOf(f), batches);
    ReplayTracked(c, LogsOf(f), batches);
    var u, v := Followed(f, c, visits), ReplayAll(Fresh(c), batches, c.windows, true);
    SameSources(batches, sources, visits);
    forall s | s in u.cursors ensures u.cursors[s].byteOffset == v.cursors[s].byteOffset {
      var i :| 0 <= i < |sources| && sources[i] == s;
      assert Offset(v, batches[i].sourceId) == batches[i].nextOffset;
    }
    TrackedDetermined(c, LogsOf(f), u, v);
  }

  /** Each reading of the rebuild ends where the store stands. */
  lemma WholeBatches(f: Files, c: Context, visits: seq<Visit>, sources: seq<string>)
    requires Growing(f, visits) && (forall i, j :: 0 <= i < j < |sources| ==> sources[i] != sources[j])
    requires forall s :: s in sources <==> s in Visited(visits)
    ensures Readable(f, WholeReadings(visits, sources))
    ensures var batches := BatchesOf(f, WholeReadings(visits, sources));
            && RebuildOf(batches, LogsOf(f))
            && forall i :: 0 <= i < |batches| ==>
                 batches[i].sourceId == sources[i] && batches[i].nextOffset == Offset(Followed(f, c, visits), sources[i])
  {
    hide Tracked, Consumed, LineStart, BatchFor, CutFrom, LogsOf, Followed, Fresh;
    FollowedTracked(f, c, visits);
    VisitedFiles(f, visits);
    var whole := WholeReadings(visits, sources);
    forall i | 0 <= i < |sources| ensures whole[i].sourceId in f.content && whole[i].size <= |f.content[whole[i].sourceId]| {
      assert sources[i] in sources;
    }
    var batches := BatchesOf(f, whole);
    forall i | 0 <= i < |batches|
      ensures CutFrom(batches[i], LogsOf(f)) && batches[i].startOffset == 0 && batches[i].sourceId == sources[i]
      ensures batches[i].nextOffset == Offset(Followed(f, c, visits), sources[i])
    {
      FileStart(f.content[sources[i]]);
      NextOf(f, whole[i]);
    }
  }

  lemma VisitedFiles(f: Files, visits: seq<Visit>)
    requires Growing(f, visits)
    ensures forall s :: s in Visited(visits) ==> s in f.content
  {
  }

  lemma SameSources(batches: seq<R.Batch>, sources: seq<string>, visits: seq<Visit>)
    requires |batches| == |sources| && forall i :: 0 <= i < |batches| ==> batches[i].sourceId == sources[i]
    requires forall s :: s in sources <==> s in Visited(visits)
    ensures Sources(batches) == Visited(visits)
  {
    forall s ensures s in Sources(batches) <==> s in sources {
      if s in sources {
        var i :| 0 <= i < |sources| && sources[i] == s;
        assert batches[i].sourceId == s;
      }
    }
  }

  // ---------------------------------------------------------------- a file that shrank

  /** Reading from beyond the end of a file that shrank gives no events, and a batch that goes back to the end. */
  lemma ShrunkenBatch(content: seq<Byte>, start: nat, parse: Parser)
    requires start > |content|
    ensures BatchOf(content, start, parse) == EventBatch(start, |content|, |content|, true, [])
  {
    assert content[|content|..] == [];
  }

  /** Replaying it only takes the cursor of the source back: nothing is counted again. */
  lemma ShrunkenRewinds(u: R.Usage, windows: seq<R.Window>, sourceId: string, content: seq<Byte>, parse: Parser)
    requires sourceId in u.cursors && u.cursors[sourceId].byteOffset > |content|
    ensures var cursor := u.cursors[sourceId];
            var batch := BatchOf(content, cursor.byteOffset, parse);
            R.ReplayBatch(u, R.Batch(sourceId, cursor.session, batch.startOffset, batch.nextOffset, batch.events), windows, false)
            == u.(cursors := u.cursors[sourceId := cursor.(byteOffset := |content|)])
  {
    hide BatchOf;
    ShrunkenBatch(content, u.cursors[sourceId].byteOffset, parse);
    R.NoEvents(u, windows, sourceId, u.cursors[sourceId].session, u.cursors[sourceId].tokens, u.cursors[sourceId].observedAt, u.cursors[sourceId].account);
  }
}
