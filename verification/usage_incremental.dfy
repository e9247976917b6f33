/** Whole sequences of batches: redelivery changes nothing, and the result is that of one rebuild. */
module UsageIncremental {
  import opened Wrappers
  import opened UsageTokens
  import opened UsageReplay
  import opened UsageRefinement

  /** A session log: token events by the byte offset of their line. */
  datatype Line = Line(offset: nat, event: Event)
  datatype Log = Log(session: string, lines: seq<Line>)

  predicate Ascending(lines: seq<Line>) {
    forall i, j :: 0 <= i < j < |lines| ==> lines[i].offset < lines[j].offset
  }

  predicate ValidLogs(logs: map<string, Log>) {
    forall s :: s in logs ==> Ascending(logs[s].lines)
  }

  /** The events of the lines that start in this part of the file. */
  function Between(lines: seq<Line>, from: nat, to: nat): seq<Event> {
    if lines == [] then []
    else Between(lines[..|lines| - 1], from, to)
         + if from <= lines[|lines| - 1].offset < to then [lines[|lines| - 1].event] else []
  }

  lemma {:induction false} BetweenEmpty(lines: seq<Line>, from: nat, to: nat)
    requires to <= from || forall i :: 0 <= i < |lines| ==> lines[i].offset < from
    ensures Between(lines, from, to) == []
  {
    if lines != [] {
      BetweenEmpty(lines[..|lines| - 1], from, to);
    }
  }

  lemma {:induction false} BetweenSplit(lines: seq<Line>, a: nat, b: nat, c: nat)
    requires Ascending(lines) && a <= b <= c
    ensures Between(lines, a, c) == Between(lines, a, b) + Between(lines, b, c)
  {
    if lines != [] {
      var init, last := lines[..|lines| - 1], lines[|lines| - 1];
      BetweenSplit(init, a, b, c);
      if a <= last.offset < b {
        BetweenEmpty(init, b, c);
        assert Between(lines, b, c) == [];
      }
    }
  }

  lemma {:induction false} UsableSplit(xs: seq<Event>, ys: seq<Event>)
    ensures Usable(xs + ys) == Usable(xs) + Usable(ys)
    decreases |ys|
  {
    if ys == [] {
      assert xs + ys == xs;
    } else {
      assert (xs + ys)[..|xs + ys| - 1] == xs + ys[..|ys| - 1];
      UsableSplit(xs, ys[..|ys| - 1]);
    }
  }

  /** The usable events of a log before an offset. */
  function Prefix(log: Log, offset: nat): seq<Event> {
    Usable(Between(log.lines, 0, offset))
  }

  /** The batch is a stretch of its source's log. */
  predicate CutFrom(b: Batch, logs: map<string, Log>) {
    && b.sourceId in logs && b.session == logs[b.sourceId].session && b.startOffset <= b.nextOffset
    && b.events == Between(logs[b.sourceId].lines, b.startOffset, b.nextOffset)
  }

  lemma PrefixGrows(log: Log, from: nat, to: nat)
    requires Ascending(log.lines) && from <= to
    ensures Prefix(log, to) == Prefix(log, from) + Usable(Between(log.lines, from, to))
  {
    BetweenSplit(log.lines, 0, from, to);
    UsableSplit(Between(log.lines, 0, from), Between(log.lines, from, to));
  }

  // ---------------------------------------------------------------- what a store stands for

  /** The contribution of every source up to its cursor. */
  function Parts(u: Usage, c: Context, logs: map<string, Log>, key: Key): (parts: map<string, Tokens>)
    requires u.cursors.Keys <= logs.Keys
    ensures parts.Keys == u.cursors.Keys
  {
    map s | s in u.cursors :: Grown(c, key, logs[s].session, ZERO, Prefix(logs[s], u.cursors[s].byteOffset))
  }

  function Counts(u: Usage, c: Context, logs: map<string, Log>, id: string): (counts: map<string, nat>)
    requires u.cursors.Keys <= logs.Keys
    ensures counts.Keys == u.cursors.Keys
  {
    map s | s in u.cursors :: Counted(c, id, logs[s].session, ZERO, Prefix(logs[s], u.cursors[s].byteOffset))
  }

  function CursorAt(c: Context, log: Log, offset: nat): Cursor {
    NextCursor(None, c.initializedAt, log.session, offset, Prefix(log, offset))
  }

  ghost predicate TotalsTracked(u: Usage, c: Context, logs: map<string, Log>)
    requires u.cursors.Keys <= logs.Keys
  {
    forall key :: Total(u, key) == MapSum(Parts(u, c, logs, key))
  }

  ghost predicate TicketsTracked(u: Usage, c: Context, logs: map<string, Log>)
    requires u.cursors.Keys <= logs.Keys
  {
    forall id :: TicketCount(u, id) == CountSum(Counts(u, c, logs, id))
      && forall s :: s in TicketSources(u, id) <==> s in u.cursors && Counts(u, c, logs, id)[s] > 0
  }


  /** The store holds exactly the events of each source up to that source's cursor. */
  ghost predicate Tracked(u: Usage, c: Context, logs: map<string, Log>) {
    && u.initializedAt == c.initializedAt && Tight(u) && u.cursors.Keys <= logs.Keys
    && (forall s :: s in u.cursors ==> u.cursors[s] == CursorAt(c, logs[s], u.cursors[s].byteOffset))
    && TotalsTracked(u, c, logs) && TicketsTracked(u, c, logs)
    && (forall id :: id in u.tickets <==> exists i :: 0 <= i < |c.windows| && c.windows[i].id == id)
  }

  // ---------------------------------------------------------------- one batch

  lemma {:induction false} MatchIsWindow(windows: seq<Window>, session: string, at: int)
    ensures forall w :: w in Matches(windows, session, at) ==> w in windows
  {
    if windows != [] {
      MatchIsWindow(windows[1..], session, at);
    }
  }

  lemma {:induction false} EventsRows(u: Usage, windows: seq<Window>, sourceId: string, session: string, start: Tokens, events: seq<Event>)
    requires forall w :: w in windows ==> w.id in u.tickets
    ensures AddEvents(u, windows, sourceId, session, start, events).tickets.Keys == u.tickets.Keys
    decreases |events|
  {
    hide Matches, AddTokens, SubtractTokens, HasTokens;
    if events != [] {
      EventsRows(u, windows, sourceId, session, start, events[..|events| - 1]);
      MatchIsWindow(windows, session, events[|events| - 1].observedAt);
    }
  }

  lemma {:induction false} LastAccountSplit(start: Option<string>, xs: seq<Event>, ys: seq<Event>)
    ensures LastAccount(start, xs + ys) == LastAccount(LastAccount(start, xs), ys)
    decreases |ys|
  {
    if ys == [] {
      assert xs + ys == xs;
    } else {
      assert (xs + ys)[..|xs + ys| - 1] == xs + ys[..|ys| - 1];
      LastAccountSplit(start, xs, ys[..|ys| - 1]);
    }
  }

  lemma CursorGrows(c: Context, log: Log, from: nat, to: nat)
    requires Ascending(log.lines) && from <= to
    ensures NextCursor(Some(CursorAt(c, log, from)), c.initializedAt, log.session, to, Usable(Between(log.lines, from, to))) == CursorAt(c, log, to)
  {
    hide Usable, Between, LastAccount;
    PrefixGrows(log, from, to);
    LastAccountSplit(None, Prefix(log, from), Usable(Between(log.lines, from, to)));
  }

  lemma PrefixFromStart(c: Context, log: Log, to: nat)
    requires Ascending(log.lines)
    ensures Prefix(log, 0) == [] && Prefix(log, to) == Usable(Between(log.lines, 0, to))
    ensures forall key :: Grown(c, key, log.session, ZERO, Prefix(log, 0)) == ZERO
    ensures forall id :: Counted(c, id, log.session, ZERO, Prefix(log, 0)) == 0
  {
    BetweenEmpty(log.lines, 0, 0);
  }

  /** Where the store stands in a source. */
  function Offset(u: Usage, s: string): nat {
    if s in u.cursors then u.cursors[s].byteOffset else 0
  }

  /** The batch is the next one of its source: it is applied unless it is empty. */
  predicate InTurn(u: Usage, b: Batch) {
    b.startOffset == Offset(u, b.sourceId)
  }

  /** A source's first batch starts at the beginning of its log. */
  predicate StartsRight(u: Usage, b: Batch) {
    b.sourceId !in u.cursors ==> b.startOffset == 0
  }

  lemma BatchTotals(u: Usage, c: Context, logs: map<string, Log>, b: Batch, key: Key)
    requires ValidLogs(logs) && Tracked(u, c, logs) && CutFrom(b, logs) && InTurn(u, b)
    ensures var s, log := b.sourceId, logs[b.sourceId];
            var next := u.(cursors := u.cursors[s := CursorAt(c, log, b.nextOffset)]);
            && var start := LastTokens(ZERO, Prefix(log, Offset(u, s)));
            && MapSum(Parts(next, c, logs, key)) == AddTokens(Total(u, key), Grown(c, key, log.session, start, Usable(b.events)))
  {
    hide AddTokens, Usable, Between, Grown, Tight, MapSum, TicketsTracked, Total, Prefix, Parts, CursorAt, Counted;
    var s, log := b.sourceId, logs[b.sourceId];
    var p := Offset(u, s);
    PrefixGrows(log, p, b.nextOffset);
    GrownSplit(c, key, log.session, ZERO, Prefix(log, p), Usable(b.events));
    PrefixFromStart(c, log, b.nextOffset);
    var x := Grown(c, key, log.session, LastTokens(ZERO, Prefix(log, p)), Usable(b.events));
    MovedParts(u, c, logs, s, b.nextOffset, key);
    MapSumAdd(Parts(u, c, logs, key), s, x);
  }

  /** Moving one cursor replaces one contribution. */
  lemma MovedParts(u: Usage, c: Context, logs: map<string, Log>, s: string, offset: nat, key: Key)
    requires u.cursors.Keys <= logs.Keys && s in logs
    ensures var next := u.(cursors := u.cursors[s := CursorAt(c, logs[s], offset)]);
            && var parts := Parts(u, c, logs, key);
            && Parts(next, c, logs, key) == parts[s := Grown(c, key, logs[s].session, ZERO, Prefix(logs[s], offset))]
            && AllValid(parts)
            && (s in u.cursors ==> parts[s] == Grown(c, key, logs[s].session, ZERO, Prefix(logs[s], u.cursors[s].byteOffset)))
  {
    hide Grown, Prefix;
  }

  lemma BatchCounts(u: Usage, c: Context, logs: map<string, Log>, b: Batch, id: string)
    requires ValidLogs(logs) && Tracked(u, c, logs) && CutFrom(b, logs) && InTurn(u, b)
    ensures var s, log := b.sourceId, logs[b.sourceId];
            var next := u.(cursors := u.cursors[s := CursorAt(c, log, b.nextOffset)]);
            && var n := Counted(c, id, log.session, LastTokens(ZERO, Prefix(log, Offset(u, s))), Usable(b.events));
            && CountSum(Counts(next, c, logs, id)) == TicketCount(u, id) + n
            && forall t :: t in TicketSources(u, id) + (if n > 0 then {s} else {}) <==> t in next.cursors && Counts(next, c, logs, id)[t] > 0
  {
    hide Usable, Between, Counted, Tight, CountSum, TotalsTracked, TicketCount, TicketSources, Prefix;
    var s, log := b.sourceId, logs[b.sourceId];
    var p := Offset(u, s);
    PrefixGrows(log, p, b.nextOffset);
    CountedSplit(c, id, log.session, ZERO, Prefix(log, p), Usable(b.events));
    PrefixFromStart(c, log, b.nextOffset);
    var n := Counted(c, id, log.session, LastTokens(ZERO, Prefix(log, p)), Usable(b.events));
    var counts := Counts(u, c, logs, id);
    CountSumAdd(counts, s, n);
    assert Counts(u.(cursors := u.cursors[s := CursorAt(c, log, b.nextOffset)]), c, logs, id)
        == counts[s := (if s in counts then counts[s] else 0) + n];
  }

  /** What a batch in its turn does to a tracked store. */
  lemma InTurnEffect(u: Usage, c: Context, logs: map<string, Log>, b: Batch)
    requires ValidLogs(logs) && Tracked(u, c, logs) && CutFrom(b, logs) && InTurn(u, b)
    ensures var s, log := b.sourceId, logs[b.sourceId];
            var start := LastTokens(ZERO, Prefix(log, Offset(u, s)));
            ReplayBatch(u, b, c.windows, false) ==
            if s in u.cursors && b.nextOffset == Offset(u, s) then u
            else AddEvents(u, c.windows, s, log.session, start, Usable(b.events)).(cursors := u.cursors[s := CursorAt(c, log, b.nextOffset)])
  {
    hide TotalsTracked, TicketsTracked, Tight, AddEvents, Usable, Between, Prefix, LastAccount, LastAt;
    var s, log := b.sourceId, logs[b.sourceId];
    var p := Offset(u, s);
    CursorGrows(c, log, p, b.nextOffset);
    PrefixFromStart(c, log, b.nextOffset);
    EventsKeep(u, c, s, log.session, LastTokens(ZERO, Prefix(log, p)), Usable(b.events));
    if b.nextOffset == p {
      BetweenEmpty(log.lines, p, p);
      UsableNothing();
    }
  }

  lemma UsableNothing()
    ensures Usable([]) == []
  {
  }

  lemma EventsKeep(u: Usage, c: Context, sourceId: string, session: string, start: Tokens, events: seq<Event>)
    requires c.initializedAt == u.initializedAt
    ensures AddEvents(u, c.windows, sourceId, session, start, events).initializedAt == u.initializedAt
    ensures AddEvents(u, c.windows, sourceId, session, start, events).cursors == u.cursors
  {
    EventsCounts(u, c, sourceId, session, start, events, "");
  }

  /** Any batch of a source's log leaves the store tracked: one in its turn moves the cursor to its end,
      any other is ignored. */
  lemma BatchTracked(u: Usage, c: Context, logs: map<string, Log>, b: Batch)
    requires ValidLogs(logs) && Tracked(u, c, logs) && CutFrom(b, logs) && StartsRight(u, b)
    ensures var next := ReplayBatch(u, b, c.windows, false);
            && Tracked(next, c, logs)
            && (if InTurn(u, b) then b.sourceId in next.cursors && forall s :: Offset(next, s) == if s == b.sourceId then b.nextOffset else Offset(u, s)
                else next == u)
            && next.cursors.Keys == u.cursors.Keys + {b.sourceId}
  {
    hide AddEvents, Usable, Prefix, Between, ReplayBatch, TotalsTracked, TicketsTracked, Tight;
    var s, log := b.sourceId, logs[b.sourceId];
    if InTurn(u, b) {
      InTurnEffect(u, c, logs, b);
      if !(s in u.cursors && b.nextOffset == Offset(u, s)) {
        InTurnTracked(u, c, logs, b);
      }
    } else {
      OutOfTurn(u, c, b);
    }
  }

  lemma OutOfTurn(u: Usage, c: Context, b: Batch)
    requires b.sourceId in u.cursors && !InTurn(u, b)
    ensures ReplayBatch(u, b, c.windows, false) == u
  {
  }

  lemma InTurnTracked(u: Usage, c: Context, logs: map<string, Log>, b: Batch)
    requires ValidLogs(logs) && Tracked(u, c, logs) && CutFrom(b, logs) && InTurn(u, b)
    ensures var s, log := b.sourceId, logs[b.sourceId];
            var start := LastTokens(ZERO, Prefix(log, Offset(u, s)));
            Tracked(AddEvents(u, c.windows, s, log.session, start, Usable(b.events)).(cursors := u.cursors[s := CursorAt(c, log, b.nextOffset)]), c, logs)
  {
    hide AddEvents, Usable, Prefix, Between, Tight, Total, Grown, Counted, CountSum, MapSum, Parts, Counts, TicketCount, TicketSources,
      AddTokens, CursorAt;
    var s, log := b.sourceId, logs[b.sourceId];
    var start := LastTokens(ZERO, Prefix(log, Offset(u, s)));
    var added := AddEvents(u, c.windows, s, log.session, start, Usable(b.events));
    var cursors := u.cursors[s := CursorAt(c, log, b.nextOffset)];
    var next := added.(cursors := cursors);
    CursorOffset(c, log, b.nextOffset);
    EventsKeep(u, c, s, log.session, start, Usable(b.events));
    EventsRows(u, c.windows, s, log.session, start, Usable(b.events));
    EventsTotal(u, c, s, log.session, start, Usable(b.events), DayKey(0));
    CursorsIrrelevant(u, c, logs, added, cursors, DayKey(0), "");
    forall key ensures Total(next, key) == MapSum(Parts(next, c, logs, key)) {
      EventsTotal(u, c, s, log.session, start, Usable(b.events), key);
      BatchTotals(u, c, logs, b, key);
      CursorsIrrelevant(u, c, logs, added, cursors, key, "");
    }
    forall id ensures TicketCount(next, id) == CountSum(Counts(next, c, logs, id))
      && forall t :: t in TicketSources(next, id) <==> t in next.cursors && Counts(next, c, logs, id)[t] > 0
    {
      EventsCounts(u, c, s, log.session, start, Usable(b.events), id);
      BatchCounts(u, c, logs, b, id);
      CursorsIrrelevant(u, c, logs, added, cursors, DayKey(0), id);
    }
  }

  lemma CursorOffset(c: Context, log: Log, offset: nat)
    ensures CursorAt(c, log, offset).byteOffset == offset
  {
  }

  /** Totals do not look at cursors, contributions at nothing else. */
  lemma CursorsIrrelevant(u: Usage, c: Context, logs: map<string, Log>, added: Usage, cursors: map<string, Cursor>, key: Key, id: string)
    requires cursors.Keys <= logs.Keys
    ensures Total(added.(cursors := cursors), key) == Total(added, key)
    ensures Tight(added) ==> Tight(added.(cursors := cursors))
    ensures Parts(added.(cursors := cursors), c, logs, key) == Parts(u.(cursors := cursors), c, logs, key)
    ensures Counts(added.(cursors := cursors), c, logs, id) == Counts(u.(cursors := cursors), c, logs, id)
    ensures TicketCount(added.(cursors := cursors), id) == TicketCount(added, id)
    ensures TicketSources(added.(cursors := cursors), id) == TicketSources(added, id)
  {
    hide Grown, Counted, Prefix;
  }

  // ---------------------------------------------------------------- sequences of batches

  function ReplayAll(u: Usage, batches: seq<Batch>, windows: seq<Window>, rebuild: bool): Usage {
    if batches == [] then u
    else ReplayBatch(ReplayAll(u, batches[..|batches| - 1], windows, rebuild), batches[|batches| - 1], windows, rebuild)
  }

  function Sources(batches: seq<Batch>): set<string> {
    set i | 0 <= i < |batches| :: batches[i].sourceId
  }

  function RowIds(windows: seq<Window>): set<string> {
    set i | 0 <= i < |windows| :: windows[i].id
  }

  /** A store without events, with a row for every window. */
  function Fresh(c: Context): Usage {
    Usage(c.initializedAt, map[], map[], map id | id in RowIds(c.windows) :: NO_TICKET)
  }

  lemma FreshTracked(c: Context, logs: map<string, Log>)
    ensures Tracked(Fresh(c), c, logs)
  {
    ZeroValid();
    forall key ensures Total(Fresh(c), key) == MapSum(Parts(Fresh(c), c, logs, key)) {
      assert Parts(Fresh(c), c, logs, key) == map[];
    }
    forall id ensures TicketCount(Fresh(c), id) == CountSum(Counts(Fresh(c), c, logs, id)) {
      assert Counts(Fresh(c), c, logs, id) == map[];
    }
  }

  /** Batches cut from the logs, each source's first one from the start of its log; otherwise in any
      order and repeated at will. */
  predicate Deliverable(batches: seq<Batch>, logs: map<string, Log>) {
    forall i :: 0 <= i < |batches| ==>
      CutFrom(batches[i], logs) && (batches[i].sourceId !in Sources(batches[..i]) ==> batches[i].startOffset == 0)
  }

  lemma DeliverablePrefix(batches: seq<Batch>, logs: map<string, Log>)
    requires Deliverable(batches, logs) && batches != []
    ensures Deliverable(batches[..|batches| - 1], logs)
    ensures var last := batches[|batches| - 1];
            CutFrom(last, logs) && (last.sourceId !in Sources(batches[..|batches| - 1]) ==> last.startOffset == 0)
    ensures Sources(batches) == Sources(batches[..|batches| - 1]) + {batches[|batches| - 1].sourceId}
  {
    hide CutFrom;
    var init := batches[..|batches| - 1];
    forall i | 0 <= i < |init| ensures CutFrom(init[i], logs) && (init[i].sourceId !in Sources(init[..i]) ==> init[i].startOffset == 0) {
      assert init[..i] == batches[..i] && init[i] == batches[i];
    }
    forall s | s in Sources(batches) ensures s in Sources(init) + {batches[|batches| - 1].sourceId} {
      var i :| 0 <= i < |batches| && batches[i].sourceId == s;
      if i < |init| {
        assert init[i].sourceId == s;
      }
    }
    forall s | s in Sources(init) ensures s in Sources(batches) {
      var i :| 0 <= i < |init| && init[i].sourceId == s;
      assert batches[i].sourceId == s;
    }
  }

  /** Every deliverable sequence of batches leaves a tracked store. */
  lemma {:induction false} ReplayTracked(c: Context, logs: map<string, Log>, batches: seq<Batch>)
    requires ValidLogs(logs) && Deliverable(batches, logs)
    ensures var u := ReplayAll(Fresh(c), batches, c.windows, false);
            Tracked(u, c, logs) && u.cursors.Keys == Sources(batches)
    decreases |batches|
  {
    hide Tracked, ReplayBatch, CutFrom, Deliverable, Sources, ValidLogs;
    if batches == [] {
      FreshTracked(c, logs);
      NoSources();
    } else {
      DeliverablePrefix(batches, logs);
      ReplayTracked(c, logs, batches[..|batches| - 1]);
      BatchTracked(ReplayAll(Fresh(c), batches[..|batches| - 1], c.windows, false), c, logs, batches[|batches| - 1]);
    }
  }

  lemma NoSources()
    ensures Sources([]) == {}
  {
  }

  /** A batch the store has already passed changes nothing when it is delivered again. */
  lemma RedeliveryIgnored(c: Context, logs: map<string, Log>, u: Usage, b: Batch)
    requires ValidLogs(logs) && Tracked(u, c, logs) && CutFrom(b, logs)
    requires b.sourceId in u.cursors && b.nextOffset <= u.cursors[b.sourceId].byteOffset
    ensures ReplayBatch(u, b, c.windows, false) == u
  {
    hide TotalsTracked, TicketsTracked, Tight, AddEvents, Prefix, CursorAt;
    if InTurn(u, b) {
      BetweenEmpty(logs[b.sourceId].lines, b.startOffset, b.nextOffset);
      UsableNothing();
    } else {
      OutOfTurn(u, c, b);
    }
  }

  // ---------------------------------------------------------------- the same as one rebuild

  /** A tracked store is fixed by how far each source was read. */
  lemma TrackedDetermined(c: Context, logs: map<string, Log>, u: Usage, v: Usage)
    requires Tracked(u, c, logs) && Tracked(v, c, logs) && u.cursors.Keys == v.cursors.Keys
    requires forall s :: s in u.cursors ==> u.cursors[s].byteOffset == v.cursors[s].byteOffset
    ensures u == v
  {
    hide Grown, Counted, Prefix, Total, MapSum, CountSum, Tight, TicketCount, TicketSources, CursorAt;
    assert u.cursors == v.cursors;
    forall key ensures Total(u, key) == Total(v, key) {
      assert Parts(u, c, logs, key) == Parts(v, c, logs, key);
    }
    forall id ensures TicketCount(u, id) == TicketCount(v, id) && TicketSources(u, id) == TicketSources(v, id) {
      assert Counts(u, c, logs, id) == Counts(v, c, logs, id);
      assert forall s :: s in TicketSources(u, id) <==> s in TicketSources(v, id);
    }
    SameTotals(u, v);
  }

  lemma SameTotals(u: Usage, v: Usage)
    requires Tight(u) && Tight(v) && u.tickets.Keys == v.tickets.Keys
    requires forall key :: Total(u, key) == Total(v, key)
    requires forall id :: TicketCount(u, id) == TicketCount(v, id) && TicketSources(u, id) == TicketSources(v, id)
    ensures u.days == v.days && u.tickets == v.tickets
  {
    hide ValidTokens;
    forall d ensures d in u.days <==> d in v.days {
      assert Total(u, DayKey(d)) == Total(v, DayKey(d));
    }
    forall d | d in u.days ensures u.days[d] == v.days[d] {
      assert Total(u, DayKey(d)) == Total(v, DayKey(d));
      forall s ensures s in u.days[d].agents <==> s in v.days[d].agents {
        assert Total(u, AgentKey(d, s)) == Total(v, AgentKey(d, s));
      }
      forall s | s in u.days[d].agents ensures u.days[d].agents[s] == v.days[d].agents[s] {
        assert Total(u, AgentKey(d, s)) == Total(v, AgentKey(d, s));
      }
      assert u.days[d].agents == v.days[d].agents;
    }
    forall id | id in u.tickets ensures u.tickets[id] == v.tickets[id] {
      assert Total(u, TicketKey(id)) == Total(v, TicketKey(id));
      assert TicketCount(u, id) == TicketCount(v, id) && TicketSources(u, id) == TicketSources(v, id);
    }
  }

  /** A rebuild reads each source once, from its start. */
  predicate RebuildOf(batches: seq<Batch>, logs: map<string, Log>) {
    && (forall i :: 0 <= i < |batches| ==> CutFrom(batches[i], logs) && batches[i].startOffset == 0)
    && (forall i, j :: 0 <= i < j < |batches| ==> batches[i].sourceId != batches[j].sourceId)
  }

  /** With every source new, rebuilding is replaying; each cursor ends where its batch does. */
  lemma {:induction false} RebuildIsReplay(c: Context, logs: map<string, Log>, batches: seq<Batch>)
    requires ValidLogs(logs) && RebuildOf(batches, logs)
    ensures Deliverable(batches, logs)
    ensures var u := ReplayAll(Fresh(c), batches, c.windows, true);
            && u == ReplayAll(Fresh(c), batches, c.windows, false)
            && u.cursors.Keys == Sources(batches)
            && forall i :: 0 <= i < |batches| ==> Offset(u, batches[i].sourceId) == batches[i].nextOffset
    decreases |batches|
  {
    hide Tracked, ReplayBatch, CutFrom, ValidLogs;
    if batches != [] {
      var init, last := batches[..|batches| - 1], batches[|batches| - 1];
      RebuildIsReplay(c, logs, init);
      ReplayTracked(c, logs, init);
      var before := ReplayAll(Fresh(c), init, c.windows, false);
      NewSource(batches);
      assert last.sourceId !in before.cursors;
      RebuildNew(before, last, c.windows);
      BatchTracked(before, c, logs, last);
      ExtendDeliverable(batches, logs);
      DeliverablePrefix(batches, logs);
    }
  }

  lemma NewSource(batches: seq<Batch>)
    requires batches != [] && forall i, j :: 0 <= i < j < |batches| ==> batches[i].sourceId != batches[j].sourceId
    ensures batches[|batches| - 1].sourceId !in Sources(batches[..|batches| - 1])
  {
  }

  lemma RebuildNew(u: Usage, b: Batch, windows: seq<Window>)
    requires b.sourceId !in u.cursors
    ensures ReplayBatch(u, b, windows, true) == ReplayBatch(u, b, windows, false)
  {
    hide AddEvents, Usable;
  }

  lemma ExtendDeliverable(batches: seq<Batch>, logs: map<string, Log>)
    requires batches != [] && RebuildOf(batches, logs)
    ensures Deliverable(batches, logs)
  {
    hide CutFrom;
  }

  /** Splitting the sources' events into batches, interleaved in any order and redelivered at will,
      gives the same cursors, day and agent totals, and ticket tokens, counts and sources as one rebuild
      that reads each source once up to where its cursor stands. */
  lemma IncrementalIsRebuild(c: Context, logs: map<string, Log>, batches: seq<Batch>, rebuild: seq<Batch>)
    requires ValidLogs(logs) && Deliverable(batches, logs) && RebuildOf(rebuild, logs) && Sources(rebuild) == Sources(batches)
    requires forall i :: 0 <= i < |rebuild| ==>
               rebuild[i].nextOffset == Offset(ReplayAll(Fresh(c), batches, c.windows, false), rebuild[i].sourceId)
    ensures ReplayAll(Fresh(c), batches, c.windows, false) == ReplayAll(Fresh(c), rebuild, c.windows, true)
  {
    hide Tracked, Deliverable, ReplayAll, Fresh, CutFrom, ValidLogs;
    var u, v := ReplayAll(Fresh(c), batches, c.windows, false), ReplayAll(Fresh(c), rebuild, c.windows, true);
    ReplayTracked(c, logs, batches);
    RebuildIsReplay(c, logs, rebuild);
    ReplayTracked(c, logs, rebuild);
    forall s | s in u.cursors ensures u.cursors[s].byteOffset == v.cursors[s].byteOffset {
      var i :| 0 <= i < |rebuild| && rebuild[i].sourceId == s;
      assert Offset(v, rebuild[i].sourceId) == rebuild[i].nextOffset;
    }
    TrackedDetermined(c, logs, u, v);
  }
}
