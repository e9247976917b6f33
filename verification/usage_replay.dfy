/** The usage store: replaying batches of session events into day, agent and ticket totals. */
module UsageReplay {
  import opened Wrappers
  import opened UsageTokens

  const DAY_MS := 86400000

  /** A cumulative token counter observed in a session. */
  datatype Event = Event(observedAt: int, tokens: Tokens, account: Option<string>)
  datatype Window = Window(id: string, session: string, sentAt: int, endedAt: Option<int>)
  datatype Batch = Batch(sourceId: string, session: string, startOffset: nat, nextOffset: nat, events: seq<Event>)

  datatype Cursor = Cursor(session: string, observedAt: int, tokens: Tokens, account: Option<string>, byteOffset: nat, eventCount: nat)
  datatype Day = Day(tokens: Tokens, agents: map<string, Tokens>)
  datatype Ticket = Ticket(tokens: Tokens, eventCount: nat, sourceIds: set<string>)
  datatype Usage = Usage(initializedAt: int, cursors: map<string, Cursor>, days: map<int, Day>, tickets: map<string, Ticket>)

  const NO_TICKET := Ticket(ZERO, 0, {})

  function UtcDay(at: int): int {
    at / DAY_MS
  }

  predicate InWindow(w: Window, session: string, at: int) {
    w.session == session && w.sentAt <= at && (w.endedAt.Some? ==> at <= w.endedAt.value)
  }

  function Matches(windows: seq<Window>, session: string, at: int): seq<Window> {
    if windows == [] then []
    else (if InWindow(windows[0], session, at) then [windows[0]] else []) + Matches(windows[1..], session, at)
  }

  /** The ticket an event counts for, when exactly one window claims it. */
  function MatchingWindow(windows: seq<Window>, session: string, at: int): Option<Window> {
    var matches := Matches(windows, session, at);
    if |matches| == 1 then Some(matches[0]) else None
  }

  // ---------------------------------------------------------------- one event

  function DayWith(day: Day, session: string, delta: Tokens): Day {
    Day(AddTokens(day.tokens, delta),
        day.agents[session := AddTokens(if session in day.agents then day.agents[session] else ZERO, delta)])
  }

  function AddEvent(u: Usage, windows: seq<Window>, sourceId: string, session: string, at: int, delta: Tokens): Usage {
    if !HasTokens(delta) then u
    else
      var date := UtcDay(at);
      var counted := u.(days := u.days[date := DayWith(if date in u.days then u.days[date] else Day(ZERO, map[]), session, delta)]);
      match MatchingWindow(windows, session, at)
      case None => counted
      case Some(w) =>
        var t := if w.id in u.tickets then u.tickets[w.id] else NO_TICKET;
        counted.(tickets := u.tickets[w.id := Ticket(AddTokens(t.tokens, delta), t.eventCount + 1, t.sourceIds + {sourceId})])
  }

  // ---------------------------------------------------------------- a batch

  /** Events with malformed counters are passed over. */
  function Usable(events: seq<Event>): seq<Event> {
    if events == [] then []
    else Usable(events[..|events| - 1]) + if ValidTokens(events[|events| - 1].tokens) then [events[|events| - 1]] else []
  }

  function LastTokens(start: Tokens, events: seq<Event>): Tokens {
    if events == [] then start else events[|events| - 1].tokens
  }

  function LastAt(start: int, events: seq<Event>): int {
    if events == [] then start else events[|events| - 1].observedAt
  }

  function LastAccount(start: Option<string>, events: seq<Event>): Option<string> {
    if events == [] then start
    else if events[|events| - 1].account.Some? then events[|events| - 1].account
    else LastAccount(start, events[..|events| - 1])
  }

  /** What the events add to the totals, each by its growth over the counter before it. */
  function AddEvents(u: Usage, windows: seq<Window>, sourceId: string, session: string, start: Tokens, events: seq<Event>): Usage {
    if events == [] then u
    else
      var init, e := events[..|events| - 1], events[|events| - 1];
      var before := AddEvents(u, windows, sourceId, session, start, init);
      if e.observedAt >= u.initializedAt then
        AddEvent(before, windows, sourceId, session, e.observedAt, SubtractTokens(e.tokens, LastTokens(start, init)))
      else before
  }

  lemma UsableStep(events: seq<Event>, i: nat)
    requires i < |events|
    ensures Usable(events[..i + 1]) == if ValidTokens(events[i].tokens) then Usable(events[..i]) + [events[i]] else Usable(events[..i])
  {
    assert events[..i + 1][..i] == events[..i];
  }

  lemma AddEventsStep(u: Usage, windows: seq<Window>, sourceId: string, session: string, start: Tokens, events: seq<Event>, e: Event)
    ensures LastTokens(start, events + [e]) == e.tokens
    ensures AddEvents(u, windows, sourceId, session, start, events + [e]) ==
            var before := AddEvents(u, windows, sourceId, session, start, events);
            if e.observedAt >= u.initializedAt then
              AddEvent(before, windows, sourceId, session, e.observedAt, SubtractTokens(e.tokens, LastTokens(start, events)))
            else before
  {
    assert (events + [e])[..|events|] == events;
  }

  lemma LastStep(at: int, account: Option<string>, events: seq<Event>, e: Event)
    ensures LastAt(at, events + [e]) == e.observedAt
    ensures LastAccount(account, events + [e]) == if e.account.Some? then e.account else LastAccount(account, events)
  {
    assert (events + [e])[..|events|] == events;
  }

  /** What one more event does, usable or not. */
  lemma EventStep(u: Usage, windows: seq<Window>, sourceId: string, session: string, start: Tokens, at: int, account: Option<string>,
                  events: seq<Event>, i: nat)
    requires i < |events|
    ensures var e, before, after := events[i], Usable(events[..i]), Usable(events[..i + 1]);
            if ValidTokens(e.tokens) then
              && |after| == |before| + 1 && LastTokens(start, after) == e.tokens && LastAt(at, after) == e.observedAt
              && LastAccount(account, after) == (if e.account.Some? then e.account else LastAccount(account, before))
              && AddEvents(u, windows, sourceId, session, start, after) ==
                   var added := AddEvents(u, windows, sourceId, session, start, before);
                   if e.observedAt >= u.initializedAt then
                     AddEvent(added, windows, sourceId, session, e.observedAt, SubtractTokens(e.tokens, LastTokens(start, before)))
                   else added
            else after == before
  {
    hide Usable, AddEvents, LastAccount, LastAt, LastTokens, AddEvent;
    UsableStep(events, i);
    AddEventsStep(u, windows, sourceId, session, start, Usable(events[..i]), events[i]);
    LastStep(at, account, Usable(events[..i]), events[i]);
  }

  lemma NoEvents(u: Usage, windows: seq<Window>, sourceId: string, session: string, start: Tokens, at: int, account: Option<string>)
    ensures Usable([]) == [] && AddEvents(u, windows, sourceId, session, start, []) == u
    ensures LastTokens(start, []) == start && LastAt(at, []) == at && LastAccount(account, []) == account
  {
  }

  /** The cursor a batch continues from. */
  function StartCursor(u: Usage, sourceId: string, rebuild: bool): Option<Cursor> {
    if !rebuild && sourceId in u.cursors then Some(u.cursors[sourceId]) else None
  }

  function NextCursor(previous: Option<Cursor>, initializedAt: int, session: string, nextOffset: nat, events: seq<Event>): Cursor {
    Cursor(session,
           LastAt(if previous.Some? then previous.value.observedAt else initializedAt, events),
           LastTokens(if previous.Some? then previous.value.tokens else ZERO, events),
           LastAccount(if previous.Some? then previous.value.account else None, events),
           nextOffset, (if previous.Some? then previous.value.eventCount else 0) + |events|)
  }

  /** A batch that does not start where the cursor stands was delivered before, or out of turn. */
  function ReplayBatch(u: Usage, b: Batch, windows: seq<Window>, rebuild: bool): Usage {
    var previous := StartCursor(u, b.sourceId, rebuild);
    if previous.Some? && b.startOffset != previous.value.byteOffset then u
    else
      var events := Usable(b.events);
      if previous.Some? && b.nextOffset == previous.value.byteOffset && events == [] then u
      else
        var added := AddEvents(u, windows, b.sourceId, b.session, if previous.Some? then previous.value.tokens else ZERO, events);
        added.(cursors := added.cursors[b.sourceId := NextCursor(previous, u.initializedAt, b.session, b.nextOffset, events)])
  }

  /** What a batch in its turn comes to, from what its events add and where they end. */
  lemma ReplayInTurn(u: Usage, b: Batch, windows: seq<Window>, rebuild: bool, cursor: Cursor)
    requires var previous, events := StartCursor(u, b.sourceId, rebuild), Usable(b.events);
             && (previous.None? || b.startOffset == previous.value.byteOffset)
             && cursor == NextCursor(previous, u.initializedAt, b.session, b.nextOffset, events)
    ensures var previous, events := StartCursor(u, b.sourceId, rebuild), Usable(b.events);
            var start := if previous.Some? then previous.value.tokens else ZERO;
            var added := AddEvents(u, windows, b.sourceId, b.session, start, events);
            ReplayBatch(u, b, windows, rebuild) ==
              if previous.Some? && b.nextOffset == previous.value.byteOffset && |events| == 0 then u
              else Usage(added.initializedAt, added.cursors[b.sourceId := cursor], added.days, added.tickets)
  {
    hide Usable, AddEvents, NextCursor;
  }

  // ---------------------------------------------------------------- the store, updated in place

  class UsageStore {
    const initializedAt: int
    var cursors: map<string, Cursor>
    var days: map<int, Day>
    var tickets: map<string, Ticket>

    function Value(): Usage
      reads this
    {
      Usage(initializedAt, cursors, days, tickets)
    }

    constructor (initializedAt: int)
      ensures Value() == Usage(initializedAt, map[], map[], map[])
    {
      this.initializedAt := initializedAt;
      cursors, days, tickets := map[], map[], map[];
    }

    /** A row for every window; the counts of existing rows stay. */
    method RefreshTicketRows(windows: seq<Window>)
      modifies this`tickets
      ensures forall id :: id in tickets <==> id in old(tickets) || exists i :: 0 <= i < |windows| && windows[i].id == id
      ensures forall id :: id in tickets ==> tickets[id] == if id in old(tickets) then old(tickets)[id] else NO_TICKET
    {
      for i := 0 to |windows|
        invariant forall id :: id in tickets <==> id in old(tickets) || exists j :: 0 <= j < i && windows[j].id == id
        invariant forall id :: id in tickets ==> tickets[id] == if id in old(tickets) then old(tickets)[id] else NO_TICKET
      {
        if windows[i].id !in tickets {
          tickets := tickets[windows[i].id := NO_TICKET];
        }
      }
    }

    method AddUsageEvent(windows: seq<Window>, sourceId: string, session: string, at: int, delta: Tokens)
      modifies this`days, this`tickets
      ensures Value() == AddEvent(old(Value()), windows, sourceId, session, at, delta)
    {
      if !HasTokens(delta) {
        return;
      }
      var date := UtcDay(at);
      var day := if date in days then days[date] else Day(ZERO, map[]);
      days := days[date := DayWith(day, session, delta)];
      var window := MatchingWindow(windows, session, at);
      if window.None? {
        return;
      }
      var ticket := if window.value.id in tickets then tickets[window.value.id] else NO_TICKET;
      tickets := tickets[window.value.id := Ticket(AddTokens(ticket.tokens, delta), ticket.eventCount + 1, ticket.sourceIds + {sourceId})];
    }

    method ReplayBatchIntoStore(b: Batch, windows: seq<Window>, rebuild: bool) returns (changed: bool, eventCount: nat)
      modifies this`days, this`tickets, this`cursors
      ensures Value() == ReplayBatch(old(Value()), b, windows, rebuild)
      ensures changed ==> b.sourceId in cursors && cursors[b.sourceId].byteOffset == b.nextOffset && eventCount == |Usable(b.events)|
      ensures !changed ==> Value() == old(Value()) && eventCount == 0
    {
      var previous := StartCursor(Value(), b.sourceId, rebuild);
      if previous.Some? && b.startOffset != previous.value.byteOffset {
        return false, 0;
      }
      hide AddEvent, SubtractTokens, Usable, AddEvents, LastAccount, LastAt, LastTokens, ValidTokens, ReplayBatch;
      var start := if previous.Some? then previous.value.tokens else ZERO;
      var startAt := if previous.Some? then previous.value.observedAt else initializedAt;
      var startAccount := if previous.Some? then previous.value.account else None;
      var previousTokens, observedAt, account := start, startAt, startAccount;
      eventCount := 0;
      changed := previous.None? || b.nextOffset != previous.value.byteOffset;
      NoEvents(Value(), windows, b.sourceId, b.session, start, startAt, startAccount);
      for i := 0 to |b.events|
        invariant cursors == old(cursors)
        invariant Value() == AddEvents(old(Value()), windows, b.sourceId, b.session, start, Usable(b.events[..i]))
        invariant previousTokens == LastTokens(start, Usable(b.events[..i]))
        invariant observedAt == LastAt(startAt, Usable(b.events[..i]))
        invariant account == LastAccount(startAccount, Usable(b.events[..i]))
        invariant eventCount == |Usable(b.events[..i])|
        invariant changed <==> previous.None? || b.nextOffset != previous.value.byteOffset || |Usable(b.events[..i])| > 0
      {
        var event := b.events[i];
        EventStep(old(Value()), windows, b.sourceId, b.session, start, startAt, startAccount, b.events, i);
        if ValidTokens(event.tokens) {
          var delta := SubtractTokens(event.tokens, previousTokens);
          previousTokens, observedAt := event.tokens, event.observedAt;
          account := if event.account.Some? then event.account else account;
          eventCount, changed := eventCount + 1, true;
          if event.observedAt >= initializedAt {
            AddUsageEvent(windows, b.sourceId, b.session, event.observedAt, delta);
          }
        }
      }
      assert b.events[..|b.events|] == b.events;
      var cursor := Cursor(b.session, observedAt, previousTokens, account, b.nextOffset,
                           (if previous.Some? then previous.value.eventCount else 0) + eventCount);
      ReplayInTurn(old(Value()), b, windows, rebuild, cursor);
      if !changed {
        return false, 0;
      }
      cursors := cursors[b.sourceId := cursor];
    }
  }

  // ---------------------------------------------------------------- whom an event counts for

  /** The window was open in the session at that time, its ends included. */
  predicate Claims(w: Window, session: string, at: int) {
    w.session == session && w.sentAt <= at && match w.endedAt { case None => true case Some(end) => at <= end }
  }

  lemma {:induction false} MatchesClaim(windows: seq<Window>, session: string, at: int)
    ensures Matches(windows, session, at) == [] <==> forall i :: 0 <= i < |windows| ==> !Claims(windows[i], session, at)
  {
    if windows != [] {
      MatchesClaim(windows[1..], session, at);
      assert forall i :: 0 < i < |windows| ==> windows[i] == windows[1..][i - 1];
      if exists i :: 0 <= i < |windows[1..]| && Claims(windows[1..][i], session, at) {
        var i :| 0 <= i < |windows[1..]| && Claims(windows[1..][i], session, at);
        assert Claims(windows[i + 1], session, at);
      }
    }
  }

  /** The i-th window claims the event, and no other. */
  predicate OnlyClaim(windows: seq<Window>, session: string, at: int, i: nat)
    requires i < |windows|
  {
    Claims(windows[i], session, at) && forall j :: 0 <= j < |windows| && j != i ==> !Claims(windows[j], session, at)
  }

  lemma FirstClaims(windows: seq<Window>, session: string, at: int, w: Window)
    requires windows != [] && Claims(windows[0], session, at)
    ensures MatchingWindow(windows, session, at) == Some(w) <==> windows[0] == w && OnlyClaim(windows, session, at, 0)
    ensures forall i :: 0 < i < |windows| ==> !OnlyClaim(windows, session, at, i)
  {
    var rest := windows[1..];
    MatchesClaim(rest, session, at);
    assert forall i :: 0 < i < |windows| ==> windows[i] == rest[i - 1];
    assert Matches(windows, session, at) == [windows[0]] + Matches(rest, session, at);
  }

  lemma LaterClaims(windows: seq<Window>, session: string, at: int, i: nat)
    requires windows != [] && !Claims(windows[0], session, at) && i < |windows[1..]|
    ensures OnlyClaim(windows[1..], session, at, i) <==> OnlyClaim(windows, session, at, i + 1)
  {
    hide Claims;
    assert forall j :: 0 < j < |windows| ==> windows[j] == windows[1..][j - 1];
    assert forall j :: 0 <= j < |windows[1..]| ==> windows[1..][j] == windows[j + 1];
  }

  /** An event counts for a ticket exactly when one window, and no other, claims it. */
  lemma {:induction false} OneWindow(windows: seq<Window>, session: string, at: int, w: Window)
    ensures MatchingWindow(windows, session, at) == Some(w) <==>
              exists i :: 0 <= i < |windows| && windows[i] == w && OnlyClaim(windows, session, at, i)
  {
    if windows != [] {
      var rest := windows[1..];
      if Claims(windows[0], session, at) {
        FirstClaims(windows, session, at, w);
      } else {
        hide OnlyClaim;
        OneWindow(rest, session, at, w);
        assert Matches(windows, session, at) == Matches(rest, session, at);
        NotFirst(windows, session, at);
        forall i | 0 <= i < |rest| ensures rest[i] == windows[i + 1] && OnlyClaim(rest, session, at, i) == OnlyClaim(windows, session, at, i + 1) {
          LaterClaims(windows, session, at, i);
        }
        if i :| 0 <= i < |windows| && windows[i] == w && OnlyClaim(windows, session, at, i) {
          assert rest[i - 1] == w && OnlyClaim(rest, session, at, i - 1);
        }
      }
    }
  }

  lemma NotFirst(windows: seq<Window>, session: string, at: int)
    requires windows != [] && !Claims(windows[0], session, at)
    ensures !OnlyClaim(windows, session, at, 0)
  {
  }

  /** An event counts on the day of Coordinated Universal Time it happened on. */
  lemma DayOfEvent(at: int)
    ensures UtcDay(at) * 24 * 60 * 60 * 1000 <= at < (UtcDay(at) + 1) * 24 * 60 * 60 * 1000
  {
  }
}
