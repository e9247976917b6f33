/** Incremental replay refines a rebuild: any split of the sources' events into batches, in any
    interleaving and with any redelivery, gives the same store. */
module UsageRefinement {
  import opened UsageTokens
  import opened UsageReplay

  // ---------------------------------------------------------------- totals of a store

  /** The totals a store keeps: per day, per agent and day, per ticket. */
  datatype Key = DayKey(date: int) | AgentKey(date: int, session: string) | TicketKey(id: string)

  function Total(u: Usage, key: Key): Tokens {
    match key
    case DayKey(d) => if d in u.days then u.days[d].tokens else ZERO
    case AgentKey(d, s) => if d in u.days && s in u.days[d].agents then u.days[d].agents[s] else ZERO
    case TicketKey(id) => if id in u.tickets then u.tickets[id].tokens else ZERO
  }

  /** The event counts for this total. */
  predicate Hits(key: Key, windows: seq<Window>, session: string, at: int) {
    match key
    case DayKey(d) => UtcDay(at) == d
    case AgentKey(d, s) => UtcDay(at) == d && s == session
    case TicketKey(id) => MatchingWindow(windows, session, at).Some? && MatchingWindow(windows, session, at).value.id == id
  }

  /** Only days and agents with tokens have an entry. */
  ghost predicate Tight(u: Usage) {
    && (forall d :: d in u.days ==> ValidTokens(u.days[d].tokens) && HasTokens(u.days[d].tokens))
    && (forall d, s :: d in u.days && s in u.days[d].agents ==> ValidTokens(u.days[d].agents[s]) && HasTokens(u.days[d].agents[s]))
    && (forall id :: id in u.tickets ==> ValidTokens(u.tickets[id].tokens))
  }

  function TicketCount(u: Usage, id: string): nat {
    if id in u.tickets then u.tickets[id].eventCount else 0
  }

  function TicketSources(u: Usage, id: string): set<string> {
    if id in u.tickets then u.tickets[id].sourceIds else {}
  }

  lemma TotalValid(u: Usage, key: Key)
    requires Tight(u)
    ensures ValidTokens(Total(u, key))
  {
  }

  lemma DayWithTight(day: Day, session: string, delta: Tokens)
    requires ValidTokens(day.tokens) && ValidTokens(delta) && HasTokens(delta)
    requires forall s :: s in day.agents ==> ValidTokens(day.agents[s]) && HasTokens(day.agents[s])
    ensures var next := DayWith(day, session, delta);
            && ValidTokens(next.tokens) && HasTokens(next.tokens)
            && forall s :: s in next.agents ==> ValidTokens(next.agents[s]) && HasTokens(next.agents[s])
  {
    hide AddTokens;
    AddHasTokens(day.tokens, delta);
    ZeroValid();
    AddHasTokens(if session in day.agents then day.agents[session] else ZERO, delta);
  }

  lemma EventTight(u: Usage, windows: seq<Window>, sourceId: string, session: string, at: int, delta: Tokens)
    requires Tight(u) && ValidTokens(delta)
    ensures Tight(AddEvent(u, windows, sourceId, session, at, delta))
  {
    hide AddTokens, ValidTokens, DayWith, MatchingWindow, HasTokens;
    ZeroValid();
    var date := UtcDay(at);
    if HasTokens(delta) {
      DayWithTight(if date in u.days then u.days[date] else Day(ZERO, map[]), session, delta);
    }
  }

  /** One event adds its growth to every total it hits and to no other. */
  lemma EventTotal(u: Usage, windows: seq<Window>, sourceId: string, session: string, at: int, delta: Tokens, key: Key)
    requires Tight(u) && ValidTokens(delta)
    ensures Total(AddEvent(u, windows, sourceId, session, at, delta), key) ==
            AddTokens(Total(u, key), if Hits(key, windows, session, at) then delta else ZERO)
  {
    hide AddTokens, ValidTokens, MatchingWindow, HasTokens, Tight;
    TotalValid(u, key);
    AddZero(Total(u, key));
    AddHasTokens(delta, delta);
  }

  predicate CountsFor(windows: seq<Window>, session: string, at: int, delta: Tokens, id: string) {
    HasTokens(delta) && Hits(TicketKey(id), windows, session, at)
  }

  lemma EventCounts(u: Usage, windows: seq<Window>, sourceId: string, session: string, at: int, delta: Tokens, id: string)
    ensures var next := AddEvent(u, windows, sourceId, session, at, delta);
            && next.initializedAt == u.initializedAt && next.cursors == u.cursors
            && TicketCount(next, id) == TicketCount(u, id) + (if CountsFor(windows, session, at, delta, id) then 1 else 0)
            && TicketSources(next, id) == TicketSources(u, id) + (if CountsFor(windows, session, at, delta, id) then {sourceId} else {})
  {
    hide AddTokens, MatchingWindow, HasTokens;
  }

  // ---------------------------------------------------------------- what a run of events amounts to

  /** Everything that fixes how events count. */
  datatype Context = Context(windows: seq<Window>, initializedAt: int)

  predicate InTime(c: Context, e: Event) {
    e.observedAt >= c.initializedAt
  }

  /** Tokens a run of events adds to a total, the counter before them being `start`. */
  function Grown(c: Context, key: Key, session: string, start: Tokens, events: seq<Event>): (t: Tokens)
    ensures ValidTokens(t)
  {
    if events == [] then ZERO
    else
      var init, e := events[..|events| - 1], events[|events| - 1];
      AddTokens(Grown(c, key, session, start, init),
                if InTime(c, e) && Hits(key, c.windows, session, e.observedAt) then SubtractTokens(e.tokens, LastTokens(start, init)) else ZERO)
  }

  function Counted(c: Context, id: string, session: string, start: Tokens, events: seq<Event>): nat {
    if events == [] then 0
    else
      var init, e := events[..|events| - 1], events[|events| - 1];
      Counted(c, id, session, start, init)
      + if InTime(c, e) && CountsFor(c.windows, session, e.observedAt, SubtractTokens(e.tokens, LastTokens(start, init)), id) then 1 else 0
  }

  lemma {:induction false} EventsTotal(u: Usage, c: Context, sourceId: string, session: string, start: Tokens, events: seq<Event>, key: Key)
    requires Tight(u) && c.initializedAt == u.initializedAt
    ensures var next := AddEvents(u, c.windows, sourceId, session, start, events);
            && Tight(next) && Total(next, key) == AddTokens(Total(u, key), Grown(c, key, session, start, events))
    decreases |events|
  {
    hide AddTokens, ValidTokens, MatchingWindow, HasTokens, Tight, AddEvent, SubtractTokens, Hits;
    TotalValid(u, key);
    ZeroValid();
    if events == [] {
      AddZero(Total(u, key));
    } else {
      var init, e := events[..|events| - 1], events[|events| - 1];
      var before := AddEvents(u, c.windows, sourceId, session, start, init);
      var delta := SubtractTokens(e.tokens, LastTokens(start, init));
      EventsTotal(u, c, sourceId, session, start, init, key);
      TotalValid(before, key);
      AddZero(Total(before, key));
      if InTime(c, e) {
        EventTight(before, c.windows, sourceId, session, e.observedAt, delta);
        EventTotal(before, c.windows, sourceId, session, e.observedAt, delta, key);
      }
      AddAssociates(Total(u, key), Grown(c, key, session, start, init),
                    if InTime(c, e) && Hits(key, c.windows, session, e.observedAt) then delta else ZERO);
    }
  }

  lemma {:induction false} EventsCounts(u: Usage, c: Context, sourceId: string, session: string, start: Tokens, events: seq<Event>, id: string)
    requires c.initializedAt == u.initializedAt
    ensures var next := AddEvents(u, c.windows, sourceId, session, start, events);
            && next.initializedAt == u.initializedAt && next.cursors == u.cursors
            && TicketCount(next, id) == TicketCount(u, id) + Counted(c, id, session, start, events)
            && TicketSources(next, id) == TicketSources(u, id) + (if Counted(c, id, session, start, events) > 0 then {sourceId} else {})
    decreases |events|
  {
    hide MatchingWindow, HasTokens, AddEvent, SubtractTokens, CountsFor;
    if events != [] {
      var init, e := events[..|events| - 1], events[|events| - 1];
      EventsCounts(u, c, sourceId, session, start, init, id);
      EventCounts(AddEvents(u, c.windows, sourceId, session, start, init), c.windows, sourceId, session, e.observedAt,
                  SubtractTokens(e.tokens, LastTokens(start, init)), id);
    }
  }

  /** Splitting a run of events changes nothing. */
  lemma {:induction false} GrownSplit(c: Context, key: Key, session: string, start: Tokens, xs: seq<Event>, ys: seq<Event>)
    ensures Grown(c, key, session, start, xs + ys) ==
            AddTokens(Grown(c, key, session, start, xs), Grown(c, key, session, LastTokens(start, xs), ys))
    decreases |ys|
  {
    hide AddTokens, SubtractTokens, Hits, ValidTokens;
    if ys == [] {
      assert xs + ys == xs;
      AddZero(Grown(c, key, session, start, xs));
    } else {
      var init, e := ys[..|ys| - 1], ys[|ys| - 1];
      assert (xs + ys)[..|xs + ys| - 1] == xs + init;
      GrownSplit(c, key, session, start, xs, init);
      ZeroValid();
      AddAssociates(Grown(c, key, session, start, xs), Grown(c, key, session, LastTokens(start, xs), init),
                    if InTime(c, e) && Hits(key, c.windows, session, e.observedAt) then SubtractTokens(e.tokens, LastTokens(start, xs + init)) else ZERO);
    }
  }

  lemma {:induction false} CountedSplit(c: Context, id: string, session: string, start: Tokens, xs: seq<Event>, ys: seq<Event>)
    ensures Counted(c, id, session, start, xs + ys) ==
            Counted(c, id, session, start, xs) + Counted(c, id, session, LastTokens(start, xs), ys)
    decreases |ys|
  {
    hide SubtractTokens, CountsFor;
    if ys == [] {
      assert xs + ys == xs;
    } else {
      assert (xs + ys)[..|xs + ys| - 1] == xs + ys[..|ys| - 1];
      CountedSplit(c, id, session, start, xs, ys[..|ys| - 1]);
    }
  }
}
