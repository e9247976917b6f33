/** The repository pattern of the delivery stores: memory, disk, an operation log inside the stored
    value, three write outcomes and a poison flag. Generic in the stored value and its requests. */
module Repositories {
  import opened Errors
  import opened Wrappers
  import opened DurableJson

  datatype Entry<Q, R> = Entry(id: string, request: Q, reply: R)
  datatype Verdict<S, R> = Replay(reply: R) | Commit(next: S, reply: R) | Refuse(code: Error)

  /** A store: its empty value, its log, and what it decides about a call. */
  datatype Logic<!S, !C, !Q, !R> = Logic(empty: S, log: S -> seq<Entry<Q, R>>, id: C -> string, request: C -> Q,
                                         decide: (S, C) -> Verdict<S, R>)

  function Lookup<Q, R>(log: seq<Entry<Q, R>>, id: string): Option<Entry<Q, R>> {
    if log == [] then None else if log[0].id == id then Some(log[0]) else Lookup(log[1..], id)
  }

  /** A known operation id is answered from the log; a new one is logged when it is committed. */
  ghost predicate Answers<S, C, Q, R>(l: Logic<S, C, Q, R>, inv: S -> bool, s: S, c: C) {
    var verdict := l.decide(s, c);
    match Lookup(l.log(s), l.id(c))
    case Some(e) => if e.request == l.request(c) then verdict == Replay(e.reply) else verdict.Refuse?
    case None =>
      && !verdict.Replay?
      && (verdict.Commit? ==> inv(verdict.next) && l.log(verdict.next) == l.log(s) + [Entry(l.id(c), l.request(c), verdict.reply)])
  }

  /** What the repository relies on in the store it keeps. */
  ghost predicate WellBehaved<S(!new), C(!new), Q, R>(l: Logic<S, C, Q, R>, inv: S -> bool) {
    inv(l.empty) && l.log(l.empty) == [] && forall s, c :: inv(s) ==> Answers(l, inv, s, c)
  }

  // ---------------------------------------------------------------- one call as a function

  datatype State<S> = State(disk: File<S>, memory: Option<S>, poisoned: bool)

  /** What the environment does during one call: can the file be read when the store is loaded, how
      does the write of an initial empty store go, how does the write of the call go, and can the file
      be read back after a write that was committed but not synced. */
  datatype Env = Env(loadReadable: bool, initialFaults: Faults, initialReadBack: bool, faults: Faults, readBack: bool)

  datatype Reply<R> =
    | Applied(reply: R)
    | Replayed(reply: R)
    | Refused(code: Error)
    | NotWritten
    | Uncertain
    | Unavailable

  /** A missing file stands for the empty store. */
  function View<S>(disk: File<S>, empty: S): S {
    if disk.Whole? then disk.value else empty
  }

  function Persisted<S>(st: State<S>, next: S, f: Faults, readBack: bool): State<S> {
    match Outcome(f)
    case Written => State(Whole(next), Some(next), st.poisoned)
    case WriteFailed(committed) =>
      if !committed then st
      else if readBack then State(Whole(next), Some(next), st.poisoned)
      else State(Whole(next), None, true)
  }

  /** Loading on first use; the flag says whether the call can go on. */
  function Loaded<S>(st: State<S>, empty: S, env: Env): (State<S>, bool) {
    if st.poisoned then (st, false)
    else if st.memory.Some? then (st, true)
    else if st.disk.Absent? then
      (Persisted(st.(memory := Some(empty)), empty, env.initialFaults, env.initialReadBack), Outcome(env.initialFaults).Written?)
    else if env.loadReadable && st.disk.Whole? then (st.(memory := Some(st.disk.value)), true)
    else (st, false)
  }

  function Answered<S, C, Q, R>(st: State<S>, l: Logic<S, C, Q, R>, c: C, env: Env): (State<S>, Reply<R>)
    requires st.memory.Some?
  {
    match l.decide(st.memory.value, c)
    case Replay(reply) => (st, Replayed(reply))
    case Refuse(code) => (st, Refused(code))
    case Commit(next, reply) =>
      (Persisted(st, next, env.faults, env.readBack),
       match Outcome(env.faults)
       case Written => Applied(reply)
       case WriteFailed(committed) => if committed then Uncertain else NotWritten)
  }

  function Handle<S, C, Q, R>(st: State<S>, l: Logic<S, C, Q, R>, c: C, env: Env): (State<S>, Reply<R>) {
    var (loaded, ready) := Loaded(st, l.empty, env);
    if !ready || loaded.memory.None? then (loaded, Unavailable) else Answered(loaded, l, c, env)
  }

  /** Memory agrees with the disk unless it is empty; a poisoned repository holds nothing. */
  ghost predicate Sound<S, C, Q, R>(st: State<S>, l: Logic<S, C, Q, R>, inv: S -> bool) {
    && st.disk != Partial && inv(View(st.disk, l.empty))
    && (st.memory.Some? ==> st.memory.value == View(st.disk, l.empty))
    && (st.poisoned ==> st.memory.None?)
  }

  // ---------------------------------------------------------------- the repository object

  class Repository<S(==, !new), C(!new), Q, R> {
    const logic: Logic<S, C, Q, R>
    const disk: Disk<S>
    var store: Option<S>
    var poisoned: bool

    function StateOf(): State<S>
      reads this, disk
    {
      State(disk.target, store, poisoned)
    }

    constructor (logic: Logic<S, C, Q, R>, disk: Disk<S>)
      ensures this.logic == logic && this.disk == disk && StateOf() == State(disk.target, None, false)
    {
      this.logic, this.disk := logic, disk;
      store, poisoned := None, false;
    }

    /** Write the next value; after a write that was committed but not synced, believe what can be read back. */
    method Persist(next: S, f: Faults, readBack: bool) returns (result: WriteResult)
      requires !poisoned
      modifies this, disk
      ensures result == Outcome(f) && StateOf() == Persisted(old(StateOf()), next, f, readBack)
    {
      result := disk.WriteAtomic(next, f);
      match result {
        case Written =>
          store := Some(next);
        case WriteFailed(committed) =>
          if committed {
            if readBack && disk.target == Whole(next) {
              store := Some(next);
            } else {
              poisoned, store := true, None;
            }
          }
      }
    }

    method EnsureInitialized(env: Env) returns (ready: bool)
      modifies this, disk
      ensures (StateOf(), ready) == Loaded(old(StateOf()), logic.empty, env)
    {
      if poisoned {
        return false;
      }
      if store.Some? {
        return true;
      }
      if disk.target.Absent? {
        store := Some(logic.empty);
        var result := Persist(logic.empty, env.initialFaults, env.initialReadBack);
        return result.Written?;
      }
      if !env.loadReadable || disk.target.Partial? {
        return false;
      }
      store := Some(disk.target.value);
      return true;
    }

    /** One serialised call. */
    method Call(c: C, env: Env) returns (reply: Reply<R>)
      modifies this, disk
      ensures (StateOf(), reply) == Handle(old(StateOf()), logic, c, env)
    {
      var ready := EnsureInitialized(env);
      if !ready || store.None? {
        return Unavailable;
      }
      match logic.decide(store.value, c) {
        case Replay(known) =>
          reply := Replayed(known);
        case Refuse(code) =>
          reply := Refused(code);
        case Commit(next, result) =>
          var written := Persist(next, env.faults, env.readBack);
          match written {
            case Written =>
              reply := Applied(result);
            case WriteFailed(committed) =>
              reply := if committed then Uncertain else NotWritten;
          }
      }
    }
  }

  // ---------------------------------------------------------------- histories of calls and restarts

  datatype Move<C> = Request(call: C, env: Env) | Restart

  function Moved<S, C, Q, R>(st: State<S>, l: Logic<S, C, Q, R>, m: Move<C>): State<S> {
    match m
    case Request(c, env) => Handle(st, l, c, env).0
    case Restart => State(st.disk, None, false)
  }

  function After<S, C, Q, R>(st: State<S>, l: Logic<S, C, Q, R>, moves: seq<Move<C>>): State<S>
    decreases |moves|
  {
    if moves == [] then st else After(Moved(st, l, moves[0]), l, moves[1..])
  }

  function LogOf<S, C, Q, R>(st: State<S>, l: Logic<S, C, Q, R>): seq<Entry<Q, R>> {
    l.log(View(st.disk, l.empty))
  }

  lemma {:induction false} LookupAppended<Q, R>(log: seq<Entry<Q, R>>, e: Entry<Q, R>, id: string)
    ensures Lookup(log + [e], id) == if Lookup(log, id).Some? then Lookup(log, id) else if e.id == id then Some(e) else None
  {
    if log == [] {
      assert log + [e] == [e];
    } else {
      assert (log + [e])[1..] == log[1..] + [e];
      LookupAppended(log[1..], e, id);
    }
  }

  /** One more operation was logged, this one. */
  predicate LoggedCall<Q(==), R(==)>(log: seq<Entry<Q, R>>, log': seq<Entry<Q, R>>, id: string, request: Q) {
    Lookup(log, id).None? && |log'| == |log| + 1 && log' == log + [Entry(id, request, log'[|log|].reply)]
  }

  /** A call keeps memory and disk in agreement, or poisons the repository. It extends the log exactly
      when it reports success or an uncertain write, by exactly its own operation. */
  lemma CallSound<S(!new), C(!new), Q, R>(st: State<S>, l: Logic<S, C, Q, R>, inv: S -> bool, c: C, env: Env)
    requires WellBehaved(l, inv) && Sound(st, l, inv)
    ensures var (after, reply) := Handle(st, l, c, env);
            && Sound(after, l, inv)
            && (if reply.Applied? || reply.Uncertain? then LoggedCall(LogOf(st, l), LogOf(after, l), l.id(c), l.request(c))
                else LogOf(after, l) == LogOf(st, l))
            && (reply.Applied? ==> LogOf(after, l)[|LogOf(st, l)|].reply == reply.reply)
            && (reply.Replayed? ==> Lookup(LogOf(st, l), l.id(c)) == Some(Entry(l.id(c), l.request(c), reply.reply)))
  {
    var (loaded, ready) := Loaded(st, l.empty, env);
    LoadSound(st, l, inv, env);
    LookupId(LogOf(st, l), l.id(c));
    if ready && loaded.memory.Some? {
      assert Answers(l, inv, loaded.memory.value, c);
    }
  }

  lemma {:induction false} LookupId<Q, R>(log: seq<Entry<Q, R>>, id: string)
    ensures Lookup(log, id).Some? ==> Lookup(log, id).value.id == id
  {
    if log != [] {
      LookupId(log[1..], id);
    }
  }

  lemma LoadSound<S(!new), C(!new), Q, R>(st: State<S>, l: Logic<S, C, Q, R>, inv: S -> bool, env: Env)
    requires WellBehaved(l, inv) && Sound(st, l, inv)
    ensures var (loaded, ready) := Loaded(st, l.empty, env);
            && Sound(loaded, l, inv) && View(loaded.disk, l.empty) == View(st.disk, l.empty)
            && (ready ==> loaded.memory.Some?)
  {
  }

  /** Over every history of calls, write outcomes and restarts, memory agrees with the disk or the
      repository is poisoned, and the invariant of the store holds on disk. */
  lemma {:induction false} HistorySound<S(!new), C(!new), Q, R>(st: State<S>, l: Logic<S, C, Q, R>, inv: S -> bool, moves: seq<Move<C>>)
    requires WellBehaved(l, inv) && Sound(st, l, inv)
    ensures Sound(After(st, l, moves), l, inv)
    decreases |moves|
  {
    hide WellBehaved, Handle;
    if moves != [] {
      if moves[0].Request? {
        CallSound(st, l, inv, moves[0].call, moves[0].env);
      }
      HistorySound(Moved(st, l, moves[0]), l, inv, moves[1..]);
    }
  }

  /** The log only grows: what an operation id stands for never changes. */
  lemma {:induction false} LogOnlyGrows<S(!new), C(!new), Q, R>(st: State<S>, l: Logic<S, C, Q, R>, inv: S -> bool, moves: seq<Move<C>>, id: string)
    requires WellBehaved(l, inv) && Sound(st, l, inv)
    ensures LogOf(st, l) <= LogOf(After(st, l, moves), l)
    ensures Lookup(LogOf(st, l), id).Some? ==> Lookup(LogOf(After(st, l, moves), l), id) == Lookup(LogOf(st, l), id)
    decreases |moves|
  {
    hide WellBehaved, Handle, Sound;
    if moves != [] {
      var next := Moved(st, l, moves[0]);
      MoveGrows(st, l, inv, moves[0], id);
      LogOnlyGrows(next, l, inv, moves[1..], id);
    }
  }

  lemma MoveGrows<S(!new), C(!new), Q, R>(st: State<S>, l: Logic<S, C, Q, R>, inv: S -> bool, m: Move<C>, id: string)
    requires WellBehaved(l, inv) && Sound(st, l, inv)
    ensures Sound(Moved(st, l, m), l, inv) && LogOf(st, l) <= LogOf(Moved(st, l, m), l)
    ensures Lookup(LogOf(st, l), id).Some? ==> Lookup(LogOf(Moved(st, l, m), l), id) == Lookup(LogOf(st, l), id)
  {
    hide WellBehaved, Handle;
    if m.Request? {
      CallSound(st, l, inv, m.call, m.env);
      var log, log' := LogOf(st, l), LogOf(Moved(st, l, m), l);
      if log' != log {
        assert log' == log + [log'[|log|]];
        LookupAppended(log, log'[|log|], id);
      }
    }
  }

  /** Once a call took effect, sending the same operation again, after any calls, failures and
      restarts, changes nothing on disk and is answered with the first result, or not at all. */
  lemma ExactlyOnce<S(!new), C(!new), Q, R>(st: State<S>, l: Logic<S, C, Q, R>, inv: S -> bool, c: C, env: Env, moves: seq<Move<C>>, again: C, env': Env)
    requires WellBehaved(l, inv) && Sound(st, l, inv)
    requires Handle(st, l, c, env).1.Applied? || Handle(st, l, c, env).1.Uncertain?
    requires l.id(again) == l.id(c) && l.request(again) == l.request(c)
    ensures var (first, reply) := Handle(st, l, c, env);
            var later := After(first, l, moves);
            var (last, answer) := Handle(later, l, again, env');
            && LogOf(last, l) == LogOf(later, l)
            && (answer.Replayed? || answer.Unavailable?)
            && (reply.Applied? && answer.Replayed? ==> answer.reply == reply.reply)
  {
    hide WellBehaved, Handle, Sound;
    var (first, reply) := Handle(st, l, c, env);
    var later := After(first, l, moves);
    CallSound(st, l, inv, c, env);
    var log := LogOf(first, l);
    LookupAppended(LogOf(st, l), log[|log| - 1], l.id(c));
    LogOnlyGrows(first, l, inv, moves, l.id(c));
    HistorySound(first, l, inv, moves);
    RetryReplays(later, l, inv, again, env');
  }

  lemma RetryReplays<S(!new), C(!new), Q, R>(st: State<S>, l: Logic<S, C, Q, R>, inv: S -> bool, c: C, env: Env)
    requires WellBehaved(l, inv) && Sound(st, l, inv)
    requires Lookup(LogOf(st, l), l.id(c)).Some? && Lookup(LogOf(st, l), l.id(c)).value.request == l.request(c)
    ensures var (after, reply) := Handle(st, l, c, env);
            && LogOf(after, l) == LogOf(st, l)
            && (reply == Replayed(Lookup(LogOf(st, l), l.id(c)).value.reply) || reply.Unavailable?)
  {
    var (loaded, ready) := Loaded(st, l.empty, env);
    LoadSound(st, l, inv, env);
    if ready {
      assert Answers(l, inv, loaded.memory.value, c);
    }
  }

  /** Without a poison flag and with a readable file, a retry is answered. */
  lemma RetryAnswered<S(!new), C(!new), Q, R>(st: State<S>, l: Logic<S, C, Q, R>, inv: S -> bool, c: C, env: Env)
    requires WellBehaved(l, inv) && Sound(st, l, inv) && !st.poisoned && env.loadReadable
    requires Lookup(LogOf(st, l), l.id(c)).Some? && Lookup(LogOf(st, l), l.id(c)).value.request == l.request(c)
    ensures Handle(st, l, c, env).1 == Replayed(Lookup(LogOf(st, l), l.id(c)).value.reply)
  {
    RetryReplays(st, l, inv, c, env);
    LoadSound(st, l, inv, env);
    assert st.disk.Whole?;
  }
}
