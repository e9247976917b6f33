/** The observation cache: asynchronous loads into a bounded map, under every interleaving. */
module ObservationCaches {
  import opened Wrappers

  /** An entry of the map, in insertion order; without a value its load is still pending. */
  datatype Slot<V> = Slot(key: string, id: nat, value: Option<V>, expiresAt: int)

  /** The map, and the suspended calls of `get` with the entry each will complete. */
  datatype Cache<V> = Cache(slots: seq<Slot<V>>, running: map<nat, string>, nextId: nat)

  datatype Settings = Settings(ttl: int, maxEntries: nat)

  predicate ValidSettings(s: Settings) {
    s.ttl >= 0 && s.maxEntries >= 1
  }

  datatype Answer<V> = Hit(value: V) | Joined(id: nat) | Started(id: nat)
  datatype Outcome<V> = Loaded(value: V) | LoadFailed

  // ---------------------------------------------------------------- the map

  function Find<V>(slots: seq<Slot<V>>, key: string): Option<Slot<V>> {
    if slots == [] then None
    else if slots[0].key == key then Some(slots[0])
    else Find(slots[1..], key)
  }

  function Remove<V>(slots: seq<Slot<V>>, key: string): seq<Slot<V>> {
    if slots == [] then []
    else if slots[0].key == key then Remove(slots[1..], key)
    else [slots[0]] + Remove(slots[1..], key)
  }

  /** Changing an entry leaves it where it is. */
  function Replace<V>(slots: seq<Slot<V>>, slot: Slot<V>): seq<Slot<V>> {
    seq(|slots|, i requires 0 <= i < |slots| => if slots[i].key == slot.key then slot else slots[i])
  }

  /** Oldest entries go first. */
  function Trimmed<V>(slots: seq<Slot<V>>, maxEntries: nat): (r: seq<Slot<V>>)
    ensures |r| <= |slots| && r == slots[|slots| - |r|..] && |r| == if |slots| <= maxEntries then |slots| else maxEntries
  {
    if |slots| <= maxEntries then slots else Trimmed(slots[1..], maxEntries)
  }

  // ---------------------------------------------------------------- operations

  function Begin<V>(c: Cache<V>, s: Settings, key: string): Cache<V> {
    Cache(Trimmed(Remove(c.slots, key) + [Slot(key, c.nextId, None, 0)], s.maxEntries), c.running[c.nextId := key], c.nextId + 1)
  }

  /** The part of `get` up to its first wait. */
  function Get<V>(c: Cache<V>, s: Settings, key: string, reload: bool, now: int): (Cache<V>, Answer<V>) {
    var current := Find(c.slots, key);
    if current.Some? && current.value.value.None? then (c, Joined(current.value.id))
    else if !reload && current.Some? && current.value.value.Some? && current.value.expiresAt > now then
      (c.(slots := Remove(c.slots, key) + [current.value]), Hit(current.value.value.value))
    else (Begin(c, s, key), Started(c.nextId))
  }

  /** The part of `get` after its load settled: it only counts when its entry is still the current one. */
  function Complete<V>(c: Cache<V>, s: Settings, id: nat, outcome: Outcome<V>, now: int): Cache<V> {
    if id !in c.running then c
    else
      var key := c.running[id];
      var settled := c.(running := c.running - {id});
      var current := Find(c.slots, key);
      if current.None? || current.value.id != id then settled
      else match outcome
           case Loaded(value) => settled.(slots := Replace(c.slots, Slot(key, id, Some(value), now + s.ttl)))
           case LoadFailed => settled.(slots := Remove(c.slots, key))
  }

  class ObservationCache<V> {
    const settings: Settings
    var slots: seq<Slot<V>>
    var running: map<nat, string>
    var nextId: nat

    constructor (settings: Settings)
      requires ValidSettings(settings)
      ensures this.settings == settings && State() == Cache([], map[], 0)
    {
      this.settings := settings;
      slots, running, nextId := [], map[], 0;
    }

    function State(): Cache<V>
      reads this
    {
      Cache(slots, running, nextId)
    }

    method Trim()
      modifies this`slots
      ensures slots == Trimmed(old(slots), settings.maxEntries)
    {
      while |slots| > settings.maxEntries
        invariant Trimmed(slots, settings.maxEntries) == Trimmed(old(slots), settings.maxEntries)
        decreases |slots|
      {
        slots := slots[1..];
      }
    }

    method BeginGet(key: string, reload: bool, now: int) returns (answer: Answer<V>)
      modifies this
      ensures (State(), answer) == Get(old(State()), settings, key, reload, now)
    {
      hide Remove, Find, Trimmed;
      var current := Find(slots, key);
      if current.Some? && current.value.value.None? {
        return Joined(current.value.id);
      }
      if !reload && current.Some? && current.value.expiresAt > now {
        slots := Remove(slots, key) + [current.value];
        return Hit(current.value.value.value);
      }
      answer := Started(nextId);
      slots := Remove(slots, key) + [Slot(key, nextId, None, 0)];
      running := running[nextId := key];
      nextId := nextId + 1;
      Trim();
    }

    method Settle(id: nat, outcome: Outcome<V>, now: int)
      requires id in running
      modifies this
      ensures State() == Complete(old(State()), settings, id, outcome, now)
    {
      var key := running[id];
      running := running - {id};
      var current := Find(slots, key);
      if current.Some? && current.value.id == id {
        match outcome {
          case Loaded(value) => slots := Replace(slots, Slot(key, id, Some(value), now + settings.ttl));
          case LoadFailed => slots := Remove(slots, key);
        }
      }
    }

    method Delete(key: string) returns (existed: bool)
      modifies this
      ensures State() == old(State()).(slots := Remove(old(slots), key)) && existed == Find(old(slots), key).Some?
    {
      existed := Find(slots, key).Some?;
      slots := Remove(slots, key);
    }

    method Clear()
      modifies this
      ensures State() == old(State()).(slots := [])
    {
      slots := [];
    }
  }

  // ---------------------------------------------------------------- histories

  datatype Move<V> =
    | GetMove(key: string, reload: bool, now: int)
    | SettleMove(id: nat, outcome: Outcome<V>, now: int)
    | DeleteMove(key: string)
    | ClearMove

  function Moved<V>(c: Cache<V>, s: Settings, m: Move<V>): Cache<V> {
    match m
    case GetMove(key, reload, now) => Get(c, s, key, reload, now).0
    case SettleMove(id, outcome, now) => Complete(c, s, id, outcome, now)
    case DeleteMove(key) => c.(slots := Remove(c.slots, key))
    case ClearMove => c.(slots := [])
  }

  function After<V>(s: Settings, moves: seq<Move<V>>): Cache<V> {
    if moves == [] then Cache([], map[], 0) else Moved(After(s, moves[..|moves| - 1]), s, moves[|moves| - 1])
  }

  /** Some earlier load for this key, started as `id`, settled with this value at this time. */
  ghost predicate Produced<V(!new)>(s: Settings, moves: seq<Move<V>>, key: string, id: nat, value: V, at: int) {
    exists j :: 0 <= j < |moves| && moves[j] == SettleMove(id, Loaded(value), at)
      && id in After(s, moves[..j]).running && After(s, moves[..j]).running[id] == key
  }

  /** The entry's value came from a load for its key and expires a lifetime after that load settled. */
  ghost predicate Genuine<V(!new)>(s: Settings, moves: seq<Move<V>>, slot: Slot<V>) {
    slot.value.Some? ==> Produced(s, moves, slot.key, slot.id, slot.value.value, slot.expiresAt - s.ttl)
  }

  ghost predicate Sound<V(!new)>(c: Cache<V>, s: Settings, moves: seq<Move<V>>) {
    |c.slots| <= s.maxEntries && SlotsSound(c.slots, c.running, c.nextId, s, moves) && forall id :: id in c.running ==> id < c.nextId
  }

  lemma ProducedStays<V(!new)>(s: Settings, moves: seq<Move<V>>, m: Move<V>, slot: Slot<V>)
    requires Genuine(s, moves, slot)
    ensures Genuine(s, moves + [m], slot)
  {
    hide After;
    if slot.value.Some? {
      var j :| 0 <= j < |moves| && moves[j] == SettleMove(slot.id, Loaded(slot.value.value), slot.expiresAt - s.ttl)
        && slot.id in After(s, moves[..j]).running && After(s, moves[..j]).running[slot.id] == slot.key;
      assert (moves + [m])[..j] == moves[..j] && (moves + [m])[j] == moves[j];
    }
  }

  lemma {:induction false} FoundSlot<V>(slots: seq<Slot<V>>, key: string) returns (i: nat)
    ensures Find(slots, key).None? ==> forall j :: 0 <= j < |slots| ==> slots[j].key != key
    ensures Find(slots, key).Some? ==> i < |slots| && slots[i] == Find(slots, key).value && slots[i].key == key
  {
    i := 0;
    if slots != [] && slots[0].key != key {
      i := FoundSlot(slots[1..], key);
      i := i + 1;
      assert forall j :: 0 < j < |slots| ==> slots[j] == slots[1..][j - 1];
    }
  }

  predicate Distinct<V>(slots: seq<Slot<V>>) {
    forall i, j :: 0 <= i < j < |slots| ==> slots[i].key != slots[j].key && slots[i].id != slots[j].id
  }

  lemma {:induction false} RemovedMember<V>(slots: seq<Slot<V>>, key: string, x: Slot<V>)
    ensures x in Remove(slots, key) <==> x in slots && x.key != key
  {
    if slots != [] {
      RemovedMember(slots[1..], key, x);
      assert slots == [slots[0]] + slots[1..];
    }
  }

  lemma {:induction false} RemovedSize<V>(slots: seq<Slot<V>>, key: string)
    ensures |Remove(slots, key)| <= |slots| && (Find(slots, key).Some? ==> |Remove(slots, key)| < |slots|)
  {
    if slots != [] {
      RemovedSize(slots[1..], key);
    }
  }

  /** What removal leaves: the other entries, still apart. */
  lemma {:induction false} RemovedDistinct<V>(slots: seq<Slot<V>>, key: string)
    requires Distinct(slots)
    ensures Distinct(Remove(slots, key))
  {
    if slots != [] {
      var rest := Remove(slots[1..], key);
      RemovedDistinct(slots[1..], key);
      if slots[0].key != key {
        forall j | 0 <= j < |rest| ensures rest[j].key != slots[0].key && rest[j].id != slots[0].id {
          RemovedMember(slots[1..], key, rest[j]);
          assert rest[j] in slots[1..];
        }
      }
    }
  }

  // ---------------------------------------------------------------- one move

  /** The part of soundness that the entries and suspended calls have to satisfy. */
  ghost predicate SlotsSound<V(!new)>(slots: seq<Slot<V>>, running: map<nat, string>, nextId: nat, s: Settings, moves: seq<Move<V>>) {
    && Distinct(slots)
    && (forall x :: x in slots ==> x.id < nextId && Genuine(s, moves, x) && (x.id in running ==> running[x.id] == x.key))
  }

  lemma DropSlots<V(!new)>(slots: seq<Slot<V>>, fewer: seq<Slot<V>>, running: map<nat, string>, nextId: nat, s: Settings, moves: seq<Move<V>>)
    requires SlotsSound(slots, running, nextId, s, moves) && Distinct(fewer) && forall x :: x in fewer ==> x in slots
    ensures SlotsSound(fewer, running, nextId, s, moves)
  {
    hide Genuine, Distinct;
  }

  lemma RemoveSound<V(!new)>(slots: seq<Slot<V>>, key: string, running: map<nat, string>, nextId: nat, s: Settings, moves: seq<Move<V>>)
    requires SlotsSound(slots, running, nextId, s, moves)
    ensures SlotsSound(Remove(slots, key), running, nextId, s, moves)
    ensures forall x :: x in Remove(slots, key) ==> x in slots && x.key != key
  {
    hide Genuine;
    RemovedDistinct(slots, key);
    forall x | x in Remove(slots, key) ensures x in slots && x.key != key {
      RemovedMember(slots, key, x);
    }
    DropSlots(slots, Remove(slots, key), running, nextId, s, moves);
  }

  lemma TrimSound<V(!new)>(slots: seq<Slot<V>>, maxEntries: nat, running: map<nat, string>, nextId: nat, s: Settings, moves: seq<Move<V>>)
    requires SlotsSound(slots, running, nextId, s, moves)
    ensures SlotsSound(Trimmed(slots, maxEntries), running, nextId, s, moves)
  {
    hide Genuine, Distinct, Trimmed;
    TailDistinct(slots, |slots| - |Trimmed(slots, maxEntries)|);
    DropSlots(slots, Trimmed(slots, maxEntries), running, nextId, s, moves);
  }

  lemma TailDistinct<V>(slots: seq<Slot<V>>, k: nat)
    requires Distinct(slots) && k <= |slots|
    ensures Distinct(slots[k..]) && forall x :: x in slots[k..] ==> x in slots
  {
  }

  /** A new entry takes the place of any other for its key. */
  lemma BeginSound<V(!new)>(c: Cache<V>, s: Settings, key: string, moves: seq<Move<V>>)
    requires SlotsSound(c.slots, c.running, c.nextId, s, moves) && forall id :: id in c.running ==> id < c.nextId
    ensures var next := Begin(c, s, key);
            SlotsSound(next.slots, next.running, next.nextId, s, moves) && |next.slots| <= s.maxEntries
  {
    hide Genuine;
    RemoveSound(c.slots, key, c.running, c.nextId, s, moves);
    var added := Remove(c.slots, key) + [Slot(key, c.nextId, None, 0)];
    forall i | 0 <= i < |added| - 1 ensures added[i].key != key && added[i].id < c.nextId {
      assert added[i] in Remove(c.slots, key);
    }
    PendingGenuine(s, moves, key, c.nextId);
    TrimSound(added, s.maxEntries, c.running[c.nextId := key], c.nextId + 1, s, moves);
  }

  lemma PendingGenuine<V(!new)>(s: Settings, moves: seq<Move<V>>, key: string, id: nat)
    ensures Genuine(s, moves, Slot<V>.Slot(key, id, None, 0))
  {
  }

  /** The settled load's entry, in its place, now has the value. */
  lemma LoadedSound<V(!new)>(c: Cache<V>, s: Settings, id: nat, value: V, now: int, moves: seq<Move<V>>)
    requires SlotsSound(c.slots, c.running, c.nextId, s, moves) && id in c.running
    requires Find(c.slots, c.running[id]).Some? && Find(c.slots, c.running[id]).value.id == id
    requires Genuine(s, moves, Slot(c.running[id], id, Some(value), now + s.ttl))
    ensures SlotsSound(Replace(c.slots, Slot(c.running[id], id, Some(value), now + s.ttl)), c.running - {id}, c.nextId, s, moves)
  {
    hide Genuine;
    var slot := Slot(c.running[id], id, Some(value), now + s.ttl);
    var k := FoundSlot(c.slots, slot.key);
    assert Replace(c.slots, slot) == c.slots[k := slot];
    forall x | x in c.slots[k := slot] ensures x == slot || x in c.slots {
    }
  }

  lemma CompleteSound<V(!new)>(c: Cache<V>, s: Settings, id: nat, outcome: Outcome<V>, now: int, moves: seq<Move<V>>)
    requires SlotsSound(c.slots, c.running, c.nextId, s, moves) && id in c.running
    requires outcome.Loaded? ==> Genuine(s, moves, Slot(c.running[id], id, Some(outcome.value), now + s.ttl))
    ensures var next := Complete(c, s, id, outcome, now);
            SlotsSound(next.slots, next.running, next.nextId, s, moves) && |next.slots| <= |c.slots|
  {
    hide Genuine;
    var key := c.running[id];
    var current := Find(c.slots, key);
    if current.Some? && current.value.id == id {
      match outcome {
        case Loaded(value) => LoadedSound(c, s, id, value, now, moves);
        case LoadFailed =>
          RemoveSound(c.slots, key, c.running, c.nextId, s, moves);
          RemovedSize(c.slots, key);
      }
    }
  }

  /** A value that settles now is a genuine value from now on. */
  lemma SettlingProduces<V(!new)>(s: Settings, moves: seq<Move<V>>, id: nat, value: V, now: int)
    requires id in After(s, moves).running
    ensures var m := SettleMove(id, Loaded(value), now);
            Genuine(s, moves + [m], Slot(After(s, moves).running[id], id, Some(value), now + s.ttl))
  {
    var all := moves + [SettleMove(id, Loaded(value), now)];
    assert all[..|moves|] == moves && all[|moves|] == SettleMove(id, Loaded(value), now);
  }

  lemma LaterSound<V(!new)>(c: Cache<V>, s: Settings, moves: seq<Move<V>>, m: Move<V>)
    requires SlotsSound(c.slots, c.running, c.nextId, s, moves)
    ensures SlotsSound(c.slots, c.running, c.nextId, s, moves + [m])
  {
    hide Genuine;
    forall x | x in c.slots ensures Genuine(s, moves + [m], x) {
      ProducedStays(s, moves, m, x);
    }
  }

  /** Every move keeps the cache sound. */
  lemma MoveSound<V(!new)>(s: Settings, moves: seq<Move<V>>, m: Move<V>)
    requires ValidSettings(s) && Sound(After(s, moves), s, moves)
    ensures Sound(Moved(After(s, moves), s, m), s, moves + [m])
  {
    hide Genuine, Begin, Distinct, After, Trimmed;
    var c := After(s, moves);
    LaterSound(c, s, moves, m);
    match m {
      case GetMove(key, reload, now) =>
        BeginSound(c, s, key, moves + [m]);
        HitSound(c, s, key, moves + [m]);
        BeginRunning(c, s, key);
      case SettleMove(id, outcome, now) =>
        if id in c.running {
          if outcome.Loaded? {
            SettlingProduces(s, moves, id, outcome.value, now);
          }
          CompleteSound(c, s, id, outcome, now, moves + [m]);
        }
      case DeleteMove(key) =>
        RemoveSound(c.slots, key, c.running, c.nextId, s, moves + [m]);
        RemovedSize(c.slots, key);
      case ClearMove => NothingSound(c, s, moves + [m]);
    }
  }

  lemma NothingSound<V(!new)>(c: Cache<V>, s: Settings, moves: seq<Move<V>>)
    ensures SlotsSound([], c.running, c.nextId, s, moves)
  {
  }

  lemma BeginRunning<V>(c: Cache<V>, s: Settings, key: string)
    ensures Begin(c, s, key).running == c.running[c.nextId := key] && Begin(c, s, key).nextId == c.nextId + 1
  {
  }

  /** Serving an entry moves it to the young end. */
  lemma HitSound<V(!new)>(c: Cache<V>, s: Settings, key: string, moves: seq<Move<V>>)
    requires SlotsSound(c.slots, c.running, c.nextId, s, moves) && |c.slots| <= s.maxEntries
    ensures Find(c.slots, key).Some? ==>
              var slots := Remove(c.slots, key) + [Find(c.slots, key).value];
              SlotsSound(slots, c.running, c.nextId, s, moves) && |slots| <= s.maxEntries
  {
    hide Genuine;
    if Find(c.slots, key).Some? {
      var k := FoundSlot(c.slots, key);
      var slots := Remove(c.slots, key) + [c.slots[k]];
      RemoveSound(c.slots, key, c.running, c.nextId, s, moves);
      RemovedSize(c.slots, key);
      forall i | 0 <= i < |slots| - 1 ensures slots[i].key != key && slots[i].id != c.slots[k].id {
        assert slots[i] in Remove(c.slots, key);
        var j :| 0 <= j < |c.slots| && c.slots[j] == slots[i];
      }
    }
  }

  /** Over every interleaving of gets, deletions, clears and settling loads, the cache keeps at most its
      number of entries, one for a key, each with a value some load for that key produced. */
  lemma {:induction false} HistorySound<V(!new)>(s: Settings, moves: seq<Move<V>>)
    requires ValidSettings(s)
    ensures Sound(After(s, moves), s, moves)
    decreases |moves|
  {
    hide Moved;
    if moves == [] {
      NothingSound(Cache<V>.Cache([], map[], 0), s, moves);
    } else {
      hide Sound, Moved;
      var init := moves[..|moves| - 1];
      HistorySound(s, init);
      MoveSound(s, init, moves[|moves| - 1]);
      assert init + [moves[|moves| - 1]] == moves;
    }
  }

  /** A cached hit returns what a load for that key settled with less than a lifetime ago. */
  lemma HitIsRecent<V(!new)>(s: Settings, moves: seq<Move<V>>, key: string, reload: bool, now: int) returns (id: nat, at: int)
    requires ValidSettings(s) && Get(After(s, moves), s, key, reload, now).1.Hit?
    ensures Produced(s, moves, key, id, Get(After(s, moves), s, key, reload, now).1.value, at) && now < at + s.ttl && !reload
  {
    hide Produced, Distinct, Begin;
    HistorySound(s, moves);
    var c := After(s, moves);
    var k := FoundSlot(c.slots, key);
    assert Genuine(s, moves, c.slots[k]);
    id, at := c.slots[k].id, c.slots[k].expiresAt - s.ttl;
  }

  /** The load still has its entry. */
  predicate Present<V>(c: Cache<V>, id: nat) {
    !Absent(c.slots, id)
  }

  predicate Absent<V>(slots: seq<Slot<V>>, id: nat) {
    forall i :: 0 <= i < |slots| ==> slots[i].id != id
  }

  /** A load whose entry was evicted, deleted, cleared or replaced changes nothing when it settles. */
  lemma LateSettlingIgnored<V(!new)>(s: Settings, moves: seq<Move<V>>, id: nat, outcome: Outcome<V>, now: int)
    requires ValidSettings(s) && !Present(After(s, moves), id)
    ensures Complete(After(s, moves), s, id, outcome, now).slots == After(s, moves).slots
  {
    hide After;
    var c := After(s, moves);
    if id in c.running {
      var k := FoundSlot(c.slots, c.running[id]);
      if Find(c.slots, c.running[id]).Some? {
        assert c.slots[k] in c.slots;
      }
    }
  }

  /** And its entry never comes back. */
  lemma {:induction false} GoneForGood<V(!new)>(s: Settings, moves: seq<Move<V>>, more: seq<Move<V>>, id: nat)
    requires ValidSettings(s) && id < After(s, moves).nextId && !Present(After(s, moves), id)
    ensures id < After(s, moves + more).nextId && !Present(After(s, moves + more), id)
    decreases |more|
  {
    hide Moved, Present;
    if more == [] {
      assert moves + more == moves;
    } else {
      var init, m := more[..|more| - 1], more[|more| - 1];
      assert (moves + more)[..|moves + more| - 1] == moves + init;
      GoneForGood(s, moves, init, id);
      StaysGone(s, After(s, moves + init), m, id);
    }
  }

  lemma {:induction false} RemoveAbsent<V>(slots: seq<Slot<V>>, key: string, id: nat)
    requires Absent(slots, id)
    ensures Absent(Remove(slots, key), id) && (Find(slots, key).Some? ==> Find(slots, key).value.id != id)
  {
    if slots != [] {
      RemoveAbsent(slots[1..], key, id);
    }
  }

  lemma AppendAbsent<V>(slots: seq<Slot<V>>, slot: Slot<V>, id: nat)
    requires Absent(slots, id) && slot.id != id
    ensures Absent(slots + [slot], id)
  {
  }

  lemma {:induction false} TrimAbsent<V>(slots: seq<Slot<V>>, maxEntries: nat, id: nat)
    requires Absent(slots, id)
    ensures Absent(Trimmed(slots, maxEntries), id)
  {
    if |slots| > maxEntries {
      TrimAbsent(slots[1..], maxEntries, id);
    }
  }

  lemma ReplaceAbsent<V>(slots: seq<Slot<V>>, slot: Slot<V>, id: nat)
    requires Absent(slots, id) && slot.id != id
    ensures Absent(Replace(slots, slot), id)
  {
  }

  lemma StaysGone<V(!new)>(s: Settings, c: Cache<V>, m: Move<V>, id: nat)
    requires id < c.nextId && !Present(c, id)
    ensures id < Moved(c, s, m).nextId && !Present(Moved(c, s, m), id)
  {
    hide Trimmed, Absent, Remove, Find, Replace;
    match m {
      case GetMove(key, reload, now) =>
        RemoveAbsent(c.slots, key, id);
        var pending := Slot(key, c.nextId, None, 0);
        AppendAbsent(Remove(c.slots, key), pending, id);
        TrimAbsent(Remove(c.slots, key) + [pending], s.maxEntries, id);
        if Find(c.slots, key).Some? {
          AppendAbsent(Remove(c.slots, key), Find(c.slots, key).value, id);
        }
      case SettleMove(settled, outcome, now) =>
        if settled in c.running {
          var key := c.running[settled];
          RemoveAbsent(c.slots, key, id);
          if outcome.Loaded? && settled != id {
            ReplaceAbsent(c.slots, Slot(key, settled, Some(outcome.value), now + s.ttl), id);
          }
        }
      case DeleteMove(key) => RemoveAbsent(c.slots, key, id);
      case ClearMove => NothingPresent<V>(id);
    }
  }

  lemma NothingPresent<V>(id: nat)
    ensures Absent<V>([], id)
  {
  }

  // ---------------------------------------------------------------- what is still there

  /** The key has this value, and it has not expired. */
  predicate Fresh<V(==)>(c: Cache<V>, key: string, value: V, now: int) {
    exists i :: 0 <= i < |c.slots| && c.slots[i].key == key && c.slots[i].value == Some(value) && now < c.slots[i].expiresAt
  }

  lemma {:induction false} FoundOnly<V>(slots: seq<Slot<V>>, i: nat)
    requires i < |slots| && forall j :: 0 <= j < i ==> slots[j].key != slots[i].key
    ensures Find(slots, slots[i].key) == Some(slots[i])
  {
    if i > 0 {
      FoundOnly(slots[1..], i - 1);
    }
  }

  /** A fresh value is a hit: it is returned, nothing is loaded, and the entry becomes the newest. */
  lemma FreshIsHit<V>(c: Cache<V>, s: Settings, key: string, value: V, now: int)
    requires Distinct(c.slots) && Fresh(c, key, value, now)
    ensures var (next, answer) := Get(c, s, key, false, now);
            && answer == Hit(value) && next.running == c.running && next.nextId == c.nextId
            && next.slots != [] && next.slots[|next.slots| - 1].key == key && Fresh(next, key, value, now)
            && forall x :: x in next.slots <==> x in c.slots
  {
    hide Remove;
    var i :| 0 <= i < |c.slots| && c.slots[i].key == key && c.slots[i].value == Some(value) && now < c.slots[i].expiresAt;
    FoundOnly(c.slots, i);
    var next := Get(c, s, key, false, now).0;
    assert next.slots[|next.slots| - 1] == c.slots[i];
    forall x ensures x in next.slots <==> x in c.slots {
      RemovedMember(c.slots, key, x);
      assert x in c.slots && x.key == key ==> x == c.slots[i];
    }
  }

  /** While a load for the key is pending, another call joins it, whether or not it asks for a reload. */
  lemma PendingIsJoined<V>(c: Cache<V>, s: Settings, key: string, i: nat, reload: bool, now: int)
    requires Distinct(c.slots) && i < |c.slots| && c.slots[i].key == key && c.slots[i].value.None?
    ensures Get(c, s, key, reload, now) == (c, Joined(c.slots[i].id))
  {
    FoundOnly(c.slots, i);
  }

  /** With no entry, an expired one, or a reload of a settled one, a load is started, and its entry is pending and newest. */
  lemma OtherwiseLoads<V>(c: Cache<V>, s: Settings, key: string, reload: bool, now: int)
    requires Distinct(c.slots) && ValidSettings(s)
    requires forall i :: 0 <= i < |c.slots| && c.slots[i].key == key ==> c.slots[i].value.Some? && (reload || c.slots[i].expiresAt <= now)
    ensures var (next, answer) := Get(c, s, key, reload, now);
            && answer == Started(c.nextId) && next.running == c.running[c.nextId := key] && next.nextId == c.nextId + 1
            && next.slots != [] && next.slots[|next.slots| - 1] == Slot(key, c.nextId, None, 0)
  {
    hide Remove;
    var i := FoundSlot(c.slots, key);
    var added := Remove(c.slots, key) + [Slot(key, c.nextId, None, 0)];
    assert added[|added| - 1] == Slot(key, c.nextId, None, 0);
  }

  /** When the load of the current entry settles, its value is fresh for exactly a lifetime. */
  lemma SettledIsFresh<V>(c: Cache<V>, s: Settings, i: nat, value: V, at: int, now: int)
    requires Distinct(c.slots) && i < |c.slots| && c.slots[i].id in c.running && c.running[c.slots[i].id] == c.slots[i].key
    ensures Fresh(Complete(c, s, c.slots[i].id, Loaded(value), at), c.slots[i].key, value, now) <==> now < at + s.ttl
  {
    FoundOnly(c.slots, i);
    var next := Complete(c, s, c.slots[i].id, Loaded(value), at);
    assert next.slots[i] == Slot(c.slots[i].key, c.slots[i].id, Some(value), at + s.ttl);
    assert forall j :: 0 <= j < |c.slots| && j != i ==> next.slots[j] == c.slots[j];
  }

  lemma {:induction false} RemovedKeepsLength<V>(slots: seq<Slot<V>>, key: string)
    requires forall i :: 0 <= i < |slots| ==> slots[i].key != key
    ensures Remove(slots, key) == slots
  {
    if slots != [] {
      RemovedKeepsLength(slots[1..], key);
    }
  }

  /** Trimming drops only as many of the first entries as there are too many. */
  lemma TrimKeeps<V>(slots: seq<Slot<V>>, limit: nat, i: nat)
    requires i < |slots| && limit >= 1 && |slots| - limit <= i
    ensures slots[i] in Trimmed(slots, limit)
  {
    var kept := Trimmed(slots, limit);
    assert kept[i - (|slots| - |kept|)] == slots[i];
  }

  /** A get for another key pushes an entry out only when the cache is full and the entry is the oldest. */
  lemma OnlyOldestGoes<V>(c: Cache<V>, s: Settings, key: string, reload: bool, now: int, i: nat)
    requires Distinct(c.slots) && ValidSettings(s) && |c.slots| <= s.maxEntries && i < |c.slots| && c.slots[i].key != key
    requires i > 0 || |c.slots| < s.maxEntries || exists j :: 0 <= j < |c.slots| && c.slots[j].key == key
    ensures c.slots[i] in Get(c, s, key, reload, now).0.slots
  {
    hide Remove, Trimmed;
    RemovedMember(c.slots, key, c.slots[i]);
    var k := FoundSlot(c.slots, key);
    RemovedSize(c.slots, key);
    if Find(c.slots, key).None? {
      RemovedKeepsLength(c.slots, key);
      TrimKeeps(c.slots + [Slot(key, c.nextId, None, 0)], s.maxEntries, i);
    } else {
      var j :| 0 <= j < |Remove(c.slots, key)| && Remove(c.slots, key)[j] == c.slots[i];
      TrimKeeps(Remove(c.slots, key) + [Slot(key, c.nextId, None, 0)], s.maxEntries, j);
    }
  }
}
