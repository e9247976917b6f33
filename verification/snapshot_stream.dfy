/** Live snapshots: full events and patches, written once per connection, applied by the browser. */
module SnapshotStream {
  import opened Errors
  import opened Wrappers

  const MAX_SAFE_INTEGER := 9007199254740991
  const FORBIDDEN_SNAPSHOT_KEYS := {"__proto__", "constructor", "prototype"}

  /** Top-level domains by their JSON text. */
  type Fields = map<string, string>

  datatype Patch = Patch(baseSequence: int, sequence: int, changes: Fields, removed: set<string>)
  datatype Payload = Full(fields: Fields) | Partial(patch: Patch)
  datatype State = State(sequence: int, fields: Fields)
  datatype Update = Update(state: State, broadcast: Payload)

  // ---------------------------------------------------------------- building

  predicate SafeSequence(n: int) {
    1 <= n <= MAX_SAFE_INTEGER
  }

  function NextSequence(previous: Option<State>): (n: int)
    ensures SafeSequence(n)
  {
    if previous.None? || !SafeSequence(previous.value.sequence) then 1 else Successor(previous.value.sequence)
  }

  function Successor(n: int): int {
    if n == MAX_SAFE_INTEGER then 1 else n + 1
  }

  /** Values without a JSON text are left out; reserved keys are an error. */
  function SnapshotFields(snapshot: map<string, Option<string>>): Result<Fields> {
    if exists k :: k in snapshot && k in FORBIDDEN_SNAPSHOT_KEYS then Err(SnapshotEventKeyInvalid)
    else Ok(map k | k in snapshot && snapshot[k].Some? :: snapshot[k].value)
  }

  function Changes(before: Fields, after: Fields): Fields {
    map k | k in after && (k !in before || before[k] != after[k]) :: after[k]
  }

  /** The patch from one state to the next fields. */
  function PatchTo(previous: State, fields: Fields): Patch {
    Patch(previous.sequence, Successor(previous.sequence), Changes(previous.fields, fields), previous.fields.Keys - fields.Keys)
  }

  /** A patch is broadcast only when its text is shorter than the whole snapshot's. */
  function UpdateFor(fields: Fields, previous: Option<State>, bytes: Payload -> nat): Update {
    var broadcast :=
      if previous.Some? && SafeSequence(previous.value.sequence) && bytes(Partial(PatchTo(previous.value, fields))) < bytes(Full(fields))
      then Partial(PatchTo(previous.value, fields)) else Full(fields);
    Update(State(NextSequence(previous), fields), broadcast)
  }

  method ChangedFields(before: Fields, after: Fields) returns (changes: Fields)
    ensures changes == Changes(before, after)
  {
    changes := map[];
    var left := after.Keys;
    while left != {}
      invariant left <= after.Keys
      invariant forall k :: k in changes <==> k in after && k !in left && (k !in before || before[k] != after[k])
      invariant forall k :: k in changes ==> changes[k] == after[k]
      decreases |left|
    {
      var key :| key in left;
      if key !in before || before[key] != after[key] {
        changes := changes[key := after[key]];
      }
      left := left - {key};
    }
  }

  method RemovedKeys(before: Fields, after: Fields) returns (removed: set<string>)
    ensures removed == before.Keys - after.Keys
  {
    removed := {};
    var left := before.Keys;
    while left != {}
      invariant left <= before.Keys && forall k :: k in removed <==> k in before && k !in left && k !in after
      decreases |left|
    {
      var key :| key in left;
      if key !in after {
        removed := removed + {key};
      }
      left := left - {key};
    }
  }

  /** The next state, and what to broadcast: the whole snapshot, or the changes and removals when they are shorter. */
  method BuildSnapshotEventUpdate(snapshot: map<string, Option<string>>, previous: Option<State>, bytes: Payload -> nat) returns (r: Result<Update>)
    ensures r == match SnapshotFields(snapshot)
                 case Err(code) => Err(code)
                 case Ok(fields) => Ok(UpdateFor(fields, previous, bytes))
  {
    var fields :- SnapshotFields(snapshot);
    var sequence := NextSequence(previous);
    var broadcast := Full(fields);
    if previous.Some? && SafeSequence(previous.value.sequence) {
      var changes := ChangedFields(previous.value.fields, fields);
      var removed := RemovedKeys(previous.value.fields, fields);
      var patch := Patch(previous.value.sequence, sequence, changes, removed);
      if bytes(Partial(patch)) < bytes(Full(fields)) {
        broadcast := Partial(patch);
      }
    }
    return Ok(Update(State(sequence, fields), broadcast));
  }

  // ---------------------------------------------------------------- applying

  datatype View = View(snapshot: Fields, sequence: int)

  /** What the browser makes of a patch: refused on a gap or a reserved key, otherwise removals then changes. */
  function ApplyPatch(view: View, patch: Patch): Result<View> {
    if !SafeSequence(view.sequence) || !SafeSequence(patch.baseSequence) || !SafeSequence(patch.sequence)
       || view.sequence != patch.baseSequence || patch.sequence != Successor(patch.baseSequence)
    then Err(SequenceMismatch) else
    if !(patch.changes.Keys !! FORBIDDEN_SNAPSHOT_KEYS && patch.removed !! FORBIDDEN_SNAPSHOT_KEYS)
    then Err(PatchKeyInvalid) else
    Ok(View((view.snapshot - patch.removed) + patch.changes, patch.sequence))
  }

  method WithoutKeys(fields: Fields, keys: set<string>) returns (rest: Fields)
    ensures rest == fields - keys
  {
    rest := fields;
    var left := keys;
    while left != {}
      invariant left <= keys && forall k :: k in rest <==> k in fields && (k !in keys || k in left)
      invariant forall k :: k in rest ==> rest[k] == fields[k]
      decreases |left|
    {
      var key :| key in left;
      rest := rest - {key};
      left := left - {key};
    }
  }

  lemma OneChange(fields: Fields, changes: Fields, left: set<string>, key: string)
    requires key in changes && key in left
    ensures (fields + (changes - left))[key := changes[key]] == fields + (changes - (left - {key}))
  {
    var before, after := (fields + (changes - left))[key := changes[key]], fields + (changes - (left - {key}));
    assert before.Keys == after.Keys;
    assert forall k :: k in after ==> before[k] == after[k];
  }

  lemma NoChange(fields: Fields, changes: Fields)
    ensures fields + (changes - changes.Keys) == fields
  {
    assert (changes - changes.Keys).Keys == {};
  }

  lemma EveryChange(changes: Fields, left: set<string>)
    requires left == {}
    ensures changes - left == changes
  {
  }

  method WithChanges(fields: Fields, changes: Fields) returns (merged: Fields)
    ensures merged == fields + changes
  {
    merged := fields;
    var left := changes.Keys;
    NoChange(fields, changes);
    while left != {}
      invariant left <= changes.Keys && merged == fields + (changes - left)
      decreases |left|
    {
      var key :| key in left;
      OneChange(fields, changes, left, key);
      merged := merged[key := changes[key]];
      left := left - {key};
    }
    EveryChange(changes, left);
  }

  method ApplySnapshotPatch(view: View, patch: Patch) returns (r: Result<View>)
    ensures r == ApplyPatch(view, patch)
  {
    if !SafeSequence(view.sequence) || !SafeSequence(patch.baseSequence) || !SafeSequence(patch.sequence)
       || view.sequence != patch.baseSequence || patch.sequence != Successor(patch.baseSequence) {
      return Err(SequenceMismatch);
    }
    if !(patch.changes.Keys !! FORBIDDEN_SNAPSHOT_KEYS) || !(patch.removed !! FORBIDDEN_SNAPSHOT_KEYS) {
      return Err(PatchKeyInvalid);
    }
    var snapshot := WithoutKeys(view.snapshot, patch.removed);
    snapshot := WithChanges(snapshot, patch.changes);
    return Ok(View(snapshot, patch.sequence));
  }

  predicate Unreserved(fields: Fields) {
    fields.Keys !! FORBIDDEN_SNAPSHOT_KEYS
  }

  /** Applying the patch between two states to the first gives exactly the second. */
  lemma PatchAgrees(previous: State, fields: Fields)
    requires SafeSequence(previous.sequence) && Unreserved(previous.fields) && Unreserved(fields)
    ensures ApplyPatch(View(previous.fields, previous.sequence), PatchTo(previous, fields)) == Ok(View(fields, Successor(previous.sequence)))
  {
    var patch := PatchTo(previous, fields);
    assert (previous.fields - patch.removed) + patch.changes == fields;
  }

  // ---------------------------------------------------------------- writing to a connection

  datatype Frame = Frame(sequence: int, event: string, payload: Payload)

  /** The response stream of one browser, and the last sequence written to it (0 when none was). */
  class Connection {
    var destroyed: bool
    var ended: bool
    var needDrain: bool
    var sent: int
    var frames: seq<Frame>

    constructor ()
      ensures !destroyed && !ended && !needDrain && sent == 0 && frames == []
    {
      destroyed, ended, needDrain, sent, frames := false, false, false, 0, [];
    }

    /** A live stream gets each sequence at most once, and nothing is queued behind an undrained frame:
        such a stream, like one whose write fails, is destroyed. */
    method WriteSnapshotEvent(event: string, payload: Payload, sequence: int, writeFails: bool, fills: bool) returns (ok: bool)
      modifies this
      ensures var live := !old(destroyed) && !old(ended);
              var duplicate := SafeSequence(sequence) && old(sent) == sequence;
              var writes := live && !duplicate && !old(needDrain) && !writeFails;
              && ok == (live && (duplicate || writes))
              && frames == (if writes then old(frames) + [Frame(if SafeSequence(sequence) then sequence else 0, event, payload)] else old(frames))
              && sent == (if writes && SafeSequence(sequence) then sequence else old(sent))
              && destroyed == (old(destroyed) || (live && !duplicate && !writes)) && ended == old(ended)
              && needDrain == (old(needDrain) || (writes && fills))
    {
      if destroyed || ended {
        return false;
      }
      var sequenced := SafeSequence(sequence);
      if sequenced && sent == sequence {
        return true;
      }
      if needDrain || writeFails {
        destroyed := true;
        return false;
      }
      frames := frames + [Frame(if sequenced then sequence else 0, event, payload)];
      needDrain := fills;
      if sequenced {
        sent := sequence;
      }
      return true;
    }
  }

  // ---------------------------------------------------------------- the stream as a whole

  /** The state the next update builds on. */
  function Previous(history: seq<Update>): Option<State> {
    if history == [] then None else Some(history[|history| - 1].state)
  }

  /** The updates of one server, in order: each built on the state before it. */
  predicate Published(history: seq<Update>, bytes: Payload -> nat) {
    history != [] ==>
      && Published(history[..|history| - 1], bytes)
      && Unreserved(history[|history| - 1].state.fields)
      && history[|history| - 1] == UpdateFor(history[|history| - 1].state.fields, Previous(history[..|history| - 1]), bytes)
  }

  /** Sequence numbers count up and start again after the largest safe integer. */
  function SequenceOf(i: nat): int {
    i % MAX_SAFE_INTEGER + 1
  }

  lemma {:induction false} PublishedAt(history: seq<Update>, bytes: Payload -> nat, i: nat)
    requires Published(history, bytes) && i < |history|
    ensures history[i].state.sequence == SequenceOf(i) && Unreserved(history[i].state.fields)
    ensures history[i].broadcast == Full(history[i].state.fields)
            || (i > 0 && history[i].broadcast == Partial(PatchTo(history[i - 1].state, history[i].state.fields)))
    decreases |history|
  {
    if i < |history| - 1 {
      PublishedAt(history[..|history| - 1], bytes, i);
    } else if i > 0 {
      PublishedAt(history[..|history| - 1], bytes, i - 1);
      NextInOrder(i - 1);
    }
  }

  lemma NextInOrder(i: nat)
    ensures SafeSequence(SequenceOf(i)) && SequenceOf(i + 1) == Successor(SequenceOf(i))
  {
  }

  /** What reaches a browser: a connection that starts over, or a payload of some published update. */
  datatype Arrival = Reconnect | Whole(update: nat) | Broadcast(update: nat)

  /** A browser: what it shows, and the number of the update that is, counted from the start of the
      server (-1 before the first snapshot of a connection). */
  datatype Browser = Browser(view: View, shown: int)

  const NO_VIEW := View(map[], 0)

  function Received(b: Browser, payload: Payload, history: seq<Update>, i: nat): Browser
    requires i < |history|
  {
    match payload
    case Full(fields) => Browser(View(fields, history[i].state.sequence), i)
    case Partial(patch) =>
      (match ApplyPatch(b.view, patch)
       case Ok(view) => Browser(view, i)
       case Err(_) => Browser(NO_VIEW, -1))
  }

  function Arrive(b: Browser, a: Arrival, history: seq<Update>): Browser {
    match a
    case Reconnect => Browser(NO_VIEW, -1)
    case Whole(i) => if i < |history| then Received(b, Full(history[i].state.fields), history, i) else b
    case Broadcast(i) => if i < |history| then Received(b, history[i].broadcast, history, i) else b
  }

  /** The browser shows exactly the server's fields at the sequence it holds. */
  predicate Agrees(b: Browser, history: seq<Update>) {
    if b.shown == -1 then b.view == NO_VIEW
    else 0 <= b.shown < |history| && b.view == View(history[b.shown].state.fields, history[b.shown].state.sequence)
  }

  /** Numbers less than a full round apart are told apart by their sequence. */
  predicate SameRound(b: Browser, a: Arrival) {
    a.Broadcast? && b.shown != -1 ==> -MAX_SAFE_INTEGER < a.update - 1 - b.shown < MAX_SAFE_INTEGER
  }

  lemma SequencesDiffer(i: nat, j: nat)
    requires SequenceOf(i) == SequenceOf(j) && -MAX_SAFE_INTEGER < i - j < MAX_SAFE_INTEGER
    ensures i == j
  {
  }

  /** Whatever arrives, repeated, late or after a gap, the browser keeps agreeing with the server; a
      patch whose base it does not show is refused, never applied. */
  lemma ArrivalAgrees(b: Browser, a: Arrival, history: seq<Update>, bytes: Payload -> nat)
    requires Published(history, bytes) && Agrees(b, history) && SameRound(b, a)
    ensures Agrees(Arrive(b, a, history), history)
    ensures a.Broadcast? && a.update < |history| && history[a.update].broadcast.Partial? && Arrive(b, a, history).shown == a.update ==>
              b.shown == a.update - 1
  {
    hide ApplyPatch, PatchTo, UpdateFor;
    if a.Broadcast? && a.update < |history| {
      PublishedAt(history, bytes, a.update);
      if history[a.update].broadcast.Partial? {
        PatchArrives(b, a.update, history, bytes);
      }
    }
  }

  lemma PatchArrives(b: Browser, i: nat, history: seq<Update>, bytes: Payload -> nat)
    requires Published(history, bytes) && Agrees(b, history) && 0 < i < |history|
    requires b.shown != -1 ==> -MAX_SAFE_INTEGER < i - 1 - b.shown < MAX_SAFE_INTEGER
    requires history[i].broadcast == Partial(PatchTo(history[i - 1].state, history[i].state.fields))
    ensures var r := ApplyPatch(b.view, history[i].broadcast.patch);
            if b.shown == i - 1 then r == Ok(View(history[i].state.fields, history[i].state.sequence)) else r.Err?
  {
    hide Published, UpdateFor;
    PublishedAt(history, bytes, i);
    PublishedAt(history, bytes, i - 1);
    NextInOrder(i - 1);
    if b.shown == i - 1 {
      PatchAgrees(history[i - 1].state, history[i].state.fields);
    } else if b.shown != -1 {
      PublishedAt(history, bytes, b.shown);
      if SequenceOf(b.shown) == SequenceOf(i - 1) {
        SequencesDiffer(i - 1, b.shown);
      }
    }
  }

  function ArriveAll(b: Browser, arrivals: seq<Arrival>, history: seq<Update>): Browser {
    if arrivals == [] then b else Arrive(ArriveAll(b, arrivals[..|arrivals| - 1], history), arrivals[|arrivals| - 1], history)
  }

  predicate RoundsKept(b: Browser, arrivals: seq<Arrival>, history: seq<Update>) {
    forall i :: 0 <= i < |arrivals| ==> SameRound(ArriveAll(b, arrivals[..i], history), arrivals[i])
  }

  /** Over any sequence of arrivals within a round of sequence numbers, with any events dropped or
      repeated and any reconnections, a browser holding a sequence has exactly the server's fields there. */
  lemma {:induction false} StreamAgrees(b: Browser, arrivals: seq<Arrival>, history: seq<Update>, bytes: Payload -> nat)
    requires Published(history, bytes) && Agrees(b, history) && RoundsKept(b, arrivals, history)
    ensures Agrees(ArriveAll(b, arrivals, history), history)
    decreases |arrivals|
  {
    hide Arrive, Published, Agrees, SameRound;
    if arrivals != [] {
      var n := |arrivals| - 1;
      forall i | 0 <= i < n ensures SameRound(ArriveAll(b, arrivals[..n][..i], history), arrivals[..n][i]) {
        assert arrivals[..n][..i] == arrivals[..i];
      }
      StreamAgrees(b, arrivals[..n], history, bytes);
      ArrivalAgrees(ArriveAll(b, arrivals[..n], history), arrivals[n], history, bytes);
    }
  }

  /** Publishing extends the history; what browsers show stays right. */
  lemma PublishKeeps(history: seq<Update>, fields: Fields, bytes: Payload -> nat, b: Browser)
    requires Published(history, bytes) && Unreserved(fields) && Agrees(b, history)
    ensures var next := history + [UpdateFor(fields, Previous(history), bytes)]; Published(next, bytes) && Agrees(b, next)
  {
    hide PatchTo;
    var next := history + [UpdateFor(fields, Previous(history), bytes)];
    assert next[..|history|] == history;
  }

  /** A snapshot without reserved keys gives exactly its domains that have a JSON text, unchanged. */
  lemma FieldsKept(snapshot: map<string, Option<string>>)
    ensures SnapshotFields(snapshot).Ok? <==> "__proto__" !in snapshot && "constructor" !in snapshot && "prototype" !in snapshot
    ensures match SnapshotFields(snapshot)
            case Err(_) => true
            case Ok(fields) => forall k, text :: (k in fields && fields[k] == text) <==> (k in snapshot && snapshot[k] == Some(text))
  {
    assert "__proto__" in FORBIDDEN_SNAPSHOT_KEYS && "constructor" in FORBIDDEN_SNAPSHOT_KEYS && "prototype" in FORBIDDEN_SNAPSHOT_KEYS;
  }
}
