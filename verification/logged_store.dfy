/** The store that the Delivery Plan and the Delivery Run repositories keep: current items, and the
    log of the operations that produced them. Generic in the items and in what may be asked. */
module LoggedStores {
  import opened Errors
  import opened Wrappers
  import opened DurableJson
  import opened Repositories

  datatype Operation<T, Q> = Operation(id: string, request: Q, at: int, storeRevision: int, item: T)
  datatype Store<T, Q> = Store(revision: int, items: seq<T>, operations: seq<Operation<T, Q>>)
  datatype Answer<T> = Answer(storeRevision: int, item: T)

  /** One kind of store: its items and limits, what the log validator asks of two consecutive snapshots
      of an item, and what a call makes of the current store. */
  datatype Kind<!T, !C, !Q> = Kind(
    itemId: T -> string,
    valid: T -> bool,
    creates: Q -> bool,
    starts: T -> bool,
    follows: (Q, int, T, T) -> bool,
    maxItems: nat,
    maxOperations: nat,
    fits: Store<T, Q> -> bool,
    operationId: C -> string,
    request: C -> Q,
    at: C -> int,
    produce: (Store<T, Q>, C) -> Result<T>)

  // ---------------------------------------------------------------- the log

  /** The last snapshot of an item in the log. */
  function Latest<T, C, Q>(k: Kind<T, C, Q>, ops: seq<Operation<T, Q>>, id: string): Option<T> {
    if ops == [] then None
    else if k.itemId(ops[|ops| - 1].item) == id then Some(ops[|ops| - 1].item)
    else Latest(k, ops[..|ops| - 1], id)
  }

  predicate OperationFollows<T, C, Q>(k: Kind<T, C, Q>, op: Operation<T, Q>, before: seq<Operation<T, Q>>) {
    var previous := Latest(k, before, k.itemId(op.item));
    && op.id != "" && op.storeRevision == |before| + 1 && k.valid(op.item)
    && if k.creates(op.request) then previous.None? && k.starts(op.item)
       else previous.Some? && k.follows(op.request, op.at, previous.value, op.item)
  }

  predicate ValidLog<T, C, Q>(k: Kind<T, C, Q>, ops: seq<Operation<T, Q>>) {
    && (forall i :: 0 <= i < |ops| ==> OperationFollows(k, ops[i], ops[..i]))
    && (forall i, j :: 0 <= i < j < |ops| ==> ops[i].id != ops[j].id && ops[i].at <= ops[j].at)
  }

  predicate DistinctItems<T, C, Q>(k: Kind<T, C, Q>, items: seq<T>) {
    forall i, j :: 0 <= i < j < |items| ==> k.itemId(items[i]) != k.itemId(items[j])
  }

  predicate IsCurrent<T(==), C, Q>(k: Kind<T, C, Q>, item: T, ops: seq<Operation<T, Q>>) {
    k.valid(item) && Latest(k, ops, k.itemId(item)) == Some(item)
  }

  predicate HasItem<T>(itemId: T -> string, items: seq<T>, id: string) {
    exists i :: 0 <= i < |items| && itemId(items[i]) == id
  }

  /** The current items are exactly the last snapshots of the log. */
  predicate ItemsAreLatest<T(==), C, Q>(k: Kind<T, C, Q>, items: seq<T>, ops: seq<Operation<T, Q>>) {
    && (forall i :: 0 <= i < |items| ==> IsCurrent(k, items[i], ops))
    && (forall i :: 0 <= i < |ops| ==> HasItem(k.itemId, items, k.itemId(ops[i].item)))
  }

  predicate ValidStore<T(==), C, Q>(k: Kind<T, C, Q>, s: Store<T, Q>) {
    && s.revision == |s.operations| <= k.maxOperations && |s.items| <= k.maxItems
    && DistinctItems(k, s.items) && ValidLog(k, s.operations) && ItemsAreLatest(k, s.items, s.operations)
    && k.fits(s)
  }

  // ---------------------------------------------------------------- calls

  function FindOperation<T, Q>(ops: seq<Operation<T, Q>>, id: string): Option<Operation<T, Q>> {
    if ops == [] then None else if ops[0].id == id then Some(ops[0]) else FindOperation(ops[1..], id)
  }

  function FindItem<T>(itemId: T -> string, items: seq<T>, id: string): Option<T> {
    if items == [] then None else if itemId(items[0]) == id then Some(items[0]) else FindItem(itemId, items[1..], id)
  }

  predicate Chronological<T, Q>(s: Store<T, Q>, at: int) {
    s.operations != [] ==> s.operations[|s.operations| - 1].at <= at
  }

  function NextItems<T>(itemId: T -> string, items: seq<T>, item: T): seq<T> {
    if HasItem(itemId, items, itemId(item))
    then seq(|items|, i requires 0 <= i < |items| => if itemId(items[i]) == itemId(item) then item else items[i])
    else items + [item]
  }

  function Recorded<T, C, Q>(k: Kind<T, C, Q>, s: Store<T, Q>, c: C, item: T): Operation<T, Q> {
    Operation(k.operationId(c), k.request(c), k.at(c), s.revision + 1, item)
  }

  function NextStore<T, C, Q>(k: Kind<T, C, Q>, s: Store<T, Q>, c: C, item: T): Store<T, Q> {
    Store(s.revision + 1, NextItems(k.itemId, s.items, item), s.operations + [Recorded(k, s, c, item)])
  }


  /** A known operation is answered from the log or conflicts with it; a new one is stored when the
      store validator accepts the result. */
  function Decide<T(==), C, Q(==)>(k: Kind<T, C, Q>, s: Store<T, Q>, c: C): Verdict<Store<T, Q>, Answer<T>> {
    match FindOperation(s.operations, k.operationId(c))
    case Some(op) =>
      if op.request == k.request(c) then Replay(Answer(op.storeRevision, op.item)) else Refuse(LoggedStoreOperationConflict)
    case None =>
      match k.produce(s, c)
      case Err(code) => Refuse(code)
      case Ok(item) =>
        var next := NextStore(k, s, c, item);
        if ValidStore(k, next) then Commit(next, Answer(next.revision, item)) else Refuse(LoggedStoreInvalid)
  }

  function Entries<T, Q>(ops: seq<Operation<T, Q>>): seq<Entry<Q, Answer<T>>> {
    seq(|ops|, i requires 0 <= i < |ops| => Entry(ops[i].id, ops[i].request, Answer(ops[i].storeRevision, ops[i].item)))
  }

  function Empty<T, Q>(): Store<T, Q> {
    Store(0, [], [])
  }

  function StoreLogic<T(==), C, Q(==)>(k: Kind<T, C, Q>): Logic<Store<T, Q>, C, Q, Answer<T>> {
    Logic(Empty(), (s: Store<T, Q>) => Entries(s.operations), k.operationId, k.request, (s: Store<T, Q>, c: C) => Decide(k, s, c))
  }

  // ---------------------------------------------------------------- what the log means

  /** What one operation did: made the first snapshot of an item, or the next one from the one before. */
  datatype Meaning<!T, !Q> = Meaning(law: (Q, int, Option<T>, T) -> bool, together: seq<T> -> bool)

  predicate LawfulAt<T, C, Q>(k: Kind<T, C, Q>, m: Meaning<T, Q>, op: Operation<T, Q>, before: seq<Operation<T, Q>>) {
    m.law(op.request, op.at, Latest(k, before, k.itemId(op.item)), op.item)
  }

  predicate Lawful<T, C, Q>(k: Kind<T, C, Q>, m: Meaning<T, Q>, ops: seq<Operation<T, Q>>) {
    forall i :: 0 <= i < |ops| ==> LawfulAt(k, m, ops[i], ops[..i])
  }

  predicate Healthy<T(==), C, Q>(k: Kind<T, C, Q>, m: Meaning<T, Q>, s: Store<T, Q>) {
    ValidStore(k, s) && Lawful(k, m, s.operations) && m.together(s.items)
  }

  /** What a call makes of a healthy store is what its request means. */
  predicate Produces<T(==), C, Q>(k: Kind<T, C, Q>, m: Meaning<T, Q>, s: Store<T, Q>, c: C) {
    k.produce(s, c).Ok? ==>
      var item := k.produce(s, c).value;
      && m.law(k.request(c), k.at(c), Latest(k, s.operations, k.itemId(item)), item)
      && (ValidStore(k, NextStore(k, s, c, item)) ==> m.together(NextItems(k.itemId, s.items, item)))
  }

  ghost predicate WellMade<T(!new), C(!new), Q(!new)>(k: Kind<T, C, Q>, m: Meaning<T, Q>) {
    && k.fits(Empty()) && m.together([])
    && forall s, c :: Healthy(k, m, s) ==> Produces(k, m, s, c)
  }

  lemma LawfulAppended<T, C, Q>(k: Kind<T, C, Q>, m: Meaning<T, Q>, ops: seq<Operation<T, Q>>, op: Operation<T, Q>)
    requires Lawful(k, m, ops) && LawfulAt(k, m, op, ops)
    ensures Lawful(k, m, ops + [op])
  {
    hide LawfulAt;
    forall i | 0 <= i < |ops| + 1 ensures LawfulAt(k, m, (ops + [op])[i], (ops + [op])[..i]) {
      assert i < |ops| ==> (ops + [op])[..i] == ops[..i];
      assert i == |ops| ==> (ops + [op])[..i] == ops;
    }
  }

  lemma {:induction false} LookupEntries<T, Q>(ops: seq<Operation<T, Q>>, id: string)
    ensures match FindOperation(ops, id)
            case None => Lookup(Entries(ops), id).None?
            case Some(op) => op.id == id && Lookup(Entries(ops), id) == Some(Entry(id, op.request, Answer(op.storeRevision, op.item)))
  {
    if ops != [] {
      assert Entries(ops)[1..] == Entries(ops[1..]);
      LookupEntries(ops[1..], id);
    }
  }

  /** Whatever is stored is healthy again and logs exactly this call. */
  lemma CommitHealthy<T(!new), C(!new), Q(!new)>(k: Kind<T, C, Q>, m: Meaning<T, Q>, s: Store<T, Q>, c: C)
    requires WellMade(k, m) && Healthy(k, m, s) && Decide(k, s, c).Commit?
    ensures var (next, item) := (Decide(k, s, c).next, Decide(k, s, c).reply.item);
            && Healthy(k, m, next) && next.operations == s.operations + [Recorded(k, s, c, item)]
            && Decide(k, s, c).reply.storeRevision == s.revision + 1
  {
    hide ValidStore, Latest, Lawful;
    assert Produces(k, m, s, c);
    LawfulAppended(k, m, s.operations, Recorded(k, s, c, k.produce(s, c).value));
  }

  lemma StoreAnswers<T(!new), C(!new), Q(!new)>(k: Kind<T, C, Q>, m: Meaning<T, Q>, s: Store<T, Q>, c: C)
    requires WellMade(k, m) && Healthy(k, m, s)
    ensures Answers(StoreLogic(k), (s: Store<T, Q>) => Healthy(k, m, s), s, c)
  {
    hide ValidStore, Healthy, WellMade, NextStore;
    LookupEntries(s.operations, k.operationId(c));
    if Decide(k, s, c).Commit? {
      CommitHealthy(k, m, s, c);
      var next, item := Decide(k, s, c).next, Decide(k, s, c).reply.item;
      assert Entries(next.operations) == Entries(s.operations) + [Entry(k.operationId(c), k.request(c), Answer(s.revision + 1, item))];
    }
  }

  /** A store of such a kind is one the generic repository can keep. */
  lemma StoreWellBehaved<T(!new), C(!new), Q(!new)>(k: Kind<T, C, Q>, m: Meaning<T, Q>)
    requires WellMade(k, m)
    ensures WellBehaved(StoreLogic(k), (s: Store<T, Q>) => Healthy(k, m, s))
  {
    hide Answers;
    var l, inv := StoreLogic(k), (s: Store<T, Q>) => Healthy(k, m, s);
    forall s: Store<T, Q>, c: C | inv(s) ensures Answers(l, inv, s, c) {
      StoreAnswers(k, m, s, c);
    }
  }

  // ---------------------------------------------------------------- the history of one item

  /** The operations of one item, in order. */
  function Trail<T, C, Q>(k: Kind<T, C, Q>, ops: seq<Operation<T, Q>>, id: string): seq<Operation<T, Q>> {
    if ops == [] then []
    else Trail(k, ops[..|ops| - 1], id) + if k.itemId(ops[|ops| - 1].item) == id then [ops[|ops| - 1]] else []
  }

  /** Each snapshot of a trail is what its operation made of the one before. */
  predicate LawfulTrail<T, Q>(m: Meaning<T, Q>, trail: seq<Operation<T, Q>>) {
    && (trail != [] ==> m.law(trail[0].request, trail[0].at, None, trail[0].item))
    && (forall i :: 0 < i < |trail| ==> m.law(trail[i].request, trail[i].at, Some(trail[i - 1].item), trail[i].item))
  }

  lemma LawfulPrefix<T, C, Q>(k: Kind<T, C, Q>, m: Meaning<T, Q>, ops: seq<Operation<T, Q>>)
    requires Lawful(k, m, ops) && ops != []
    ensures Lawful(k, m, ops[..|ops| - 1]) && LawfulAt(k, m, ops[|ops| - 1], ops[..|ops| - 1])
  {
    hide LawfulAt;
    var init := ops[..|ops| - 1];
    forall i | 0 <= i < |init| ensures LawfulAt(k, m, init[i], init[..i]) {
      assert init[..i] == ops[..i];
    }
  }

  lemma TrailExtended<T, Q>(m: Meaning<T, Q>, trail: seq<Operation<T, Q>>, op: Operation<T, Q>)
    requires LawfulTrail(m, trail)
    requires m.law(op.request, op.at, if trail == [] then None else Some(trail[|trail| - 1].item), op.item)
    ensures LawfulTrail(m, trail + [op])
  {
  }

  lemma {:induction false} TrailIsLawful<T, C, Q>(k: Kind<T, C, Q>, m: Meaning<T, Q>, ops: seq<Operation<T, Q>>, id: string)
    requires Lawful(k, m, ops)
    ensures var trail := Trail(k, ops, id);
            LawfulTrail(m, trail) && Latest(k, ops, id) == if trail == [] then None else Some(trail[|trail| - 1].item)
  {
    hide Lawful, LawfulTrail;
    if ops == [] {
      assert LawfulTrail<T, Q>(m, []) by { NoTrail<T, Q>(m); }
    } else {
      var init, op := ops[..|ops| - 1], ops[|ops| - 1];
      LawfulPrefix(k, m, ops);
      TrailIsLawful(k, m, init, id);
      if k.itemId(op.item) == id {
        TrailExtended(m, Trail(k, init, id), op);
      } else {
        assert Trail(k, ops, id) == Trail(k, init, id);
      }
    }
  }

  lemma NoTrail<T, Q>(m: Meaning<T, Q>)
    ensures LawfulTrail(m, [])
  {
  }

  /** After any history of calls, write outcomes and restarts, from an empty directory, the store on disk is healthy. */
  lemma HealthyAfter<T(!new), C(!new), Q(!new)>(k: Kind<T, C, Q>, m: Meaning<T, Q>, moves: seq<Move<C>>)
    requires WellMade(k, m)
    ensures Healthy(k, m, View(After(State(Absent, None, false), StoreLogic(k), moves).disk, Empty()))
  {
    hide WellBehaved, Healthy, Handle, ValidStore;
    var l, inv := StoreLogic(k), (s: Store<T, Q>) => Healthy(k, m, s);
    var start: State<Store<T, Q>> := State(Absent, None, false);
    StoreWellBehaved(k, m);
    EmptyHealthy(k, m);
    assert Sound(start, l, inv);
    HistorySound(start, l, inv, moves);
    assert inv(View(After(start, l, moves).disk, l.empty));
  }

  /** An operation that took effect is never applied again: a retry after any history leaves the log
      alone, and is answered with the first result or not at all. */
  lemma AppliedOnce<T(!new), C(!new), Q(!new)>(k: Kind<T, C, Q>, m: Meaning<T, Q>, before: seq<Move<C>>, c: C, env: Env, between: seq<Move<C>>,
                                               again: C, env': Env)
    requires WellMade(k, m)
    requires var (_, reply) := Handle(After(State(Absent, None, false), StoreLogic(k), before), StoreLogic(k), c, env);
             reply.Applied? || reply.Uncertain?
    requires k.operationId(again) == k.operationId(c) && k.request(again) == k.request(c)
    ensures var l := StoreLogic(k);
            var (first, reply) := Handle(After(State(Absent, None, false), l, before), l, c, env);
            var later := After(first, l, between);
            var (last, answer) := Handle(later, l, again, env');
            && LogOf(last, l) == LogOf(later, l) && (answer.Replayed? || answer.Unavailable?)
            && (reply.Applied? && answer.Replayed? ==> answer.reply == reply.reply)
  {
    hide WellBehaved, Healthy, Handle, LogOf, ValidStore;
    var l, inv := StoreLogic(k), (s: Store<T, Q>) => Healthy(k, m, s);
    var start: State<Store<T, Q>> := State(Absent, None, false);
    StoreWellBehaved(k, m);
    EmptyHealthy(k, m);
    HistorySound(start, l, inv, before);
    ExactlyOnce(After(start, l, before), l, inv, c, env, between, again, env');
  }

  lemma EmptyHealthy<T(!new), C(!new), Q(!new)>(k: Kind<T, C, Q>, m: Meaning<T, Q>)
    requires WellMade(k, m)
    ensures Healthy(k, m, Empty())
  {
    hide Produces;
  }

  /** In a healthy store a current item is the last snapshot of a lawful trail. */
  lemma HealthyTrail<T(!new), C(!new), Q(!new)>(k: Kind<T, C, Q>, m: Meaning<T, Q>, s: Store<T, Q>, id: string)
    requires Healthy(k, m, s) && FindItem(k.itemId, s.items, id).Some?
    ensures var trail := Trail(k, s.operations, id);
            trail != [] && LawfulTrail(m, trail) && FindItem(k.itemId, s.items, id) == Some(trail[|trail| - 1].item)
  {
    hide ValidStore, Lawful, LawfulTrail, FindItem, Trail, Latest;
    TrailIsLawful(k, m, s.operations, id);
    LatestIsCurrent(k, s, id);
  }

  // ---------------------------------------------------------------- what the store validator accepts

  lemma {:induction false} FoundItem<T>(itemId: T -> string, items: seq<T>, id: string) returns (i: nat)
    ensures FindItem(itemId, items, id).Some? <==> HasItem(itemId, items, id)
    ensures FindItem(itemId, items, id).Some? ==> i < |items| && FindItem(itemId, items, id) == Some(items[i]) && itemId(items[i]) == id
  {
    i := 0;
    if items != [] && itemId(items[0]) != id {
      var j := FoundItem(itemId, items[1..], id);
      i := j + 1;
      if HasItem(itemId, items, id) {
        var h :| 0 <= h < |items| && itemId(items[h]) == id;
        assert itemId(items[1..][h - 1]) == id;
      }
    }
  }

  lemma {:induction false} FoundOperation<T, Q>(ops: seq<Operation<T, Q>>, id: string)
    ensures FindOperation(ops, id).None? <==> forall i :: 0 <= i < |ops| ==> ops[i].id != id
  {
    if ops != [] {
      FoundOperation(ops[1..], id);
      if forall i :: 0 <= i < |ops[1..]| ==> ops[1..][i].id != id {
        forall i | 0 < i < |ops| ensures ops[i].id != id {
          assert ops[i] == ops[1..][i - 1];
        }
      } else {
        var i :| 0 <= i < |ops[1..]| && ops[1..][i].id == id;
        assert ops[i + 1].id == id;
      }
    }
  }

  /** In a valid store an item has a snapshot in the log exactly when it is current. */
  lemma LatestIsCurrent<T, C, Q>(k: Kind<T, C, Q>, s: Store<T, Q>, id: string)
    requires ValidStore(k, s)
    ensures Latest(k, s.operations, id) == FindItem(k.itemId, s.items, id)
  {
    hide ValidLog, Latest, DistinctItems;
    var i := FoundItem(k.itemId, s.items, id);
    if Latest(k, s.operations, id).Some? {
      LatestHasItem(k, s.items, s.operations, id);
    }
    if FindItem(k.itemId, s.items, id).Some? {
      assert IsCurrent(k, s.items[i], s.operations);
    }
  }

  lemma LatestHasItem<T, C, Q>(k: Kind<T, C, Q>, items: seq<T>, ops: seq<Operation<T, Q>>, id: string)
    requires ItemsAreLatest(k, items, ops) && Latest(k, ops, id).Some?
    ensures HasItem(k.itemId, items, id)
  {
    hide Latest;
    var j := LatestInLog(k, ops, id);
    assert HasItem(k.itemId, items, k.itemId(ops[j].item));
  }

  lemma {:induction false} LatestInLog<T, C, Q>(k: Kind<T, C, Q>, ops: seq<Operation<T, Q>>, id: string) returns (j: nat)
    requires Latest(k, ops, id).Some?
    ensures j < |ops| && k.itemId(ops[j].item) == id && k.itemId(Latest(k, ops, id).value) == id
  {
    j := |ops| - 1;
    if k.itemId(ops[j].item) != id {
      j := LatestInLog(k, ops[..j], id);
    }
  }

  lemma LatestAppended<T, C, Q>(k: Kind<T, C, Q>, ops: seq<Operation<T, Q>>, op: Operation<T, Q>, id: string)
    ensures Latest(k, ops + [op], id) == if k.itemId(op.item) == id then Some(op.item) else Latest(k, ops, id)
  {
    assert (ops + [op])[..|ops|] == ops;
  }

  lemma LogExtended<T, C, Q>(k: Kind<T, C, Q>, ops: seq<Operation<T, Q>>, op: Operation<T, Q>)
    requires ValidLog(k, ops) && OperationFollows(k, op, ops) && FindOperation(ops, op.id).None?
    requires ops != [] ==> ops[|ops| - 1].at <= op.at
    ensures ValidLog(k, ops + [op])
  {
    hide OperationFollows, FindOperation;
    FoundOperation(ops, op.id);
    var more := ops + [op];
    forall i | 0 <= i < |more| ensures OperationFollows(k, more[i], more[..i]) {
      assert i < |ops| ==> more[..i] == ops[..i];
      assert i == |ops| ==> more[..i] == ops;
    }
  }

  lemma NextItemsSize<T, C, Q>(k: Kind<T, C, Q>, s: Store<T, Q>, item: T)
    requires ValidStore(k, s)
    ensures |NextItems(k.itemId, s.items, item)| == |s.items| + (if HasItem(k.itemId, s.items, k.itemId(item)) then 0 else 1)
    ensures |s.items| <= k.maxItems
  {
    hide ValidLog, ItemsAreLatest, DistinctItems;
  }

  lemma NextItemsCurrent<T, C, Q>(k: Kind<T, C, Q>, items: seq<T>, ops: seq<Operation<T, Q>>, op: Operation<T, Q>)
    requires DistinctItems(k, items) && ItemsAreLatest(k, items, ops) && k.valid(op.item)
    ensures DistinctItems(k, NextItems(k.itemId, items, op.item)) && ItemsAreLatest(k, NextItems(k.itemId, items, op.item), ops + [op])
  {
    hide Latest;
    var next, more, id := NextItems(k.itemId, items, op.item), ops + [op], k.itemId(op.item);
    assert forall i :: 0 <= i < |items| ==> k.itemId(next[i]) == k.itemId(items[i]);
    forall i | 0 <= i < |next| ensures IsCurrent(k, next[i], more) {
      LatestAppended(k, ops, op, k.itemId(next[i]));
      assert i < |items| ==> IsCurrent(k, items[i], ops);
    }
    forall i | 0 <= i < |more| ensures HasItem(k.itemId, next, k.itemId(more[i].item)) {
      if i < |ops| {
        assert HasItem(k.itemId, items, k.itemId(ops[i].item));
        var j :| 0 <= j < |items| && k.itemId(items[j]) == k.itemId(ops[i].item);
        assert k.itemId(next[j]) == k.itemId(more[i].item);
      } else if HasItem(k.itemId, items, id) {
        var j :| 0 <= j < |items| && k.itemId(items[j]) == id;
        assert k.itemId(next[j]) == id;
      } else {
        assert k.itemId(next[|items|]) == id;
      }
    }
  }

  /** A new operation that may come next in the log is stored exactly when its item and the store fit. */
  lemma StoredWhenItFits<T, C, Q>(k: Kind<T, C, Q>, s: Store<T, Q>, c: C, item: T)
    requires ValidStore(k, s) && FindOperation(s.operations, k.operationId(c)).None? && k.operationId(c) != ""
    requires k.produce(s, c) == Ok(item) && Chronological(s, k.at(c))
    requires |s.operations| < k.maxOperations && |NextItems(k.itemId, s.items, item)| <= k.maxItems
    requires var previous := FindItem(k.itemId, s.items, k.itemId(item));
             if k.creates(k.request(c)) then previous.None? && k.starts(item)
             else previous.Some? && k.follows(k.request(c), k.at(c), previous.value, item)
    ensures Decide(k, s, c).Commit? <==> k.valid(item) && k.fits(NextStore(k, s, c, item))
    ensures Decide(k, s, c).Commit? ==> Decide(k, s, c) == Commit(NextStore(k, s, c, item), Answer(s.revision + 1, item))
  {
    hide Latest, ItemsAreLatest, DistinctItems, NextItems, FindItem;
    var op := Recorded(k, s, c, item);
    LatestIsCurrent(k, s, k.itemId(item));
    if k.valid(item) {
      assert OperationFollows(k, op, s.operations);
      LogExtended(k, s.operations, op);
      NextItemsCurrent(k, s.items, s.operations, op);
    } else {
      var next := NextStore(k, s, c, item);
      assert next.operations[|s.operations|] == op;
      assert ValidLog(k, next.operations) ==> OperationFollows(k, op, next.operations[..|s.operations|]);
    }
  }
}
