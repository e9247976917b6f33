/** Which requests a logged store takes, and what it then holds: the part common to its kinds. */
module LoggedDecisions {
  import opened Errors
  import opened Wrappers
  import opened Repositories
  import opened LoggedStores

  /** No operation with this id is in the log. */
  predicate Unlogged<T, Q>(s: Store<T, Q>, id: string) {
    forall i :: 0 <= i < |s.operations| ==> s.operations[i].id != id
  }

  /** A new operation, asked of the store as it is, and not before anything that is logged. */
  predicate InTurn<T, Q>(s: Store<T, Q>, id: string, storeRevision: int, at: int) {
    id != "" && storeRevision == s.revision && forall i :: 0 <= i < |s.operations| ==> s.operations[i].at <= at
  }

  lemma Unknown<T, Q>(s: Store<T, Q>, id: string)
    ensures Unlogged(s, id) <==> FindOperation(s.operations, id).None?
  {
    FoundOperation(s.operations, id);
  }

  lemma ChronologicalLog<T, C, Q>(k: Kind<T, C, Q>, s: Store<T, Q>, at: int)
    requires ValidStore(k, s)
    ensures Chronological(s, at) <==> forall i :: 0 <= i < |s.operations| ==> s.operations[i].at <= at
  {
    hide OperationFollows, ItemsAreLatest, DistinctItems;
  }

  /** The i-th item is the one with its id, and takes the place of the next snapshot. */
  lemma Replaced<T, C, Q>(k: Kind<T, C, Q>, s: Store<T, Q>, i: nat, item: T)
    requires ValidStore(k, s) && i < |s.items| && k.itemId(s.items[i]) == k.itemId(item)
    ensures FindItem(k.itemId, s.items, k.itemId(item)) == Some(s.items[i]) && NextItems(k.itemId, s.items, item) == s.items[i := item]
  {
    hide ValidLog, ItemsAreLatest;
    var j := FoundItem(k.itemId, s.items, k.itemId(item));
    assert HasItem(k.itemId, s.items, k.itemId(item));
  }

  lemma Added<T>(itemId: T -> string, items: seq<T>, item: T)
    requires !HasItem(itemId, items, itemId(item))
    ensures NextItems(itemId, items, item) == items + [item]
  {
  }

  /** A known operation changes nothing: it is answered as it was the first time, if the same is asked for. */
  lemma KnownAnswered<T, C, Q>(k: Kind<T, C, Q>, s: Store<T, Q>, c: C, i: nat, op: Operation<T, Q>)
    requires ValidStore(k, s) && i < |s.operations| && s.operations[i] == op && op.id == k.operationId(c)
    ensures Decide(k, s, c) == if op.request == k.request(c) then Replay(Answer(op.storeRevision, op.item)) else Refuse(LoggedStoreOperationConflict)
  {
    hide OperationFollows, ItemsAreLatest, DistinctItems;
    FirstWithId(s.operations, i);
  }

  lemma {:induction false} FirstWithId<T, Q>(ops: seq<Operation<T, Q>>, i: nat)
    requires i < |ops| && forall j, k :: 0 <= j < k < |ops| ==> ops[j].id != ops[k].id
    ensures FindOperation(ops, ops[i].id) == Some(ops[i])
  {
    if i > 0 {
      FirstWithId(ops[1..], i - 1);
    }
  }
}
