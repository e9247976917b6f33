/** The validator of a logged store: one pass over the items, one over the log, then both compared. */
module LoggedStoreValidation {
  import opened Wrappers
  import opened LoggedStores
  import opened Sets

  /** `previous` maps each item of the log to its last snapshot. */
  ghost predicate Tracks<T, C, Q>(k: Kind<T, C, Q>, previous: map<string, T>, ops: seq<Operation<T, Q>>) {
    forall id :: Latest(k, ops, id) == if id in previous then Some(previous[id]) else None
  }

  /** Exactly the ids of these items. */
  ghost predicate Collects<T>(itemId: T -> string, items: seq<T>, ids: set<string>) {
    forall id :: id in ids <==> HasItem(itemId, items, id)
  }

  lemma TracksNext<T, C, Q>(k: Kind<T, C, Q>, previous: map<string, T>, ops: seq<Operation<T, Q>>, i: nat)
    requires i < |ops| && Tracks(k, previous, ops[..i])
    ensures Tracks(k, previous[k.itemId(ops[i].item) := ops[i].item], ops[..i + 1])
  {
    assert ops[..i + 1][..i] == ops[..i];
  }

  lemma NothingTracked<T, C, Q>(k: Kind<T, C, Q>)
    ensures Tracks(k, map[], [])
  {
  }

  lemma CollectsNext<T>(itemId: T -> string, items: seq<T>, i: nat, ids: set<string>)
    requires i < |items| && Collects(itemId, items[..i], ids)
    ensures Collects(itemId, items[..i + 1], ids + {itemId(items[i])})
  {
    forall id ensures HasItem(itemId, items[..i + 1], id) <==> HasItem(itemId, items[..i], id) || id == itemId(items[i]) {
      assert items[..i + 1][i] == items[i];
      if HasItem(itemId, items[..i], id) {
        var j :| 0 <= j < i && itemId(items[..i][j]) == id;
        assert itemId(items[..i + 1][j]) == id;
      }
      if HasItem(itemId, items[..i + 1], id) {
        var j :| 0 <= j < i + 1 && itemId(items[..i + 1][j]) == id;
        assert j < i ==> itemId(items[..i][j]) == id;
      }
    }
  }

  lemma CollectsNothing<T>(itemId: T -> string)
    ensures Collects(itemId, [], {})
  {
  }

  lemma Repeated<T>(itemId: T -> string, items: seq<T>, i: nat)
    requires i < |items|
    ensures HasItem(itemId, items[..i], itemId(items[i])) <==> exists j :: 0 <= j < i && itemId(items[j]) == itemId(items[i])
  {
    if HasItem(itemId, items[..i], itemId(items[i])) {
      var j :| 0 <= j < i && itemId(items[..i][j]) == itemId(items[i]);
      assert itemId(items[j]) == itemId(items[i]);
    }
    if j :| 0 <= j < i && itemId(items[j]) == itemId(items[i]) {
      assert itemId(items[..i][j]) == itemId(items[i]);
    }
  }

  /** The items are valid and have different ids. */
  method CheckItems<T, C, Q>(k: Kind<T, C, Q>, items: seq<T>) returns (valid: bool, ids: set<string>)
    ensures valid <==> DistinctItems(k, items) && forall i :: 0 <= i < |items| ==> k.valid(items[i])
    ensures valid ==> Collects(k.itemId, items, ids) && |ids| == |items|
  {
    hide Collects, HasItem;
    valid, ids := true, {};
    CollectsNothing(k.itemId);
    for i := 0 to |items|
      invariant valid && forall j :: 0 <= j < i ==> k.valid(items[j])
      invariant forall j, l :: 0 <= j < l < i ==> k.itemId(items[j]) != k.itemId(items[l])
      invariant Collects(k.itemId, items[..i], ids) && |ids| == i
    {
      var id := k.itemId(items[i]);
      if !k.valid(items[i]) {
        return false, {};
      }
      Repeated(k.itemId, items, i);
      assert id in ids <==> HasItem(k.itemId, items[..i], id) by { CollectsMember(k.itemId, items[..i], ids, id); }
      if id in ids {
        return false, {};
      }
      CollectsNext(k.itemId, items, i, ids);
      ids := ids + {id};
    }
    assert items[..|items|] == items;
  }

  lemma CollectsMember<T>(itemId: T -> string, items: seq<T>, ids: set<string>, id: string)
    requires Collects(itemId, items, ids)
    ensures id in ids <==> HasItem(itemId, items, id)
  {
  }

  method CheckOperation<T, C, Q>(k: Kind<T, C, Q>, op: Operation<T, Q>, index: nat, ghost before: seq<Operation<T, Q>>,
                                 previous: map<string, T>, ids: set<string>)
    returns (valid: bool)
    requires Tracks(k, previous, before) && |before| == index
    ensures valid <==> OperationFollows(k, op, before) && k.itemId(op.item) in ids
  {
    hide Latest;
    var id := k.itemId(op.item);
    if op.id == "" || op.storeRevision != index + 1 || !k.valid(op.item) || id !in ids {
      return false;
    }
    if k.creates(op.request) {
      return id !in previous && k.starts(op.item);
    }
    return id in previous && k.follows(op.request, op.at, previous[id], op.item);
  }

  /** The log, read once from its start, with the last snapshot of every item remembered. */
  method CheckLog<T, C, Q>(k: Kind<T, C, Q>, ops: seq<Operation<T, Q>>, ids: set<string>) returns (valid: bool, previous: map<string, T>)
    ensures valid <==> ValidLog(k, ops) && forall i :: 0 <= i < |ops| ==> k.itemId(ops[i].item) in ids
    ensures valid ==> Tracks(k, previous, ops) && previous.Keys <= ids
  {
    hide OperationFollows, Latest;
    valid, previous := true, map[];
    var operationIds: set<string> := {};
    NothingTracked(k);
    for i := 0 to |ops|
      invariant valid && Tracks(k, previous, ops[..i]) && previous.Keys <= ids
      invariant operationIds == set j | 0 <= j < i :: ops[j].id
      invariant forall j :: 0 <= j < i ==> OperationFollows(k, ops[j], ops[..j]) && k.itemId(ops[j].item) in ids
      invariant forall j, l :: 0 <= j < l < i ==> ops[j].id != ops[l].id && ops[j].at <= ops[l].at
    {
      var op := ops[i];
      if op.id in operationIds {
        return false, map[];
      }
      valid := CheckOperation(k, op, i, ops[..i], previous, ids);
      if !valid || (i > 0 && op.at < ops[i - 1].at) {
        return false, map[];
      }
      TracksNext(k, previous, ops, i);
      operationIds := operationIds + {op.id};
      previous := previous[k.itemId(op.item) := op.item];
    }
    assert ops[..|ops|] == ops;
  }

  lemma HistoryComplete<T, C, Q>(k: Kind<T, C, Q>, s: Store<T, Q>, previous: map<string, T>, ids: set<string>)
    requires Tracks(k, previous, s.operations) && previous.Keys <= ids
    requires Collects(k.itemId, s.items, ids) && |ids| == |s.items|
    ensures (forall i :: 0 <= i < |s.items| ==> Latest(k, s.operations, k.itemId(s.items[i])).Some?) <==> |previous| == |s.items|
  {
    hide Latest;
    assert |previous.Keys| == |previous|;
    if forall i :: 0 <= i < |s.items| ==> Latest(k, s.operations, k.itemId(s.items[i])).Some? {
      assert ids == previous.Keys;
    }
    if |previous| == |s.items| {
      SubsetSize(previous.Keys, ids);
      forall i | 0 <= i < |s.items| ensures Latest(k, s.operations, k.itemId(s.items[i])).Some? {
        assert k.itemId(s.items[i]) in ids;
      }
    }
  }

  /** Every current item is the last snapshot the log has of it, and no snapshot is left over. */
  method CheckCurrent<T(==), C, Q>(k: Kind<T, C, Q>, s: Store<T, Q>, previous: map<string, T>, ids: set<string>) returns (valid: bool)
    requires Tracks(k, previous, s.operations) && previous.Keys <= ids
    requires Collects(k.itemId, s.items, ids) && |ids| == |s.items|
    ensures valid <==> forall i :: 0 <= i < |s.items| ==> Latest(k, s.operations, k.itemId(s.items[i])) == Some(s.items[i])
  {
    hide Latest;
    HistoryComplete(k, s, previous, ids);
    if |previous| != |s.items| {
      return false;
    }
    valid := true;
    for i := 0 to |s.items|
      invariant valid
      invariant forall j :: 0 <= j < i ==> Latest(k, s.operations, k.itemId(s.items[j])) == Some(s.items[j])
    {
      var id := k.itemId(s.items[i]);
      assert Latest(k, s.operations, id).Some?;
      if previous[id] != s.items[i] {
        return false;
      }
    }
  }

  /** The validator accepts exactly the valid stores. */
  method ValidateStore<T(==), C, Q>(k: Kind<T, C, Q>, s: Store<T, Q>) returns (valid: bool)
    ensures valid <==> ValidStore(k, s)
  {
    hide ValidLog, Latest, DistinctItems;
    if s.revision < 0 || |s.items| > k.maxItems || |s.operations| > k.maxOperations || s.revision != |s.operations| {
      return false;
    }
    var ids, previous;
    valid, ids := CheckItems(k, s.items);
    if !valid {
      return;
    }
    valid, previous := CheckLog(k, s.operations, ids);
    forall i | 0 <= i < |s.operations|
      ensures k.itemId(s.operations[i].item) in ids <==> HasItem(k.itemId, s.items, k.itemId(s.operations[i].item))
    {
    }
    if !valid {
      return;
    }
    valid := CheckCurrent(k, s, previous, ids);
    if !valid {
      return;
    }
    return k.fits(s);
  }
}
