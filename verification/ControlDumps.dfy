/** Every control store has a dump: what is proved of dumps is never said of nothing. */
module ControlDumps {
  import opened Wrappers
  import opened Collections
  import opened ControlLedger
  import opened EventLog
  import opened Fencing
  import opened Outbox
  import opened ControlStore
  import opened ControlSnapshot
  import opened ControlReachable

  // -------------------------------------------------------------- entities

  function KeysOf(t: Tables): set<(Kind, nat)> {
    (set id | id in t.ledger.budgets :: (BudgetKind, id))
    + (set id | id in t.ledger.reservations :: (ReservationKind, id))
    + (set id | id in t.commands.operations :: (OperationKind, id))
    + (set id | id in t.actions :: (ActionKind, id))
    + (set id | id in t.artifacts :: (ArtifactKind, id))
    + (set id | id in t.uploads :: (UploadKind, id))
  }

  lemma KeysExact(t: Tables, kind: Kind, id: nat)
    ensures (kind, id) in KeysOf(t) <==> BodyAt(t, kind, id).Some?
  {
  }

  lemma EntityDump(t: Tables) returns (rows: seq<EntityRow>)
    ensures DumpsEntities(rows, t)
  {
    var keys := ListOf(KeysOf(t));
    forall i | 0 <= i < |keys| ensures BodyAt(t, keys[i].0, keys[i].1).Some? {
      assert keys[i] in keys;
      KeysExact(t, keys[i].0, keys[i].1);
    }
    rows := seq(|keys|, i requires 0 <= i < |keys| && BodyAt(t, keys[i].0, keys[i].1).Some? =>
                  EntityRow(keys[i].0, keys[i].1, keys[i].1, BodyAt(t, keys[i].0, keys[i].1).value, true));
    forall i, j | 0 <= i < j < |rows| ensures (rows[i].kind, rows[i].id) != (rows[j].kind, rows[j].id) {
      assert keys[i] != keys[j];
    }
    forall kind, id | BodyAt(t, kind, id).Some? ensures ListsKey(rows, kind, id) {
      KeysExact(t, kind, id);
      assert (kind, id) in keys;
      var i :| 0 <= i < |keys| && keys[i] == (kind, id);
      assert rows[i].kind == kind && rows[i].id == id;
    }
  }

  // -------------------------------------------------------------- the other tables

  lemma BlobDump(blobs: map<Sha, seq<nat>>) returns (rows: seq<BlobRow>)
    ensures DumpsBlobs(rows, blobs)
  {
    var keys := ListOf(blobs.Keys);
    assert forall i :: 0 <= i < |keys| ==> keys[i] in keys;
    rows := seq(|keys|, i requires 0 <= i < |keys| && keys[i] in blobs => BlobRow(keys[i], blobs[keys[i]]));
    forall sha | sha in blobs ensures ListsBlob(rows, sha) {
      assert sha in keys;
      var i :| 0 <= i < |keys| && keys[i] == sha;
      assert rows[i].sha == sha;
    }
  }

  lemma IndexDump(index: map<CommandKey, IndexRow>) returns (rows: seq<OperationRow>)
    ensures DumpsIndex(rows, index)
  {
    var keys := ListOf(index.Keys);
    assert forall i :: 0 <= i < |keys| ==> keys[i] in keys;
    rows := seq(|keys|, i requires 0 <= i < |keys| && keys[i] in index =>
                  OperationRow(keys[i], index[keys[i]].operation, index[keys[i]].digest));
    forall slot | slot in index ensures ListsSlot(rows, slot) {
      assert slot in keys;
      var i :| 0 <= i < |keys| && keys[i] == slot;
      assert rows[i].slot == slot;
    }
  }

  lemma StreamDump(streams: map<nat, Stream>) returns (rows: seq<StreamRow>)
    ensures DumpsStreams(rows, streams)
  {
    var keys := ListOf(streams.Keys);
    assert forall i :: 0 <= i < |keys| ==> keys[i] in keys;
    rows := seq(|keys|, i requires 0 <= i < |keys| && keys[i] in streams =>
                  StreamRow(keys[i], streams[keys[i]].sequence, streams[keys[i]].floor));
    forall task | task in streams ensures HasStream(rows, task) {
      assert task in keys;
      var i :| 0 <= i < |keys| && keys[i] == task;
      assert rows[i].task == task;
    }
  }

  lemma DeliveryDump(t: Tables) returns (outbox: seq<OutboxRow>, leases: seq<LeaseRow>)
    ensures forall d: Dump :: d.outbox == outbox && d.leases == leases ==> DumpsDeliveries(d, t)
  {
    var actions := ListOf(t.outbox.Keys);
    var resources := ListOf(t.leases.Keys);
    assert forall i :: 0 <= i < |resources| ==> resources[i] in resources;
    outbox := seq(|actions|, i requires 0 <= i < |actions| => OutboxRow(actions[i], true, true));
    leases := seq(|resources|, i requires 0 <= i < |resources| && resources[i] in t.leases =>
                    LeaseRow(resources[i], t.leases[resources[i]].token));
    forall action | action in t.outbox ensures ListsAction(outbox, action) {
      assert action in actions;
      var i :| 0 <= i < |actions| && actions[i] == action;
      assert outbox[i].action == action;
    }
    forall resource | resource in t.leases ensures ListsLease(leases, resource) {
      assert resource in resources;
      var i :| 0 <= i < |resources| && resources[i] == resource;
      assert leases[i].resource == resource;
    }
    assert forall i :: 0 <= i < |actions| ==> actions[i] in actions;
  }

  // -------------------------------------------------------------- events in order

  predicate Precedes(a: (nat, nat), b: (nat, nat)) {
    a.0 < b.0 || (a.0 == b.0 && a.1 < b.1)
  }

  lemma LastKey(keys: set<(nat, nat)>) returns (last: (nat, nat))
    requires keys != {}
    ensures last in keys && forall k :: k in keys ==> k == last || Precedes(k, last)
    decreases keys
  {
    var k :| k in keys;
    last := k;
    if keys - {k} != {} {
      var other := LastKey(keys - {k});
      last := if Precedes(k, other) then other else k;
    }
    forall q | q in keys ensures q == last || Precedes(q, last) {
      if q != k {
        assert q in keys - {k};
      }
    }
  }

  lemma EventDump(log: Log, keys: set<(nat, nat)>) returns (rows: seq<EventRow>)
    requires keys <= log.rows.Keys
    ensures Sorted(rows) && forall i :: 0 <= i < |rows| ==> FaithfulEvent(log, rows[i])
    ensures forall key :: key in keys <==> ListsEvent(rows, key)
    decreases keys
  {
    if keys == {} {
      rows := [];
    } else {
      var last := LastKey(keys);
      var front := EventDump(log, keys - {last});
      var row := EventRow(last.0, last.1, log.rows[last].id, log.rows[last], true);
      rows := front + [row];
      forall i | 0 <= i < |front| ensures Before(front[i], row) {
        assert ListsEvent(front, (front[i].task, front[i].sequence));
      }
      forall key ensures key in keys <==> ListsEvent(rows, key) {
        ListsOneMore(front, row, key);
      }
    }
  }

  lemma ListsOneMore(front: seq<EventRow>, row: EventRow, key: (nat, nat))
    ensures ListsEvent(front + [row], key) <==> ListsEvent(front, key) || (row.task, row.sequence) == key
  {
    var rows := front + [row];
    if ListsEvent(front, key) {
      var i :| 0 <= i < |front| && front[i].task == key.0 && front[i].sequence == key.1;
      assert rows[i] == front[i];
    }
    assert rows[|front|] == row;
  }

  // -------------------------------------------------------------- the dump

  /** Every store can be dumped, acceptable or not. */
  lemma EveryStoreHasADump(t: Tables) returns (d: Dump)
    ensures DumpOf(d, t)
  {
    var blobs := BlobDump(t.blobs);
    var entities := EntityDump(t);
    var operations := IndexDump(t.commands.index);
    var streams := StreamDump(t.log.streams);
    var tombstones := ListOf(t.log.ids);
    var events := EventDump(t.log, t.log.rows.Keys);
    var outbox, leases := DeliveryDump(t);
    d := Dump(blobs, entities, operations, t.ledger.rows, streams, tombstones, events, outbox, leases);
  }

  /** So a store reached by guarded operations has a dump, and the validator accepts it. */
  lemma ReachableStoreBacksUp(ops: seq<StoreOp>) returns (d: Dump)
    requires Guarded(EMPTY_TABLES, ops)
    ensures DumpOf(d, ControlReachable.Run(EMPTY_TABLES, ops)) && SnapshotOk(d)
  {
    d := EveryStoreHasADump(ControlReachable.Run(EMPTY_TABLES, ops));
    ReachableSnapshotsAccepted(ops, d);
  }

  /** And the store left by one unguarded enqueue has a dump, which the validator rejects. */
  lemma LockedOutStore() returns (d: Dump)
    ensures DumpOf(d, ControlReachable.Run(EMPTY_TABLES, [OpEnqueue(1, 0)])) && !SnapshotOk(d)
  {
    d := EveryStoreHasADump(ControlReachable.Run(EMPTY_TABLES, [OpEnqueue(1, 0)]));
    UnguardedEnqueueRejected(d);
  }
}
