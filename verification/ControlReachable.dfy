/** Which control stores the snapshot validator accepts, and exactly which store operations keep
    a store acceptable. Every entity written is taken to be schema-valid. */
module ControlReachable {
  import opened Wrappers
  import opened ControlLedger
  import opened EventLog
  import opened Fencing
  import opened Outbox
  import opened ControlStore
  import opened ControlSnapshot

  datatype FileRef = FileRef(sha: Sha, size: nat, storage: Sha)

  /** All tables of one namespace. Action entities matter here only for their Task. */
  datatype Tables = Tables(ledger: Ledger, log: Log, commands: Commands, outbox: map<nat, Delivery>,
                           leases: map<nat, Lease>, blobs: map<Sha, seq<nat>>, actions: map<nat, nat>,
                           artifacts: map<nat, FileRef>, uploads: map<nat, FileRef>)

  // ---------------------------------------------------------------- acceptable tables

  predicate RowClosed(t: Tables, row: Row) {
    && RowMatches(t.ledger, row)
    && row.action in t.actions && t.actions[row.action] == t.ledger.reservations[row.id].task
  }

  predicate RowsClosed(t: Tables) {
    forall i :: 0 <= i < |t.ledger.rows| ==> RowClosed(t, t.ledger.rows[i])
  }

  predicate StreamOk(stream: Stream) {
    stream.floor <= stream.sequence <= MAX_INT
  }

  predicate KeptEvent(log: Log, key: (nat, nat)) {
    key.0 in log.streams && log.streams[key.0].floor < key.1 <= log.streams[key.0].sequence
  }

  predicate EventAt(log: Log, key: (nat, nat))
    requires key in log.rows
  {
    log.rows[key].task == key.0 && log.rows[key].sequence == key.1 && log.rows[key].id in log.ids
  }

  ghost predicate LogOk(log: Log) {
    && (forall task :: task in log.streams ==> StreamOk(log.streams[task]))
    && (forall key :: key in log.rows ==> EventAt(log, key))
    && (forall key :: key in log.rows <==> KeptEvent(log, key))
  }

  predicate HeldBlob(blobs: map<Sha, seq<nat>>, file: FileRef) {
    file.sha in blobs && |blobs[file.sha]| == file.size
  }

  predicate FilesOk(t: Tables) {
    && (forall sha :: sha in t.blobs ==> sha == Sha256(t.blobs[sha]))
    && (forall id :: id in t.artifacts ==> HeldBlob(t.blobs, t.artifacts[id]) && t.artifacts[id].storage == t.artifacts[id].sha)
    && (forall id :: id in t.uploads ==> HeldBlob(t.blobs, t.uploads[id]) && t.uploads[id].size <= MAX_UPLOAD)
  }

  predicate DeliveriesOk(t: Tables) {
    && (forall action :: action in t.outbox ==> action in t.actions)
    && (forall resource :: resource in t.leases ==> 1 <= t.leases[resource].token <= MAX_INT)
  }

  ghost predicate LedgerRowsOk(t: Tables) {
    Distinct(t.ledger.rows) && AllIndexed(t.ledger) && RowsClosed(t)
  }

  ghost predicate Acceptable(t: Tables) {
    LedgerRowsOk(t) && LogOk(t.log) && CommandsOk(t.commands) && FilesOk(t) && DeliveriesOk(t)
  }

  // ---------------------------------------------------------------- dumps of tables

  function BodyAt(t: Tables, kind: Kind, id: nat): Option<Body> {
    match kind
    case BudgetKind => if id in t.ledger.budgets then Some(BudgetBody(t.ledger.budgets[id].task)) else None
    case ReservationKind =>
      if id in t.ledger.reservations then
        (var r := t.ledger.reservations[id]; Some(ReservationBody(r.task, r.budget, r.action)))
      else None
    case OperationKind =>
      if id in t.commands.operations then
        (var o := t.commands.operations[id]; Some(OperationBody(CommandKey(o.principal, o.method_, o.key), o.payloadSha)))
      else None
    case ActionKind => if id in t.actions then Some(ActionBody(t.actions[id])) else None
    case ArtifactKind =>
      if id in t.artifacts then
        (var f := t.artifacts[id]; Some(ArtifactBody(f.sha, f.size, f.storage)))
      else None
    case UploadKind => if id in t.uploads then (var f := t.uploads[id]; Some(UploadBody(f.sha, f.size))) else None
    case OtherKind(_) => None
  }

  predicate FaithfulEntity(t: Tables, row: EntityRow) {
    row.itemId == row.id && row.wellFormed && BodyAt(t, row.kind, row.id) == Some(row.body)
  }

  predicate ListsKey(rows: seq<EntityRow>, kind: Kind, id: nat) {
    exists i :: 0 <= i < |rows| && rows[i].kind == kind && rows[i].id == id
  }

  ghost predicate DumpsEntities(rows: seq<EntityRow>, t: Tables) {
    && DistinctEntities(rows)
    && (forall i :: 0 <= i < |rows| ==> FaithfulEntity(t, rows[i]))
    && (forall kind, id :: BodyAt(t, kind, id).Some? ==> ListsKey(rows, kind, id))
  }

  predicate ListsBlob(rows: seq<BlobRow>, sha: Sha) {
    exists i :: 0 <= i < |rows| && rows[i].sha == sha
  }

  ghost predicate DumpsBlobs(rows: seq<BlobRow>, blobs: map<Sha, seq<nat>>) {
    && (forall i, j :: 0 <= i < j < |rows| ==> rows[i].sha != rows[j].sha)
    && (forall i :: 0 <= i < |rows| ==> rows[i].sha in blobs && blobs[rows[i].sha] == rows[i].content)
    && (forall sha :: sha in blobs ==> ListsBlob(rows, sha))
  }

  predicate ListsSlot(rows: seq<OperationRow>, slot: CommandKey) {
    exists i :: 0 <= i < |rows| && rows[i].slot == slot
  }

  ghost predicate DumpsIndex(rows: seq<OperationRow>, index: map<CommandKey, IndexRow>) {
    && (forall i, j :: 0 <= i < j < |rows| ==> rows[i].slot != rows[j].slot)
    && (forall i :: 0 <= i < |rows| ==> rows[i].slot in index && index[rows[i].slot] == IndexRow(rows[i].operation, rows[i].digest))
    && (forall slot :: slot in index ==> ListsSlot(rows, slot))
  }

  ghost predicate DumpsStreams(rows: seq<StreamRow>, streams: map<nat, Stream>) {
    && (forall i, j :: 0 <= i < j < |rows| ==> rows[i].task != rows[j].task)
    && (forall i :: 0 <= i < |rows| ==>
          rows[i].task in streams && rows[i].sequence == streams[rows[i].task].sequence
          && rows[i].floor == streams[rows[i].task].floor)
    && (forall task :: task in streams ==> HasStream(rows, task))
  }

  predicate Before(a: EventRow, b: EventRow) {
    a.task < b.task || (a.task == b.task && a.sequence < b.sequence)
  }

  predicate ListsEvent(rows: seq<EventRow>, key: (nat, nat)) {
    exists i :: 0 <= i < |rows| && rows[i].task == key.0 && rows[i].sequence == key.1
  }

  predicate FaithfulEvent(log: Log, row: EventRow) {
    && row.wellFormed && row.sequence >= 0 && (row.task, row.sequence) in log.rows
    && row.item == log.rows[(row.task, row.sequence)] && row.id == row.item.id
  }

  ghost predicate DumpsEvents(rows: seq<EventRow>, log: Log) {
    && Sorted(rows)
    && (forall i :: 0 <= i < |rows| ==> FaithfulEvent(log, rows[i]))
    && (forall key :: key in log.rows ==> ListsEvent(rows, key))
  }

  ghost predicate DumpsIds(rows: seq<nat>, ids: set<nat>) {
    && (forall i, j :: 0 <= i < j < |rows| ==> rows[i] != rows[j])
    && (forall id :: id in rows <==> id in ids)
  }

  predicate ListsAction(rows: seq<OutboxRow>, action: nat) {
    exists i :: 0 <= i < |rows| && rows[i].action == action
  }

  predicate ListsLease(rows: seq<LeaseRow>, resource: nat) {
    exists i :: 0 <= i < |rows| && rows[i].resource == resource
  }

  ghost predicate DumpsDeliveries(d: Dump, t: Tables) {
    && (forall i :: 0 <= i < |d.outbox| ==> d.outbox[i].known && d.outbox[i].isObject && d.outbox[i].action in t.outbox)
    && (forall action :: action in t.outbox ==> ListsAction(d.outbox, action))
    && (forall i :: 0 <= i < |d.leases| ==> d.leases[i].resource in t.leases && d.leases[i].token == t.leases[d.leases[i].resource].token)
    && (forall resource :: resource in t.leases ==> ListsLease(d.leases, resource))
  }

  /** `d` lists every row of every table once, events in (task, sequence) order. */
  ghost predicate DumpOf(d: Dump, t: Tables) {
    && DumpsEntities(d.entities, t) && DumpsBlobs(d.blobs, t.blobs) && DumpsIndex(d.operations, t.commands.index)
    && d.reservations == t.ledger.rows && DumpsStreams(d.streams, t.log.streams) && DumpsIds(d.tombstones, t.log.ids)
    && DumpsEvents(d.events, t.log) && DumpsDeliveries(d, t)
  }

  // ---------------------------------------------------------------- section by section

  lemma EntityListed(rows: seq<EntityRow>, t: Tables, id: nat, body: Body)
    requires DumpsEntities(rows, t) && !body.OtherBody?
    ensures HasEntity(rows, id, body) <==> BodyAt(t, KindOf(body), id) == Some(body)
  {
    if HasEntity(rows, id, body) {
      var i :| 0 <= i < |rows| && rows[i].id == id && rows[i].body == body;
      assert FaithfulEntity(t, rows[i]);
    }
    if BodyAt(t, KindOf(body), id) == Some(body) {
      assert ListsKey(rows, KindOf(body), id);
      var i :| 0 <= i < |rows| && rows[i].kind == KindOf(body) && rows[i].id == id;
      assert FaithfulEntity(t, rows[i]);
    }
  }

  lemma BlobListed(rows: seq<BlobRow>, blobs: map<Sha, seq<nat>>, sha: Sha, size: nat)
    requires DumpsBlobs(rows, blobs)
    ensures HasBlob(rows, sha, size) <==> sha in blobs && |blobs[sha]| == size
  {
    if sha in blobs && |blobs[sha]| == size {
      assert ListsBlob(rows, sha);
      var i :| 0 <= i < |rows| && rows[i].sha == sha;
      assert |rows[i].content| == size;
    }
  }

  lemma BlobsAccepted(d: Dump, t: Tables)
    requires DumpsBlobs(d.blobs, t.blobs)
    ensures BlobsOk(d.blobs) <==> forall sha :: sha in t.blobs ==> sha == Sha256(t.blobs[sha])
  {
    if BlobsOk(d.blobs) {
      forall sha | sha in t.blobs ensures sha == Sha256(t.blobs[sha]) {
        assert ListsBlob(d.blobs, sha);
      }
    }
  }

  lemma EntitiesAccepted(d: Dump, t: Tables)
    requires DumpsEntities(d.entities, t) && DumpsBlobs(d.blobs, t.blobs) && BlobsOk(d.blobs)
    ensures EntitiesOk(d.blobs, d.entities) <==> FilesOk(t)
  {
    BlobsAccepted(d, t);
    if FilesOk(t) {
      forall i | 0 <= i < |d.entities| ensures EntityOk(d.blobs, d.entities[i]) {
        var row := d.entities[i];
        assert FaithfulEntity(t, row);
        if row.body.UploadBody? || row.body.ArtifactBody? {
          BlobListed(d.blobs, t.blobs, row.body.sha, row.body.size);
        }
      }
    }
    if EntitiesOk(d.blobs, d.entities) {
      forall id | id in t.artifacts
        ensures HeldBlob(t.blobs, t.artifacts[id]) && t.artifacts[id].storage == t.artifacts[id].sha
      {
        EntityRowOf(d, t, ArtifactKind, id);
        BlobListed(d.blobs, t.blobs, t.artifacts[id].sha, t.artifacts[id].size);
      }
      forall id | id in t.uploads ensures HeldBlob(t.blobs, t.uploads[id]) && t.uploads[id].size <= MAX_UPLOAD {
        EntityRowOf(d, t, UploadKind, id);
        BlobListed(d.blobs, t.blobs, t.uploads[id].sha, t.uploads[id].size);
      }
    }
  }

  lemma EntityRowOf(d: Dump, t: Tables, kind: Kind, id: nat)
    requires DumpsEntities(d.entities, t) && EntitiesOk(d.blobs, d.entities) && BodyAt(t, kind, id).Some?
    ensures EntityOk(d.blobs, EntityRow(kind, id, id, BodyAt(t, kind, id).value, true))
  {
    assert ListsKey(d.entities, kind, id);
    var i :| 0 <= i < |d.entities| && d.entities[i].kind == kind && d.entities[i].id == id;
    assert FaithfulEntity(t, d.entities[i]) && EntityOk(d.blobs, d.entities[i]);
  }

  lemma OperationListed(d: Dump, t: Tables, i: nat)
    requires DumpOf(d, t) && i < |d.operations|
    ensures HasEntity(d.entities, d.operations[i].operation, OperationBody(d.operations[i].slot, d.operations[i].digest))
            <==> Agrees(t.commands, d.operations[i].slot)
  {
    EntityListed(d.entities, t, d.operations[i].operation, OperationBody(d.operations[i].slot, d.operations[i].digest));
  }

  lemma CommandsGiveOperations(d: Dump, t: Tables)
    requires DumpOf(d, t) && CommandsOk(t.commands)
    ensures OperationsOk(d.entities, d.operations)
  {
    forall i | 0 <= i < |d.operations|
      ensures HasEntity(d.entities, d.operations[i].operation, OperationBody(d.operations[i].slot, d.operations[i].digest))
    {
      OperationListed(d, t, i);
    }
    forall i, j | 0 <= i < j < |d.operations| ensures d.operations[i].operation != d.operations[j].operation {
      assert Agrees(t.commands, d.operations[i].slot) && Agrees(t.commands, d.operations[j].slot);
    }
    forall i | 0 <= i < |d.entities| && d.entities[i].body.OperationBody?
      ensures IndexesOperation(d.operations, d.entities[i].id)
    {
      assert FaithfulEntity(t, d.entities[i]);
      assert Taken(t.commands, d.entities[i].id);
      var slot :| slot in t.commands.index && t.commands.index[slot].operation == d.entities[i].id;
      assert ListsSlot(d.operations, slot);
    }
  }

  lemma OperationsGiveCommands(d: Dump, t: Tables)
    requires DumpOf(d, t) && OperationsOk(d.entities, d.operations)
    ensures CommandsOk(t.commands)
  {
    forall slot | slot in t.commands.index ensures Agrees(t.commands, slot) {
      assert ListsSlot(d.operations, slot);
      var i :| 0 <= i < |d.operations| && d.operations[i].slot == slot;
      OperationListed(d, t, i);
    }
    forall id | id in t.commands.operations ensures Taken(t.commands, id) {
      assert ListsKey(d.entities, OperationKind, id) by {
        assert BodyAt(t, OperationKind, id).Some?;
      }
      var i :| 0 <= i < |d.entities| && d.entities[i].kind == OperationKind && d.entities[i].id == id;
      assert FaithfulEntity(t, d.entities[i]);
      var j :| 0 <= j < |d.operations| && d.operations[j].operation == id;
      assert d.operations[j].slot in t.commands.index;
    }
  }

  lemma ReservedForListed(d: Dump, t: Tables, row: Row, task: nat)
    requires DumpsEntities(d.entities, t)
    ensures ReservedFor(d.entities, row, task) <==> RowClosed(t, row) && t.ledger.reservations[row.id].task == task
  {
    EntityListed(d.entities, t, row.id, ReservationBody(task, row.budget, row.action));
    EntityListed(d.entities, t, row.budget, BudgetBody(task));
    EntityListed(d.entities, t, row.action, ActionBody(task));
  }

  lemma ReservationListed(d: Dump, t: Tables, row: Row)
    requires DumpsEntities(d.entities, t)
    ensures ReservationOk(d.entities, row) <==> RowClosed(t, row)
  {
    forall task: nat
      ensures ReservedFor(d.entities, row, task) <==> RowClosed(t, row) && t.ledger.reservations[row.id].task == task
    {
      ReservedForListed(d, t, row, task);
    }
    if RowClosed(t, row) {
      assert ReservedFor(d.entities, row, t.ledger.reservations[row.id].task);
    }
  }

  lemma ReservationsAccepted(d: Dump, t: Tables)
    requires DumpsEntities(d.entities, t) && d.reservations == t.ledger.rows
    ensures ReservationsOk(d.entities, d.reservations) <==> LedgerRowsOk(t)
  {
    forall i | 0 <= i < |d.reservations|
      ensures ReservationOk(d.entities, d.reservations[i]) <==> RowClosed(t, d.reservations[i])
    {
      ReservationListed(d, t, d.reservations[i]);
    }
    if LedgerRowsOk(t) {
      forall i | 0 <= i < |d.entities| && d.entities[i].body.ReservationBody?
        ensures exists j :: 0 <= j < |d.reservations| && d.reservations[j].id == d.entities[i].id
      {
        assert FaithfulEntity(t, d.entities[i]);
        assert Indexed(t.ledger.rows, d.entities[i].id);
      }
    }
    if ReservationsOk(d.entities, d.reservations) {
      forall id | id in t.ledger.reservations ensures Indexed(t.ledger.rows, id) {
        assert BodyAt(t, ReservationKind, id).Some?;
        assert ListsKey(d.entities, ReservationKind, id);
        var i :| 0 <= i < |d.entities| && d.entities[i].kind == ReservationKind && d.entities[i].id == id;
        assert FaithfulEntity(t, d.entities[i]);
      }
    }
  }

  // Events: a sorted list of the kept rows counts up exactly when nothing is missing.

  predicate Sorted(rows: seq<EventRow>) {
    forall i, j :: 0 <= i < j < |rows| ==> Before(rows[i], rows[j])
  }

  predicate Ascending(s: seq<int>) {
    forall a, b :: 0 <= a < b < |s| ==> s[a] < s[b]
  }

  predicate ListsSequence(rows: seq<EventRow>, task: nat, x: int) {
    exists i :: 0 <= i < |rows| && rows[i].task == task && rows[i].sequence == x
  }

  lemma ListsSequenceStep(rows: seq<EventRow>, task: nat, x: int)
    requires rows != []
    ensures var last := rows[|rows| - 1];
            ListsSequence(rows, task, x)
            <==> ListsSequence(rows[..|rows| - 1], task, x) || (last.task == task && last.sequence == x)
  {
    var front, last := rows[..|rows| - 1], rows[|rows| - 1];
    if ListsSequence(front, task, x) {
      var i :| 0 <= i < |front| && front[i].task == task && front[i].sequence == x;
      assert rows[i].sequence == x;
    }
    if ListsSequence(rows, task, x) {
      var i :| 0 <= i < |rows| && rows[i].task == task && rows[i].sequence == x;
      assert i < |front| ==> front[i] == rows[i];
    }
  }

  lemma {:induction false} SequencesListed(rows: seq<EventRow>, task: nat, x: int)
    ensures x in Sequences(rows, task) <==> ListsSequence(rows, task, x)
  {
    if rows != [] {
      SequencesListed(rows[..|rows| - 1], task, x);
      ListsSequenceStep(rows, task, x);
    }
  }

  lemma {:induction false} SequencesOrdered(rows: seq<EventRow>, task: nat)
    requires Sorted(rows)
    ensures Ascending(Sequences(rows, task))
  {
    if rows != [] {
      var front, last := rows[..|rows| - 1], rows[|rows| - 1];
      SequencesOrdered(front, task);
      var s := Sequences(front, task);
      forall a | 0 <= a < |s| && last.task == task ensures s[a] < last.sequence {
        SequencesListed(front, task, s[a]);
        var i :| 0 <= i < |front| && front[i].task == task && front[i].sequence == s[a];
        assert Before(rows[i], rows[|rows| - 1]);
      }
    }
  }

  lemma {:induction false} IncreasingRange(s: seq<int>, lo: int, hi: int)
    requires lo <= hi && Ascending(s)
    ensures (forall x :: x in s <==> lo < x <= hi) <==> |s| == hi - lo && CountsUp(s, lo)
    decreases hi - lo
  {
    if (forall x :: x in s <==> lo < x <= hi) && lo < hi {
      assert hi in s;
      var front, last := s[..|s| - 1], s[|s| - 1];
      assert s == front + [last];
      assert last in s;
      forall x ensures x in front <==> lo < x <= hi - 1 {
        assert x in s <==> x in front || x == last;
      }
      IncreasingRange(front, lo, hi - 1);
    } else if lo == hi && |s| > 0 {
      assert s[0] in s;
    } else if |s| == hi - lo && CountsUp(s, lo) {
      forall x | lo < x <= hi ensures x in s {
        assert s[x - lo - 1] == x;
      }
    }
  }

  lemma KeptIsListed(d: Dump, t: Tables, task: nat, x: int)
    requires DumpsEvents(d.events, t.log)
    ensures x in Sequences(d.events, task) <==> x >= 0 && (task, x) in t.log.rows
  {
    SequencesListed(d.events, task, x);
    if x >= 0 && (task, x) in t.log.rows {
      assert ListsEvent(d.events, (task, x));
    }
    if ListsSequence(d.events, task, x) {
      var i :| 0 <= i < |d.events| && d.events[i].task == task && d.events[i].sequence == x;
      assert FaithfulEvent(t.log, d.events[i]);
    }
  }

  lemma StreamAccepted(d: Dump, t: Tables, stream: StreamRow)
    requires DumpsEvents(d.events, t.log) && 0 <= stream.floor <= stream.sequence
    ensures StreamWhole(d.events, stream) <==>
              forall k: nat :: (stream.task, k) in t.log.rows <==> stream.floor < k <= stream.sequence
  {
    var s := Sequences(d.events, stream.task);
    SequencesOrdered(d.events, stream.task);
    IncreasingRange(s, stream.floor, stream.sequence);
    forall x: int ensures x in s <==> x >= 0 && (stream.task, x) in t.log.rows {
      KeptIsListed(d, t, stream.task, x);
    }
    if forall k: nat :: (stream.task, k) in t.log.rows <==> stream.floor < k <= stream.sequence {
      forall x: int ensures x in s <==> stream.floor < x <= stream.sequence {
        assert x in s <==> x >= 0 && (stream.task, x) in t.log.rows;
      }
    }
  }

  lemma LogGivesEvents(d: Dump, t: Tables)
    requires DumpOf(d, t) && LogOk(t.log)
    ensures StreamsOk(d.streams) && TombstonesOk(d.tombstones) && EventsOk(d.streams, d.tombstones, d.events)
  {
    forall i | 0 <= i < |d.streams| ensures 0 <= d.streams[i].floor <= d.streams[i].sequence <= MAX_INT {
      assert StreamOk(t.log.streams[d.streams[i].task]);
    }
    forall i | 0 <= i < |d.events| ensures EventOk(d.streams, d.tombstones, d.events[i]) {
      var row := d.events[i];
      assert FaithfulEvent(t.log, row);
      assert EventAt(t.log, (row.task, row.sequence)) && KeptEvent(t.log, (row.task, row.sequence));
      assert HasStream(d.streams, row.task);
    }
    forall i | 0 <= i < |d.streams| ensures StreamWhole(d.events, d.streams[i]) {
      var stream := d.streams[i];
      StreamAccepted(d, t, stream);
      forall k: nat ensures (stream.task, k) in t.log.rows <==> stream.floor < k <= stream.sequence {
        assert (stream.task, k) in t.log.rows <==> KeptEvent(t.log, (stream.task, k));
      }
    }
  }

  lemma EventsGiveLog(d: Dump, t: Tables)
    requires DumpOf(d, t) && StreamsOk(d.streams) && EventsOk(d.streams, d.tombstones, d.events)
    ensures LogOk(t.log)
  {
    forall task | task in t.log.streams ensures StreamOk(t.log.streams[task]) {
      assert HasStream(d.streams, task);
    }
    forall key | key in t.log.rows ensures EventAt(t.log, key) && key.0 in t.log.streams {
      assert ListsEvent(d.events, key);
      var i :| 0 <= i < |d.events| && d.events[i].task == key.0 && d.events[i].sequence == key.1;
      assert FaithfulEvent(t.log, d.events[i]) && EventOk(d.streams, d.tombstones, d.events[i]);
      var k :| 0 <= k < |d.streams| && d.streams[k].task == key.0;
    }
    forall key ensures key in t.log.rows <==> KeptEvent(t.log, key) {
      if key.0 in t.log.streams {
        assert HasStream(d.streams, key.0);
        var k :| 0 <= k < |d.streams| && d.streams[k].task == key.0;
        assert StreamWhole(d.events, d.streams[k]);
        StreamAccepted(d, t, d.streams[k]);
        assert (d.streams[k].task, key.1) == key;
      }
    }
  }

  lemma ActionListed(rows: seq<EntityRow>, t: Tables, id: nat)
    requires DumpsEntities(rows, t)
    ensures HasAction(rows, id) <==> id in t.actions
  {
    if HasAction(rows, id) {
      var j :| 0 <= j < |rows| && rows[j].id == id && rows[j].body.ActionBody?;
      assert FaithfulEntity(t, rows[j]);
    }
    if id in t.actions {
      EntityListed(rows, t, id, ActionBody(t.actions[id]));
      var j :| 0 <= j < |rows| && rows[j].id == id && rows[j].body == ActionBody(t.actions[id]);
    }
  }

  lemma OutboxGivesActions(d: Dump, t: Tables)
    requires DumpsEntities(d.entities, t) && DumpsDeliveries(d, t)
    requires OutboxOk(d.entities, d.outbox) && LeasesOk(d.leases)
    ensures DeliveriesOk(t)
  {
    forall action | action in t.outbox ensures action in t.actions {
      assert ListsAction(d.outbox, action);
      ActionListed(d.entities, t, action);
    }
    forall resource | resource in t.leases ensures 1 <= t.leases[resource].token <= MAX_INT {
      assert ListsLease(d.leases, resource);
    }
  }

  lemma ActionsGiveOutbox(d: Dump, t: Tables)
    requires DumpsEntities(d.entities, t) && DumpsDeliveries(d, t) && DeliveriesOk(t)
    ensures OutboxOk(d.entities, d.outbox) && LeasesOk(d.leases)
  {
    forall i | 0 <= i < |d.outbox| ensures HasAction(d.entities, d.outbox[i].action) {
      ActionListed(d.entities, t, d.outbox[i].action);
    }
  }

  lemma DeliveriesAccepted(d: Dump, t: Tables)
    requires DumpsEntities(d.entities, t) && DumpsDeliveries(d, t)
    ensures OutboxOk(d.entities, d.outbox) && LeasesOk(d.leases) <==> DeliveriesOk(t)
  {
    if DeliveriesOk(t) {
      ActionsGiveOutbox(d, t);
    } else if OutboxOk(d.entities, d.outbox) && LeasesOk(d.leases) {
      OutboxGivesActions(d, t);
    }
  }

  /** The validator accepts a dump of these tables exactly when the tables are acceptable. */
  lemma DumpAccepted(d: Dump, t: Tables)
    requires DumpOf(d, t)
    ensures SnapshotOk(d) <==> Acceptable(t)
  {
    BlobsAccepted(d, t);
    ReservationsAccepted(d, t);
    DeliveriesAccepted(d, t);
    if BlobsOk(d.blobs) {
      EntitiesAccepted(d, t);
    }
    if CommandsOk(t.commands) {
      CommandsGiveOperations(d, t);
    } else if OperationsOk(d.entities, d.operations) {
      OperationsGiveCommands(d, t);
    }
    if LogOk(t.log) {
      LogGivesEvents(d, t);
    } else if StreamsOk(d.streams) && EventsOk(d.streams, d.tombstones, d.events) {
      EventsGiveLog(d, t);
    }
  }

  // ---------------------------------------------------------------- operations

  datatype StoreOp =
    | OpPutBudget(id: nat, budget: Budget)
    | OpPutAction(id: nat, task: nat)
    | OpPutArtifact(id: nat, file: FileRef)
    | OpPutUpload(id: nat, file: FileRef)
    | OpPutBlob(content: seq<nat>)
    | OpReserve(id: nat, request: Reservation)
    | OpSettle(id: nat, actual: seq<Entry>, receipts: seq<nat>)
    | OpMarkUncertain(id: nat)
    | OpSave(id: nat, operation: Operation, principal: nat, key: nat, digest: nat)
    | OpAppend(event: Event)
    | OpPrune(task: nat, through: int)
    | OpEnqueue(action: nat, payload: nat)
    | OpMark(action: nat)
    | OpFinish(action: nat)
    | OpClaim(resource: nat, holder: nat, expires: int, now: int)
    | OpRelease(resource: nat, holder: nat, token: nat)

  function WithDelivery(t: Tables, action: nat, r: Result<Delivery>): Tables {
    if r.Ok? then t.(outbox := t.outbox[action := r.value]) else t
  }

  function WithLease(t: Tables, resource: nat, r: Result<Lease>): Tables {
    if r.Ok? then t.(leases := t.leases[resource := r.value]) else t
  }

  function WithLedger(t: Tables, r: Result<Ledger>): Tables {
    if r.Ok? then t.(ledger := r.value) else t
  }

  /** One store transaction; a refused one leaves every table as it was. */
  function Apply(t: Tables, op: StoreOp): Tables {
    match op
    case OpPutBudget(id, budget) => t.(ledger := t.ledger.(budgets := t.ledger.budgets[id := budget]))
    case OpPutAction(id, task) => t.(actions := t.actions[id := task])
    case OpPutArtifact(id, file) => t.(artifacts := t.artifacts[id := file])
    case OpPutUpload(id, file) => t.(uploads := t.uploads[id := file])
    case OpPutBlob(content) => (var r := KeepBlob(t.blobs, content); if r.Ok? then t.(blobs := r.value) else t)
    case OpReserve(id, request) => (var r := Reserve(t.ledger, id, request); if r.Ok? then t.(ledger := r.value.0) else t)
    case OpSettle(id, actual, receipts) => WithLedger(t, Settle(t.ledger, id, actual, receipts))
    case OpMarkUncertain(id) => WithLedger(t, MarkUncertain(t.ledger, id))
    case OpSave(id, operation, principal, key, digest) =>
      (var r := Save(t.commands, id, operation, principal, key, digest); if r.Ok? then t.(commands := r.value.0) else t)
    case OpAppend(event) => (var r := Append(t.log, event); if r.Ok? then t.(log := r.value.0) else t)
    case OpPrune(task, through) => (var r := Prune(t.log, task, through); if r.Ok? then t.(log := r.value) else t)
    case OpEnqueue(action, payload) => WithDelivery(t, action, Enqueue(Lookup(t.outbox, action), payload))
    case OpMark(action) => WithDelivery(t, action, Mark(Lookup(t.outbox, action)))
    case OpFinish(action) => WithDelivery(t, action, Finish(Lookup(t.outbox, action)))
    case OpClaim(resource, holder, expires, now) =>
      WithLease(t, resource, Claim(Lookup(t.leases, resource), holder, expires, now))
    case OpRelease(resource, holder, token) => WithLease(t, resource, Release(Lookup(t.leases, resource), holder, token))
  }

  /** No reservation row of this budget belongs to another Task. */
  predicate BudgetAgrees(t: Tables, id: nat, task: nat) {
    forall i :: 0 <= i < |t.ledger.rows| && t.ledger.rows[i].budget == id ==>
      t.ledger.rows[i].id in t.ledger.reservations && t.ledger.reservations[t.ledger.rows[i].id].task == task
  }

  predicate ActionAgrees(t: Tables, id: nat, task: nat) {
    forall i :: 0 <= i < |t.ledger.rows| && t.ledger.rows[i].action == id ==>
      t.ledger.rows[i].id in t.ledger.reservations && t.ledger.reservations[t.ledger.rows[i].id].task == task
  }

  /** What a caller must respect, table by table, so that the store stays acceptable. */
  predicate Guard(t: Tables, op: StoreOp) {
    match op
    case OpPutBudget(id, budget) => BudgetAgrees(t, id, budget.task)
    case OpPutAction(id, task) => ActionAgrees(t, id, task)
    case OpPutArtifact(_, file) => HeldBlob(t.blobs, file) && file.storage == file.sha
    case OpPutUpload(_, file) => HeldBlob(t.blobs, file) && file.size <= MAX_UPLOAD
    case OpReserve(id, request) =>
      Matching(t.ledger.rows, id, request.budget, request.action) == [] && Reserve(t.ledger, id, request).Ok? ==>
        request.action in t.actions && t.actions[request.action] == request.task
    case OpSave(id, operation, principal, key, digest) =>
      CommandKey(principal, operation.method_, key) !in t.commands.index && !Taken(t.commands, id) ==>
        Faithful(operation, principal, key, digest)
    case OpEnqueue(action, _) => action in t.actions || action in t.outbox
    case _ => true
  }

  // Keeping the section of the ledger.

  lemma InsertClosed(t: Tables, id: nat, request: Reservation)
    requires LedgerRowsOk(t) && Matching(t.ledger.rows, id, request.budget, request.action) == []
    requires request.budget in t.ledger.budgets && t.ledger.budgets[request.budget].task == request.task
    ensures LedgerRowsOk(t.(ledger := Insert(t.ledger, id, request)))
            <==> request.action in t.actions && t.actions[request.action] == request.task
  {
    var next := t.(ledger := Insert(t.ledger, id, request));
    NoMatchIsFresh(t.ledger.rows, id, request.budget, request.action);
    InsertKeepsIndex(t.ledger, id, request);
    forall i | 0 <= i < |t.ledger.rows| ensures RowClosed(next, next.ledger.rows[i]) {
      assert RowClosed(t, t.ledger.rows[i]);
    }
    var last := next.ledger.rows[|t.ledger.rows|];
    assert RowClosed(next, last) <==> request.action in t.actions && t.actions[request.action] == request.task;
  }

  lemma ReserveExact(t: Tables, id: nat, request: Reservation)
    requires LedgerRowsOk(t)
    ensures LedgerRowsOk(Apply(t, OpReserve(id, request))) <==> Guard(t, OpReserve(id, request))
  {
    if Matching(t.ledger.rows, id, request.budget, request.action) == [] && Reserve(t.ledger, id, request).Ok? {
      InsertClosed(t, id, request);
    }
  }

  lemma RewriteClosed(t: Tables, id: nat, r: Reservation)
    requires LedgerRowsOk(t) && id in t.ledger.reservations
    requires r.budget == t.ledger.reservations[id].budget && r.action == t.ledger.reservations[id].action
    requires r.task == t.ledger.reservations[id].task
    ensures LedgerRowsOk(t.(ledger := Rewrite(t.ledger, id, r)))
  {
    var next := t.(ledger := Rewrite(t.ledger, id, r));
    forall i | 0 <= i < |next.ledger.rows| ensures RowClosed(next, next.ledger.rows[i]) {
      assert RowClosed(t, t.ledger.rows[i]);
    }
  }

  lemma SettleClosed(t: Tables, id: nat, actual: seq<Entry>, receipts: seq<nat>)
    requires LedgerRowsOk(t)
    ensures LedgerRowsOk(Apply(t, OpSettle(id, actual, receipts)))
  {
    var r := Settle(t.ledger, id, actual, receipts);
    if r.Ok? && r.value != t.ledger {
      RewriteClosed(t, id, SettledAs(t.ledger.reservations[id], actual, receipts));
    }
  }

  lemma MarkClosed(t: Tables, id: nat)
    requires LedgerRowsOk(t)
    ensures LedgerRowsOk(Apply(t, OpMarkUncertain(id)))
  {
    if id in t.ledger.reservations && t.ledger.reservations[id].status == Held {
      var r := t.ledger.reservations[id];
      var next := r.(status := Uncertain, revision := r.revision + 1);
      assert MarkUncertain(t.ledger, id) == Ok(Rewrite(t.ledger, id, next));
      RewriteClosed(t, id, next);
    } else {
      assert Apply(t, OpMarkUncertain(id)) == t;
    }
  }

  lemma PutBudgetExact(t: Tables, id: nat, budget: Budget)
    requires LedgerRowsOk(t)
    ensures LedgerRowsOk(Apply(t, OpPutBudget(id, budget))) <==> BudgetAgrees(t, id, budget.task)
  {
    var next := Apply(t, OpPutBudget(id, budget));
    forall i | 0 <= i < |t.ledger.rows|
      ensures RowClosed(next, t.ledger.rows[i]) <==>
                (t.ledger.rows[i].budget == id ==> t.ledger.reservations[t.ledger.rows[i].id].task == budget.task)
      ensures t.ledger.rows[i].id in t.ledger.reservations
    {
      assert RowClosed(t, t.ledger.rows[i]);
    }
    if BudgetAgrees(t, id, budget.task) {
      assert RowsClosed(next);
    } else {
      var i :| 0 <= i < |t.ledger.rows| && t.ledger.rows[i].budget == id
               && t.ledger.reservations[t.ledger.rows[i].id].task != budget.task;
      assert !RowClosed(next, next.ledger.rows[i]);
    }
  }

  lemma PutActionExact(t: Tables, id: nat, task: nat)
    requires LedgerRowsOk(t)
    ensures LedgerRowsOk(Apply(t, OpPutAction(id, task))) <==> ActionAgrees(t, id, task)
  {
    var next := Apply(t, OpPutAction(id, task));
    forall i | 0 <= i < |t.ledger.rows|
      ensures RowClosed(next, t.ledger.rows[i]) <==>
                (t.ledger.rows[i].action == id ==> t.ledger.reservations[t.ledger.rows[i].id].task == task)
      ensures t.ledger.rows[i].id in t.ledger.reservations
    {
      assert RowClosed(t, t.ledger.rows[i]);
    }
    if ActionAgrees(t, id, task) {
      assert RowsClosed(next);
    } else {
      var i :| 0 <= i < |t.ledger.rows| && t.ledger.rows[i].action == id
               && t.ledger.reservations[t.ledger.rows[i].id].task != task;
      assert !RowClosed(next, next.ledger.rows[i]);
    }
  }

  // Keeping the other sections.

  lemma AppendClosed(log: Log, event: Event)
    requires LogOk(log) && Append(log, event).Ok?
    ensures LogOk(Append(log, event).value.0)
  {
    var (next, stamped) := Append(log, event).value;
    forall key ensures key in next.rows <==> KeptEvent(next, key) {
      assert key in log.rows <==> KeptEvent(log, key);
    }
    forall key | key in next.rows ensures EventAt(next, key) {
      assert key in log.rows ==> EventAt(log, key);
    }
  }

  lemma PruneClosed(log: Log, task: nat, through: int)
    requires LogOk(log) && Prune(log, task, through).Ok?
    ensures LogOk(Prune(log, task, through).value)
  {
    var next := Prune(log, task, through).value;
    forall key ensures key in next.rows <==> KeptEvent(next, key) {
      assert key in log.rows <==> KeptEvent(log, key);
    }
    forall key | key in next.rows ensures EventAt(next, key) {
      assert EventAt(log, key);
    }
  }

  lemma SaveExact(c: Commands, id: nat, operation: Operation, principal: nat, key: nat, digest: nat)
    requires CommandsOk(c) && Save(c, id, operation, principal, key, digest).Ok?
    ensures CommandsOk(Save(c, id, operation, principal, key, digest).value.0)
            <==> CommandKey(principal, operation.method_, key) in c.index || Faithful(operation, principal, key, digest)
  {
    var slot := CommandKey(principal, operation.method_, key);
    if slot !in c.index {
      var next := Save(c, id, operation, principal, key, digest).value.0;
      if Faithful(operation, principal, key, digest) {
        SaveKeeps(c, id, operation, principal, key, digest);
      } else {
        assert !Agrees(next, slot);
      }
    }
  }

  lemma KeptHeld(blobs: map<Sha, seq<nat>>, content: seq<nat>, file: FileRef)
    requires HeldBlob(blobs, file) && KeepBlob(blobs, content).Ok?
    ensures HeldBlob(KeepBlob(blobs, content).value, file)
  {
  }

  lemma PutBlobClosed(t: Tables, content: seq<nat>)
    requires FilesOk(t)
    ensures FilesOk(Apply(t, OpPutBlob(content)))
  {
    var next := Apply(t, OpPutBlob(content));
    if next != t {
      forall id | id in next.artifacts ensures HeldBlob(next.blobs, next.artifacts[id]) {
        KeptHeld(t.blobs, content, t.artifacts[id]);
      }
      forall id | id in next.uploads ensures HeldBlob(next.blobs, next.uploads[id]) {
        KeptHeld(t.blobs, content, t.uploads[id]);
      }
    }
  }

  lemma PutFileExact(t: Tables, op: StoreOp)
    requires FilesOk(t) && (op.OpPutArtifact? || op.OpPutUpload?)
    ensures FilesOk(Apply(t, op)) <==> Guard(t, op)
  {
    var next := Apply(t, op);
    assert op.OpPutArtifact? ==> op.id in next.artifacts && next.artifacts[op.id] == op.file;
    assert op.OpPutUpload? ==> op.id in next.uploads && next.uploads[op.id] == op.file;
  }

  lemma DeliveryExact(t: Tables, op: StoreOp)
    requires DeliveriesOk(t) && (op.OpEnqueue? || op.OpMark? || op.OpFinish? || op.OpClaim? || op.OpRelease?)
    ensures DeliveriesOk(Apply(t, op)) <==> Guard(t, op)
  {
    if op.OpEnqueue? {
      var next := Apply(t, op);
      assert op.action !in t.outbox ==> op.action in next.outbox;
    }
  }

  predicate LedgerOp(op: StoreOp) {
    op.OpPutBudget? || op.OpPutAction? || op.OpReserve? || op.OpSettle? || op.OpMarkUncertain?
  }

  lemma LedgerOpExact(t: Tables, op: StoreOp)
    requires LedgerRowsOk(t) && LedgerOp(op)
    ensures LedgerRowsOk(Apply(t, op)) <==> Guard(t, op)
  {
    match op
    case OpPutBudget(id, budget) => PutBudgetExact(t, id, budget);
    case OpPutAction(id, task) => PutActionExact(t, id, task);
    case OpReserve(id, request) => ReserveExact(t, id, request);
    case OpSettle(id, actual, receipts) => SettleClosed(t, id, actual, receipts);
    case OpMarkUncertain(id) => MarkClosed(t, id);
    case _ =>
  }

  /** The ledger operations leave the other tables alone; none removes an Action. */
  predicate LedgerFrame(t: Tables, next: Tables) {
    && next.log == t.log && next.commands == t.commands && next.blobs == t.blobs
    && next.artifacts == t.artifacts && next.uploads == t.uploads
    && next.outbox == t.outbox && next.leases == t.leases
    && forall id :: id in t.actions ==> id in next.actions
  }

  lemma WithLedgerFrame(t: Tables, r: Result<Ledger>)
    ensures LedgerFrame(t, WithLedger(t, r))
  {
  }

  lemma LedgerOpFrame(t: Tables, op: StoreOp)
    requires LedgerOp(op)
    ensures LedgerFrame(t, Apply(t, op))
  {
    match op
    case OpSettle(id, actual, receipts) => WithLedgerFrame(t, Settle(t.ledger, id, actual, receipts));
    case OpMarkUncertain(id) => WithLedgerFrame(t, MarkUncertain(t.ledger, id));
    case OpReserve(id, request) =>
      var r := Reserve(t.ledger, id, request);
      WithLedgerFrame(t, if r.Ok? then Ok(r.value.0) else Err(NotFound));
    case _ =>
  }

  // A change to one section leaves the others as acceptable as they were.

  lemma LedgerSection(t: Tables, next: Tables)
    requires Acceptable(t) && LedgerFrame(t, next)
    ensures Acceptable(next) <==> LedgerRowsOk(next)
  {
  }

  lemma LogSection(t: Tables, next: Tables)
    requires Acceptable(t) && next == t.(log := next.log)
    ensures Acceptable(next) <==> LogOk(next.log)
  {
  }

  lemma CommandsSection(t: Tables, next: Tables)
    requires Acceptable(t) && next == t.(commands := next.commands)
    ensures Acceptable(next) <==> CommandsOk(next.commands)
  {
  }

  lemma FilesSection(t: Tables, next: Tables)
    requires Acceptable(t) && next == t.(blobs := next.blobs, artifacts := next.artifacts, uploads := next.uploads)
    ensures Acceptable(next) <==> FilesOk(next)
  {
  }

  lemma DeliveriesSection(t: Tables, next: Tables)
    requires Acceptable(t) && next == t.(outbox := next.outbox, leases := next.leases)
    ensures Acceptable(next) <==> DeliveriesOk(next)
  {
  }

  lemma LedgerOpAcceptable(t: Tables, op: StoreOp)
    requires Acceptable(t) && LedgerOp(op)
    ensures Acceptable(Apply(t, op)) <==> Guard(t, op)
  {
    LedgerOpExact(t, op);
    LedgerOpFrame(t, op);
    LedgerSection(t, Apply(t, op));
  }

  lemma LogOpExact(t: Tables, op: StoreOp)
    requires LogOk(t.log) && (op.OpAppend? || op.OpPrune?)
    ensures LogOk(Apply(t, op).log)
  {
    match op
    case OpAppend(event) => if Append(t.log, event).Ok? { AppendClosed(t.log, event); }
    case OpPrune(task, through) => if Prune(t.log, task, through).Ok? { PruneClosed(t.log, task, through); }
    case _ =>
  }

  // The section of the tables each other kind of operation may change.

  lemma LogFrame(t: Tables, op: StoreOp)
    requires op.OpAppend? || op.OpPrune?
    ensures Apply(t, op) == t.(log := Apply(t, op).log)
  {
  }

  lemma SaveFrame(t: Tables, op: StoreOp)
    requires op.OpSave?
    ensures Apply(t, op) == t.(commands := Apply(t, op).commands)
  {
  }

  lemma FileFrame(t: Tables, op: StoreOp)
    requires op.OpPutBlob? || op.OpPutArtifact? || op.OpPutUpload?
    ensures var next := Apply(t, op);
            next == t.(blobs := next.blobs, artifacts := next.artifacts, uploads := next.uploads)
  {
  }

  lemma RowFrame(t: Tables, id: nat, delivery: Result<Delivery>, lease: Result<Lease>)
    ensures WithDelivery(t, id, delivery) == t.(outbox := WithDelivery(t, id, delivery).outbox)
    ensures WithLease(t, id, lease) == t.(leases := WithLease(t, id, lease).leases)
  {
  }

  lemma DeliveryFrame(t: Tables, op: StoreOp)
    requires op.OpEnqueue? || op.OpMark? || op.OpFinish? || op.OpClaim? || op.OpRelease?
    ensures var next := Apply(t, op);
            next == t.(outbox := next.outbox, leases := next.leases)
  {
    match op
    case OpEnqueue(action, payload) => RowFrame(t, action, Enqueue(Lookup(t.outbox, action), payload), Err(NotFound));
    case OpMark(action) => RowFrame(t, action, Mark(Lookup(t.outbox, action)), Err(NotFound));
    case OpFinish(action) => RowFrame(t, action, Finish(Lookup(t.outbox, action)), Err(NotFound));
    case OpClaim(resource, holder, expires, now) =>
      RowFrame(t, resource, Err(NotFound), Claim(Lookup(t.leases, resource), holder, expires, now));
    case OpRelease(resource, holder, token) =>
      RowFrame(t, resource, Err(NotFound), Release(Lookup(t.leases, resource), holder, token));
    case _ =>
  }

  lemma LogOpAcceptable(t: Tables, op: StoreOp)
    requires Acceptable(t) && (op.OpAppend? || op.OpPrune?)
    ensures Acceptable(Apply(t, op))
  {
    LogOpExact(t, op);
    LogFrame(t, op);
    LogSection(t, Apply(t, op));
  }

  lemma SaveOpExact(t: Tables, op: StoreOp)
    requires CommandsOk(t.commands) && op.OpSave?
    ensures CommandsOk(Apply(t, op).commands) <==> Guard(t, op)
  {
    if Save(t.commands, op.id, op.operation, op.principal, op.key, op.digest).Ok? {
      SaveExact(t.commands, op.id, op.operation, op.principal, op.key, op.digest);
    }
  }

  lemma SaveAcceptable(t: Tables, op: StoreOp)
    requires Acceptable(t) && op.OpSave?
    ensures Acceptable(Apply(t, op)) <==> Guard(t, op)
  {
    SaveOpExact(t, op);
    SaveFrame(t, op);
    CommandsSection(t, Apply(t, op));
  }

  lemma FileAcceptable(t: Tables, op: StoreOp)
    requires Acceptable(t) && (op.OpPutBlob? || op.OpPutArtifact? || op.OpPutUpload?)
    ensures Acceptable(Apply(t, op)) <==> Guard(t, op)
  {
    if op.OpPutBlob? {
      PutBlobClosed(t, op.content);
    } else {
      PutFileExact(t, op);
    }
    FileFrame(t, op);
    FilesSection(t, Apply(t, op));
  }

  lemma DeliveryAcceptable(t: Tables, op: StoreOp)
    requires Acceptable(t) && (op.OpEnqueue? || op.OpMark? || op.OpFinish? || op.OpClaim? || op.OpRelease?)
    ensures Acceptable(Apply(t, op)) <==> Guard(t, op)
  {
    DeliveryExact(t, op);
    DeliveryFrame(t, op);
    DeliveriesSection(t, Apply(t, op));
  }

  /** Each operation keeps an acceptable store acceptable exactly when its guard holds; most
      operations have no guard at all. */
  lemma GuardExact(t: Tables, op: StoreOp)
    requires Acceptable(t)
    ensures Acceptable(Apply(t, op)) <==> Guard(t, op)
  {
    if LedgerOp(op) {
      LedgerOpAcceptable(t, op);
    } else if op.OpAppend? || op.OpPrune? {
      LogOpAcceptable(t, op);
    } else if op.OpSave? {
      SaveAcceptable(t, op);
    } else if op.OpPutBlob? || op.OpPutArtifact? || op.OpPutUpload? {
      FileAcceptable(t, op);
    } else {
      DeliveryAcceptable(t, op);
    }
  }

  // ---------------------------------------------------------------- whole runs

  function Run(t: Tables, ops: seq<StoreOp>): Tables
    decreases |ops|
  {
    if ops == [] then t else Run(Apply(t, ops[0]), ops[1..])
  }

  predicate Guarded(t: Tables, ops: seq<StoreOp>)
    decreases |ops|
  {
    ops == [] || (Guard(t, ops[0]) && Guarded(Apply(t, ops[0]), ops[1..]))
  }

  lemma {:induction false} RunAcceptable(t: Tables, ops: seq<StoreOp>)
    requires Acceptable(t) && Guarded(t, ops)
    ensures Acceptable(Run(t, ops))
    decreases |ops|
  {
    if ops != [] {
      GuardExact(t, ops[0]);
      RunAcceptable(Apply(t, ops[0]), ops[1..]);
    }
  }

  lemma ApplyServes(t: Tables, op: StoreOp, sha: Sha)
    requires sha in t.blobs
    ensures sha in Apply(t, op).blobs && Apply(t, op).blobs[sha] == t.blobs[sha]
  {
  }

  lemma {:induction false} RunServes(t: Tables, ops: seq<StoreOp>, sha: Sha)
    requires sha in t.blobs
    ensures FetchBlob(Run(t, ops).blobs, sha) == FetchBlob(t.blobs, sha)
    decreases |ops|
  {
    if ops != [] {
      ApplyServes(t, ops[0], sha);
      RunServes(Apply(t, ops[0]), ops[1..], sha);
    }
  }

  /** The round trip of a blob: after any further run of the store its content is served under its digest,
      exactly when putting it was not refused, and it is refused exactly when other content already sits there. */
  lemma BlobRoundTrip(t: Tables, content: seq<nat>, ops: seq<StoreOp>)
    ensures FetchBlob(Run(Apply(t, OpPutBlob(content)), ops).blobs, Sha256(content)) == Ok(content)
        <==> KeepBlob(t.blobs, content).Ok?
    ensures KeepBlob(t.blobs, content).Ok? <==> Sha256(content) !in t.blobs || t.blobs[Sha256(content)] == content
  {
    RunServes(Apply(t, OpPutBlob(content)), ops, Sha256(content));
  }

  const EMPTY_TABLES := Tables(Ledger(map[], map[], []), NO_EVENTS, Commands(map[], map[]), map[], map[], map[],
                               map[], map[], map[])

  lemma EmptyAcceptable()
    ensures Acceptable(EMPTY_TABLES)
  {
  }

  /** Every store reached from an empty one by guarded operations dumps to a snapshot the
      validator accepts. */
  lemma ReachableSnapshotsAccepted(ops: seq<StoreOp>, d: Dump)
    requires Guarded(EMPTY_TABLES, ops) && DumpOf(d, Run(EMPTY_TABLES, ops))
    ensures SnapshotOk(d)
  {
    EmptyAcceptable();
    RunAcceptable(EMPTY_TABLES, ops);
    DumpAccepted(d, Run(EMPTY_TABLES, ops));
  }

  /** Without the guard a store can lock itself out of its own backups: enqueueing an Action that
      has no entity is accepted by the store and rejected by the validator. */
  lemma UnguardedEnqueueRejected(d: Dump)
    requires DumpOf(d, Run(EMPTY_TABLES, [OpEnqueue(1, 0)]))
    ensures !SnapshotOk(d)
  {
    EmptyAcceptable();
    GuardExact(EMPTY_TABLES, OpEnqueue(1, 0));
    var next := Apply(EMPTY_TABLES, OpEnqueue(1, 0));
    assert [OpEnqueue(1, 0)][1..] == [];
    assert Run(EMPTY_TABLES, [OpEnqueue(1, 0)]) == Run(next, []) == next;
    DumpAccepted(d, next);
  }
}
