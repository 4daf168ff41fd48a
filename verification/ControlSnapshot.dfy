/** The backup's validator for a dumped control store, and the store states it accepts. A dump is
    a list of rows per table and may come from a damaged or foreign file. */
module ControlSnapshot {
  import opened Wrappers
  import opened ControlLedger
  import opened EventLog
  import opened Outbox
  import opened ControlStore

  const MAX_UPLOAD: nat := 512 * 1024

  datatype Kind = BudgetKind | ReservationKind | OperationKind | ActionKind | ArtifactKind | UploadKind | OtherKind(name: nat)

  /** What the validator looks at in an entity payload; `wellFormed` is its schema verdict. */
  datatype Body =
    | BudgetBody(task: nat)
    | ReservationBody(task: nat, budget: nat, action: nat)
    | OperationBody(slot: CommandKey, digest: nat)
    | ActionBody(task: nat)
    | ArtifactBody(sha: Sha, size: nat, storage: Sha)
    | UploadBody(sha: Sha, size: nat)
    | OtherBody(name: nat)

  datatype EntityRow = EntityRow(kind: Kind, id: nat, itemId: nat, body: Body, wellFormed: bool)

  datatype BlobRow = BlobRow(sha: Sha, content: seq<nat>)

  datatype OperationRow = OperationRow(slot: CommandKey, operation: nat, digest: nat)

  datatype StreamRow = StreamRow(task: nat, sequence: int, floor: int)

  datatype EventRow = EventRow(task: nat, sequence: int, id: nat, item: Event, wellFormed: bool)

  datatype OutboxRow = OutboxRow(action: nat, known: bool, isObject: bool)

  datatype LeaseRow = LeaseRow(resource: nat, token: int)

  datatype Dump = Dump(blobs: seq<BlobRow>, entities: seq<EntityRow>, operations: seq<OperationRow>,
                       reservations: seq<Row>, streams: seq<StreamRow>, tombstones: seq<nat>,
                       events: seq<EventRow>, outbox: seq<OutboxRow>, leases: seq<LeaseRow>)

  function KindOf(body: Body): Kind {
    match body
    case BudgetBody(_) => BudgetKind
    case ReservationBody(_, _, _) => ReservationKind
    case OperationBody(_, _) => OperationKind
    case ActionBody(_) => ActionKind
    case ArtifactBody(_, _, _) => ArtifactKind
    case UploadBody(_, _) => UploadKind
    case OtherBody(name) => OtherKind(name)
  }

  // ---------------------------------------------------------------- what a sound dump is

  predicate BlobsOk(rows: seq<BlobRow>) {
    && (forall i :: 0 <= i < |rows| ==> rows[i].sha == Sha256(rows[i].content))
    && (forall i, j :: 0 <= i < j < |rows| ==> rows[i].sha != rows[j].sha)
  }

  predicate HasBlob(blobs: seq<BlobRow>, sha: Sha, size: nat) {
    exists i :: 0 <= i < |blobs| && blobs[i].sha == sha && |blobs[i].content| == size
  }

  predicate EntityOk(blobs: seq<BlobRow>, row: EntityRow) {
    && row.kind == KindOf(row.body) && row.id == row.itemId && row.wellFormed
    && (row.body.UploadBody? ==> row.body.size <= MAX_UPLOAD && HasBlob(blobs, row.body.sha, row.body.size))
    && (row.body.ArtifactBody? ==> row.body.storage == row.body.sha && HasBlob(blobs, row.body.sha, row.body.size))
  }

  predicate DistinctEntities(rows: seq<EntityRow>) {
    forall i, j :: 0 <= i < j < |rows| ==> rows[i].kind != rows[j].kind || rows[i].id != rows[j].id
  }

  predicate EntitiesOk(blobs: seq<BlobRow>, rows: seq<EntityRow>) {
    DistinctEntities(rows) && forall i :: 0 <= i < |rows| ==> EntityOk(blobs, rows[i])
  }

  predicate HasEntity(rows: seq<EntityRow>, id: nat, body: Body) {
    exists i :: 0 <= i < |rows| && rows[i].id == id && rows[i].body == body
  }

  predicate IndexesOperation(rows: seq<OperationRow>, id: nat) {
    exists k :: 0 <= k < |rows| && rows[k].operation == id
  }

  predicate OperationsOk(entities: seq<EntityRow>, rows: seq<OperationRow>) {
    && (forall i :: 0 <= i < |rows| ==> HasEntity(entities, rows[i].operation, OperationBody(rows[i].slot, rows[i].digest)))
    && (forall i, j :: 0 <= i < j < |rows| ==> rows[i].operation != rows[j].operation)
    && (forall i :: 0 <= i < |entities| && entities[i].body.OperationBody? ==> IndexesOperation(rows, entities[i].id))
  }

  predicate ReservedFor(entities: seq<EntityRow>, row: Row, task: nat) {
    && HasEntity(entities, row.id, ReservationBody(task, row.budget, row.action))
    && HasEntity(entities, row.budget, BudgetBody(task))
    && HasEntity(entities, row.action, ActionBody(task))
  }

  /** The row's entity, its budget and its Action all exist and belong to one Task. */
  ghost predicate ReservationOk(entities: seq<EntityRow>, row: Row) {
    exists task: nat :: ReservedFor(entities, row, task)
  }

  ghost predicate ReservationsOk(entities: seq<EntityRow>, rows: seq<Row>) {
    && (forall i :: 0 <= i < |rows| ==> ReservationOk(entities, rows[i]))
    && Distinct(rows)
    && (forall i :: 0 <= i < |entities| && entities[i].body.ReservationBody? ==>
          exists j :: 0 <= j < |rows| && rows[j].id == entities[i].id)
  }

  predicate StreamsOk(rows: seq<StreamRow>) {
    && (forall i :: 0 <= i < |rows| ==> 0 <= rows[i].floor <= rows[i].sequence <= MAX_INT)
    && (forall i, j :: 0 <= i < j < |rows| ==> rows[i].task != rows[j].task)
  }

  predicate TombstonesOk(ids: seq<nat>) {
    forall i, j :: 0 <= i < j < |ids| ==> ids[i] != ids[j]
  }

  predicate HasStream(streams: seq<StreamRow>, task: nat) {
    exists i :: 0 <= i < |streams| && streams[i].task == task
  }

  predicate EventOk(streams: seq<StreamRow>, tombstones: seq<nat>, row: EventRow) {
    && row.wellFormed
    && row.item.task == row.task && row.item.sequence == row.sequence && row.item.id == row.id
    && row.id in tombstones && HasStream(streams, row.task)
  }

  /** The sequence numbers of one Task's rows, in dump order. */
  function Sequences(rows: seq<EventRow>, task: nat): seq<int> {
    if rows == [] then []
    else
      var last := rows[|rows| - 1];
      Sequences(rows[..|rows| - 1], task) + (if last.task == task then [last.sequence] else [])
  }

  predicate CountsUp(numbers: seq<int>, floor: int) {
    forall k :: 0 <= k < |numbers| ==> numbers[k] == floor + k + 1
  }

  /** One stream's retained rows are exactly floor+1, ..., sequence. */
  predicate StreamWhole(rows: seq<EventRow>, stream: StreamRow) {
    CountsUp(Sequences(rows, stream.task), stream.floor)
    && |Sequences(rows, stream.task)| == stream.sequence - stream.floor
  }

  predicate EventsOk(streams: seq<StreamRow>, tombstones: seq<nat>, rows: seq<EventRow>) {
    && (forall i :: 0 <= i < |rows| ==> EventOk(streams, tombstones, rows[i]))
    && (forall i :: 0 <= i < |streams| ==> StreamWhole(rows, streams[i]))
  }

  predicate HasAction(entities: seq<EntityRow>, id: nat) {
    exists j :: 0 <= j < |entities| && entities[j].id == id && entities[j].body.ActionBody?
  }

  predicate OutboxOk(entities: seq<EntityRow>, rows: seq<OutboxRow>) {
    forall i :: 0 <= i < |rows| ==> rows[i].known && rows[i].isObject && HasAction(entities, rows[i].action)
  }

  predicate LeasesOk(rows: seq<LeaseRow>) {
    forall i :: 0 <= i < |rows| ==> 1 <= rows[i].token <= MAX_INT
  }

  ghost predicate SnapshotOk(d: Dump) {
    && BlobsOk(d.blobs) && EntitiesOk(d.blobs, d.entities)
    && OperationsOk(d.entities, d.operations) && ReservationsOk(d.entities, d.reservations)
    && StreamsOk(d.streams) && TombstonesOk(d.tombstones) && EventsOk(d.streams, d.tombstones, d.events)
    && OutboxOk(d.entities, d.outbox) && LeasesOk(d.leases)
  }

  // ---------------------------------------------------------------- the validator

  ghost predicate SizesOf(sizes: map<Sha, nat>, rows: seq<BlobRow>) {
    && (forall sha :: sha in sizes ==> HasBlob(rows, sha, sizes[sha]))
    && (forall i :: 0 <= i < |rows| ==> rows[i].sha in sizes)
  }

  method CheckBlobs(rows: seq<BlobRow>) returns (ok: bool, sizes: map<Sha, nat>)
    ensures ok <==> BlobsOk(rows)
    ensures ok ==> SizesOf(sizes, rows)
  {
    ok, sizes := true, map[];
    for i := 0 to |rows|
      invariant BlobsOk(rows[..i]) && SizesOf(sizes, rows[..i])
    {
      var row := rows[i];
      if row.sha != Sha256(row.content) || row.sha in sizes {
        if row.sha in sizes {
          assert HasBlob(rows[..i], row.sha, sizes[row.sha]);
          var k :| 0 <= k < |rows[..i]| && rows[..i][k].sha == row.sha;
          assert rows[k].sha == row.sha;
        }
        return false, sizes;
      }
      ghost var before := sizes;
      sizes := sizes[row.sha := |row.content|];
      forall sha | sha in sizes ensures HasBlob(rows[..i + 1], sha, sizes[sha]) {
        if sha == row.sha {
          assert rows[..i + 1][i] == row;
        } else {
          assert HasBlob(rows[..i], sha, before[sha]);
          var k :| 0 <= k < i && rows[..i][k].sha == sha && |rows[..i][k].content| == before[sha];
          assert rows[..i + 1][k] == rows[..i][k];
        }
      }
      assert rows[..i + 1] == rows[..i] + [row];
    }
    assert rows[..|rows|] == rows;
  }

  lemma BlobSize(blobs: seq<BlobRow>, sizes: map<Sha, nat>, sha: Sha, size: nat)
    requires BlobsOk(blobs) && SizesOf(sizes, blobs)
    ensures HasBlob(blobs, sha, size) <==> sha in sizes && sizes[sha] == size
  {
    if HasBlob(blobs, sha, size) {
      var i :| 0 <= i < |blobs| && blobs[i].sha == sha && |blobs[i].content| == size;
      assert HasBlob(blobs, sha, sizes[sha]);
    }
  }

  /** The entity map the later sections look rows up in. */
  type Entities = map<(Kind, nat), Body>

  ghost predicate MapOf(table: Entities, rows: seq<EntityRow>) {
    && (forall i :: 0 <= i < |rows| ==> (rows[i].kind, rows[i].id) in table && table[(rows[i].kind, rows[i].id)] == rows[i].body)
    && (forall key :: key in table ==> exists i :: 0 <= i < |rows| && (rows[i].kind, rows[i].id) == key)
  }

  method CheckEntity(blobs: seq<BlobRow>, sizes: map<Sha, nat>, row: EntityRow) returns (ok: bool)
    requires BlobsOk(blobs) && SizesOf(sizes, blobs)
    ensures ok <==> EntityOk(blobs, row)
  {
    if row.kind != KindOf(row.body) || row.id != row.itemId || !row.wellFormed {
      return false;
    }
    if row.body.UploadBody? {
      BlobSize(blobs, sizes, row.body.sha, row.body.size);
      return row.body.size <= MAX_UPLOAD && row.body.sha in sizes && sizes[row.body.sha] == row.body.size;
    }
    if row.body.ArtifactBody? {
      BlobSize(blobs, sizes, row.body.sha, row.body.size);
      return row.body.sha in sizes && sizes[row.body.sha] == row.body.size && row.body.storage == row.body.sha;
    }
    return true;
  }

  lemma MapExtended(table: Entities, rows: seq<EntityRow>, row: EntityRow)
    requires MapOf(table, rows) && DistinctEntities(rows)
    ensures (row.kind, row.id) !in table ==>
              MapOf(table[(row.kind, row.id) := row.body], rows + [row]) && DistinctEntities(rows + [row])
    ensures (row.kind, row.id) in table ==> !DistinctEntities(rows + [row])
  {
    var all := rows + [row];
    var key := (row.kind, row.id);
    if key in table {
      var i :| 0 <= i < |rows| && (rows[i].kind, rows[i].id) == key;
      assert all[i] == rows[i] && all[|rows|] == row;
    } else {
      var next := table[key := row.body];
      forall k | k in next ensures exists i :: 0 <= i < |all| && (all[i].kind, all[i].id) == k {
        if k == key {
          assert all[|rows|] == row;
        } else {
          var i :| 0 <= i < |rows| && (rows[i].kind, rows[i].id) == k;
          assert all[i] == rows[i];
        }
      }
    }
  }

  lemma DistinctPrefix(rows: seq<EntityRow>, n: nat)
    requires n <= |rows|
    ensures DistinctEntities(rows) ==>
              DistinctEntities(rows[..n])
  {
  }

  method CheckEntities(blobs: seq<BlobRow>, sizes: map<Sha, nat>, rows: seq<EntityRow>)
    returns (ok: bool, table: Entities)
    requires BlobsOk(blobs) && SizesOf(sizes, blobs)
    ensures ok <==> EntitiesOk(blobs, rows)
    ensures ok ==> MapOf(table, rows)
  {
    ok, table := true, map[];
    for i := 0 to |rows|
      invariant DistinctEntities(rows[..i]) && MapOf(table, rows[..i])
      invariant forall k :: 0 <= k < i ==> EntityOk(blobs, rows[k])
    {
      var row := rows[i];
      assert rows[..i + 1] == rows[..i] + [row];
      MapExtended(table, rows[..i], row);
      var sound := CheckEntity(blobs, sizes, row);
      if !sound {
        return false, table;
      }
      if (row.kind, row.id) in table {
        DistinctPrefix(rows, i + 1);
        return false, table;
      }
      table := table[(row.kind, row.id) := row.body];
    }
    assert rows[..|rows|] == rows;
  }

  ghost predicate Lookups(table: Entities, entities: seq<EntityRow>) {
    MapOf(table, entities) && (forall i :: 0 <= i < |entities| ==> entities[i].kind == KindOf(entities[i].body))
  }

  lemma EntityLookup(table: Entities, entities: seq<EntityRow>, id: nat, body: Body)
    requires Lookups(table, entities)
    ensures HasEntity(entities, id, body) <==> (KindOf(body), id) in table && table[(KindOf(body), id)] == body
  {
    if (KindOf(body), id) in table && table[(KindOf(body), id)] == body {
      var i :| 0 <= i < |entities| && (entities[i].kind, entities[i].id) == (KindOf(body), id);
      assert entities[i].body == body;
    }
  }

  predicate OperationRowsSound(entities: seq<EntityRow>, rows: seq<OperationRow>) {
    && (forall i :: 0 <= i < |rows| ==> HasEntity(entities, rows[i].operation, OperationBody(rows[i].slot, rows[i].digest)))
    && (forall i, j :: 0 <= i < j < |rows| ==> rows[i].operation != rows[j].operation)
  }

  lemma OperationRowsStep(entities: seq<EntityRow>, rows: seq<OperationRow>, row: OperationRow)
    requires OperationRowsSound(entities, rows)
    ensures OperationRowsSound(entities, rows + [row])
            <==> HasEntity(entities, row.operation, OperationBody(row.slot, row.digest)) && !IndexesOperation(rows, row.operation)
    ensures forall id :: IndexesOperation(rows + [row], id) <==> IndexesOperation(rows, id) || id == row.operation
  {
    var all := rows + [row];
    assert all[|rows|] == row;
    forall id ensures IndexesOperation(all, id) <==> IndexesOperation(rows, id) || id == row.operation {
      if IndexesOperation(rows, id) {
        var k :| 0 <= k < |rows| && rows[k].operation == id;
        assert all[k].operation == id;
      }
    }
    if IndexesOperation(rows, row.operation) {
      var k :| 0 <= k < |rows| && rows[k].operation == row.operation;
      assert all[k].operation == row.operation;
    }
  }

  lemma OperationRowsPrefix(entities: seq<EntityRow>, rows: seq<OperationRow>, n: nat)
    requires n <= |rows|
    ensures OperationRowsSound(entities, rows) ==>
              OperationRowsSound(entities, rows[..n])
  {
  }

  method CheckOperationRows(table: Entities, entities: seq<EntityRow>, rows: seq<OperationRow>)
    returns (ok: bool, indexed: set<nat>)
    requires Lookups(table, entities)
    ensures ok <==> OperationRowsSound(entities, rows)
    ensures ok ==> forall id :: id in indexed <==> IndexesOperation(rows, id)
  {
    ok, indexed := true, {};
    for i := 0 to |rows|
      invariant OperationRowsSound(entities, rows[..i])
      invariant forall id :: id in indexed <==> IndexesOperation(rows[..i], id)
    {
      var row := rows[i];
      assert rows[..i + 1] == rows[..i] + [row];
      OperationRowsStep(entities, rows[..i], row);
      EntityLookup(table, entities, row.operation, OperationBody(row.slot, row.digest));
      if (OperationKind, row.operation) !in table
         || table[(OperationKind, row.operation)] != OperationBody(row.slot, row.digest)
         || row.operation in indexed
      {
        OperationRowsPrefix(entities, rows, i + 1);
        return false, indexed;
      }
      indexed := indexed + {row.operation};
    }
    assert rows[..|rows|] == rows;
  }

  lemma OperationsClosed(table: Entities, entities: seq<EntityRow>, rows: seq<OperationRow>, indexed: set<nat>)
    requires Lookups(table, entities) && OperationRowsSound(entities, rows)
    requires forall id :: id in indexed <==> IndexesOperation(rows, id)
    ensures OperationsOk(entities, rows) <==> indexed == set key | key in table && key.0 == OperationKind :: key.1
  {
    forall id | id in indexed ensures (OperationKind, id) in table {
      var k :| 0 <= k < |rows| && rows[k].operation == id;
      EntityLookup(table, entities, id, OperationBody(rows[k].slot, rows[k].digest));
    }
    IndexCovers(table, entities, OperationKind, indexed);
    assert Covered(entities, OperationKind, indexed) <==> OperationsOk(entities, rows);
  }

  method CheckOperations(table: Entities, entities: seq<EntityRow>, rows: seq<OperationRow>) returns (ok: bool)
    requires Lookups(table, entities)
    ensures ok <==> OperationsOk(entities, rows)
  {
    var sound, indexed := CheckOperationRows(table, entities, rows);
    if !sound {
      return false;
    }
    OperationsClosed(table, entities, rows, indexed);
    ok := SameIds(table, entities, OperationKind, indexed);
  }

  /** The indexed identities are exactly the entities of that kind. */
  ghost predicate Covered(entities: seq<EntityRow>, kind: Kind, indexed: set<nat>) {
    forall i :: 0 <= i < |entities| && entities[i].kind == kind ==> entities[i].id in indexed
  }

  method SameIds(table: Entities, ghost entities: seq<EntityRow>, kind: Kind, indexed: set<nat>) returns (same: bool)
    requires Lookups(table, entities)
    ensures same <==> indexed == set key | key in table && key.0 == kind :: key.1
  {
    same := indexed == set key | key in table && key.0 == kind :: key.1;
  }

  lemma IndexCovers(table: Entities, entities: seq<EntityRow>, kind: Kind, indexed: set<nat>)
    requires Lookups(table, entities)
    ensures (forall id :: id in indexed ==> (kind, id) in table) ==>
              (indexed == (set key | key in table && key.0 == kind :: key.1) <==> Covered(entities, kind, indexed))
  {
    var all := set key | key in table && key.0 == kind :: key.1;
    if forall id :: id in indexed ==> (kind, id) in table {
      forall id | id in indexed ensures id in all {
        assert (kind, id) in table;
      }
      if Covered(entities, kind, indexed) {
        forall id | id in all ensures id in indexed {
          assert (kind, id) in table;
          var i :| 0 <= i < |entities| && (entities[i].kind, entities[i].id) == (kind, id);
        }
      }
      if indexed == all {
        forall i | 0 <= i < |entities| && entities[i].kind == kind ensures entities[i].id in indexed {
          assert (kind, entities[i].id) in table;
        }
      }
    }
  }

  predicate ReservationLookup(table: Entities, row: Row) {
    && (ReservationKind, row.id) in table && table[(ReservationKind, row.id)].ReservationBody?
    && var item := table[(ReservationKind, row.id)];
       && item.budget == row.budget && item.action == row.action
       && (BudgetKind, row.budget) in table && table[(BudgetKind, row.budget)] == BudgetBody(item.task)
       && (ActionKind, row.action) in table && table[(ActionKind, row.action)] == ActionBody(item.task)
  }

  lemma ReservationLookupExact(table: Entities, entities: seq<EntityRow>, row: Row)
    requires Lookups(table, entities)
    ensures ReservationOk(entities, row) <==> ReservationLookup(table, row)
  {
    forall task: nat
      ensures ReservedFor(entities, row, task) <==>
                ReservationLookup(table, row) && table[(ReservationKind, row.id)].task == task
    {
      EntityLookup(table, entities, row.id, ReservationBody(task, row.budget, row.action));
      EntityLookup(table, entities, row.budget, BudgetBody(task));
      EntityLookup(table, entities, row.action, ActionBody(task));
    }
    if ReservationLookup(table, row) {
      assert ReservedFor(entities, row, table[(ReservationKind, row.id)].task);
    }
  }

  ghost predicate IdsOf(indexed: set<nat>, rows: seq<Row>) {
    forall id :: id in indexed <==> Indexed(rows, id)
  }

  ghost predicate RowsSound(entities: seq<EntityRow>, rows: seq<Row>) {
    Distinct(rows) && AllReserved(entities, rows)
  }

  ghost predicate AllReserved(entities: seq<EntityRow>, rows: seq<Row>) {
    forall i :: 0 <= i < |rows| ==> ReservationOk(entities, rows[i])
  }

  lemma IndexedSnoc(rows: seq<Row>, row: Row, id: nat)
    ensures Indexed(rows + [row], id) <==> Indexed(rows, id) || id == row.id
  {
    var all := rows + [row];
    assert all[|rows|] == row;
    if Indexed(rows, id) {
      var k :| 0 <= k < |rows| && rows[k].id == id;
      assert all[k].id == id;
    }
  }

  lemma DistinctSnoc(rows: seq<Row>, row: Row)
    requires Distinct(rows)
    ensures Distinct(rows + [row]) <==> !Indexed(rows, row.id)
  {
    var all := rows + [row];
    assert all[|rows|] == row;
    if Indexed(rows, row.id) {
      var k :| 0 <= k < |rows| && rows[k].id == row.id;
      assert all[k].id == row.id;
    }
  }

  lemma AllReservedSnoc(entities: seq<EntityRow>, rows: seq<Row>, row: Row)
    requires AllReserved(entities, rows)
    ensures AllReserved(entities, rows + [row]) <==> ReservationOk(entities, row)
  {
    var all := rows + [row];
    assert all[|rows|] == row;
    assert forall i :: 0 <= i < |rows| ==> all[i] == rows[i];
  }

  lemma RowsSoundStep(entities: seq<EntityRow>, rows: seq<Row>, row: Row, indexed: set<nat>)
    requires RowsSound(entities, rows) && IdsOf(indexed, rows)
    ensures RowsSound(entities, rows + [row]) <==> ReservationOk(entities, row) && row.id !in indexed
    ensures IdsOf(indexed + {row.id}, rows + [row])
  {
    forall id ensures Indexed(rows + [row], id) <==> Indexed(rows, id) || id == row.id {
      IndexedSnoc(rows, row, id);
    }
    DistinctSnoc(rows, row);
    AllReservedSnoc(entities, rows, row);
  }

  lemma RowsSoundPrefix(entities: seq<EntityRow>, rows: seq<Row>, n: nat)
    requires n <= |rows|
    ensures RowsSound(entities, rows) ==>
              RowsSound(entities, rows[..n])
  {
  }

  method CheckReservationRows(table: Entities, entities: seq<EntityRow>, rows: seq<Row>)
    returns (ok: bool, indexed: set<nat>)
    requires Lookups(table, entities)
    ensures ok <==> RowsSound(entities, rows)
    ensures ok ==> IdsOf(indexed, rows)
  {
    ok, indexed := true, {};
    for i := 0 to |rows|
      invariant RowsSound(entities, rows[..i]) && IdsOf(indexed, rows[..i])
    {
      var row := rows[i];
      assert rows[..i + 1] == rows[..i] + [row];
      RowsSoundStep(entities, rows[..i], row, indexed);
      ReservationLookupExact(table, entities, row);
      var sound := CheckReservation(table, row);
      if !sound || row.id in indexed {
        RowsSoundPrefix(entities, rows, i + 1);
        return false, indexed;
      }
      indexed := indexed + {row.id};
    }
    assert rows[..|rows|] == rows;
  }

  lemma ReservationsClosed(table: Entities, entities: seq<EntityRow>, rows: seq<Row>, indexed: set<nat>)
    requires Lookups(table, entities) && RowsSound(entities, rows) && IdsOf(indexed, rows)
    ensures ReservationsOk(entities, rows) <==> indexed == set key | key in table && key.0 == ReservationKind :: key.1
  {
    forall id | id in indexed ensures (ReservationKind, id) in table {
      var k :| 0 <= k < |rows| && rows[k].id == id;
      assert ReservationOk(entities, rows[k]);
      ReservationLookupExact(table, entities, rows[k]);
    }
    IndexCovers(table, entities, ReservationKind, indexed);
    assert Covered(entities, ReservationKind, indexed) <==> ReservationsOk(entities, rows);
  }

  method CheckReservations(table: Entities, entities: seq<EntityRow>, rows: seq<Row>) returns (ok: bool)
    requires Lookups(table, entities)
    ensures ok <==> ReservationsOk(entities, rows)
  {
    var sound, indexed := CheckReservationRows(table, entities, rows);
    if !sound {
      return false;
    }
    ReservationsClosed(table, entities, rows, indexed);
    ok := SameIds(table, entities, ReservationKind, indexed);
  }

  method CheckReservation(table: Entities, row: Row) returns (ok: bool)
    ensures ok <==> ReservationLookup(table, row)
  {
    if (ReservationKind, row.id) !in table {
      return false;
    }
    var item := table[(ReservationKind, row.id)];
    if !item.ReservationBody? || item.budget != row.budget || item.action != row.action {
      return false;
    }
    if (BudgetKind, row.budget) !in table || (ActionKind, row.action) !in table {
      return false;
    }
    return table[(BudgetKind, row.budget)] == BudgetBody(item.task)
           && table[(ActionKind, row.action)] == ActionBody(item.task);
  }

  method CheckTombstones(ids: seq<nat>) returns (ok: bool, tombstones: set<nat>)
    ensures ok <==> TombstonesOk(ids)
    ensures ok ==> tombstones == set id | id in ids
  {
    ok, tombstones := true, {};
    for i := 0 to |ids|
      invariant TombstonesOk(ids[..i])
      invariant tombstones == set id | id in ids[..i]
    {
      assert ids[..i + 1] == ids[..i] + [ids[i]];
      if ids[i] in tombstones {
        var k :| 0 <= k < |ids[..i]| && ids[..i][k] == ids[i];
        assert ids[k] == ids[i];
        return false, tombstones;
      }
      tombstones := tombstones + {ids[i]};
    }
    assert ids[..|ids|] == ids;
  }

  /** A stream being counted: its bounds and how many of its rows have been seen. */
  datatype Counter = Counter(latest: int, floor: int, count: int)

  ghost predicate CountersOf(counters: map<nat, Counter>, streams: seq<StreamRow>) {
    && (forall i :: 0 <= i < |streams| ==>
          streams[i].task in counters
          && counters[streams[i].task].latest == streams[i].sequence && counters[streams[i].task].floor == streams[i].floor)
    && (forall task :: task in counters ==> HasStream(streams, task))
  }

  lemma HasStreamSnoc(rows: seq<StreamRow>, row: StreamRow, task: nat)
    ensures HasStream(rows + [row], task) <==> HasStream(rows, task) || task == row.task
  {
    var all := rows + [row];
    assert all[|rows|] == row;
    if HasStream(rows, task) {
      var k :| 0 <= k < |rows| && rows[k].task == task;
      assert all[k].task == task;
    }
  }

  /** One stream row: it is new and its bounds are in order, or the table is unsound. */
  lemma StreamStep(rows: seq<StreamRow>, i: nat, counters: map<nat, Counter>)
    requires i < |rows| && StreamsOk(rows[..i]) && CountersOf(counters, rows[..i])
    ensures var row := rows[i];
            if 0 <= row.floor <= row.sequence <= MAX_INT && row.task !in counters then
              StreamsOk(rows[..i + 1])
              && CountersOf(counters[row.task := Counter(row.sequence, row.floor, 0)], rows[..i + 1])
            else !StreamsOk(rows)
  {
    var row, before := rows[i], rows[..i];
    assert rows[..i + 1] == before + [row];
    forall task ensures HasStream(before + [row], task) <==> HasStream(before, task) || task == row.task {
      HasStreamSnoc(before, row, task);
    }
    if row.task in counters {
      assert HasStream(before, row.task);
      var k :| 0 <= k < |before| && before[k].task == row.task;
      assert rows[k].task == row.task;
    }
  }

  method CheckStreams(rows: seq<StreamRow>) returns (ok: bool, counters: map<nat, Counter>)
    ensures ok <==> StreamsOk(rows)
    ensures ok ==> CountersOf(counters, rows) && forall task :: task in counters ==> counters[task].count == 0
  {
    ok, counters := true, map[];
    for i := 0 to |rows|
      invariant StreamsOk(rows[..i]) && CountersOf(counters, rows[..i])
      invariant forall task :: task in counters ==> counters[task].count == 0
    {
      var row := rows[i];
      StreamStep(rows, i, counters);
      if !(0 <= row.floor <= row.sequence <= MAX_INT) || row.task in counters {
        return false, counters;
      }
      counters := counters[row.task := Counter(row.sequence, row.floor, 0)];
    }
    assert rows[..|rows|] == rows;
    return true, counters;
  }

  /** Every counter has seen exactly its own rows so far, and they count up from its floor. */
  ghost predicate Counted(counters: map<nat, Counter>, rows: seq<EventRow>) {
    forall task :: task in counters ==>
      |Sequences(rows, task)| == counters[task].count && CountsUp(Sequences(rows, task), counters[task].floor)
  }

  lemma CountedStep(counters: map<nat, Counter>, rows: seq<EventRow>, row: EventRow)
    requires Counted(counters, rows) && row.task in counters
    requires row.sequence == counters[row.task].floor + counters[row.task].count + 1
    ensures Counted(counters[row.task := counters[row.task].(count := counters[row.task].count + 1)], rows + [row])
  {
    var next := counters[row.task := counters[row.task].(count := counters[row.task].count + 1)];
    assert (rows + [row])[..|rows|] == rows;
    forall task | task in next
      ensures |Sequences(rows + [row], task)| == next[task].count && CountsUp(Sequences(rows + [row], task), next[task].floor)
    {
      assert |Sequences(rows, task)| == counters[task].count;
    }
  }

  lemma {:induction false} SequencesPrefix(rows: seq<EventRow>, n: nat, task: nat)
    requires n <= |rows|
    ensures Sequences(rows[..n], task) <= Sequences(rows, task)
    decreases |rows|
  {
    if n == |rows| {
      assert rows[..n] == rows;
    } else {
      var front := rows[..|rows| - 1];
      assert front[..n] == rows[..n];
      SequencesPrefix(front, n, task);
    }
  }

  /** A row out of turn spoils its stream, whatever follows. */
  lemma OutOfTurn(counters: map<nat, Counter>, streams: seq<StreamRow>, ids: seq<nat>, rows: seq<EventRow>, i: nat)
    requires i < |rows| && CountersOf(counters, streams) && Counted(counters, rows[..i])
    requires rows[i].task in counters
    requires rows[i].sequence != counters[rows[i].task].floor + counters[rows[i].task].count + 1
    ensures !EventsOk(streams, ids, rows)
  {
    var task := rows[i].task;
    var prefix := rows[..i + 1];
    assert prefix[..i] == rows[..i];
    assert |Sequences(rows[..i], task)| == counters[task].count;
    assert Sequences(prefix, task)[counters[task].count] == rows[i].sequence;
    SequencesPrefix(rows, i + 1, task);
    assert Sequences(rows, task)[counters[task].count] == rows[i].sequence;
    assert HasStream(streams, task);
    var k :| 0 <= k < |streams| && streams[k].task == task;
    assert !StreamWhole(rows, streams[k]);
  }

  /** The row against its own payload, the tombstones and the known streams. */
  method CheckEventRow(counters: map<nat, Counter>, streams: seq<StreamRow>, tombstones: set<nat>, ids: seq<nat>,
                       row: EventRow) returns (ok: bool)
    requires CountersOf(counters, streams) && tombstones == set id | id in ids
    ensures ok <==> EventOk(streams, ids, row)
    ensures ok ==> row.task in counters
  {
    if !row.wellFormed || row.item.task != row.task || row.item.sequence != row.sequence || row.item.id != row.id {
      return false;
    }
    ok := row.id in tombstones && row.task in counters;
  }

  function Count(counters: map<nat, Counter>, task: nat): map<nat, Counter>
    requires task in counters
  {
    counters[task := counters[task].(count := counters[task].count + 1)]
  }

  /** The counting loop's state after `rows`: every row sound, every counter up to date. */
  ghost predicate Counting(counters: map<nat, Counter>, streams: seq<StreamRow>, ids: seq<nat>, rows: seq<EventRow>) {
    && CountersOf(counters, streams) && Counted(counters, rows)
    && forall k :: 0 <= k < |rows| ==> EventOk(streams, ids, rows[k])
  }

  lemma CountKeeps(counters: map<nat, Counter>, streams: seq<StreamRow>, task: nat)
    requires CountersOf(counters, streams) && task in counters
    ensures CountersOf(Count(counters, task), streams)
  {
  }

  lemma CountingStep(counters: map<nat, Counter>, streams: seq<StreamRow>, ids: seq<nat>, rows: seq<EventRow>, row: EventRow)
    requires Counting(counters, streams, ids, rows) && EventOk(streams, ids, row) && row.task in counters
    requires row.sequence == counters[row.task].floor + counters[row.task].count + 1
    ensures Counting(Count(counters, row.task), streams, ids, rows + [row])
  {
    CountedStep(counters, rows, row);
    CountKeeps(counters, streams, row.task);
  }

  lemma CountingAt(counters: map<nat, Counter>, streams: seq<StreamRow>, ids: seq<nat>, rows: seq<EventRow>, i: nat)
    requires i < |rows| && Counting(counters, streams, ids, rows[..i]) && EventOk(streams, ids, rows[i])
    requires rows[i].task in counters
    requires rows[i].sequence == counters[rows[i].task].floor + counters[rows[i].task].count + 1
    ensures Counting(Count(counters, rows[i].task), streams, ids, rows[..i + 1])
  {
    assert rows[..i + 1] == rows[..i] + [rows[i]];
    CountingStep(counters, streams, ids, rows[..i], rows[i]);
  }

  lemma UnsoundRow(streams: seq<StreamRow>, ids: seq<nat>, rows: seq<EventRow>, i: nat)
    requires i < |rows| && !EventOk(streams, ids, rows[i])
    ensures !EventsOk(streams, ids, rows)
  {
  }

  method CountEvent(streams: seq<StreamRow>, counters: map<nat, Counter>, tombstones: set<nat>, ids: seq<nat>,
                    rows: seq<EventRow>, i: nat) returns (ok: bool, next: map<nat, Counter>)
    requires i < |rows| && Counting(counters, streams, ids, rows[..i]) && tombstones == set id | id in ids
    ensures ok ==> Counting(next, streams, ids, rows[..i + 1])
    ensures !ok ==> !EventsOk(streams, ids, rows)
  {
    var row := rows[i];
    next := counters;
    ok := CheckEventRow(counters, streams, tombstones, ids, row);
    if !ok {
      UnsoundRow(streams, ids, rows, i);
      return;
    }
    if row.sequence != counters[row.task].floor + counters[row.task].count + 1 {
      OutOfTurn(counters, streams, ids, rows, i);
      return false, counters;
    }
    CountingAt(counters, streams, ids, rows, i);
    next := Count(counters, row.task);
  }

  method CountEvents(streams: seq<StreamRow>, start: map<nat, Counter>, tombstones: set<nat>, ids: seq<nat>,
                     rows: seq<EventRow>) returns (ok: bool, counters: map<nat, Counter>)
    requires CountersOf(start, streams) && tombstones == set id | id in ids
    requires forall task :: task in start ==> start[task].count == 0
    ensures ok ==> Counting(counters, streams, ids, rows)
    ensures !ok ==> !EventsOk(streams, ids, rows)
  {
    ok, counters := true, start;
    for i := 0 to |rows|
      invariant ok && Counting(counters, streams, ids, rows[..i])
    {
      ok, counters := CountEvent(streams, counters, tombstones, ids, rows, i);
      if !ok {
        return;
      }
    }
    assert rows[..|rows|] == rows;
  }

  method CheckEvents(streams: seq<StreamRow>, start: map<nat, Counter>, tombstones: set<nat>, ids: seq<nat>,
                     rows: seq<EventRow>) returns (ok: bool)
    requires CountersOf(start, streams) && tombstones == set id | id in ids
    requires forall task :: task in start ==> start[task].count == 0
    ensures ok <==> EventsOk(streams, ids, rows)
  {
    var sound, counters := CountEvents(streams, start, tombstones, ids, rows);
    if !sound {
      return false;
    }
    WholeStreams(counters, streams, rows);
    ok := forall task :: task in counters ==> counters[task].count == counters[task].latest - counters[task].floor;
  }

  lemma WholeStreams(counters: map<nat, Counter>, streams: seq<StreamRow>, rows: seq<EventRow>)
    requires CountersOf(counters, streams) && Counted(counters, rows)
    ensures (forall task :: task in counters ==> counters[task].count == counters[task].latest - counters[task].floor)
            <==> forall i :: 0 <= i < |streams| ==> StreamWhole(rows, streams[i])
  {
    if forall i :: 0 <= i < |streams| ==> StreamWhole(rows, streams[i]) {
      forall task | task in counters ensures counters[task].count == counters[task].latest - counters[task].floor {
        assert HasStream(streams, task);
        var i :| 0 <= i < |streams| && streams[i].task == task;
        assert StreamWhole(rows, streams[i]);
      }
    } else {
      var i :| 0 <= i < |streams| && !StreamWhole(rows, streams[i]);
      assert streams[i].task in counters;
    }
  }

  method CheckOutbox(table: Entities, entities: seq<EntityRow>, rows: seq<OutboxRow>) returns (ok: bool)
    requires Lookups(table, entities)
    ensures ok <==> OutboxOk(entities, rows)
  {
    for i := 0 to |rows|
      invariant OutboxOk(entities, rows[..i])
    {
      var row := rows[i];
      assert rows[..i + 1] == rows[..i] + [row];
      if (ActionKind, row.action) !in table || !row.known || !row.isObject {
        return false;
      }
      var j :| 0 <= j < |entities| && (entities[j].kind, entities[j].id) == (ActionKind, row.action);
      assert entities[j].body.ActionBody?;
    }
    assert rows[..|rows|] == rows;
    return true;
  }

  method CheckLeases(rows: seq<LeaseRow>) returns (ok: bool)
    ensures ok <==> LeasesOk(rows)
  {
    for i := 0 to |rows|
      invariant LeasesOk(rows[..i])
    {
      if !(1 <= rows[i].token <= MAX_INT) {
        return false;
      }
      assert rows[..i + 1] == rows[..i] + [rows[i]];
    }
    assert rows[..|rows|] == rows;
    return true;
  }

  /** `_validate_control_snapshot`: section by section, refusing at the first unsound row; it
      accepts a dump exactly when every section is sound. */
  method Validate(d: Dump) returns (ok: bool)
    ensures ok <==> SnapshotOk(d)
  {
    var blobsOk, sizes := CheckBlobs(d.blobs);
    if !blobsOk {
      return false;
    }
    var entitiesOk, table := CheckEntities(d.blobs, sizes, d.entities);
    if !entitiesOk {
      return false;
    }
    assert Lookups(table, d.entities);
    var operationsOk := CheckOperations(table, d.entities, d.operations);
    if !operationsOk {
      return false;
    }
    var reservationsOk := CheckReservations(table, d.entities, d.reservations);
    if !reservationsOk {
      return false;
    }
    var streamsOk, counters := CheckStreams(d.streams);
    if !streamsOk {
      return false;
    }
    var tombstonesOk, tombstones := CheckTombstones(d.tombstones);
    if !tombstonesOk {
      return false;
    }
    var eventsOk := CheckEvents(d.streams, counters, tombstones, d.tombstones, d.events);
    if !eventsOk {
      return false;
    }
    var outboxOk := CheckOutbox(table, d.entities, d.outbox);
    if !outboxOk {
      return false;
    }
    ok := CheckLeases(d.leases);
  }
}
