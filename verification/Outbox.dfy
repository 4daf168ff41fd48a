/** The control store's outbox rows and its idempotency index of accepted commands. */
module Outbox {
  import opened Wrappers

  datatype DeliveryStatus = Pending | Delivering | Done

  datatype Delivery = Delivery(payload: nat, status: DeliveryStatus)

  function Enqueue(row: Option<Delivery>, payload: nat): (r: Result<Delivery>) {
    match row
    case None => Ok(Delivery(payload, Pending))
    case Some(delivery) => if delivery.payload == payload then Ok(delivery) else Err(IdempotencyConflict)
  }

  function Mark(row: Option<Delivery>): (r: Result<Delivery>) {
    match row
    case None => Err(NotFound)
    case Some(delivery) =>
      match delivery.status
      case Pending => Ok(delivery.(status := Delivering))
      case Delivering => Err(UnknownRemote)
      case Done => Err(InvalidState)
  }

  function Finish(row: Option<Delivery>): (r: Result<Delivery>) {
    match row
    case None => Err(NotFound)
    case Some(delivery) => Ok(delivery.(status := Done))
  }

  // ---------------------------------------------------------------- runs of one row

  datatype Op = DoEnqueue(payload: nat) | DoMark | DoFinish

  /** The row and the payloads handed to a deliverer, oldest first. */
  datatype Line = Line(row: Option<Delivery>, handed: seq<nat>)

  function Apply(line: Line, op: Op): Line {
    var r := match op
             case DoEnqueue(payload) => Enqueue(line.row, payload)
             case DoMark => Mark(line.row)
             case DoFinish => Finish(line.row);
    if r.Err? then line
    else Line(Some(r.value), if op.DoMark? then line.handed + [r.value.payload] else line.handed)
  }

  function Run(line: Line, ops: seq<Op>): Line
    decreases |ops|
  {
    if ops == [] then line else Run(Apply(line, ops[0]), ops[1..])
  }

  predicate LineOk(line: Line) {
    match line.row
    case None => line.handed == []
    case Some(delivery) =>
      match delivery.status
      case Pending => line.handed == []
      case Delivering => line.handed == [delivery.payload]
      case Done => line.handed == [] || line.handed == [delivery.payload]
  }

  /** Over every run an Action is handed to a deliverer at most once, and with the payload it was
      first enqueued with. */
  lemma {:induction false} HandedAtMostOnce(line: Line, ops: seq<Op>)
    requires LineOk(line)
    ensures LineOk(Run(line, ops)) && |Run(line, ops).handed| <= 1
    ensures line.row.Some? ==>
              Run(line, ops).row.Some? && Run(line, ops).row.value.payload == line.row.value.payload
    decreases |ops|
  {
    if ops != [] {
      HandedAtMostOnce(Apply(line, ops[0]), ops[1..]);
    }
  }

  // ---------------------------------------------------------------- accepted commands

  datatype CommandKey = CommandKey(principal: nat, method_: nat, key: nat)

  datatype Operation = Operation(principal: nat, method_: nat, key: nat, payloadSha: nat, outcome: nat)

  datatype IndexRow = IndexRow(operation: nat, digest: nat)

  /** The idempotency index and the Operation entities it points at. */
  datatype Commands = Commands(index: map<CommandKey, IndexRow>, operations: map<nat, Operation>)

  predicate Taken(c: Commands, id: nat) {
    exists key :: key in c.index && c.index[key].operation == id
  }

  /** `save_operation`: the entity that now answers for the key. */
  function Save(c: Commands, id: nat, operation: Operation, principal: nat, key: nat, digest: nat):
    (r: Result<(Commands, Operation)>)
  {
    var slot := CommandKey(principal, operation.method_, key);
    if slot in c.index then
      if c.index[slot].digest != digest then Err(IdempotencyConflict)
      else if c.index[slot].operation in c.operations then Ok((c, c.operations[c.index[slot].operation]))
      else Err(NotFound)
    else if Taken(c, id) then Err(IdempotencyConflict)
    else Ok((Commands(c.index[slot := IndexRow(id, digest)], c.operations[id := operation]), operation))
  }

  predicate Agrees(c: Commands, slot: CommandKey)
    requires slot in c.index
  {
    var row := c.index[slot];
    && row.operation in c.operations
    && var o := c.operations[row.operation];
       CommandKey(o.principal, o.method_, o.key) == slot && o.payloadSha == row.digest
  }

  /** The index and the entities describe the same commands, one to one. */
  ghost predicate CommandsOk(c: Commands) {
    && (forall slot :: slot in c.index ==> Agrees(c, slot))
    && (forall id :: id in c.operations ==> Taken(c, id))
  }

  predicate Faithful(operation: Operation, principal: nat, key: nat, digest: nat) {
    operation.principal == principal && operation.key == key && operation.payloadSha == digest
  }

  lemma SaveKeeps(c: Commands, id: nat, operation: Operation, principal: nat, key: nat, digest: nat)
    requires CommandsOk(c) && Faithful(operation, principal, key, digest)
    requires Save(c, id, operation, principal, key, digest).Ok?
    ensures CommandsOk(Save(c, id, operation, principal, key, digest).value.0)
  {
    var slot := CommandKey(principal, operation.method_, key);
    if slot !in c.index {
      var next := Save(c, id, operation, principal, key, digest).value.0;
      forall s | s in next.index ensures Agrees(next, s) {
        if s != slot {
          assert Agrees(c, s);
        }
      }
      forall o | o in next.operations ensures Taken(next, o) {
        if o == id {
          assert next.index[slot].operation == id;
        } else {
          assert Taken(c, o);
          var s :| s in c.index && c.index[s].operation == o;
          assert s in next.index && next.index[s].operation == o;
        }
      }
    }
  }

  /** A command is carried out once: any later save under its key returns the first entity when
      the digest is the same, is refused when it is not, and never changes the tables. */
  lemma SaveOnce(c: Commands, id: nat, first: Operation, principal: nat, key: nat, digest: nat,
                 id2: nat, second: Operation, digest2: nat)
    requires CommandsOk(c) && Save(c, id, first, principal, key, digest).Ok? && second.method_ == first.method_
    ensures var (next, answer) := Save(c, id, first, principal, key, digest).value;
            Save(next, id2, second, principal, key, digest2)
            == if digest2 == digest then Ok((next, answer)) else Err(IdempotencyConflict)
  {
    var slot := CommandKey(principal, first.method_, key);
    if slot in c.index {
      assert Agrees(c, slot);
    }
  }

  /** Handing over needs a pending row, and a row that was enqueued once keeps its payload; delivery can be called
      done at any time. */
  lemma DeliveredExactly(row: Option<Delivery>, payload: nat)
    ensures Mark(row).Ok? <==> row.Some? && row.value.status == Pending
    ensures Mark(row).Ok? ==> Mark(row).value == Delivery(row.value.payload, Delivering)
    ensures Finish(row).Ok? <==> row.Some?
    ensures Finish(row).Ok? ==> Finish(row).value == Delivery(row.value.payload, Done)
    ensures Enqueue(row, payload).Ok? <==> row.None? || row.value.payload == payload
    ensures Enqueue(row, payload).Ok? ==> Enqueue(row, payload).value == if row.None? then Delivery(payload, Pending) else row.value
  {
  }
}
