/** The control store of one namespace: every table, and the transactions that rewrite them in
    place. A transaction that raises restores the tables it had begun to change. */
module ControlStore {
  import opened Wrappers
  import opened ControlLedger
  import opened EventLog
  import opened Fencing
  import opened Outbox

  /** SHA-256 as an injective digest. */
  datatype Sha = Sha256(content: seq<nat>)

  function Lookup<V>(table: map<nat, V>, key: nat): Option<V> {
    if key in table then Some(table[key]) else None
  }

  /** What `get_blob` serves: content that still has the digest it is stored under. */
  function FetchBlob(blobs: map<Sha, seq<nat>>, sha: Sha): Result<seq<nat>> {
    if sha !in blobs then Err(NotFound)
    else if Sha256(blobs[sha]) != sha then Err(InvalidState)
    else Ok(blobs[sha])
  }

  /** `put_blob`: content new to the store is kept under its digest; what is kept must be what was put. */
  function KeepBlob(blobs: map<Sha, seq<nat>>, content: seq<nat>): Result<map<Sha, seq<nat>>> {
    var sha := Sha256(content);
    var kept := if sha in blobs then blobs else blobs[sha := content];
    if FetchBlob(kept, sha) == Ok(content) then Ok(kept) else Err(InvalidState)
  }

  datatype Totals = Totals(settled: nat, held: nat)

  function TotalOf(totals: map<Key, Totals>, key: Key): Totals {
    if key in totals then totals[key] else Totals(0, 0)
  }

  /** `_amounts`: one pass over the list, refusing at the first unusable entry. */
  method ParseAmounts(entries: seq<Entry>) returns (r: Result<Amounts>)
    ensures r == Parse(entries)
  {
    var seen: Amounts := map[];
    for i := 0 to |entries|
      invariant Parse(entries[..i]) == Ok(seen)
    {
      assert entries[..i + 1][..i] == entries[..i];
      if entries[i].key.meter.OtherMeter? || entries[i].key in seen
         || !(0 <= entries[i].amount <= MAX_INT)
      {
        RefusedPrefix(entries, i + 1);
        return Err(InvalidRequest);
      }
      seen := seen[entries[i].key := entries[i].amount];
    }
    assert entries[..|entries|] == entries;
    return Ok(seen);
  }

  lemma {:induction false} RefusedPrefix(entries: seq<Entry>, n: nat)
    requires n <= |entries| && Parse(entries[..n]).Err?
    ensures Parse(entries) == Err(InvalidRequest)
    decreases |entries|
  {
    if n == |entries| {
      assert entries[..n] == entries;
      RefusedWhole(entries);
    } else {
      var front := entries[..|entries| - 1];
      assert front[..n] == entries[..n];
      RefusedPrefix(front, n);
    }
  }

  lemma {:induction false} RefusedWhole(entries: seq<Entry>)
    requires Parse(entries).Err?
    ensures Parse(entries) == Err(InvalidRequest)
    decreases |entries|
  {
    var front := entries[..|entries| - 1];
    if Parse(front).Err? {
      RefusedWhole(front);
    }
  }

  lemma PrefixReads(entries: seq<Entry>, j: nat, key: Key)
    requires j < |entries| && Parse(entries).Ok?
    ensures Get(Read(entries[..j + 1]), key)
            == if key == entries[j].key then entries[j].amount else Get(Read(entries[..j]), key)
    ensures key == entries[j].key ==> Get(Read(entries[..j]), key) == 0
    ensures entries[j].amount >= 0
  {
    ParsePrefix(entries, j + 1);
    assert entries[..j + 1][..j] == entries[..j];
  }

  class ControlStore {
    var ledger: Ledger
    var log: Log
    var commands: Commands
    var outbox: map<nat, Delivery>
    var leases: map<nat, Lease>
    var blobs: map<Sha, seq<nat>>

    constructor ()
      ensures ledger == EMPTY && log == NO_EVENTS && commands == Commands(map[], map[])
      ensures outbox == map[] && leases == map[] && blobs == map[]
    {
      ledger, log, commands := EMPTY, NO_EVENTS, Commands(map[], map[]);
      outbox, leases, blobs := map[], map[], map[];
    }

    // -------------------------------------------------------------- ledger

    /** Adds one reservation's amounts to the running totals. */
    method AddRow(totals: map<Key, Totals>, entries: seq<Entry>, settled: bool) returns (out: map<Key, Totals>)
      requires Parse(entries).Ok?
      ensures forall key :: TotalOf(out, key)
                            == (var t := TotalOf(totals, key);
                                var more := Get(Read(entries), key);
                                if settled then Totals(t.settled + more, t.held) else Totals(t.settled, t.held + more))
    {
      out := totals;
      for j := 0 to |entries|
        invariant forall key :: TotalOf(out, key)
                                == (var t := TotalOf(totals, key);
                                    var more := Get(Read(entries[..j]), key);
                                    if settled then Totals(t.settled + more, t.held) else Totals(t.settled, t.held + more))
      {
        var key := entries[j].key;
        PrefixReads(entries, j, key);
        var t := TotalOf(out, key);
        ghost var before := out;
        out := out[key := if settled then Totals(t.settled + entries[j].amount, t.held)
                          else Totals(t.settled, t.held + entries[j].amount)];
        forall k ensures TotalOf(out, k)
                         == (var t := TotalOf(totals, k);
                             var more := Get(Read(entries[..j + 1]), k);
                             if settled then Totals(t.settled + more, t.held) else Totals(t.settled, t.held + more))
        {
          PrefixReads(entries, j, k);
          assert k != key ==> TotalOf(out, k) == TotalOf(before, k);
        }
      }
      assert entries[..|entries|] == entries;
    }

    ghost predicate Summed(totals: map<Key, Totals>, budget: nat, n: nat)
      requires n <= |ledger.rows|
      reads this
    {
      forall key :: TotalOf(totals, key) == Totals(Sum(ledger.reservations, ledger.rows[..n], budget, true, key),
                                                   Sum(ledger.reservations, ledger.rows[..n], budget, false, key))
    }

    lemma SummedStep(totals: map<Key, Totals>, next: map<Key, Totals>, budget: nat, n: nat)
      requires n < |ledger.rows| && Summed(totals, budget, n)
      requires forall key :: TotalOf(next, key)
                             == Totals(TotalOf(totals, key).settled + RowPortion(ledger.reservations, ledger.rows[n], budget, true, key),
                                       TotalOf(totals, key).held + RowPortion(ledger.reservations, ledger.rows[n], budget, false, key))
      ensures Summed(next, budget, n + 1)
    {
      assert ledger.rows[..n + 1][..n] == ledger.rows[..n];
    }

    method BudgetTotals(budget: nat) returns (totals: map<Key, Totals>)
      requires LedgerOk(ledger)
      ensures forall key :: TotalOf(totals, key) == Totals(Sum(ledger.reservations, ledger.rows, budget, true, key),
                                                           Sum(ledger.reservations, ledger.rows, budget, false, key))
    {
      totals := map[];
      for i := 0 to |ledger.rows|
        invariant Summed(totals, budget, i)
      {
        var row := ledger.rows[i];
        ghost var before := totals;
        assert RowMatches(ledger, row);
        if row.budget == budget {
          var r := ledger.reservations[row.id];
          assert Stored(r);
          if r.status != Released {
            var amounts := if r.status == Settled then r.actual.value else r.reserved;
            totals := AddRow(totals, amounts, r.status == Settled);
          }
        }
        SummedStep(before, totals, budget, i);
      }
      assert ledger.rows[..|ledger.rows|] == ledger.rows;
    }

    /** The limit check of `reserve`: the first key, in list order, without a limit or without room. */
    method FindRefusal(budget: nat, limits: Amounts, entries: seq<Entry>) returns (r: Option<Error>)
      requires LedgerOk(ledger)
      ensures r == Refusal(ledger, budget, limits, entries)
    {
      var totals := BudgetTotals(budget);
      for i := 0 to |entries|
        invariant Refusal(ledger, budget, limits, entries) == Refusal(ledger, budget, limits, entries[i..])
      {
        var key := entries[i].key;
        assert entries[i..][1..] == entries[i + 1..];
        if key !in limits {
          return Some(BudgetUnknown);
        }
        var current := TotalOf(totals, key);
        if current.settled + current.held + entries[i].amount > limits[key] {
          return Some(BudgetExhausted);
        }
      }
      assert entries[|entries|..] == [];
      return None;
    }

    method FindClaims(id: nat, budget: nat, action: nat) returns (found: seq<nat>)
      ensures found == Matching(ledger.rows, id, budget, action)
    {
      found := [];
      for i := 0 to |ledger.rows|
        invariant found == Matching(ledger.rows[..i], id, budget, action)
      {
        var row := ledger.rows[i];
        assert ledger.rows[..i + 1][..i] == ledger.rows[..i];
        if row.id == id || (row.budget == budget && row.action == action) {
          found := found + [row.id];
        }
      }
      assert ledger.rows[..|ledger.rows|] == ledger.rows;
    }

    method ReserveNewRow(id: nat, request: Reservation) returns (r: Result<Reservation>)
      requires LedgerOk(ledger)
      modifies this`ledger
      ensures match ReserveNew(old(ledger), id, request)
              case Ok(next) => ledger == next && r == Ok(request)
              case Err(error) => ledger == old(ledger) && r == Err(error)
    {
      if request.budget !in ledger.budgets {
        return Err(NotFound);
      }
      var budget := ledger.budgets[request.budget];
      if budget.task != request.task {
        return Err(BindingMismatch);
      }
      var limits := ParseAmounts(budget.limits);
      if limits.Err? {
        return Err(limits.error);
      }
      var refusal := FindRefusal(request.budget, limits.value, request.reserved);
      if refusal.Some? {
        return Err(refusal.value);
      }
      ledger := ledger.(rows := ledger.rows + [Row(id, request.budget, request.action)]);
      ledger := ledger.(reservations := ledger.reservations[id := request]);
      return Ok(request);
    }

    /** `reserve`: all keys fit or nothing is held; the same claim again is answered from the record. */
    method DoReserve(id: nat, request: Reservation) returns (r: Result<Reservation>)
      requires LedgerOk(ledger)
      modifies this`ledger
      ensures match Reserve(old(ledger), id, request)
              case Ok(pair) => ledger == pair.0 && r == Ok(pair.1)
              case Err(error) => ledger == old(ledger) && r == Err(error)
    {
      var amounts := ParseAmounts(request.reserved);
      if amounts.Err? {
        return Err(amounts.error);
      }
      if amounts.value == map[] || request.status != Held || request.actual.Some? {
        return Err(InvalidRequest);
      }
      var found := FindClaims(id, request.budget, request.action);
      if |found| > 1 {
        return Err(IdempotencyConflict);
      }
      if |found| == 1 {
        if found[0] !in ledger.reservations {
          return Err(NotFound);
        }
        var previous := ledger.reservations[found[0]];
        if previous.budget != request.budget || previous.action != request.action || previous.task != request.task
           || Read(previous.reserved) != amounts.value
        {
          return Err(IdempotencyConflict);
        }
        return Ok(previous);
      }
      r := ReserveNewRow(id, request);
    }

    method DoSettle(id: nat, actual: seq<Entry>, receipts: seq<nat>) returns (r: Result<Reservation>)
      modifies this`ledger
      ensures match Settle(old(ledger), id, actual, receipts)
              case Ok(next) => ledger == next && id in next.reservations && r == Ok(next.reservations[id])
              case Err(error) => ledger == old(ledger) && r == Err(error)
    {
      var amounts := ParseAmounts(actual);
      if amounts.Err? {
        return Err(amounts.error);
      }
      if id !in ledger.reservations {
        return Err(NotFound);
      }
      var reservation := ledger.reservations[id];
      if reservation.status == Settled {
        if Read(Counted(reservation)) != amounts.value {
          return Err(IdempotencyConflict);
        }
        return Ok(reservation);
      }
      if reservation.status == Released {
        return Err(InvalidState);
      }
      if !(amounts.value.Keys <= Read(reservation.reserved).Keys) {
        return Err(InvalidRequest);
      }
      var unique := Unique(receipts);
      reservation := reservation.(status := Settled, actual := Some(actual));
      reservation := reservation.(receipts := unique, revision := reservation.revision + 1);
      ledger := ledger.(reservations := ledger.reservations[id := reservation]);
      return Ok(reservation);
    }

    static method Unique(ids: seq<nat>) returns (unique: seq<nat>)
      ensures unique == Dedup(ids)
    {
      unique := [];
      for i := 0 to |ids|
        invariant unique == Dedup(ids[..i])
      {
        assert ids[..i + 1][..i] == ids[..i];
        if ids[i] !in unique {
          unique := unique + [ids[i]];
        }
      }
      assert ids[..|ids|] == ids;
    }

    method DoMarkUncertain(id: nat) returns (r: Result<Reservation>)
      modifies this`ledger
      ensures match MarkUncertain(old(ledger), id)
              case Ok(next) => ledger == next && id in next.reservations && r == Ok(next.reservations[id])
              case Err(error) => ledger == old(ledger) && r == Err(error)
    {
      if id !in ledger.reservations {
        return Err(NotFound);
      }
      var reservation := ledger.reservations[id];
      if reservation.status == Uncertain {
        return Ok(reservation);
      }
      if reservation.status != Held {
        return Err(InvalidState);
      }
      reservation := reservation.(status := Uncertain, revision := reservation.revision + 1);
      ledger := ledger.(reservations := ledger.reservations[id := reservation]);
      return Ok(reservation);
    }

    // -------------------------------------------------------------- events

    method AppendEvent(event: Event) returns (r: Result<Event>)
      modifies this`log
      ensures match Append(old(log), event)
              case Ok(pair) => log == pair.0 && r == Ok(pair.1)
              case Err(error) => log == old(log) && r == Err(error)
    {
      var saved := log;
      if event.task !in log.streams {
        log := log.(streams := log.streams[event.task := Stream(0, 0)]);
      }
      var latest := log.streams[event.task].sequence;
      if latest >= MAX_INT {
        log := saved;
        return Err(InvalidState);
      }
      var stamped := event.(sequence := latest + 1);
      if event.id in log.ids {
        log := saved;
        return Err(IdempotencyConflict);
      }
      log := log.(ids := log.ids + {event.id});
      if (event.task, stamped.sequence) in log.rows {
        log := saved;
        return Err(IdempotencyConflict);
      }
      log := log.(rows := log.rows[(event.task, stamped.sequence) := stamped]);
      log := log.(streams := log.streams[event.task := log.streams[event.task].(sequence := stamped.sequence)]);
      return Ok(stamped);
    }

    /** The page query: rows after the cursor, in sequence order, until the limit. */
    method SelectRows(task: nat, after: nat, latest: nat, limit: nat) returns (page: seq<Event>)
      requires after <= latest
      ensures page == Select(log.rows, task, after, latest, limit)
    {
      page := [];
      var at := after;
      while at < latest && |page| < limit
        invariant after <= at <= latest && |page| <= limit
        invariant Select(log.rows, task, after, latest, limit) == page + Select(log.rows, task, at, latest, limit - |page|)
      {
        at := at + 1;
        if (task, at) in log.rows {
          page := page + [log.rows[(task, at)]];
        }
      }
    }

    method ReadEvents(task: nat, after: int, limit: int) returns (r: Result<seq<Event>>)
      ensures r == Events(log, task, after, limit)
    {
      if !(0 <= after <= MAX_INT) || !(1 <= limit <= MAX_PAGE) {
        return Err(InvalidRequest);
      }
      var latest, floor := 0, 0;
      if task in log.streams {
        latest, floor := log.streams[task].sequence, log.streams[task].floor;
      }
      if after < floor {
        return Err(CursorExpired);
      }
      if after > latest {
        return Err(InvalidRequest);
      }
      var page := SelectRows(task, after, latest, limit);
      return Ok(page);
    }

    method PruneEvents(task: nat, through: int) returns (r: Result<()>)
      modifies this`log
      ensures match Prune(old(log), task, through)
              case Ok(next) => log == next && r == Ok(())
              case Err(error) => log == old(log) && r == Err(error)
    {
      var latest, floor := 0, 0;
      if task in log.streams {
        latest, floor := log.streams[task].sequence, log.streams[task].floor;
      }
      if !(0 <= through <= latest) {
        return Err(InvalidRequest);
      }
      if through <= floor {
        return Ok(());
      }
      log := log.(rows := map key | key in log.rows && !(key.0 == task && key.1 <= through) :: log.rows[key]);
      log := log.(streams := log.streams[task := log.streams[task].(floor := through)]);
      return Ok(());
    }

    // -------------------------------------------------------------- outbox

    method EnqueueAction(action: nat, payload: nat) returns (r: Result<Delivery>)
      modifies this`outbox
      ensures r == Enqueue(Lookup(old(outbox), action), payload)
      ensures outbox == if r.Ok? then old(outbox)[action := r.value] else old(outbox)
    {
      if action in outbox {
        if outbox[action].payload != payload {
          return Err(IdempotencyConflict);
        }
        assert outbox == outbox[action := outbox[action]];
        return Ok(outbox[action]);
      }
      outbox := outbox[action := Delivery(payload, Pending)];
      return Ok(outbox[action]);
    }

    method MarkDelivery(action: nat) returns (r: Result<Delivery>)
      modifies this`outbox
      ensures r == Mark(Lookup(old(outbox), action))
      ensures outbox == if r.Ok? then old(outbox)[action := r.value] else old(outbox)
    {
      if action !in outbox {
        return Err(NotFound);
      }
      var item := outbox[action];
      if item.status != Pending {
        return Err(if item.status == Delivering then UnknownRemote else InvalidState);
      }
      item := item.(status := Delivering);
      outbox := outbox[action := item];
      return Ok(item);
    }

    method FinishDelivery(action: nat) returns (r: Result<Delivery>)
      modifies this`outbox
      ensures r == Finish(Lookup(old(outbox), action))
      ensures outbox == if r.Ok? then old(outbox)[action := r.value] else old(outbox)
    {
      if action !in outbox {
        return Err(NotFound);
      }
      outbox := outbox[action := outbox[action].(status := Done)];
      return Ok(outbox[action]);
    }

    // -------------------------------------------------------------- leases

    method ClaimLease(resource: nat, holder: nat, expires: int, now: int) returns (r: Result<Lease>)
      modifies this`leases
      ensures r == Claim(Lookup(old(leases), resource), holder, expires, now)
      ensures leases == if r.Ok? then old(leases)[resource := r.value] else old(leases)
    {
      if expires <= now {
        return Err(InvalidRequest);
      }
      var token := 1;
      if resource in leases {
        var row := leases[resource];
        if row.holder != None && row.holder != Some(holder) && row.expires > now {
          return Err(LeaseConflict);
        }
        token := row.token + 1;
      }
      if token > MAX_INT {
        return Err(InvalidState);
      }
      leases := leases[resource := Lease(Some(holder), expires, token)];
      return Ok(leases[resource]);
    }

    method CheckLease(resource: nat, holder: nat, token: nat, now: int) returns (r: Result<Lease>)
      ensures r == Check(Lookup(leases, resource), holder, token, now)
    {
      if resource !in leases {
        return Err(LeaseLost);
      }
      var row := leases[resource];
      if row.holder != Some(holder) || row.token != token || row.expires <= now {
        return Err(LeaseLost);
      }
      return Ok(row);
    }

    method ReleaseLease(resource: nat, holder: nat, token: nat) returns (r: Result<Lease>)
      modifies this`leases
      ensures r == Release(Lookup(old(leases), resource), holder, token)
      ensures leases == if r.Ok? then old(leases)[resource := r.value] else old(leases)
    {
      if resource !in leases || leases[resource].holder != Some(holder) || leases[resource].token != token {
        return Err(LeaseLost);
      }
      leases := leases[resource := leases[resource].(holder := None)];
      return Ok(leases[resource]);
    }

    // -------------------------------------------------------------- commands and blobs

    method SaveOperation(id: nat, operation: Operation, principal: nat, key: nat, digest: nat)
      returns (r: Result<Operation>)
      modifies this`commands
      ensures match Save(old(commands), id, operation, principal, key, digest)
              case Ok(pair) => commands == pair.0 && r == Ok(pair.1)
              case Err(error) => commands == old(commands) && r == Err(error)
    {
      var slot := CommandKey(principal, operation.method_, key);
      if slot in commands.index {
        var row := commands.index[slot];
        if row.digest != digest {
          return Err(IdempotencyConflict);
        }
        if row.operation !in commands.operations {
          return Err(NotFound);
        }
        return Ok(commands.operations[row.operation]);
      }
      if exists other :: other in commands.index && commands.index[other].operation == id {
        return Err(IdempotencyConflict);
      }
      commands := commands.(index := commands.index[slot := IndexRow(id, digest)]);
      commands := commands.(operations := commands.operations[id := operation]);
      return Ok(operation);
    }

    /** A blob that is kept and does not read back as put takes the insertion back. */
    method PutBlob(content: seq<nat>) returns (r: Result<Sha>)
      modifies this`blobs
      ensures r == if KeepBlob(old(blobs), content).Ok? then Ok(Sha256(content)) else Err(InvalidState)
      ensures blobs == if KeepBlob(old(blobs), content).Ok? then KeepBlob(old(blobs), content).value else old(blobs)
    {
      var before := blobs;
      var sha := Sha256(content);
      if sha !in blobs {
        blobs := blobs[sha := content];
      }
      var stored := GetBlob(sha);
      if stored != Ok(content) {
        blobs := before;
        return Err(InvalidState);
      }
      return Ok(sha);
    }

    method GetBlob(sha: Sha) returns (r: Result<seq<nat>>)
      ensures r == FetchBlob(blobs, sha)
    {
      if sha !in blobs {
        return Err(NotFound);
      }
      if Sha256(blobs[sha]) != sha {
        return Err(InvalidState);
      }
      return Ok(blobs[sha]);
    }
  }
}
