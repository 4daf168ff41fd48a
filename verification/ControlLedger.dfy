/** The control store's budget ledger: amounts held for Actions and settled afterwards, kept
    per budget and per (meter, billing pool) key. */
module ControlLedger {
  import opened Wrappers

  datatype Meter = Tokens | Turns | ToolActions | WallMs | UsdMicros | OtherMeter(name: nat)

  datatype Key = Key(meter: Meter, pool: Option<nat>)

  datatype Entry = Entry(key: Key, amount: int)

  type Amounts = map<Key, nat>

  const TURNS := Key(Turns, None)

  datatype ReservationStatus = Held | Uncertain | Settled | Released

  datatype Reservation = Reservation(task: nat, budget: nat, action: nat, status: ReservationStatus,
                                     reserved: seq<Entry>, actual: Option<seq<Entry>>,
                                     receipts: seq<nat>, revision: nat)

  datatype Budget = Budget(task: nat, limits: seq<Entry>)

  /** A row of the reservation index; the entity tables hold the payloads. */
  datatype Row = Row(id: nat, budget: nat, action: nat)

  datatype Ledger = Ledger(budgets: map<nat, Budget>, reservations: map<nat, Reservation>, rows: seq<Row>)

  // ---------------------------------------------------------------- amounts

  predicate Readable(entry: Entry, seen: Amounts) {
    !entry.key.meter.OtherMeter? && entry.key !in seen && 0 <= entry.amount <= MAX_INT
  }

  function Parse(entries: seq<Entry>): Result<Amounts> {
    if entries == [] then Ok(map[])
    else
      var seen :- Parse(entries[..|entries| - 1]);
      var entry := entries[|entries| - 1];
      if Readable(entry, seen) then Ok(seen[entry.key := entry.amount]) else Err(InvalidRequest)
  }

  function Read(entries: seq<Entry>): Amounts {
    var parsed := Parse(entries);
    if parsed.Ok? then parsed.value else map[]
  }

  function Get(amounts: Amounts, key: Key): nat {
    if key in amounts then amounts[key] else 0
  }

  predicate WellFormed(entries: seq<Entry>) {
    && (forall i :: 0 <= i < |entries| ==>
          !entries[i].key.meter.OtherMeter? && 0 <= entries[i].amount <= MAX_INT)
    && (forall i, j :: 0 <= i < j < |entries| ==> entries[i].key != entries[j].key)
  }

  predicate Lists(entries: seq<Entry>, key: Key) {
    exists i :: 0 <= i < |entries| && entries[i].key == key
  }

  /** The map holds exactly the listed amounts. */
  ghost predicate ReadsAs(m: Amounts, entries: seq<Entry>) {
    && (forall key :: key in m <==> Lists(entries, key))
    && forall i :: 0 <= i < |entries| ==> entries[i].key in m && m[entries[i].key] == entries[i].amount
  }

  lemma WellFormedSnoc(front: seq<Entry>, last: Entry)
    ensures WellFormed(front + [last])
        <==> WellFormed(front) && !last.key.meter.OtherMeter? && 0 <= last.amount <= MAX_INT && !Lists(front, last.key)
  {
    var entries := front + [last];
    assert forall i :: 0 <= i < |front| ==> entries[i] == front[i];
    assert entries[|front|] == last;
  }

  lemma ReadsSnoc(m: Amounts, front: seq<Entry>, last: Entry)
    requires ReadsAs(m, front) && last.key !in m && last.amount >= 0
    ensures ReadsAs(m[last.key := last.amount], front + [last])
  {
    var next, entries := m[last.key := last.amount], front + [last];
    forall key ensures key in next <==> Lists(entries, key) {
      if key == last.key {
        assert entries[|front|].key == key;
      } else if Lists(front, key) {
        var i :| 0 <= i < |front| && front[i].key == key;
        assert entries[i].key == key;
      }
    }
  }

  /** A list is accepted exactly when its meters are known, its keys are distinct and its amounts
      are safe non-negative integers; it then reads as exactly the listed amounts. */
  lemma {:induction false} ParseExact(entries: seq<Entry>)
    ensures Parse(entries).Ok? <==> WellFormed(entries)
    ensures Parse(entries).Ok? ==> ReadsAs(Parse(entries).value, entries)
  {
    if entries != [] {
      var front, last := entries[..|entries| - 1], entries[|entries| - 1];
      ParseExact(front);
      assert entries == front + [last];
      WellFormedSnoc(front, last);
      if Parse(entries).Ok? {
        ReadsSnoc(Parse(front).value, front, last);
      }
    }
  }

  lemma {:induction false} ParsePrefix(entries: seq<Entry>, n: nat)
    requires n <= |entries| && Parse(entries).Ok?
    ensures Parse(entries[..n]).Ok?
    decreases |entries|
  {
    if n < |entries| {
      var front := entries[..|entries| - 1];
      assert front[..n] == entries[..n];
      ParsePrefix(front, n);
    } else {
      assert entries[..n] == entries;
    }
  }

  // ---------------------------------------------------------------- totals

  function Counted(r: Reservation): seq<Entry> {
    if r.status != Settled then r.reserved
    else match r.actual case Some(entries) => entries case None => []
  }

  /** What one reservation adds to the settled or to the held total of a key. */
  function Portion(r: Reservation, settled: bool, key: Key): nat {
    if r.status == Released || (r.status == Settled) != settled then 0
    else Get(Read(Counted(r)), key)
  }

  function RowPortion(table: map<nat, Reservation>, row: Row, budget: nat, settled: bool, key: Key): nat {
    if row.budget == budget && row.id in table then Portion(table[row.id], settled, key) else 0
  }

  function Sum(table: map<nat, Reservation>, rows: seq<Row>, budget: nat, settled: bool, key: Key): nat {
    if rows == [] then 0
    else Sum(table, rows[..|rows| - 1], budget, settled, key)
         + RowPortion(table, rows[|rows| - 1], budget, settled, key)
  }

  function Used(l: Ledger, budget: nat, key: Key): nat {
    Sum(l.reservations, l.rows, budget, true, key) + Sum(l.reservations, l.rows, budget, false, key)
  }

  predicate Distinct(rows: seq<Row>) {
    forall i, j :: 0 <= i < j < |rows| ==> rows[i].id != rows[j].id
  }

  predicate Indexed(rows: seq<Row>, id: nat) {
    exists i :: 0 <= i < |rows| && rows[i].id == id
  }

  /** Rows of other reservations do not notice a rewrite. */
  lemma {:induction false} SumIgnores(table: map<nat, Reservation>, rows: seq<Row>, id: nat, r: Reservation,
                                      budget: nat, settled: bool, key: Key)
    requires !Indexed(rows, id)
    ensures Sum(table[id := r], rows, budget, settled, key) == Sum(table, rows, budget, settled, key)
  {
    if rows != [] {
      var front, last := rows[..|rows| - 1], rows[|rows| - 1];
      assert last.id != id;
      assert forall i :: 0 <= i < |front| ==> front[i] == rows[i];
      SumIgnores(table, front, id, r, budget, settled, key);
    }
  }

  /** Rewriting an indexed reservation moves its budget's totals by that reservation's own change. */
  lemma {:induction false} SumRewritten(table: map<nat, Reservation>, rows: seq<Row>, id: nat, r: Reservation,
                                        at: nat, budget: nat, settled: bool, key: Key)
    requires Distinct(rows) && at < |rows| && rows[at].id == id && id in table
    ensures Sum(table[id := r], rows, budget, settled, key)
            == Sum(table, rows, budget, settled, key)
               + (if rows[at].budget != budget then 0
                  else Portion(r, settled, key) - Portion(table[id], settled, key))
  {
    var front, last := rows[..|rows| - 1], rows[|rows| - 1];
    if at == |rows| - 1 {
      assert !Indexed(front, id);
      SumIgnores(table, front, id, r, budget, settled, key);
    } else {
      assert last.id != id;
      SumRewritten(table, front, id, r, at, budget, settled, key);
    }
  }

  lemma SumAppended(table: map<nat, Reservation>, rows: seq<Row>, row: Row, r: Reservation,
                    budget: nat, settled: bool, key: Key)
    requires !Indexed(rows, row.id)
    ensures Sum(table[row.id := r], rows + [row], budget, settled, key)
            == Sum(table, rows, budget, settled, key)
               + (if row.budget == budget then Portion(r, settled, key) else 0)
  {
    assert (rows + [row])[..|rows|] == rows;
    SumIgnores(table, rows, row.id, r, budget, settled, key);
  }

  // ---------------------------------------------------------------- transactions

  function Matching(rows: seq<Row>, id: nat, budget: nat, action: nat): seq<nat> {
    if rows == [] then []
    else
      var row := rows[|rows| - 1];
      Matching(rows[..|rows| - 1], id, budget, action)
      + (if row.id == id || (row.budget == budget && row.action == action) then [row.id] else [])
  }

  /** The first entry, in list order, that the budget cannot carry. */
  function Refusal(l: Ledger, budget: nat, limits: Amounts, entries: seq<Entry>): Option<Error> {
    if entries == [] then None
    else if entries[0].key !in limits then Some(BudgetUnknown)
    else if Used(l, budget, entries[0].key) + entries[0].amount > limits[entries[0].key] then Some(BudgetExhausted)
    else Refusal(l, budget, limits, entries[1..])
  }

  predicate SameClaim(previous: Reservation, request: Reservation) {
    && previous.budget == request.budget && previous.action == request.action
    && previous.task == request.task && Read(previous.reserved) == Read(request.reserved)
  }

  function Insert(l: Ledger, id: nat, request: Reservation): Ledger {
    l.(reservations := l.reservations[id := request], rows := l.rows + [Row(id, request.budget, request.action)])
  }

  function ReserveNew(l: Ledger, id: nat, request: Reservation): Result<Ledger> {
    if request.budget !in l.budgets then Err(NotFound)
    else
      var budget := l.budgets[request.budget];
      if budget.task != request.task then Err(BindingMismatch)
      else
        var limits :- Parse(budget.limits);
        match Refusal(l, request.budget, limits, request.reserved)
        case Some(error) => Err(error)
        case None => Ok(Insert(l, id, request))
  }

  /** `reserve` as one transaction: the new ledger and the reservation handed back. */
  function Reserve(l: Ledger, id: nat, request: Reservation): (r: Result<(Ledger, Reservation)>) {
    var amounts :- Parse(request.reserved);
    if amounts == map[] || request.status != Held || request.actual.Some? then Err(InvalidRequest)
    else
      var found := Matching(l.rows, id, request.budget, request.action);
      if |found| > 1 then Err(IdempotencyConflict)
      else if |found| == 1 then
        if found[0] !in l.reservations then Err(NotFound)
        else if SameClaim(l.reservations[found[0]], request) then Ok((l, l.reservations[found[0]]))
        else Err(IdempotencyConflict)
      else
        var next :- ReserveNew(l, id, request);
        Ok((next, request))
  }

  function Dedup(ids: seq<nat>): seq<nat> {
    if ids == [] then []
    else
      var front := Dedup(ids[..|ids| - 1]);
      if ids[|ids| - 1] in front then front else front + [ids[|ids| - 1]]
  }

  function Rewrite(l: Ledger, id: nat, r: Reservation): Ledger {
    l.(reservations := l.reservations[id := r])
  }

  function SettledAs(r: Reservation, actual: seq<Entry>, receipts: seq<nat>): Reservation {
    r.(status := Settled, actual := Some(actual), receipts := Dedup(receipts), revision := r.revision + 1)
  }

  function Settle(l: Ledger, id: nat, actual: seq<Entry>, receipts: seq<nat>): (r: Result<Ledger>) {
    var amounts :- Parse(actual);
    if id !in l.reservations then Err(NotFound)
    else
      var r := l.reservations[id];
      if r.status == Settled then
        if Read(Counted(r)) == amounts then Ok(l) else Err(IdempotencyConflict)
      else if r.status == Released then Err(InvalidState)
      else if !(amounts.Keys <= Read(r.reserved).Keys) then Err(InvalidRequest)
      else Ok(Rewrite(l, id, SettledAs(r, actual, receipts)))
  }

  function MarkUncertain(l: Ledger, id: nat): (r: Result<Ledger>) {
    if id !in l.reservations then Err(NotFound)
    else
      var r := l.reservations[id];
      if r.status == Uncertain then Ok(l)
      else if r.status != Held then Err(InvalidState)
      else Ok(Rewrite(l, id, r.(status := Uncertain, revision := r.revision + 1)))
  }

  // ---------------------------------------------------------------- invariant

  predicate RowMatches(l: Ledger, row: Row) {
    && row.id in l.reservations
    && l.reservations[row.id].budget == row.budget && l.reservations[row.id].action == row.action
    && row.budget in l.budgets
    && l.reservations[row.id].task == l.budgets[row.budget].task
  }

  predicate Stored(r: Reservation) {
    && Parse(r.reserved).Ok?
    && (r.status == Settled <==> r.actual.Some?)
    && (r.actual.Some? ==> Parse(r.actual.value).Ok? && Read(r.actual.value).Keys <= Read(r.reserved).Keys)
  }

  predicate RowsMatch(l: Ledger) {
    forall i :: 0 <= i < |l.rows| ==> RowMatches(l, l.rows[i])
  }

  predicate DistinctClaims(rows: seq<Row>) {
    forall i, j :: 0 <= i < j < |rows| ==> rows[i].budget != rows[j].budget || rows[i].action != rows[j].action
  }

  ghost predicate AllIndexed(l: Ledger) {
    forall id :: id in l.reservations ==> Indexed(l.rows, id)
  }

  ghost predicate AllStored(l: Ledger) {
    forall id :: id in l.reservations ==> Stored(l.reservations[id])
  }

  ghost predicate LedgerOk(l: Ledger) {
    Distinct(l.rows) && DistinctClaims(l.rows) && RowsMatch(l) && AllIndexed(l) && AllStored(l)
  }

  predicate KeyWithin(l: Ledger, budget: nat, key: Key)
    requires budget in l.budgets
  {
    Used(l, budget, key) <= Get(Read(l.budgets[budget].limits), key)
  }

  /** Every budget covers what it has settled plus what it still holds; a key without a limit
      (or a budget whose limits are unreadable) carries nothing. */
  ghost predicate Within(l: Ledger) {
    forall budget, key :: budget in l.budgets ==> KeyWithin(l, budget, key)
  }

  lemma {:induction false} NoMatchIsFresh(rows: seq<Row>, id: nat, budget: nat, action: nat)
    ensures Matching(rows, id, budget, action) == [] <==>
              forall i :: 0 <= i < |rows| ==>
                rows[i].id != id && !(rows[i].budget == budget && rows[i].action == action)
  {
    if rows != [] {
      NoMatchIsFresh(rows[..|rows| - 1], id, budget, action);
    }
  }

  lemma {:induction false} RefusalCovers(l: Ledger, budget: nat, limits: Amounts, entries: seq<Entry>)
    ensures Refusal(l, budget, limits, entries) == None <==>
              forall i :: 0 <= i < |entries| ==>
                entries[i].key in limits
                && Used(l, budget, entries[i].key) + entries[i].amount <= limits[entries[i].key]
  {
    if entries != [] {
      RefusalCovers(l, budget, limits, entries[1..]);
      assert forall i :: 1 <= i < |entries| ==> entries[i] == entries[1..][i - 1];
      assert forall i :: 0 <= i < |entries[1..]| ==> entries[1..][i] == entries[i + 1];
    }
  }

  // ---------------------------------------------------------------- what each transaction keeps

  lemma InsertKeepsIndex(l: Ledger, id: nat, request: Reservation)
    requires AllIndexed(l)
    ensures AllIndexed(Insert(l, id, request))
  {
    var next, n := Insert(l, id, request), |l.rows|;
    forall other | other in next.reservations ensures Indexed(next.rows, other) {
      if other == id {
        assert next.rows[n].id == id;
      } else {
        assert Indexed(l.rows, other);
        var i :| 0 <= i < n && l.rows[i].id == other;
        assert next.rows[i].id == other;
      }
    }
  }

  lemma InsertKeepsRows(l: Ledger, id: nat, request: Reservation)
    requires RowsMatch(l)
    requires forall i :: 0 <= i < |l.rows| ==> l.rows[i].id != id
    requires request.budget in l.budgets && l.budgets[request.budget].task == request.task
    ensures RowsMatch(Insert(l, id, request))
  {
    var next := Insert(l, id, request);
    forall i | 0 <= i < |next.rows| ensures RowMatches(next, next.rows[i]) {
      if i < |l.rows| {
        assert RowMatches(l, l.rows[i]);
      }
    }
  }

  lemma InsertKeepsShape(l: Ledger, id: nat, request: Reservation)
    requires LedgerOk(l) && Matching(l.rows, id, request.budget, request.action) == []
    requires request.budget in l.budgets && l.budgets[request.budget].task == request.task
    requires Stored(request)
    ensures LedgerOk(Insert(l, id, request))
  {
    NoMatchIsFresh(l.rows, id, request.budget, request.action);
    InsertKeepsIndex(l, id, request);
    InsertKeepsRows(l, id, request);
  }

  lemma InsertTotals(l: Ledger, id: nat, request: Reservation, budget: nat, key: Key)
    requires Matching(l.rows, id, request.budget, request.action) == [] && request.status == Held
    ensures Used(Insert(l, id, request), budget, key)
            == Used(l, budget, key) + (if budget == request.budget then Get(Read(request.reserved), key) else 0)
  {
    NoMatchIsFresh(l.rows, id, request.budget, request.action);
    var row := Row(id, request.budget, request.action);
    SumAppended(l.reservations, l.rows, row, request, budget, true, key);
    SumAppended(l.reservations, l.rows, row, request, budget, false, key);
  }

  lemma InsertKeepsWithin(l: Ledger, id: nat, request: Reservation)
    requires LedgerOk(l) && Within(l) && Matching(l.rows, id, request.budget, request.action) == []
    requires request.status == Held && Parse(request.reserved).Ok? && ReserveNew(l, id, request).Ok?
    ensures Within(Insert(l, id, request))
  {
    var next := Insert(l, id, request);
    var limits := Read(l.budgets[request.budget].limits);
    RefusalCovers(l, request.budget, limits, request.reserved);
    ParseExact(request.reserved);
    forall budget, key | budget in next.budgets ensures KeyWithin(next, budget, key) {
      InsertTotals(l, id, request, budget, key);
      assert KeyWithin(l, budget, key);
      if budget == request.budget && key in Read(request.reserved) {
        var i :| 0 <= i < |request.reserved| && request.reserved[i].key == key;
      }
    }
  }

  /** An accepted `reserve` keeps the index, the entities and every limit; one that is refused
      for any key, or replayed, changes no total at all. */
  lemma ReserveKeeps(l: Ledger, id: nat, request: Reservation)
    requires LedgerOk(l) && Within(l) && Reserve(l, id, request).Ok?
    ensures LedgerOk(Reserve(l, id, request).value.0) && Within(Reserve(l, id, request).value.0)
  {
    if Matching(l.rows, id, request.budget, request.action) == [] {
      InsertKeepsShape(l, id, request);
      InsertKeepsWithin(l, id, request);
    }
  }

  lemma {:induction false} MatchingAppended(rows: seq<Row>, row: Row, id: nat, budget: nat, action: nat)
    ensures Matching(rows + [row], id, budget, action)
            == Matching(rows, id, budget, action)
               + (if row.id == id || (row.budget == budget && row.action == action) then [row.id] else [])
  {
    assert (rows + [row])[..|rows|] == rows;
  }

  /** Repeating an accepted `reserve` returns the recorded reservation and changes nothing. */
  lemma ReserveReplay(l: Ledger, id: nat, request: Reservation)
    requires Reserve(l, id, request).Ok?
    ensures Reserve(Reserve(l, id, request).value.0, id, request) == Reserve(l, id, request)
  {
    if Matching(l.rows, id, request.budget, request.action) == [] {
      MatchingAppended(l.rows, Row(id, request.budget, request.action), id, request.budget, request.action);
    }
  }

  lemma RewriteKeepsShape(l: Ledger, id: nat, r: Reservation)
    requires LedgerOk(l) && id in l.reservations && Stored(r)
    requires r.budget == l.reservations[id].budget && r.action == l.reservations[id].action
    requires r.task == l.reservations[id].task
    ensures LedgerOk(Rewrite(l, id, r))
  {
    var next := Rewrite(l, id, r);
    forall i | 0 <= i < |next.rows| ensures RowMatches(next, next.rows[i]) {
      assert RowMatches(l, l.rows[i]);
    }
  }

  lemma RewriteTotals(l: Ledger, id: nat, r: Reservation, budget: nat, key: Key)
    requires LedgerOk(l) && id in l.reservations
    ensures Used(Rewrite(l, id, r), budget, key)
            == Used(l, budget, key)
               + (if l.reservations[id].budget != budget then 0
                  else Portion(r, true, key) + Portion(r, false, key)
                       - Portion(l.reservations[id], true, key) - Portion(l.reservations[id], false, key))
  {
    assert Indexed(l.rows, id);
    var at :| 0 <= at < |l.rows| && l.rows[at].id == id;
    assert RowMatches(l, l.rows[at]);
    SumRewritten(l.reservations, l.rows, id, r, at, budget, true, key);
    SumRewritten(l.reservations, l.rows, id, r, at, budget, false, key);
  }

  predicate Open(l: Ledger, id: nat) {
    id in l.reservations && (l.reservations[id].status == Held || l.reservations[id].status == Uncertain)
  }

  lemma SettledIsStored(r: Reservation, actual: seq<Entry>, receipts: seq<nat>)
    requires Stored(r) && Parse(actual).Ok? && Read(actual).Keys <= Read(r.reserved).Keys
    ensures Stored(SettledAs(r, actual, receipts))
    ensures Portion(SettledAs(r, actual, receipts), true, TURNS) == Get(Read(actual), TURNS)
  {
  }

  /** The first settlement of an open reservation replaces its held amounts by the actual ones. */
  lemma SettleTotals(l: Ledger, id: nat, actual: seq<Entry>, receipts: seq<nat>, budget: nat, key: Key)
    requires LedgerOk(l) && Open(l, id) && Settle(l, id, actual, receipts).Ok?
    ensures LedgerOk(Settle(l, id, actual, receipts).value)
    ensures Used(Settle(l, id, actual, receipts).value, budget, key)
            == Used(l, budget, key)
               + (if l.reservations[id].budget != budget then 0
                  else Get(Read(actual), key) - Get(Read(l.reservations[id].reserved), key))
  {
    var r := SettledAs(l.reservations[id], actual, receipts);
    SettledIsStored(l.reservations[id], actual, receipts);
    assert Settle(l, id, actual, receipts).value == Rewrite(l, id, r);
    RewriteKeepsShape(l, id, r);
    RewriteTotals(l, id, r, budget, key);
  }

  /** Settling again with the same amounts changes nothing; with other amounts it is refused. */
  lemma SettleReplay(l: Ledger, id: nat, actual: seq<Entry>, receipts: seq<nat>, again: seq<Entry>, more: seq<nat>)
    requires LedgerOk(l) && Settle(l, id, actual, receipts).Ok? && Parse(again).Ok?
    ensures var next := Settle(l, id, actual, receipts).value;
            Settle(next, id, again, more) == if Read(again) == Read(actual) then Ok(next) else Err(IdempotencyConflict)
  {
    assert Stored(l.reservations[id]);
  }

  predicate AtMostReserved(l: Ledger, id: nat, actual: seq<Entry>) {
    id in l.reservations ==>
      forall key :: key in Read(actual) ==> Read(actual)[key] <= Get(Read(l.reservations[id].reserved), key)
  }

  lemma SettleKeeps(l: Ledger, id: nat, actual: seq<Entry>, receipts: seq<nat>)
    requires LedgerOk(l) && Within(l) && Settle(l, id, actual, receipts).Ok? && AtMostReserved(l, id, actual)
    ensures LedgerOk(Settle(l, id, actual, receipts).value) && Within(Settle(l, id, actual, receipts).value)
  {
    if Open(l, id) {
      var next := Settle(l, id, actual, receipts).value;
      SettleTotals(l, id, actual, receipts, 0, Key(Turns, None));
      forall budget, key | budget in next.budgets ensures KeyWithin(next, budget, key) {
        SettleTotals(l, id, actual, receipts, budget, key);
        assert KeyWithin(l, budget, key);
      }
    }
  }

  /** Every actual amount fits what the limit leaves once the reservation's own claim is taken away. */
  predicate LeavesRoom(l: Ledger, id: nat, actual: seq<Entry>)
    requires id in l.reservations && l.reservations[id].budget in l.budgets
  {
    var r := l.reservations[id];
    forall key :: key in Read(actual) ==>
      Used(l, r.budget, key) - Get(Read(r.reserved), key) + Read(actual)[key] <= Get(Read(l.budgets[r.budget].limits), key)
  }

  lemma OpenIsBudgeted(l: Ledger, id: nat)
    requires LedgerOk(l) && id in l.reservations
    ensures l.reservations[id].budget in l.budgets
  {
    assert Indexed(l.rows, id);
    var at :| 0 <= at < |l.rows| && l.rows[at].id == id;
    assert RowMatches(l, l.rows[at]);
  }

  /** A first settlement leaves every limit intact exactly when its amounts leave room; `settle` itself
      does not ask. */
  lemma SettleWithinExactly(l: Ledger, id: nat, actual: seq<Entry>, receipts: seq<nat>)
    requires LedgerOk(l) && Within(l) && Open(l, id) && Settle(l, id, actual, receipts).Ok?
    ensures l.reservations[id].budget in l.budgets
    ensures Within(Settle(l, id, actual, receipts).value) <==> LeavesRoom(l, id, actual)
  {
    var next, own := Settle(l, id, actual, receipts).value, l.reservations[id].budget;
    OpenIsBudgeted(l, id);
    forall budget, key | budget in next.budgets
      ensures KeyWithin(l, budget, key)
      ensures KeyWithin(next, budget, key) <== budget != own || key !in Read(actual)
      ensures budget == own && key in Read(actual) ==>
                (KeyWithin(next, budget, key) <==>
                 Used(l, own, key) - Get(Read(l.reservations[id].reserved), key) + Read(actual)[key]
                 <= Get(Read(l.budgets[own].limits), key))
    {
      SettleTotals(l, id, actual, receipts, budget, key);
    }
  }

  lemma MarkTotals(l: Ledger, id: nat, budget: nat, key: Key)
    requires LedgerOk(l) && MarkUncertain(l, id).Ok?
    ensures LedgerOk(MarkUncertain(l, id).value)
    ensures Used(MarkUncertain(l, id).value, budget, key) == Used(l, budget, key)
  {
    var r := l.reservations[id];
    if r.status == Held {
      var next := r.(status := Uncertain, revision := r.revision + 1);
      assert Stored(r);
      RewriteKeepsShape(l, id, next);
      RewriteTotals(l, id, next, budget, key);
    }
  }

  // ---------------------------------------------------------------- whole runs

  datatype Op =
    | PutBudget(budget: nat, entity: Budget)
    | DoReserve(id: nat, request: Reservation)
    | DoSettle(id: nat, actual: seq<Entry>, receipts: seq<nat>)
    | DoMarkUncertain(id: nat)

  /** One transaction; a refused one is rolled back. */
  function Apply(l: Ledger, op: Op): Ledger {
    match op
    case PutBudget(budget, entity) => l.(budgets := l.budgets[budget := entity])
    case DoReserve(id, request) => (var r := Reserve(l, id, request); if r.Ok? then r.value.0 else l)
    case DoSettle(id, actual, receipts) => (var r := Settle(l, id, actual, receipts); if r.Ok? then r.value else l)
    case DoMarkUncertain(id) => (var r := MarkUncertain(l, id); if r.Ok? then r.value else l)
  }

  function Run(l: Ledger, ops: seq<Op>): Ledger
    decreases |ops|
  {
    if ops == [] then l else Run(Apply(l, ops[0]), ops[1..])
  }

  /** Budgets are created once and never rewritten, and no settlement exceeds what it reserved. */
  predicate Disciplined(l: Ledger, op: Op) {
    match op
    case PutBudget(budget, _) => budget !in l.budgets
    case DoSettle(id, actual, _) => AtMostReserved(l, id, actual)
    case _ => true
  }

  predicate DisciplinedRun(l: Ledger, ops: seq<Op>)
    decreases |ops|
  {
    ops == [] || (Disciplined(l, ops[0]) && DisciplinedRun(Apply(l, ops[0]), ops[1..]))
  }

  lemma {:induction false} NoRowsNoUse(table: map<nat, Reservation>, rows: seq<Row>, budget: nat, settled: bool, key: Key)
    requires forall i :: 0 <= i < |rows| ==> rows[i].budget != budget
    ensures Sum(table, rows, budget, settled, key) == 0
  {
    if rows != [] {
      NoRowsNoUse(table, rows[..|rows| - 1], budget, settled, key);
    }
  }

  lemma PutBudgetKeeps(l: Ledger, budget: nat, entity: Budget)
    requires LedgerOk(l) && Within(l) && budget !in l.budgets
    ensures LedgerOk(Apply(l, PutBudget(budget, entity))) && Within(Apply(l, PutBudget(budget, entity)))
  {
    var next := Apply(l, PutBudget(budget, entity));
    forall i | 0 <= i < |next.rows| ensures RowMatches(next, next.rows[i]) && next.rows[i].budget != budget {
      assert RowMatches(l, l.rows[i]);
    }
    forall b, key | b in next.budgets ensures KeyWithin(next, b, key) {
      if b == budget {
        NoRowsNoUse(l.reservations, l.rows, b, true, key);
        NoRowsNoUse(l.reservations, l.rows, b, false, key);
      } else {
        assert KeyWithin(l, b, key);
      }
    }
  }

  lemma ApplyKeeps(l: Ledger, op: Op)
    requires LedgerOk(l) && Within(l) && Disciplined(l, op)
    ensures LedgerOk(Apply(l, op)) && Within(Apply(l, op))
  {
    match op
    case PutBudget(budget, entity) => PutBudgetKeeps(l, budget, entity);
    case DoReserve(id, request) =>
      if Reserve(l, id, request).Ok? {
        ReserveKeeps(l, id, request);
      }
    case DoSettle(id, actual, receipts) =>
      if Settle(l, id, actual, receipts).Ok? {
        SettleKeeps(l, id, actual, receipts);
      }
    case DoMarkUncertain(id) =>
      if MarkUncertain(l, id).Ok? {
        MarkTotals(l, id, 0, Key(Turns, None));
        var next := Apply(l, op);
        forall b, key | b in next.budgets ensures KeyWithin(next, b, key) {
          MarkTotals(l, id, b, key);
          assert KeyWithin(l, b, key);
        }
      }
  }

  /** Over every disciplined run, settled plus held stays within every limit of every budget. */
  lemma {:induction false} RunStaysWithin(l: Ledger, ops: seq<Op>)
    requires LedgerOk(l) && Within(l) && DisciplinedRun(l, ops)
    ensures LedgerOk(Run(l, ops)) && Within(Run(l, ops))
    decreases |ops|
  {
    if ops != [] {
      ApplyKeeps(l, ops[0]);
      RunStaysWithin(Apply(l, ops[0]), ops[1..]);
    }
  }

  const EMPTY := Ledger(map[], map[], [])

  // A concrete overrun.

  function Count(n: nat): seq<Entry> {
    [Entry(TURNS, n)]
  }

  function Holding(task: nat, budget: nat, action: nat): Reservation {
    Reservation(task, budget, action, Held, Count(1), None, [], 1)
  }

  lemma CountReads(n: nat)
    requires n <= MAX_INT
    ensures Parse(Count(n)) == Ok(map[TURNS := n])
  {
    assert Count(n)[..0] == [];
  }

  lemma OneTurnAccepted(l: Ledger)
    requires l == Ledger(map[0 := Budget(7, Count(1))], map[], [])
    ensures ReserveNew(l, 5, Holding(7, 0, 3)) == Ok(Insert(l, 5, Holding(7, 0, 3)))
    ensures Used(l, 0, TURNS) == 0
  {
    CountReads(1);
    assert Used(l, 0, TURNS) == 0;
    assert Count(1)[1..] == [];
    assert Refusal(l, 0, map[TURNS := 1], Count(1)) == Refusal(l, 0, map[TURNS := 1], Count(1)[1..]);
  }

  /** The ledger that holds the one turn. */
  function OneHeld(l: Ledger): Ledger {
    Insert(l, 5, Holding(7, 0, 3))
  }

  lemma OverrunReserve(l: Ledger)
    requires l == Ledger(map[0 := Budget(7, Count(1))], map[], [])
    ensures Reserve(l, 5, Holding(7, 0, 3)) == Ok((OneHeld(l), Holding(7, 0, 3)))
  {
    CountReads(1);
    OneTurnAccepted(l);
    assert Matching(l.rows, 5, 0, 3) == [];
  }

  lemma OverrunHolds(l: Ledger)
    requires l == Ledger(map[0 := Budget(7, Count(1))], map[], [])
    ensures LedgerOk(OneHeld(l)) && Used(OneHeld(l), 0, TURNS) == 1
  {
    CountReads(1);
    OneTurnAccepted(l);
    InsertKeepsShape(l, 5, Holding(7, 0, 3));
    InsertTotals(l, 5, Holding(7, 0, 3), 0, TURNS);
  }

  lemma OverrunSettle(l: Ledger)
    requires LedgerOk(l) && 5 in l.reservations && l.reservations[5] == Holding(7, 0, 3) && Used(l, 0, TURNS) == 1
    ensures Settle(l, 5, Count(2), []).Ok? && Used(Settle(l, 5, Count(2), []).value, 0, TURNS) == 2
  {
    CountReads(1);
    CountReads(2);
    SettleTotals(l, 5, Count(2), [], 0, TURNS);
  }

  lemma RunOfThree(l: Ledger, a: Op, b: Op, c: Op)
    ensures Run(l, [a, b, c]) == Apply(Apply(Apply(l, a), b), c)
  {
    assert [a, b, c][1..] == [b, c] && [b, c][1..] == [c] && [c][1..] == [];
    assert Run(l, [a, b, c]) == Run(Apply(l, a), [b, c]);
    assert Run(Apply(l, a), [b, c]) == Run(Apply(Apply(l, a), b), [c]);
  }

  /** The three operations of the overrun. */
  function Overrun(): seq<Op> {
    [PutBudget(0, Budget(7, Count(1))), DoReserve(5, Holding(7, 0, 3)), DoSettle(5, Count(2), [])]
  }

  /** `settle` itself never compares the actual amounts with the reserved ones: a budget of one
      turn can settle two, which is why the run theorem asks for disciplined settlements. */
  lemma SettlementCanOverrun()
    ensures Used(Run(EMPTY, Overrun()), 0, TURNS) == 2
    ensures 0 in Run(EMPTY, Overrun()).budgets && Run(EMPTY, Overrun()).budgets[0].limits == Count(1)
  {
    var a, b, c := PutBudget(0, Budget(7, Count(1))), DoReserve(5, Holding(7, 0, 3)), DoSettle(5, Count(2), []);
    OverrunReserve(Apply(EMPTY, a));
    OverrunHolds(Apply(EMPTY, a));
    var held := OneHeld(Apply(EMPTY, a));
    OverrunSettle(held);
    RunOfThree(EMPTY, a, b, c);
  }
}
