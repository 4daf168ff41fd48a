/** The backup's validator for a dumped plugin store, and why it accepts every reachable state. A
    dump may come from a damaged file, so each row carries its columns and its payload. */
module PoolSnapshot {
  import opened Wrappers
  import opened Collections
  import opened PoolLedger
  import opened PoolRuns
  import opened UsageLedger

  /** The payload digest is injective, so a digest column is the plan it was taken of. */
  datatype PlanRow = PlanRow(id: nat, principal: nat, digest: Plan, itemId: nat, item: Plan)

  datatype BindingRow = BindingRow(id: nat, columns: Binding, itemId: nat, item: Binding)

  datatype ResRow = ResRow(columns: Reservation, item: Reservation)

  datatype ChangeRow = ChangeRow(reservation: nat, sequence: int, itemSequence: int, item: Change)

  datatype Dump = Dump(plans: seq<PlanRow>, bindings: seq<BindingRow>, rows: seq<ResRow>, changes: seq<ChangeRow>,
                       observations: seq<Entry>)

  /** The tables other modules own; None when the backup does not hold them. */
  datatype Outer = Outer(runs: Option<set<nat>>, actions: Option<set<nat>>)

  // ---------------------------------------------------------------- what a sound dump is

  predicate PlanSound(row: PlanRow) {
    row.itemId == row.id && row.item.principal == row.principal && row.digest == row.item && Readable(row.item.items)
  }

  predicate PlansSound(rows: seq<PlanRow>) {
    && (forall i :: 0 <= i < |rows| ==> PlanSound(rows[i]))
    && (forall i, j :: 0 <= i < j < |rows| ==> rows[i].id != rows[j].id)
  }

  predicate HasPlan(rows: seq<PlanRow>, id: nat, plan: Plan) {
    exists i :: 0 <= i < |rows| && rows[i].id == id && rows[i].item == plan
  }

  predicate Known(ids: Option<set<nat>>, id: Option<nat>) {
    id.Some? && ids.Some? ==> id.value in ids.value
  }

  ghost predicate BindingSound(plans: seq<PlanRow>, outer: Outer, row: BindingRow) {
    && row.itemId == row.id && row.item == row.columns
    && (row.item.run.Some? || row.item.action.Some?)
    && Known(outer.runs, row.item.run) && Known(outer.actions, row.item.action)
    && exists plan :: HasPlan(plans, row.item.plan, plan) && plan.principal == row.item.principal
  }

  predicate BindingsApart(a: BindingRow, c: BindingRow) {
    a.id != c.id && Apart(a.item, c.item)
  }

  ghost predicate BindingsSound(plans: seq<PlanRow>, outer: Outer, rows: seq<BindingRow>) {
    && (forall i :: 0 <= i < |rows| ==> BindingSound(plans, outer, rows[i]))
    && (forall i, j :: 0 <= i < j < |rows| ==> BindingsApart(rows[i], rows[j]))
  }

  predicate HasGrant(rows: seq<BindingRow>, id: nat, item: Binding) {
    exists i :: 0 <= i < |rows| && rows[i].id == id && rows[i].item == item
  }

  /** The columns the table repeats agree with the payload. */
  predicate ColumnsAgree(row: ResRow) {
    && row.columns.id == row.item.id && row.columns.binding == row.item.binding && row.columns.key == row.item.key
    && row.columns.status == row.item.status && row.columns.reserved == row.item.reserved
    && row.columns.actual == row.item.actual
  }

  predicate StatusSound(r: Reservation) {
    && (Open(r) ==> r.actual == None) && (r.status == Released ==> r.actual == Some(0))
    && (r.actual == None <==> r.source == None) && |PoolLedger.Dedup(r.evidence)| <= MAX_EVIDENCE
    && r.policy.meter == Some(r.key.meter) && r.policy.window == Some(r.key.window)
  }

  /** The binding's plan reserved exactly this amount for the key. */
  predicate PlannedFor(d: Dump, r: Reservation, g: Binding, plan: Plan) {
    HasGrant(d.bindings, r.binding, g) && HasPlan(d.plans, g.plan, plan) && AmountIn(plan.items, r.key) == Some(r.reserved)
  }

  ghost predicate ReservationSound(d: Dump, row: ResRow) {
    && ColumnsAgree(row) && StatusSound(row.item)
    && exists g, plan :: PlannedFor(d, row.item, g, plan)
  }

  predicate ReservationsApart(a: ResRow, c: ResRow) {
    a.item.id != c.item.id && (a.item.binding != c.item.binding || a.item.key != c.item.key)
  }

  function Items(rows: seq<ResRow>): seq<Reservation> {
    seq(|rows|, i requires 0 <= i < |rows| => rows[i].item)
  }

  ghost predicate ReservationsSound(d: Dump) {
    && (forall i :: 0 <= i < |d.rows| ==> ReservationSound(d, d.rows[i]))
    && (forall i, j :: 0 <= i < j < |d.rows| ==> ReservationsApart(d.rows[i], d.rows[j]))
  }

  /** Every amount of a bound plan is reserved for its binding. */
  ghost predicate PlanReserved(d: Dump, row: BindingRow) {
    forall plan, i :: HasPlan(d.plans, row.item.plan, plan) && 0 <= i < |plan.items| ==>
      OwnsKey(Items(d.rows), row.id, plan.items[i].key)
  }

  /** One reservation's history, in dump order. */
  function HistoryRows(rows: seq<ChangeRow>, id: nat): seq<ChangeRow> {
    if rows == [] then []
    else
      HistoryRows(rows[..|rows| - 1], id)
      + if rows[|rows| - 1].reservation == id then [rows[|rows| - 1]] else []
  }

  predicate LinkSound(h: seq<ChangeRow>, i: nat)
    requires i < |h|
  {
    && h[i].sequence == i + 1 && h[i].itemSequence == i + 1 && |PoolLedger.Dedup(h[i].item.evidence)| <= MAX_EVIDENCE
    && h[i].item.previousStatus == (if i == 0 then None else Some(h[i - 1].item.status))
    && h[i].item.previousActual == (if i == 0 then None else h[i - 1].item.actual)
    && h[i].item.previousSource == (if i == 0 then None else h[i - 1].item.source)
  }

  predicate LinksSound(h: seq<ChangeRow>) {
    forall i :: 0 <= i < |h| ==> LinkSound(h, i)
  }

  predicate HistorySound(h: seq<ChangeRow>, r: Reservation) {
    && h != [] && h[0].item.status == Held && h[0].item.actual == None
    && LinksSound(h) && (forall i :: 0 <= i < |h| ==> h[i].item.reserved == r.reserved)
    && var last := h[|h| - 1].item;
       last.status == r.status && last.actual == r.actual && last.source == r.source && last.evidence == r.evidence
  }

  predicate HasReservation(rows: seq<ResRow>, id: nat) {
    exists i :: 0 <= i < |rows| && rows[i].item.id == id
  }

  predicate HistoriesSound(rows: seq<ResRow>, changes: seq<ChangeRow>) {
    && (forall i :: 0 <= i < |changes| ==> HasReservation(rows, changes[i].reservation))
    && (forall i :: 0 <= i < |rows| ==> HistorySound(HistoryRows(changes, rows[i].item.id), rows[i].item))
  }

  ghost predicate SnapshotOk(d: Dump, outer: Outer) {
    && PlansSound(d.plans) && BindingsSound(d.plans, outer, d.bindings) && ReservationsSound(d)
    && (forall i :: 0 <= i < |d.bindings| ==> PlanReserved(d, d.bindings[i]))
    && HistoriesSound(d.rows, d.changes) && LogOk(d.observations)
  }

  // ---------------------------------------------------------------- every reachable state is sound

  predicate ListsPlan(rows: seq<PlanRow>, id: nat) {
    exists i :: 0 <= i < |rows| && rows[i].id == id
  }

  predicate ListsBinding(rows: seq<BindingRow>, id: nat) {
    exists i :: 0 <= i < |rows| && rows[i].id == id
  }

  predicate FaithfulPlan(b: Books, row: PlanRow) {
    && row.id in b.plans && row.item == b.plans[row.id] && row.itemId == row.id
    && row.principal == row.item.principal && row.digest == row.item
  }

  predicate FaithfulBinding(b: Books, row: BindingRow) {
    row.id in b.bindings && row.item == b.bindings[row.id] && row.itemId == row.id && row.columns == row.item
  }

  /** The stored history of one reservation, numbered. */
  predicate FaithfulHistory(h: seq<ChangeRow>, stored: seq<Change>) {
    |h| == |stored| && forall i :: 0 <= i < |h| ==> h[i].item == stored[i] && h[i].sequence == h[i].itemSequence == i + 1
  }

  ghost predicate DumpOf(d: Dump, b: Books, log: seq<Entry>) {
    && (forall i :: 0 <= i < |d.plans| ==> FaithfulPlan(b, d.plans[i]))
    && (forall i, j :: 0 <= i < j < |d.plans| ==> d.plans[i].id != d.plans[j].id)
    && (forall id :: id in b.plans ==> ListsPlan(d.plans, id))
    && (forall i :: 0 <= i < |d.bindings| ==> FaithfulBinding(b, d.bindings[i]))
    && (forall i, j :: 0 <= i < j < |d.bindings| ==> d.bindings[i].id != d.bindings[j].id)
    && (forall id :: id in b.bindings ==> ListsBinding(d.bindings, id))
    && |d.rows| == |b.rows| && (forall i :: 0 <= i < |d.rows| ==> d.rows[i] == ResRow(b.rows[i], b.rows[i]))
    && (forall i :: 0 <= i < |d.changes| ==> d.changes[i].reservation in b.histories)
    && (forall id :: id in b.histories ==> FaithfulHistory(HistoryRows(d.changes, id), b.histories[id]))
    && d.observations == log
  }

  /** The references into other tables hold; they are kept by other modules. */
  predicate Referenced(b: Books, outer: Outer) {
    forall id :: id in b.bindings ==> Known(outer.runs, b.bindings[id].run) && Known(outer.actions, b.bindings[id].action)
  }

  lemma PlanListed(d: Dump, b: Books, log: seq<Entry>, id: nat)
    requires DumpOf(d, b, log) && id in b.plans
    ensures HasPlan(d.plans, id, b.plans[id])
  {
    assert ListsPlan(d.plans, id);
    var i :| 0 <= i < |d.plans| && d.plans[i].id == id;
    assert FaithfulPlan(b, d.plans[i]);
  }

  lemma PlanIsStored(d: Dump, b: Books, log: seq<Entry>, id: nat, plan: Plan)
    requires DumpOf(d, b, log) && HasPlan(d.plans, id, plan)
    ensures id in b.plans && b.plans[id] == plan
  {
    var i :| 0 <= i < |d.plans| && d.plans[i].id == id && d.plans[i].item == plan;
    assert FaithfulPlan(b, d.plans[i]);
  }

  lemma PlansAccepted(d: Dump, b: Books, log: seq<Entry>)
    requires DumpOf(d, b, log) && BooksOk(b)
    ensures PlansSound(d.plans)
  {
    forall i | 0 <= i < |d.plans| ensures PlanSound(d.plans[i]) {
      assert FaithfulPlan(b, d.plans[i]);
    }
  }

  lemma BindingAccepted(d: Dump, b: Books, log: seq<Entry>, outer: Outer, i: nat)
    requires DumpOf(d, b, log) && BooksOk(b) && Referenced(b, outer) && i < |d.bindings|
    ensures BindingSound(d.plans, outer, d.bindings[i])
  {
    var row := d.bindings[i];
    assert FaithfulBinding(b, row) && BindingOk(b, row.id);
    PlanListed(d, b, log, row.item.plan);
  }

  lemma BindingsAccepted(d: Dump, b: Books, log: seq<Entry>, outer: Outer)
    requires DumpOf(d, b, log) && BooksOk(b) && Referenced(b, outer)
    ensures BindingsSound(d.plans, outer, d.bindings)
  {
    forall i | 0 <= i < |d.bindings| ensures BindingSound(d.plans, outer, d.bindings[i]) {
      BindingAccepted(d, b, log, outer, i);
    }
    forall i, j | 0 <= i < j < |d.bindings| ensures BindingsApart(d.bindings[i], d.bindings[j]) {
      assert FaithfulBinding(b, d.bindings[i]) && FaithfulBinding(b, d.bindings[j]);
      assert d.bindings[i].id != d.bindings[j].id;
    }
  }

  lemma ReservationAccepted(d: Dump, b: Books, log: seq<Entry>, i: nat)
    requires DumpOf(d, b, log) && BooksOk(b) && i < |d.rows|
    ensures ReservationSound(d, d.rows[i])
  {
    var r := b.rows[i];
    assert d.rows[i] == ResRow(r, r);
    assert TableRowOk(TableOf(b), i) && RowLinked(b, r);
    var g := b.bindings[r.binding];
    assert ListsBinding(d.bindings, r.binding);
    var k :| 0 <= k < |d.bindings| && d.bindings[k].id == r.binding;
    assert FaithfulBinding(b, d.bindings[k]);
    PlanListed(d, b, log, g.plan);
    assert PlannedFor(d, r, g, b.plans[g.plan]);
  }

  lemma ReservationsAccepted(d: Dump, b: Books, log: seq<Entry>)
    requires DumpOf(d, b, log) && BooksOk(b)
    ensures ReservationsSound(d)
  {
    forall i | 0 <= i < |d.rows| ensures ReservationSound(d, d.rows[i]) {
      ReservationAccepted(d, b, log, i);
    }
    forall i, j | 0 <= i < j < |d.rows| ensures ReservationsApart(d.rows[i], d.rows[j]) {
      assert TableOf(b).rows[i].id != TableOf(b).rows[j].id;
    }
  }

  lemma PlanReservedAccepted(d: Dump, b: Books, log: seq<Entry>, k: nat)
    requires DumpOf(d, b, log) && BooksOk(b) && k < |d.bindings|
    ensures PlanReserved(d, d.bindings[k])
  {
    var row := d.bindings[k];
    assert FaithfulBinding(b, row) && BindingOk(b, row.id) && Planned(b, row.id);
    assert Items(d.rows) == b.rows;
    forall plan, i | HasPlan(d.plans, row.item.plan, plan) && 0 <= i < |plan.items|
      ensures OwnsKey(Items(d.rows), row.id, plan.items[i].key)
    {
      PlanIsStored(d, b, log, row.item.plan, plan);
    }
  }

  lemma LinkAccepted(h: seq<ChangeRow>, stored: seq<Change>, r: Reservation, i: nat)
    requires FaithfulHistory(h, stored) && HistoryOk(stored, r) && i < |h|
    ensures LinkSound(h, i)
  {
    assert h[i].item == stored[i];
    if i > 0 {
      assert h[i - 1].item == stored[i - 1] && Linked(stored, i);
    }
  }

  lemma LinksAccepted(h: seq<ChangeRow>, stored: seq<Change>, r: Reservation)
    requires FaithfulHistory(h, stored) && HistoryOk(stored, r)
    ensures LinksSound(h)
  {
    forall i | 0 <= i < |h| ensures LinkSound(h, i) {
      LinkAccepted(h, stored, r, i);
    }
  }

  lemma HistoryAccepted(h: seq<ChangeRow>, stored: seq<Change>, r: Reservation)
    requires FaithfulHistory(h, stored) && HistoryOk(stored, r)
    ensures HistorySound(h, r)
  {
    LinksAccepted(h, stored, r);
  }

  /** The dump's `i`-th reservation is the stored one, and its history is dumped with it. */
  lemma HistoryListed(d: Dump, b: Books, log: seq<Entry>, i: nat)
    requires DumpOf(d, b, log) && BooksOk(b) && i < |d.rows|
    ensures HistorySound(HistoryRows(d.changes, d.rows[i].item.id), d.rows[i].item)
  {
    assert d.rows[i].item == b.rows[i];
    assert TableRowOk(TableOf(b), i);
    HistoryAccepted(HistoryRows(d.changes, b.rows[i].id), b.histories[b.rows[i].id], b.rows[i]);
  }

  lemma HistoriesAccepted(d: Dump, b: Books, log: seq<Entry>)
    requires DumpOf(d, b, log) && BooksOk(b)
    ensures HistoriesSound(d.rows, d.changes)
  {
    forall i | 0 <= i < |d.changes| ensures HasReservation(d.rows, d.changes[i].reservation) {
      assert Listed(TableOf(b).rows, d.changes[i].reservation);
      var k :| 0 <= k < |b.rows| && b.rows[k].id == d.changes[i].reservation;
      assert d.rows[k].item == b.rows[k];
    }
    forall i | 0 <= i < |d.rows| ensures HistorySound(HistoryRows(d.changes, d.rows[i].item.id), d.rows[i].item) {
      HistoryListed(d, b, log, i);
    }
  }

  lemma SoundBooksAccepted(d: Dump, b: Books, log: seq<Entry>, outer: Outer)
    requires DumpOf(d, b, log) && BooksOk(b) && LogOk(log) && Referenced(b, outer)
    ensures SnapshotOk(d, outer)
  {
    PlansAccepted(d, b, log);
    BindingsAccepted(d, b, log, outer);
    ReservationsAccepted(d, b, log);
    HistoriesAccepted(d, b, log);
    forall k | 0 <= k < |d.bindings| ensures PlanReserved(d, d.bindings[k]) {
      PlanReservedAccepted(d, b, log, k);
    }
  }

  function Observe(log: seq<Entry>, observations: seq<Observation>): seq<Entry>
    decreases |observations|
  {
    if observations == [] then log
    else
      var r := Record(log, observations[0]);
      Observe(if r.Ok? then r.value.0 else log, observations[1..])
  }

  lemma {:induction false} ObserveKeeps(log: seq<Entry>, observations: seq<Observation>)
    requires LogOk(log)
    ensures LogOk(Observe(log, observations))
    decreases |observations|
  {
    if observations != [] {
      var r := Record(log, observations[0]);
      if r.Ok? {
        RecordKeeps(log, observations[0]);
      }
      ObserveKeeps(if r.Ok? then r.value.0 else log, observations[1..]);
    }
  }

  /** Whatever admissions, bindings, uncertainty marks, settlements, corrections and observations
      have been made, a dump of the result passes the validator. */
  lemma ReachableDumpsAccepted(ops: seq<Op>, observations: seq<Observation>, d: Dump, outer: Outer)
    requires DumpOf(d, Run(NO_BOOKS, ops), Observe([], observations)) && Referenced(Run(NO_BOOKS, ops), outer)
    ensures SnapshotOk(d, outer)
  {
    assert BooksOk(NO_BOOKS) && LogOk([]);
    RunKeeps(NO_BOOKS, ops);
    ObserveKeeps([], observations);
    SoundBooksAccepted(d, Run(NO_BOOKS, ops), Observe([], observations), outer);
  }

  // ---------------------------------------------------------------- every state has a dump

  /** One reservation's history as rows. */
  function Block(id: nat, stored: seq<Change>): (rows: seq<ChangeRow>)
    ensures |rows| == |stored|
    ensures forall i :: 0 <= i < |rows| ==> rows[i] == ChangeRow(id, i + 1, i + 1, stored[i])
  {
    seq(|stored|, i requires 0 <= i < |stored| => ChangeRow(id, i + 1, i + 1, stored[i]))
  }

  lemma {:induction false} HistoryConcat(a: seq<ChangeRow>, c: seq<ChangeRow>, id: nat)
    ensures HistoryRows(a + c, id) == HistoryRows(a, id) + HistoryRows(c, id)
  {
    if c == [] {
      assert a + c == a;
    } else {
      assert (a + c)[..|a + c| - 1] == a + c[..|c| - 1];
      HistoryConcat(a, c[..|c| - 1], id);
    }
  }

  lemma {:induction false} HistoryOfOne(rows: seq<ChangeRow>, owner: nat, id: nat)
    requires forall i :: 0 <= i < |rows| ==> rows[i].reservation == owner
    ensures HistoryRows(rows, id) == if id == owner then rows else []
  {
    if rows != [] {
      HistoryOfOne(rows[..|rows| - 1], owner, id);
      assert rows == rows[..|rows| - 1] + [rows[|rows| - 1]];
    }
  }

  /** The change rows of the reservations listed, one block each. */
  function ChangeRows(histories: Histories, ids: seq<nat>): seq<ChangeRow>
    requires forall id :: id in ids ==> id in histories
  {
    if ids == [] then []
    else ChangeRows(histories, ids[..|ids| - 1]) + Block(ids[|ids| - 1], histories[ids[|ids| - 1]])
  }

  lemma {:induction false} ChangeOwned(histories: Histories, ids: seq<nat>, i: nat)
    requires (forall id :: id in ids ==> id in histories) && i < |ChangeRows(histories, ids)|
    ensures ChangeRows(histories, ids)[i].reservation in ids
    decreases |ids|
  {
    var front := ids[..|ids| - 1];
    if i < |ChangeRows(histories, front)| {
      ChangeOwned(histories, front, i);
    }
  }

  lemma BlockAdds(before: seq<ChangeRow>, last: nat, stored: seq<Change>, id: nat)
    ensures HistoryRows(before + Block(last, stored), id)
         == HistoryRows(before, id) + (if id == last then Block(last, stored) else [])
  {
    HistoryConcat(before, Block(last, stored), id);
    HistoryOfOne(Block(last, stored), last, id);
  }

  lemma {:induction false} ChangesOf(histories: Histories, ids: seq<nat>, id: nat)
    requires NoRepeats(ids) && forall k :: k in ids ==> k in histories
    ensures HistoryRows(ChangeRows(histories, ids), id) == if id in ids then Block(id, histories[id]) else []
    decreases |ids|
  {
    if ids != [] {
      var front, last := ids[..|ids| - 1], ids[|ids| - 1];
      ChangesOf(histories, front, id);
      BlockAdds(ChangeRows(histories, front), last, histories[last], id);
      InFront(ids, id);
    }
  }

  lemma InFront(ids: seq<nat>, id: nat)
    requires NoRepeats(ids) && ids != []
    ensures id in ids <==> id in ids[..|ids| - 1] || id == ids[|ids| - 1]
    ensures ids[|ids| - 1] !in ids[..|ids| - 1]
  {
  }

  lemma PlanDump(b: Books) returns (rows: seq<PlanRow>)
    ensures forall i :: 0 <= i < |rows| ==> FaithfulPlan(b, rows[i])
    ensures forall i, j :: 0 <= i < j < |rows| ==> rows[i].id != rows[j].id
    ensures forall id :: id in b.plans ==> ListsPlan(rows, id)
  {
    var keys := ListOf(b.plans.Keys);
    assert forall i :: 0 <= i < |keys| ==> keys[i] in keys;
    rows := seq(|keys|, i requires 0 <= i < |keys| && keys[i] in b.plans =>
                  PlanRow(keys[i], b.plans[keys[i]].principal, b.plans[keys[i]], keys[i], b.plans[keys[i]]));
    forall id | id in b.plans ensures ListsPlan(rows, id) {
      assert id in keys;
      var i :| 0 <= i < |keys| && keys[i] == id;
      assert rows[i].id == id;
    }
  }

  lemma BindingDump(b: Books) returns (rows: seq<BindingRow>)
    ensures forall i :: 0 <= i < |rows| ==> FaithfulBinding(b, rows[i])
    ensures forall i, j :: 0 <= i < j < |rows| ==> rows[i].id != rows[j].id
    ensures forall id :: id in b.bindings ==> ListsBinding(rows, id)
  {
    var keys := ListOf(b.bindings.Keys);
    assert forall i :: 0 <= i < |keys| ==> keys[i] in keys;
    rows := seq(|keys|, i requires 0 <= i < |keys| && keys[i] in b.bindings =>
                  BindingRow(keys[i], b.bindings[keys[i]], keys[i], b.bindings[keys[i]]));
    forall id | id in b.bindings ensures ListsBinding(rows, id) {
      assert id in keys;
      var i :| 0 <= i < |keys| && keys[i] == id;
      assert rows[i].id == id;
    }
  }

  lemma EveryStateHasADump(b: Books, log: seq<Entry>) returns (d: Dump)
    ensures DumpOf(d, b, log)
  {
    var plans := PlanDump(b);
    var bindings := BindingDump(b);
    var ids := ListOf(b.histories.Keys);
    var changes := ChangeRows(b.histories, ids);
    forall i | 0 <= i < |changes| ensures changes[i].reservation in b.histories {
      ChangeOwned(b.histories, ids, i);
    }
    forall id | id in b.histories ensures FaithfulHistory(HistoryRows(changes, id), b.histories[id]) {
      ChangesOf(b.histories, ids, id);
    }
    var rows := seq(|b.rows|, i requires 0 <= i < |b.rows| => ResRow(b.rows[i], b.rows[i]));
    d := Dump(plans, bindings, rows, changes, log);
  }

  /** So every reachable state has a dump, and the validator accepts it. */
  lemma ReachableStateBacksUp(ops: seq<Op>, observations: seq<Observation>, outer: Outer) returns (d: Dump)
    requires Referenced(Run(NO_BOOKS, ops), outer)
    ensures DumpOf(d, Run(NO_BOOKS, ops), Observe([], observations)) && SnapshotOk(d, outer)
  {
    d := EveryStateHasADump(Run(NO_BOOKS, ops), Observe([], observations));
    ReachableDumpsAccepted(ops, observations, d, outer);
  }
}
