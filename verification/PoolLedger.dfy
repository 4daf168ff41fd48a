/** Shared billing pools: confirmed plans, execution bindings, pool reservations and their
    append-only change histories, for one namespace. */
module PoolLedger {
  import opened Wrappers

  datatype PoolKey = PoolKey(pool: nat, meter: nat, window: nat)

  /** A normalised billing pool; its optional policy fields may be missing. */
  datatype Pool = Pool(localLimit: Option<nat>, maxConcurrency: Option<nat>, meter: Option<nat>, window: Option<nat>,
                       remaining: Option<nat>, observedAt: Option<int>)

  datatype Item = Item(key: PoolKey, amount: nat)

  datatype Plan = Plan(principal: nat, items: seq<Item>, body: nat)

  datatype Binding = Binding(plan: nat, principal: nat, run: Option<nat>, action: Option<nat>)

  datatype Status = Held | Uncertain | Committed | Released

  datatype Source = ProviderObserved | Billed | NotApplied

  datatype Reservation = Reservation(id: nat, binding: nat, key: PoolKey, status: Status, reserved: nat,
                                     actual: Option<nat>, source: Option<Source>, policy: Pool,
                                     evidence: seq<nat>, created: int)

  datatype Kind = Admitted | RemoteUnknown | NotAppliedKind | Correction | SettledKind

  /** One history row; its sequence number is its position, counted from one. */
  datatype Change = Change(kind: Kind, previousStatus: Option<Status>, previousActual: Option<nat>,
                           previousSource: Option<Source>, status: Status, actual: Option<nat>,
                           source: Option<Source>, reserved: nat, evidence: seq<nat>)

  type Histories = map<nat, seq<Change>>

  /** Identifiers are minted from `next`; reservation rows keep insertion order. */
  datatype Books = Books(plans: map<nat, Plan>, bindings: map<nat, Binding>, rows: seq<Reservation>,
                         histories: Histories, next: nat)

  const NO_BOOKS := Books(map[], map[], [], map[], 0)

  const MAX_EVIDENCE: nat := 256

  // ---------------------------------------------------------------- evidence and amounts

  function Dedup(values: seq<nat>): seq<nat> {
    if values == [] then []
    else
      var front := Dedup(values[..|values| - 1]);
      if values[|values| - 1] in front then front else front + [values[|values| - 1]]
  }

  function Evidence(values: seq<nat>): Result<seq<nat>> {
    if |Dedup(values)| > MAX_EVIDENCE then Err(InvalidRequest) else Ok(Dedup(values))
  }

  predicate DistinctKeys(items: seq<Item>) {
    forall i, j :: 0 <= i < j < |items| ==> items[i].key != items[j].key
  }

  /** `reservation_amounts`: a non-empty list of distinct keys. */
  predicate Readable(items: seq<Item>) {
    items != [] && DistinctKeys(items)
  }

  function AmountIn(items: seq<Item>, key: PoolKey): Option<nat> {
    if items == [] then None
    else if items[|items| - 1].key == key then Some(items[|items| - 1].amount)
    else AmountIn(items[..|items| - 1], key)
  }

  // ---------------------------------------------------------------- totals

  predicate Open(r: Reservation) {
    r.status == Held || r.status == Uncertain
  }

  /** What a reservation takes from its window: the actual amount once known, the estimate until then. */
  function Charge(r: Reservation): nat {
    if r.status == Released then 0
    else if r.status == Committed && r.actual.Some? then r.actual.value else r.reserved
  }

  function Used(rows: seq<Reservation>, key: PoolKey): nat {
    if rows == [] then 0
    else
      Used(rows[..|rows| - 1], key)
      + if rows[|rows| - 1].key == key then Charge(rows[|rows| - 1]) else 0
  }

  /** The bindings that hold a slot of the pool, in whatever window. */
  function Active(rows: seq<Reservation>, pool: nat): set<nat> {
    set i | 0 <= i < |rows| && rows[i].key.pool == pool && Open(rows[i]) :: rows[i].binding
  }

  /** What has drawn on an observed balance: everything open, and settlements begun since. */
  function DrawnOf(r: Reservation, observed: Option<int>): nat {
    if Open(r) then r.reserved
    else if r.status == Committed && (observed.None? || r.created >= observed.value) then
      match r.actual case Some(n) => n case None => r.reserved
    else 0
  }

  function Drawn(rows: seq<Reservation>, key: PoolKey, observed: Option<int>): nat {
    if rows == [] then 0
    else
      Drawn(rows[..|rows| - 1], key, observed)
      + if rows[|rows| - 1].key == key then DrawnOf(rows[|rows| - 1], observed) else 0
  }

  // ---------------------------------------------------------------- admission

  predicate Bounded(p: Pool) {
    p.localLimit.Some? && p.maxConcurrency.Some? && p.meter.Some? && p.window.Some?
  }

  predicate Covers(p: Pool, item: Item) {
    Bounded(p) && p.meter.value == item.key.meter && p.window.value == item.key.window
  }

  function PoolRefusal(pools: map<nat, Pool>, item: Item): Option<Error> {
    if item.key.pool !in pools then Some(BudgetUnknown)
    else if !Bounded(pools[item.key.pool]) then Some(BudgetUnknown)
    else if !Covers(pools[item.key.pool], item) then Some(BindingMismatch)
    else None
  }

  function PoolsRefusal(pools: map<nat, Pool>, items: seq<Item>): Option<Error> {
    if items == [] then None
    else if PoolRefusal(pools, items[0]).Some? then PoolRefusal(pools, items[0])
    else PoolsRefusal(pools, items[1..])
  }

  function RoomRefusal(rows: seq<Reservation>, p: Pool, item: Item): Option<Error>
    requires Bounded(p)
  {
    if Used(rows, item.key) + item.amount > p.localLimit.value then Some(BudgetExhausted)
    else if |Active(rows, item.key.pool)| >= p.maxConcurrency.value then Some(BudgetExhausted)
    else if p.remaining.Some? && Drawn(rows, item.key, p.observedAt) + item.amount > p.remaining.value then
      Some(BudgetExhausted)
    else None
  }

  function RoomsRefusal(rows: seq<Reservation>, pools: map<nat, Pool>, items: seq<Item>): Option<Error>
    requires forall i :: 0 <= i < |items| ==> items[i].key.pool in pools && Bounded(pools[items[i].key.pool])
  {
    if items == [] then None
    else
      var r := RoomRefusal(rows, pools[items[0].key.pool], items[0]);
      if r.Some? then r else RoomsRefusal(rows, pools, items[1..])
  }

  predicate Requested(items: seq<Item>) {
    exists i :: 0 <= i < |items| && items[i].amount > 0
  }

  predicate PlanBound(b: Books, plan: nat, id: nat) {
    id in b.bindings && b.bindings[id].plan == plan
  }

  predicate RunTaken(b: Books, run: Option<nat>) {
    run.Some? && exists id :: id in b.bindings && b.bindings[id].run == run
  }

  predicate ActionTaken(b: Books, action: Option<nat>) {
    action.Some? && exists id :: id in b.bindings && b.bindings[id].action == action
  }

  function NewRow(item: Item, policy: Pool, id: nat, binding: nat, now: int): Reservation {
    Reservation(id, binding, item.key, Held, item.amount, None, None, policy, [], now)
  }

  function FirstChange(r: Reservation): Change {
    Change(Admitted, None, None, None, r.status, r.actual, r.source, r.reserved, r.evidence)
  }

  /** The rows of the first `n` items; ids follow the binding's. */
  function NewRows(items: seq<Item>, pools: map<nat, Pool>, binding: nat, now: int): (rows: seq<Reservation>)
    requires forall i :: 0 <= i < |items| ==> items[i].key.pool in pools
    ensures |rows| == |items|
    ensures forall i :: 0 <= i < |rows| ==>
              rows[i] == NewRow(items[i], pools[items[i].key.pool], binding + 1 + i, binding, now)
  {
    if items == [] then []
    else
      var item := items[|items| - 1];
      NewRows(items[..|items| - 1], pools, binding, now)
      + [NewRow(item, pools[item.key.pool], binding + |items|, binding, now)]
  }

  datatype Admission = Admission(planId: nat, plan: Plan, run: Option<nat>, action: Option<nat>)

  function Admitted1(b: Books, q: Admission, pools: map<nat, Pool>, now: int): Books
    requires forall i :: 0 <= i < |q.plan.items| ==> q.plan.items[i].key.pool in pools
  {
    var rows := NewRows(q.plan.items, pools, b.next, now);
    Books(b.plans[q.planId := q.plan], b.bindings[b.next := Binding(q.planId, q.plan.principal, q.run, q.action)],
          b.rows + rows, b.histories + NewHistories(rows), b.next + 1 + |rows|)
  }

  function NewHistories(rows: seq<Reservation>): Histories {
    if rows == [] then map[]
    else NewHistories(rows[..|rows| - 1])[rows[|rows| - 1].id := [FirstChange(rows[|rows| - 1])]]
  }

  /** The existing execution of a confirmed plan, if its references agree. */
  function Rebound(b: Books, q: Admission, id: nat): Result<nat>
    requires id in b.bindings
  {
    var old_ := b.bindings[id];
    if (q.run.Some? && old_.run != q.run) || (q.action.Some? && old_.action != q.action) then Err(BindingMismatch)
    else if old_.principal != q.plan.principal then Err(NotFound)
    else Ok(id)
  }

  function Rebinds(b: Books, q: Admission, id: nat): Result<(Books, nat)>
    requires id in b.bindings
  {
    match Rebound(b, q, id)
    case Ok(_) => Ok((b.(plans := b.plans[q.planId := q.plan]), id))
    case Err(error) => Err(error)
  }

  predicate HasBinding(b: Books, plan: nat) {
    exists id :: id in b.bindings && PlanBound(b, plan, id)
  }

  /** What `admit` refuses before it reads the tables. */
  function RequestRefusal(q: Admission, pools: map<nat, Pool>): Option<Error> {
    if !Readable(q.plan.items) then Some(InvalidRequest)
    else if !Requested(q.plan.items) then Some(BudgetUnknown)
    else if q.run.None? && q.action.None? then Some(InvalidRequest)
    else PoolsRefusal(pools, q.plan.items)
  }

  /** What it refuses for a plan without an execution. */
  function NewRefusal(b: Books, q: Admission, pools: map<nat, Pool>): Option<Error>
    requires forall i :: 0 <= i < |q.plan.items| ==>
               q.plan.items[i].key.pool in pools && Bounded(pools[q.plan.items[i].key.pool])
  {
    var full := RoomsRefusal(b.rows, pools, q.plan.items);
    if full.Some? then full
    else if RunTaken(b, q.run) || ActionTaken(b, q.action) then Some(BindingMismatch)
    else None
  }

  predicate PoolsKnown(pools: map<nat, Pool>, items: seq<Item>) {
    forall i :: 0 <= i < |items| ==> items[i].key.pool in pools && Bounded(pools[items[i].key.pool])
  }

  /** `admit` as one transaction: the new books and, in them, the binding that answers the plan. */
  ghost predicate Admits(b: Books, q: Admission, pools: map<nat, Pool>, now: int, r: Result<(Books, nat)>) {
    if RequestRefusal(q, pools).Some? then r == Err(RequestRefusal(q, pools).value)
    else if q.planId in b.plans && b.plans[q.planId] != q.plan then r == Err(BindingMismatch)
    else if HasBinding(b, q.planId) then
      exists id: nat :: id in b.bindings && PlanBound(b, q.planId, id) && r == Rebinds(b, q, id)
    else
      && PoolsKnown(pools, q.plan.items)
      && r == match NewRefusal(b, q, pools)
              case None => Ok((Admitted1(b, q, pools, now), b.next))
              case Some(error) => Err(error)
  }

  // ---------------------------------------------------------------- settlement

  /** Why a binding's reservations are rewritten. `given` says that amounts were supplied at all. */
  datatype Motion =
    | RemoteLost(evidence: seq<nat>)
    | Settling(amounts: map<PoolKey, nat>, given: bool, notApplied: bool, evidence: seq<nat>, source: Source)

  datatype Verdict = Keep | Write(row: Reservation, kind: Kind) | Refuse(error: Error)

  function WithEvidence(r: Reservation, evidence: seq<nat>, kind: Kind): Verdict {
    match Evidence(r.evidence + evidence)
    case Err(error) => Refuse(error)
    case Ok(all) => Write(r.(evidence := all), kind)
  }

  function Observed(r: Reservation, m: Motion): Option<nat>
    requires m.Settling?
  {
    if m.notApplied then Some(0) else if r.key in m.amounts then Some(m.amounts[r.key]) else r.actual
  }

  function SourceAfter(r: Reservation, m: Motion): Option<Source>
    requires m.Settling?
  {
    if m.notApplied then Some(NotApplied) else if r.key in m.amounts then Some(m.source) else r.source
  }

  function Decide(r: Reservation, m: Motion): Verdict {
    match m
    case RemoteLost(evidence) =>
      if r.status == Uncertain then Keep
      else if r.status != Held then Refuse(InvalidState)
      else WithEvidence(r.(status := Uncertain), evidence, RemoteUnknown)
    case Settling(amounts, given, notApplied, evidence, source) =>
      var status := if notApplied then Released else Committed;
      var observed, after := Observed(r, m), SourceAfter(r, m);
      if r.status == Released && !notApplied && !given then Keep
      else if r.status == Released && !(status == Released && observed == Some(0)) then Refuse(InvalidState)
      else if r.status == Committed && notApplied && (!(r.actual == None || r.actual == Some(0)) || evidence == []) then
        Refuse(InvalidState)
      else if r.source == Some(Billed) && r.key in amounts && source != Billed then Refuse(InvalidState)
      else if r.status == status && r.actual == observed && r.source == after then Keep
      else
        WithEvidence(r.(status := status, actual := observed, source := after), evidence,
                     if notApplied then NotAppliedKind else if r.status == Committed then Correction else SettledKind)
  }

  function ChangeOf(old_: Reservation, next: Reservation, kind: Kind): Change {
    Change(kind, Some(old_.status), old_.actual, old_.source, next.status, next.actual, next.source, next.reserved,
           next.evidence)
  }

  datatype Table = Table(rows: seq<Reservation>, histories: Histories)

  function HistoryOf(histories: Histories, id: nat): seq<Change> {
    if id in histories then histories[id] else []
  }

  function Rewritten(t: Table, i: nat, next: Reservation, kind: Kind): Table
    requires i < |t.rows|
  {
    Table(t.rows[i := next],
          t.histories[next.id := HistoryOf(t.histories, next.id) + [ChangeOf(t.rows[i], next, kind)]])
  }

  /** One row's turn. */
  function Moved(t: Table, i: nat, binding: nat, m: Motion): (r: Result<Table>)
    requires i < |t.rows|
    ensures r.Ok? ==> |r.value.rows| == |t.rows| && forall j :: 0 <= j < |t.rows| && j != i ==> r.value.rows[j] == t.rows[j]
  {
    if t.rows[i].binding != binding then Ok(t)
    else
      match Decide(t.rows[i], m)
      case Keep => Ok(t)
      case Write(next, kind) => Ok(Rewritten(t, i, next, kind))
      case Refuse(error) => Err(error)
  }

  /** The first `n` rows of a binding's reservations, in insertion order; the first refusal wins. */
  function Sweep(t: Table, n: nat, binding: nat, m: Motion): (r: Result<Table>)
    requires n <= |t.rows|
    ensures r.Ok? ==> |r.value.rows| == |t.rows|
    ensures r.Ok? ==> forall i :: n <= i < |t.rows| ==> r.value.rows[i] == t.rows[i]
  {
    if n == 0 then Ok(t)
    else
      var done :- Sweep(t, n - 1, binding, m);
      Moved(done, n - 1, binding, m)
  }

  function TableOf(b: Books): Table {
    Table(b.rows, b.histories)
  }

  function WithTable(b: Books, t: Table): Books {
    b.(rows := t.rows, histories := t.histories)
  }

  function SweepBooks(b: Books, binding: nat, m: Motion): (r: Result<Books>) {
    if binding !in b.bindings then Err(NotFound)
    else
      var t :- Sweep(TableOf(b), |b.rows|, binding, m);
      Ok(WithTable(b, t))
  }

  function MarkUncertain(b: Books, binding: nat, evidence: seq<nat>): (r: Result<Books>) {
    var all :- Evidence(evidence);
    SweepBooks(b, binding, RemoteLost(all))
  }

  /** The amounts of a settlement: none, per pool, or per (pool, meter, window). */
  datatype Actual = NoActual | ByPool(amounts: map<nat, int>) | ByKey(items: seq<Item>)

  predicate OwnsKey(rows: seq<Reservation>, binding: nat, key: PoolKey) {
    exists i :: 0 <= i < |rows| && rows[i].binding == binding && rows[i].key == key
  }

  predicate OwnedIn(rows: seq<Reservation>, binding: nat, pool: nat, i: nat)
    requires i < |rows|
  {
    rows[i].binding == binding && rows[i].key.pool == pool
  }

  /** The binding has exactly one key in the pool. */
  predicate OwnsPool(rows: seq<Reservation>, binding: nat, pool: nat) {
    exists i :: 0 <= i < |rows| && OwnedIn(rows, binding, pool, i)
      && forall j :: 0 <= j < |rows| && OwnedIn(rows, binding, pool, j) ==> rows[j].key == rows[i].key
  }

  function ItemAmounts(items: seq<Item>): map<PoolKey, nat> {
    if items == [] then map[]
    else ItemAmounts(items[..|items| - 1])[items[|items| - 1].key := items[|items| - 1].amount]
  }

  /** Per-pool amounts, for the binding's own key in each pool. */
  function PoolAmounts(rows: seq<Reservation>, binding: nat, amounts: map<nat, int>): map<PoolKey, nat> {
    if rows == [] then map[]
    else
      var front := PoolAmounts(rows[..|rows| - 1], binding, amounts);
      var last := rows[|rows| - 1];
      if last.binding == binding && last.key.pool in amounts && amounts[last.key.pool] >= 0 then
        front[last.key := amounts[last.key.pool]]
      else front
  }

  function Amounts(b: Books, binding: nat, actual: Actual): Result<map<PoolKey, nat>> {
    match actual
    case NoActual => Ok(map[])
    case ByPool(amounts) =>
      if exists pool :: pool in amounts && !OwnsPool(b.rows, binding, pool) then Err(InvalidRequest)
      else if exists pool :: pool in amounts && !(0 <= amounts[pool] <= MAX_INT) then Err(InvalidRequest)
      else Ok(PoolAmounts(b.rows, binding, amounts))
    case ByKey(items) =>
      if !Readable(items) then Err(if items == [] then BudgetUnknown else InvalidRequest)
      else if exists i :: 0 <= i < |items| && !OwnsKey(b.rows, binding, items[i].key) then Err(InvalidRequest)
      else Ok(ItemAmounts(items))
  }

  function Settle(b: Books, binding: nat, actual: Actual, notApplied: bool, evidence: seq<nat>, source: Source):
    (r: Result<Books>)
  {
    if source == NotApplied then Err(InvalidRequest)
    else
      var all :- Evidence(evidence);
      if binding !in b.bindings then Err(NotFound)
      else
        var amounts :- Amounts(b, binding, actual);
        if notApplied && exists key :: key in amounts && amounts[key] > 0 then Err(InvalidRequest)
        else SweepBooks(b, binding, Settling(amounts, actual != NoActual, notApplied, all, source))
  }

  /** `bind_legacy`: the execution of a control Action's plan. */
  function BindLegacy(b: Books, id: nat, run: nat): (r: Result<Books>)
    requires id in b.bindings
  {
    var old_ := b.bindings[id];
    if old_.run.Some? && old_.run.value != run then Err(BindingMismatch)
    else if old_.run == Some(run) then Ok(b)
    else if RunTaken(b, Some(run)) then Err(BindingMismatch)
    else Ok(b.(bindings := b.bindings[id := old_.(run := Some(run))]))
  }

  // ---------------------------------------------------------------- sound tables

  predicate RowOk(r: Reservation) {
    && (Open(r) ==> r.actual == None)
    && (r.status == Released ==> r.actual == Some(0) && r.source == Some(NotApplied))
    && (r.actual == None <==> r.source == None)
    && |r.evidence| <= MAX_EVIDENCE && Dedup(r.evidence) == r.evidence
    && r.policy.meter == Some(r.key.meter) && r.policy.window == Some(r.key.window)
  }

  predicate Linked(h: seq<Change>, i: nat)
    requires 0 < i < |h|
  {
    h[i].previousStatus == Some(h[i - 1].status) && h[i].previousActual == h[i - 1].actual
    && h[i].previousSource == h[i - 1].source
  }

  /** Replaying the history from its first row ends in the row's current state. */
  predicate HistoryOk(h: seq<Change>, r: Reservation) {
    && h != []
    && h[0].previousStatus == None && h[0].previousActual == None && h[0].previousSource == None
    && h[0].status == Held && h[0].actual == None
    && (forall i :: 0 < i < |h| ==> Linked(h, i))
    && (forall i :: 0 <= i < |h| ==> h[i].reserved == r.reserved && |Dedup(h[i].evidence)| <= MAX_EVIDENCE)
    && var last := h[|h| - 1];
       last.status == r.status && last.actual == r.actual && last.source == r.source && last.evidence == r.evidence
  }

  predicate DistinctRows(rows: seq<Reservation>) {
    forall i, j :: 0 <= i < j < |rows| ==>
      rows[i].id != rows[j].id && (rows[i].binding != rows[j].binding || rows[i].key != rows[j].key)
  }

  predicate Listed(rows: seq<Reservation>, id: nat) {
    exists i :: 0 <= i < |rows| && rows[i].id == id
  }

  predicate TableRowOk(t: Table, i: nat)
    requires i < |t.rows|
  {
    RowOk(t.rows[i]) && t.rows[i].id in t.histories && HistoryOk(t.histories[t.rows[i].id], t.rows[i])
  }

  ghost predicate TableOk(t: Table) {
    && DistinctRows(t.rows)
    && (forall i :: 0 <= i < |t.rows| ==> TableRowOk(t, i))
    && (forall id :: id in t.histories ==> Listed(t.rows, id))
  }

  // ---------------------------------------------------------------- what a sweep keeps

  /** Everything but status, amounts, source and evidence. */
  predicate SameClaim(a: Reservation, b: Reservation) {
    a.id == b.id && a.binding == b.binding && a.key == b.key && a.reserved == b.reserved && a.policy == b.policy
    && a.created == b.created
  }

  lemma {:induction false} DedupIsFixed(values: seq<nat>)
    ensures Dedup(Dedup(values)) == Dedup(values)
    ensures forall v :: v in Dedup(values) <==> v in values
  {
    if values != [] {
      var front, last := values[..|values| - 1], values[|values| - 1];
      DedupIsFixed(front);
      assert values == front + [last];
      if last !in Dedup(front) {
        assert (Dedup(front) + [last])[..|Dedup(front)|] == Dedup(front);
      }
    }
  }

  lemma DecideKeepsRow(r: Reservation, m: Motion)
    requires RowOk(r) && Decide(r, m).Write?
    ensures RowOk(Decide(r, m).row) && SameClaim(r, Decide(r, m).row)
    ensures r.status == Held || !Open(Decide(r, m).row)
  {
    DedupIsFixed(r.evidence + m.evidence);
  }

  lemma HistoryExtended(h: seq<Change>, old_: Reservation, next: Reservation, kind: Kind)
    requires HistoryOk(h, old_) && SameClaim(old_, next) && RowOk(next)
    ensures HistoryOk(h + [ChangeOf(old_, next, kind)], next)
  {
    var all := h + [ChangeOf(old_, next, kind)];
    forall i | 0 < i < |all| ensures Linked(all, i) {
      if i < |h| {
        assert Linked(h, i);
      }
    }
  }

  lemma RewrittenKeeps(t: Table, i: nat, next: Reservation, kind: Kind)
    requires TableOk(t) && i < |t.rows| && RowOk(next) && SameClaim(t.rows[i], next)
    ensures TableOk(Rewritten(t, i, next, kind))
  {
    var after := Rewritten(t, i, next, kind);
    assert TableRowOk(t, i);
    HistoryExtended(t.histories[next.id], t.rows[i], next, kind);
    forall j | 0 <= j < |after.rows| ensures TableRowOk(after, j) {
      assert TableRowOk(t, j);
    }
    forall id | id in after.histories ensures Listed(after.rows, id) {
      assert Listed(t.rows, id);
      var j :| 0 <= j < |t.rows| && t.rows[j].id == id;
      assert after.rows[j].id == id;
    }
  }

  predicate SameClaims(a: seq<Reservation>, b: seq<Reservation>) {
    |a| == |b| && forall i :: 0 <= i < |a| ==> SameClaim(a[i], b[i])
  }

  predicate OthersKept(a: seq<Reservation>, b: seq<Reservation>, binding: nat) {
    |a| == |b| && forall i :: 0 <= i < |a| && a[i].binding != binding ==> b[i] == a[i]
  }

  lemma MovedKeeps(t: Table, i: nat, binding: nat, m: Motion)
    requires TableOk(t) && i < |t.rows| && Moved(t, i, binding, m).Ok?
    ensures TableOk(Moved(t, i, binding, m).value)
    ensures SameClaims(t.rows, Moved(t, i, binding, m).value.rows)
    ensures OthersKept(t.rows, Moved(t, i, binding, m).value.rows, binding)
  {
    assert TableRowOk(t, i);
    if t.rows[i].binding == binding && Decide(t.rows[i], m).Write? {
      DecideKeepsRow(t.rows[i], m);
      RewrittenKeeps(t, i, Decide(t.rows[i], m).row, Decide(t.rows[i], m).kind);
    }
  }

  lemma SameClaimsChain(a: seq<Reservation>, b: seq<Reservation>, c: seq<Reservation>, binding: nat)
    requires SameClaims(a, b) && SameClaims(b, c) && OthersKept(a, b, binding) && OthersKept(b, c, binding)
    ensures SameClaims(a, c) && OthersKept(a, c, binding)
  {
    forall i | 0 <= i < |a| ensures SameClaim(a[i], c[i]) && (a[i].binding != binding ==> c[i] == a[i]) {
      assert SameClaim(a[i], b[i]) && SameClaim(b[i], c[i]);
    }
  }

  lemma SweepStepKeeps(t: Table, done: Table, i: nat, binding: nat, m: Motion, next: Table)
    requires TableOk(done) && SameClaims(t.rows, done.rows) && OthersKept(t.rows, done.rows, binding)
    requires i < |done.rows| && Moved(done, i, binding, m) == Ok(next)
    ensures TableOk(next) && SameClaims(t.rows, next.rows) && OthersKept(t.rows, next.rows, binding)
  {
    MovedKeeps(done, i, binding, m);
    SameClaimsChain(t.rows, done.rows, next.rows, binding);
  }

  /** A sweep only moves rows of its binding along, and records every move. */
  lemma {:induction false} SweepKeeps(t: Table, n: nat, binding: nat, m: Motion)
    requires TableOk(t) && n <= |t.rows| && Sweep(t, n, binding, m).Ok?
    ensures TableOk(Sweep(t, n, binding, m).value)
    ensures SameClaims(t.rows, Sweep(t, n, binding, m).value.rows)
    ensures OthersKept(t.rows, Sweep(t, n, binding, m).value.rows, binding)
  {
    if n > 0 {
      SweepKeeps(t, n - 1, binding, m);
      var done := Sweep(t, n - 1, binding, m).value;
      SweepStepKeeps(t, done, n - 1, binding, m, Sweep(t, n, binding, m).value);
    }
  }

  /** A row of the binding ends where its own verdict puts it. */
  lemma {:induction false} SweepDecides(t: Table, n: nat, binding: nat, m: Motion, i: nat)
    requires n <= |t.rows| && i < n && Sweep(t, n, binding, m).Ok? && t.rows[i].binding == binding
    ensures !Decide(t.rows[i], m).Refuse?
    ensures Sweep(t, n, binding, m).value.rows[i]
            == match Decide(t.rows[i], m) case Write(next, _) => next case _ => t.rows[i]
  {
    var done := Sweep(t, n - 1, binding, m).value;
    if i < n - 1 {
      SweepDecides(t, n - 1, binding, m, i);
    } else {
      assert done.rows[i] == t.rows[i];
    }
  }

  /** A released reservation is never rewritten again. */
  lemma ReleasedIsFinal(r: Reservation, m: Motion)
    requires RowOk(r) && r.status == Released
    ensures !Decide(r, m).Write?
  {
  }

  /** A positive bill is only ever replaced by another bill. */
  lemma BillIsFinal(r: Reservation, m: Motion)
    requires RowOk(r) && r.source == Some(Billed) && r.actual.Some? && r.actual.value > 0 && Decide(r, m).Write?
    ensures m.Settling? && m.source == Billed && Decide(r, m).row.source == Some(Billed)
  {
  }
}
