/** Whole runs of the shared-pool ledger: what every operation keeps, and how far a pool's use and
    concurrency can ever go. */
module PoolRuns {
  import opened Wrappers
  import opened PoolLedger

  // ---------------------------------------------------------------- sound books

  predicate BindingOk(b: Books, id: nat)
    requires id in b.bindings
  {
    var g := b.bindings[id];
    g.plan in b.plans && b.plans[g.plan].principal == g.principal && (g.run.Some? || g.action.Some?) && id < b.next
  }

  predicate RowLinked(b: Books, r: Reservation) {
    && r.id < b.next && r.binding in b.bindings && b.bindings[r.binding].plan in b.plans
    && AmountIn(b.plans[b.bindings[r.binding].plan].items, r.key) == Some(r.reserved)
  }

  /** Every amount of the binding's plan is reserved. */
  predicate Planned(b: Books, id: nat)
    requires id in b.bindings && b.bindings[id].plan in b.plans
  {
    var items := b.plans[b.bindings[id].plan].items;
    Readable(items) && forall i :: 0 <= i < |items| ==> OwnsKey(b.rows, id, items[i].key)
  }

  predicate Apart(a: Binding, c: Binding) {
    a.plan != c.plan && (a.run.Some? ==> a.run != c.run) && (a.action.Some? ==> a.action != c.action)
  }

  ghost predicate BindingsOk(b: Books) {
    && (forall id :: id in b.bindings ==> BindingOk(b, id) && Planned(b, id))
    && (forall x, y :: x in b.bindings && y in b.bindings && x != y ==> Apart(b.bindings[x], b.bindings[y]))
  }

  ghost predicate BooksOk(b: Books) {
    && TableOk(TableOf(b)) && BindingsOk(b)
    && (forall i :: 0 <= i < |b.rows| ==> RowLinked(b, b.rows[i]))
    && (forall p :: p in b.plans ==> Readable(b.plans[p].items))
  }

  // ---------------------------------------------------------------- admission

  /** Everything `admit` asks of a plan that has no execution yet. */
  predicate Admissible(b: Books, q: Admission, pools: map<nat, Pool>) {
    && Readable(q.plan.items) && Requested(q.plan.items) && (q.run.Some? || q.action.Some?)
    && PoolsRefusal(pools, q.plan.items) == None
    && (q.planId in b.plans ==> b.plans[q.planId] == q.plan) && !HasBinding(b, q.planId)
    && (forall i :: 0 <= i < |q.plan.items| ==>
          q.plan.items[i].key.pool in pools && Bounded(pools[q.plan.items[i].key.pool]))
    && RoomsRefusal(b.rows, pools, q.plan.items) == None
    && !RunTaken(b, q.run) && !ActionTaken(b, q.action)
  }

  function AfterAdmit(b: Books, q: Admission, pools: map<nat, Pool>, now: int): Books {
    if Admissible(b, q, pools) then Admitted1(b, q, pools, now) else b
  }

  lemma {:induction false} PoolsCover(pools: map<nat, Pool>, items: seq<Item>)
    ensures PoolsRefusal(pools, items) == None <==>
              forall i :: 0 <= i < |items| ==> items[i].key.pool in pools && Covers(pools[items[i].key.pool], items[i])
  {
    if items != [] {
      PoolsCover(pools, items[1..]);
      assert forall i :: 0 <= i < |items[1..]| ==> items[1..][i] == items[i + 1];
      assert forall i :: 1 <= i < |items| ==> items[i] == items[1..][i - 1];
    }
  }

  lemma {:induction false} RoomsCover(rows: seq<Reservation>, pools: map<nat, Pool>, items: seq<Item>)
    requires forall i :: 0 <= i < |items| ==> items[i].key.pool in pools && Bounded(pools[items[i].key.pool])
    ensures RoomsRefusal(rows, pools, items) == None <==>
              forall i :: 0 <= i < |items| ==> RoomRefusal(rows, pools[items[i].key.pool], items[i]) == None
  {
    if items != [] {
      RoomsCover(rows, pools, items[1..]);
      assert forall i :: 0 <= i < |items[1..]| ==> items[1..][i] == items[i + 1];
      assert forall i :: 1 <= i < |items| ==> items[i] == items[1..][i - 1];
    }
  }

  /** `admit` changes the books exactly when the plan is admissible; a repeated confirmation and
      every refusal leave them as they were. */
  lemma AdmitsExactly(b: Books, q: Admission, pools: map<nat, Pool>, now: int, r: Result<(Books, nat)>)
    requires BooksOk(b) && Admits(b, q, pools, now, r)
    ensures r.Ok? ==> r.value.0 == AfterAdmit(b, q, pools, now)
    ensures r.Err? ==> AfterAdmit(b, q, pools, now) == b
  {
    if r.Ok? && HasBinding(b, q.planId) {
      var id: nat :| id in b.bindings && PlanBound(b, q.planId, id) && r == Rebinds(b, q, id);
      assert BindingOk(b, id);
      assert b.plans == b.plans[q.planId := q.plan];
    }
  }

  lemma {:induction false} AmountFound(items: seq<Item>, i: nat)
    requires DistinctKeys(items) && i < |items|
    ensures AmountIn(items, items[i].key) == Some(items[i].amount)
  {
    var front := items[..|items| - 1];
    if i < |items| - 1 {
      assert front[i] == items[i];
      AmountFound(front, i);
    }
  }

  lemma {:induction false} AmountOwned(items: seq<Item>, key: PoolKey)
    requires AmountIn(items, key).Some?
    ensures exists i :: 0 <= i < |items| && items[i].key == key && items[i].amount == AmountIn(items, key).value
  {
    var front := items[..|items| - 1];
    if items[|items| - 1].key != key {
      AmountOwned(front, key);
      var i :| 0 <= i < |front| && front[i].key == key && front[i].amount == AmountIn(front, key).value;
      assert items[i] == front[i];
    }
  }

  lemma {:induction false} NewHistoriesExact(rows: seq<Reservation>)
    requires forall i, j :: 0 <= i < j < |rows| ==> rows[i].id != rows[j].id
    ensures forall i :: 0 <= i < |rows| ==>
              rows[i].id in NewHistories(rows) && NewHistories(rows)[rows[i].id] == [FirstChange(rows[i])]
    ensures forall id :: id in NewHistories(rows) ==> Listed(rows, id)
  {
    if rows != [] {
      var front, last := rows[..|rows| - 1], rows[|rows| - 1];
      assert forall i :: 0 <= i < |front| ==> front[i] == rows[i];
      NewHistoriesExact(front);
      forall id | id in NewHistories(rows) ensures Listed(rows, id) {
        if id == last.id {
          assert rows[|rows| - 1].id == id;
        } else {
          assert Listed(front, id);
          var i :| 0 <= i < |front| && front[i].id == id;
          assert rows[i].id == id;
        }
      }
    }
  }

  predicate FreshRow(r: Reservation, binding: nat, i: nat) {
    RowOk(r) && HistoryOk([FirstChange(r)], r) && r.binding == binding && r.id == binding + 1 + i
  }

  lemma NewRowsSound(b: Books, q: Admission, pools: map<nat, Pool>, now: int, i: nat)
    requires Admissible(b, q, pools) && i < |q.plan.items|
    ensures var r := NewRows(q.plan.items, pools, b.next, now)[i];
            FreshRow(r, b.next, i) && AmountIn(q.plan.items, r.key) == Some(r.reserved) && r.key == q.plan.items[i].key
  {
    PoolsCover(pools, q.plan.items);
    AmountFound(q.plan.items, i);
  }

  predicate Older(r: Reservation, limit: nat) {
    r.id < limit && r.binding < limit
  }

  lemma JoinedDistinct(a: seq<Reservation>, c: seq<Reservation>, limit: nat)
    requires DistinctRows(a) && DistinctRows(c)
    requires forall i :: 0 <= i < |a| ==> Older(a[i], limit)
    requires forall i :: 0 <= i < |c| ==> c[i].id >= limit && c[i].binding >= limit
    ensures DistinctRows(a + c)
  {
    var all := a + c;
    forall i, j | 0 <= i < j < |all|
      ensures all[i].id != all[j].id && (all[i].binding != all[j].binding || all[i].key != all[j].key)
    {
      if i < |a| {
        assert Older(a[i], limit);
      }
    }
  }

  lemma RowsAreOlder(b: Books, i: nat)
    requires BooksOk(b) && i < |b.rows|
    ensures Older(b.rows[i], b.next)
  {
    assert RowLinked(b, b.rows[i]);
    assert BindingOk(b, b.rows[i].binding);
  }

  lemma AdmittedDistinct(b: Books, q: Admission, pools: map<nat, Pool>, now: int)
    requires BooksOk(b) && Admissible(b, q, pools)
    ensures DistinctRows(Admitted1(b, q, pools, now).rows)
  {
    forall i | 0 <= i < |b.rows| ensures Older(b.rows[i], b.next) {
      RowsAreOlder(b, i);
    }
    JoinedDistinct(b.rows, NewRows(q.plan.items, pools, b.next, now), b.next);
  }

  predicate RowsRecorded(t: Table) {
    forall i :: 0 <= i < |t.rows| ==> TableRowOk(t, i)
  }

  predicate AllListed(t: Table) {
    forall id :: id in t.histories ==> Listed(t.rows, id)
  }

  /** Two tables without a common reservation make one. */
  lemma JoinedTable(a: Table, c: Table)
    requires RowsRecorded(a) && AllListed(a) && RowsRecorded(c) && AllListed(c)
    requires forall id :: id in c.histories ==> id !in a.histories
    ensures RowsRecorded(Table(a.rows + c.rows, a.histories + c.histories))
    ensures AllListed(Table(a.rows + c.rows, a.histories + c.histories))
  {
    var t := Table(a.rows + c.rows, a.histories + c.histories);
    forall i | 0 <= i < |t.rows| ensures TableRowOk(t, i) {
      if i < |a.rows| {
        assert TableRowOk(a, i);
      } else {
        assert TableRowOk(c, i - |a.rows|);
      }
    }
    forall id | id in t.histories ensures Listed(t.rows, id) {
      if id in c.histories {
        assert Listed(c.rows, id);
        var i :| 0 <= i < |c.rows| && c.rows[i].id == id;
        assert t.rows[|a.rows| + i].id == id;
      } else {
        assert Listed(a.rows, id);
        var i :| 0 <= i < |a.rows| && a.rows[i].id == id;
        assert t.rows[i].id == id;
      }
    }
  }

  lemma FreshTable(rows: seq<Reservation>, binding: nat)
    requires forall i :: 0 <= i < |rows| ==> FreshRow(rows[i], binding, i)
    ensures var t := Table(rows, NewHistories(rows));
            RowsRecorded(t) && AllListed(t) && forall id :: id in t.histories ==> id >= binding
  {
    var t := Table(rows, NewHistories(rows));
    NewHistoriesExact(rows);
    forall i | 0 <= i < |rows| ensures TableRowOk(t, i) {
      assert FreshRow(rows[i], binding, i);
    }
    forall id | id in t.histories ensures id >= binding {
      assert Listed(rows, id);
    }
  }

  lemma OldIdsSmall(b: Books, id: nat)
    requires BooksOk(b) && id in b.histories
    ensures id < b.next
  {
    assert Listed(TableOf(b).rows, id);
    var i :| 0 <= i < |b.rows| && b.rows[i].id == id;
    assert RowLinked(b, b.rows[i]);
  }

  lemma OwnsMore(a: seq<Reservation>, c: seq<Reservation>, binding: nat, key: PoolKey)
    requires OwnsKey(a, binding, key)
    ensures OwnsKey(a + c, binding, key)
  {
    var i :| 0 <= i < |a| && a[i].binding == binding && a[i].key == key;
    assert (a + c)[i] == a[i];
  }

  lemma AdmittedPlanned(b: Books, q: Admission, pools: map<nat, Pool>, now: int, id: nat)
    requires BooksOk(b) && Admissible(b, q, pools) && id in Admitted1(b, q, pools, now).bindings
    ensures BindingOk(Admitted1(b, q, pools, now), id) && Planned(Admitted1(b, q, pools, now), id)
  {
    var next := Admitted1(b, q, pools, now);
    var rows := NewRows(q.plan.items, pools, b.next, now);
    if id == b.next {
      forall i | 0 <= i < |q.plan.items| ensures OwnsKey(next.rows, id, q.plan.items[i].key) {
        assert next.rows[|b.rows| + i] == rows[i];
      }
    } else {
      assert BindingOk(b, id) && Planned(b, id);
      var items := b.plans[b.bindings[id].plan].items;
      forall i | 0 <= i < |items| ensures OwnsKey(next.rows, id, items[i].key) {
        OwnsMore(b.rows, rows, id, items[i].key);
      }
    }
  }

  lemma AdmittedApart(b: Books, q: Admission, pools: map<nat, Pool>, now: int)
    requires BooksOk(b) && Admissible(b, q, pools)
    ensures var g := Admitted1(b, q, pools, now).bindings;
            forall x, y :: x in g && y in g && x != y ==> Apart(g[x], g[y])
  {
    var g := Admitted1(b, q, pools, now).bindings;
    forall x, y | x in g && y in g && x != y ensures Apart(g[x], g[y]) {
      if x != b.next && y != b.next {
        assert Apart(b.bindings[x], b.bindings[y]);
      } else {
        var other := if x == b.next then y else x;
        assert !PlanBound(b, q.planId, other);
        assert BindingOk(b, other);
      }
    }
  }

  lemma AdmittedTable(b: Books, q: Admission, pools: map<nat, Pool>, now: int)
    requires BooksOk(b) && Admissible(b, q, pools)
    ensures TableOk(TableOf(Admitted1(b, q, pools, now)))
  {
    var rows := NewRows(q.plan.items, pools, b.next, now);
    AdmittedDistinct(b, q, pools, now);
    forall i | 0 <= i < |rows| ensures FreshRow(rows[i], b.next, i) {
      NewRowsSound(b, q, pools, now, i);
    }
    FreshTable(rows, b.next);
    forall id | id in NewHistories(rows) ensures id !in b.histories {
      if id in b.histories {
        OldIdsSmall(b, id);
      }
    }
    JoinedTable(TableOf(b), Table(rows, NewHistories(rows)));
  }

  lemma LinkStays(b: Books, next: Books, r: Reservation)
    requires RowLinked(b, r) && b.next <= next.next && b.bindings[r.binding].plan in next.plans
    requires r.binding in next.bindings && next.bindings[r.binding].plan == b.bindings[r.binding].plan
    requires next.plans[b.bindings[r.binding].plan] == b.plans[b.bindings[r.binding].plan]
    ensures RowLinked(next, r)
  {
  }

  lemma AdmittedLink(b: Books, q: Admission, pools: map<nat, Pool>, now: int, i: nat)
    requires BooksOk(b) && Admissible(b, q, pools) && i < |Admitted1(b, q, pools, now).rows|
    ensures RowLinked(Admitted1(b, q, pools, now), Admitted1(b, q, pools, now).rows[i])
  {
    if i < |b.rows| {
      assert RowLinked(b, b.rows[i]);
      assert BindingOk(b, b.rows[i].binding);
      LinkStays(b, Admitted1(b, q, pools, now), b.rows[i]);
    } else {
      NewRowsSound(b, q, pools, now, i - |b.rows|);
    }
  }

  lemma AdmittedLinks(b: Books, q: Admission, pools: map<nat, Pool>, now: int)
    requires BooksOk(b) && Admissible(b, q, pools)
    ensures var next := Admitted1(b, q, pools, now); forall i :: 0 <= i < |next.rows| ==> RowLinked(next, next.rows[i])
  {
    var next := Admitted1(b, q, pools, now);
    forall i | 0 <= i < |next.rows| ensures RowLinked(next, next.rows[i]) {
      AdmittedLink(b, q, pools, now, i);
    }
  }

  lemma AdmitKeeps(b: Books, q: Admission, pools: map<nat, Pool>, now: int)
    requires BooksOk(b)
    ensures BooksOk(AfterAdmit(b, q, pools, now))
  {
    if Admissible(b, q, pools) {
      var next := Admitted1(b, q, pools, now);
      AdmittedTable(b, q, pools, now);
      AdmittedApart(b, q, pools, now);
      forall id | id in next.bindings ensures BindingOk(next, id) && Planned(next, id) {
        AdmittedPlanned(b, q, pools, now, id);
      }
      AdmittedLinks(b, q, pools, now);
    }
  }

  // ---------------------------------------------------------------- the other operations

  lemma OwnsSame(a: seq<Reservation>, c: seq<Reservation>, binding: nat, key: PoolKey)
    requires SameClaims(a, c) && OwnsKey(a, binding, key)
    ensures OwnsKey(c, binding, key)
  {
    var i :| 0 <= i < |a| && a[i].binding == binding && a[i].key == key;
    assert SameClaim(a[i], c[i]);
  }

  lemma MovedRowsKeep(b: Books, t: Table)
    requires BooksOk(b) && TableOk(t) && SameClaims(b.rows, t.rows)
    ensures BooksOk(WithTable(b, t))
  {
    var next := WithTable(b, t);
    assert TableOf(next) == t;
    forall i | 0 <= i < |next.rows| ensures RowLinked(next, next.rows[i]) {
      assert RowLinked(b, b.rows[i]) && SameClaim(b.rows[i], t.rows[i]);
    }
    forall id | id in next.bindings ensures BindingOk(next, id) && Planned(next, id) {
      assert BindingOk(b, id) && Planned(b, id);
      var items := b.plans[b.bindings[id].plan].items;
      forall i | 0 <= i < |items| ensures OwnsKey(next.rows, id, items[i].key) {
        OwnsSame(b.rows, t.rows, id, items[i].key);
      }
    }
  }

  lemma SweepBooksKeep(b: Books, binding: nat, m: Motion)
    requires BooksOk(b) && SweepBooks(b, binding, m).Ok?
    ensures BooksOk(SweepBooks(b, binding, m).value)
  {
    SweepKeeps(TableOf(b), |b.rows|, binding, m);
    MovedRowsKeep(b, Sweep(TableOf(b), |b.rows|, binding, m).value);
  }

  lemma BindKeeps(b: Books, id: nat, run: nat)
    requires BooksOk(b) && id in b.bindings && BindLegacy(b, id, run).Ok?
    ensures BooksOk(BindLegacy(b, id, run).value)
  {
    var next := BindLegacy(b, id, run).value;
    if next != b {
      assert TableOf(next) == TableOf(b);
      forall i | 0 <= i < |next.rows| ensures RowLinked(next, next.rows[i]) {
        assert RowLinked(b, b.rows[i]);
      }
      forall x | x in next.bindings ensures BindingOk(next, x) && Planned(next, x) {
        assert BindingOk(b, x) && Planned(b, x);
      }
      forall x, y | x in next.bindings && y in next.bindings && x != y ensures Apart(next.bindings[x], next.bindings[y]) {
        assert Apart(b.bindings[x], b.bindings[y]);
      }
    }
  }

  // ---------------------------------------------------------------- runs

  datatype Op =
    | PutPlan(planId: nat, plan: Plan)
    | DoAdmit(admission: Admission, pools: map<nat, Pool>, now: int)
    | DoBind(binding: nat, run: nat)
    | DoMark(binding: nat, evidence: seq<nat>)
    | DoSettle(binding: nat, actual: Actual, notApplied: bool, evidence: seq<nat>, source: Source)

  function Try(b: Books, r: Result<Books>): Books {
    if r.Ok? then r.value else b
  }

  /** One transaction; a refused one is rolled back. */
  function Next(b: Books, op: Op): Books {
    match op
    case PutPlan(planId, plan) =>
      if planId in b.plans || !Readable(plan.items) then b else b.(plans := b.plans[planId := plan])
    case DoAdmit(admission, pools, now) => AfterAdmit(b, admission, pools, now)
    case DoBind(binding, run) => if binding in b.bindings then Try(b, BindLegacy(b, binding, run)) else b
    case DoMark(binding, evidence) => Try(b, MarkUncertain(b, binding, evidence))
    case DoSettle(binding, actual, notApplied, evidence, source) =>
      Try(b, Settle(b, binding, actual, notApplied, evidence, source))
  }

  lemma PutPlanKeeps(b: Books, planId: nat, plan: Plan)
    requires BooksOk(b)
    ensures BooksOk(Next(b, PutPlan(planId, plan)))
  {
    var next := Next(b, PutPlan(planId, plan));
    assert TableOf(next) == TableOf(b);
    forall i | 0 <= i < |next.rows| ensures RowLinked(next, next.rows[i]) {
      assert RowLinked(b, b.rows[i]);
    }
    forall x | x in next.bindings ensures BindingOk(next, x) && Planned(next, x) {
      assert BindingOk(b, x) && Planned(b, x);
    }
  }

  /** The sweep a settlement or an uncertainty mark performs, if it is accepted. */
  lemma MotionOf(b: Books, op: Op) returns (m: Motion)
    requires op.DoMark? || op.DoSettle?
    ensures Next(b, op) == b || SweepBooks(b, op.binding, m) == Ok(Next(b, op))
  {
    if op.DoMark? {
      m := RemoteLost(Dedup(op.evidence));
    } else {
      var amounts := Amounts(b, op.binding, op.actual);
      m := Settling(if amounts.Ok? then amounts.value else map[], op.actual != NoActual, op.notApplied,
                    Dedup(op.evidence), op.source);
    }
  }

  lemma NextKeeps(b: Books, op: Op)
    requires BooksOk(b)
    ensures BooksOk(Next(b, op))
  {
    match op
    case PutPlan(planId, plan) => PutPlanKeeps(b, planId, plan);
    case DoAdmit(admission, pools, now) => AdmitKeeps(b, admission, pools, now);
    case DoBind(binding, run) =>
      if binding in b.bindings && BindLegacy(b, binding, run).Ok? {
        BindKeeps(b, binding, run);
      }
    case _ =>
      var m := MotionOf(b, op);
      if Next(b, op) != b {
        SweepBooksKeep(b, op.binding, m);
      }
  }

  function Run(b: Books, ops: seq<Op>): Books
    decreases |ops|
  {
    if ops == [] then b else Run(Next(b, ops[0]), ops[1..])
  }

  /** Plans match bindings, reservations match plans and every history replays to its row, in every
      reachable state. */
  lemma {:induction false} RunKeeps(b: Books, ops: seq<Op>)
    requires BooksOk(b)
    ensures BooksOk(Run(b, ops))
    decreases |ops|
  {
    if ops != [] {
      NextKeeps(b, ops[0]);
      RunKeeps(Next(b, ops[0]), ops[1..]);
    }
  }

  // ---------------------------------------------------------------- how far a pool can go

  /** What one operation adds to the charge of rows that already existed: settlements above their
      estimate and upward corrections. */
  function Raised(before: seq<Reservation>, after: seq<Reservation>, key: PoolKey): nat
    requires |before| <= |after|
  {
    if before == [] then 0
    else
      var i := |before| - 1;
      Raised(before[..i], after[..i], key)
      + if before[i].key == key && Charge(after[i]) > Charge(before[i]) then Charge(after[i]) - Charge(before[i]) else 0
  }

  lemma {:induction false} UsedMoved(before: seq<Reservation>, after: seq<Reservation>, key: PoolKey)
    requires SameClaims(before, after)
    ensures Used(after, key) <= Used(before, key) + Raised(before, after, key)
  {
    if before != [] {
      var i := |before| - 1;
      assert SameClaim(before[i], after[i]);
      forall j | 0 <= j < i ensures SameClaim(before[..i][j], after[..i][j]) {
        assert SameClaim(before[j], after[j]);
      }
      UsedMoved(before[..i], after[..i], key);
    }
  }

  lemma {:induction false} RaisedSelf(rows: seq<Reservation>, more: seq<Reservation>, key: PoolKey)
    ensures Raised(rows, rows + more, key) == 0
  {
    if rows != [] {
      var i := |rows| - 1;
      assert (rows + more)[..i] == rows[..i] + [] && rows[..i] + [] == rows[..i];
      assert (rows + more)[i] == rows[i];
      RaisedSelf(rows[..i], [], key);
    }
  }

  lemma {:induction false} UsedConcat(a: seq<Reservation>, c: seq<Reservation>, key: PoolKey)
    ensures Used(a + c, key) == Used(a, key) + Used(c, key)
  {
    if c == [] {
      assert a + c == a;
    } else {
      assert (a + c)[..|a + c| - 1] == a + c[..|c| - 1];
      UsedConcat(a, c[..|c| - 1], key);
    }
  }

  lemma {:induction false} UsedNew(items: seq<Item>, pools: map<nat, Pool>, binding: nat, now: int, key: PoolKey)
    requires forall i :: 0 <= i < |items| ==> items[i].key.pool in pools
    requires DistinctKeys(items)
    ensures Used(NewRows(items, pools, binding, now), key)
            == match AmountIn(items, key) case Some(n) => n case None => 0
  {
    if items != [] {
      var front, last := items[..|items| - 1], items[|items| - 1];
      UsedNew(front, pools, binding, now, key);
      var rows := NewRows(items, pools, binding, now);
      assert rows[..|rows| - 1] == NewRows(front, pools, binding, now);
      if last.key == key && AmountIn(front, key).Some? {
        AmountOwned(front, key);
      }
    }
  }

  lemma ActiveMoved(before: seq<Reservation>, after: seq<Reservation>, pool: nat)
    requires SameClaims(before, after)
    requires forall i :: 0 <= i < |before| ==> Open(after[i]) ==> Open(before[i])
    ensures Active(after, pool) <= Active(before, pool)
  {
    forall id | id in Active(after, pool) ensures id in Active(before, pool) {
      var i :| 0 <= i < |after| && after[i].key.pool == pool && Open(after[i]) && after[i].binding == id;
      assert SameClaim(before[i], after[i]);
    }
  }

  lemma SubsetSize<T>(a: set<T>, b: set<T>)
    requires a <= b
    ensures |a| <= |b|
  {
    if a != {} {
      var x :| x in a;
      SubsetSize(a - {x}, b - {x});
    }
  }

  /** Whatever else the caller says of the pool at this admission (window, meter, observed balance and
      its time), it allows at most `limit` and at most `slots` bindings at once. */
  predicate Capped(op: Op, pool: nat, limit: nat, slots: nat) {
    op.DoAdmit? && pool in op.pools && Bounded(op.pools[pool]) ==>
      op.pools[pool].localLimit.value <= limit && op.pools[pool].maxConcurrency.value <= slots
  }

  predicate AllCapped(ops: seq<Op>, pool: nat, limit: nat, slots: nat) {
    forall i :: 0 <= i < |ops| ==> Capped(ops[i], pool, limit, slots)
  }

  lemma AdmitUse(b: Books, q: Admission, pools: map<nat, Pool>, now: int, key: PoolKey, most: nat)
    requires Admissible(b, q, pools)
    requires key.pool in pools && Bounded(pools[key.pool]) ==> pools[key.pool].localLimit.value <= most
    ensures Used(Admitted1(b, q, pools, now).rows, key) <= Used(b.rows, key)
         || Used(Admitted1(b, q, pools, now).rows, key) <= most
  {
    var rows := NewRows(q.plan.items, pools, b.next, now);
    UsedConcat(b.rows, rows, key);
    UsedNew(q.plan.items, pools, b.next, now, key);
    RoomsCover(b.rows, pools, q.plan.items);
    if AmountIn(q.plan.items, key).Some? {
      AmountOwned(q.plan.items, key);
      var i :| 0 <= i < |q.plan.items| && q.plan.items[i].key == key && q.plan.items[i].amount == AmountIn(q.plan.items, key).value;
      assert RoomRefusal(b.rows, pools[key.pool], q.plan.items[i]) == None;
    }
  }

  /** A binding active after an admission was active before, or is the new one and has an item in the pool. */
  lemma ActiveIsOldOrNew(b: Books, q: Admission, policy: map<nat, Pool>, now: int, pool: nat, id: nat)
    requires Admissible(b, q, policy) && id in Active(Admitted1(b, q, policy, now).rows, pool)
    ensures id in Active(b.rows, pool)
            || (id == b.next && exists i :: 0 <= i < |q.plan.items| && q.plan.items[i].key.pool == pool)
  {
    var all := Admitted1(b, q, policy, now).rows;
    var i :| 0 <= i < |all| && all[i].key.pool == pool && Open(all[i]) && all[i].binding == id;
    if i < |b.rows| {
      assert b.rows[i] == all[i];
    } else {
      assert q.plan.items[i - |b.rows|].key == all[i].key;
    }
  }

  lemma ActiveAdmitted(b: Books, q: Admission, policy: map<nat, Pool>, now: int, pool: nat)
    requires Admissible(b, q, policy)
    ensures Active(Admitted1(b, q, policy, now).rows, pool) <= Active(b.rows, pool) + {b.next}
    ensures (forall i :: 0 <= i < |q.plan.items| ==> q.plan.items[i].key.pool != pool) ==>
              Active(Admitted1(b, q, policy, now).rows, pool) <= Active(b.rows, pool)
  {
    forall id | id in Active(Admitted1(b, q, policy, now).rows, pool)
      ensures id in Active(b.rows, pool)
              || (id == b.next && exists i :: 0 <= i < |q.plan.items| && q.plan.items[i].key.pool == pool)
    {
      ActiveIsOldOrNew(b, q, policy, now, pool, id);
    }
  }

  lemma AdmitSlots(b: Books, q: Admission, pools: map<nat, Pool>, now: int, pool: nat, slots: nat)
    requires Admissible(b, q, pools) && |Active(b.rows, pool)| <= slots
    requires pool in pools && Bounded(pools[pool]) ==> pools[pool].maxConcurrency.value <= slots
    ensures |Active(Admitted1(b, q, pools, now).rows, pool)| <= slots
  {
    var all := Admitted1(b, q, pools, now).rows;
    ActiveAdmitted(b, q, pools, now, pool);
    if i :| 0 <= i < |q.plan.items| && q.plan.items[i].key.pool == pool {
      RoomsCover(b.rows, pools, q.plan.items);
      assert RoomRefusal(b.rows, pools[pool], q.plan.items[i]) == None;
      SubsetSize(Active(all, pool), Active(b.rows, pool) + {b.next});
    } else {
      SubsetSize(Active(all, pool), Active(b.rows, pool));
    }
  }

  /** A sweep never reopens a reservation. */
  lemma SweepCloses(b: Books, binding: nat, m: Motion, next: Books)
    requires BooksOk(b) && SweepBooks(b, binding, m) == Ok(next)
    ensures SameClaims(b.rows, next.rows)
    ensures forall i :: 0 <= i < |b.rows| ==> Open(next.rows[i]) ==> Open(b.rows[i])
  {
    var t := TableOf(b);
    SweepKeeps(t, |b.rows|, binding, m);
    forall i | 0 <= i < |b.rows| ensures Open(next.rows[i]) ==> Open(b.rows[i]) {
      if b.rows[i].binding == binding {
        SweepDecides(t, |b.rows|, binding, m, i);
        assert TableRowOk(t, i);
        if Decide(b.rows[i], m).Write? {
          DecideKeepsRow(b.rows[i], m);
        }
      }
    }
  }

  lemma OpRows(b: Books, op: Op, next: Books)
    requires BooksOk(b) && next == Next(b, op)
    ensures |b.rows| <= |next.rows|
    ensures !op.DoAdmit? ==> SameClaims(b.rows, next.rows)
    ensures !op.DoAdmit? ==> forall i :: 0 <= i < |b.rows| ==> Open(next.rows[i]) ==> Open(b.rows[i])
  {
    if op.DoMark? || op.DoSettle? {
      var m := MotionOf(b, op);
      if next != b {
        SweepCloses(b, op.binding, m, next);
      }
    }
  }

  /** The increases a whole run makes for one key. */
  function RaisedOver(b: Books, ops: seq<Op>, key: PoolKey): nat
    decreases |ops|
  {
    if ops == [] then 0
    else
      var next := Next(b, ops[0]);
      (if |b.rows| <= |next.rows| then Raised(b.rows, next.rows, key) else 0) + RaisedOver(next, ops[1..], key)
  }

  lemma NextWithin(b: Books, op: Op, key: PoolKey, limit: nat, slots: nat, raised: nat, next: Books)
    requires BooksOk(b) && next == Next(b, op) && Capped(op, key.pool, limit, slots)
    requires Used(b.rows, key) <= limit + raised && |Active(b.rows, key.pool)| <= slots
    ensures |b.rows| <= |next.rows|
    ensures Used(next.rows, key) <= limit + raised + Raised(b.rows, next.rows, key)
    ensures |Active(next.rows, key.pool)| <= slots
  {
    OpRows(b, op, next);
    if op.DoAdmit? {
      if Admissible(b, op.admission, op.pools) {
        AdmitUse(b, op.admission, op.pools, op.now, key, limit);
        AdmitSlots(b, op.admission, op.pools, op.now, key.pool, slots);
      }
    } else {
      UsedMoved(b.rows, next.rows, key);
      ActiveMoved(b.rows, next.rows, key.pool);
      SubsetSize(Active(next.rows, key.pool), Active(b.rows, key.pool));
    }
  }

  lemma {:induction false} RunWithin(b: Books, ops: seq<Op>, key: PoolKey, limit: nat, slots: nat, raised: nat)
    requires BooksOk(b) && AllCapped(ops, key.pool, limit, slots)
    requires Used(b.rows, key) <= limit + raised && |Active(b.rows, key.pool)| <= slots
    ensures Used(Run(b, ops).rows, key) <= limit + raised + RaisedOver(b, ops, key)
    ensures |Active(Run(b, ops).rows, key.pool)| <= slots
    decreases |ops|
  {
    if ops != [] {
      var next := Next(b, ops[0]);
      NextWithin(b, ops[0], key, limit, slots, raised, next);
      NextKeeps(b, ops[0]);
      assert forall i :: 0 <= i < |ops[1..]| ==> ops[1..][i] == ops[i + 1];
      RunWithin(next, ops[1..], key, limit, slots, raised + Raised(b.rows, next.rows, key));
    }
  }

  /** While a pool's window rolls over and its observed balance is refreshed, it is never used by more
      bindings at once than the largest concurrency it was ever admitted under, all its windows counted
      together; and the use of each single window exceeds the largest local limit by no more than
      settlements and corrections have raised it. */
  lemma PoolsStayBounded(ops: seq<Op>, key: PoolKey, limit: nat, slots: nat)
    requires AllCapped(ops, key.pool, limit, slots)
    ensures |Active(Run(NO_BOOKS, ops).rows, key.pool)| <= slots
    ensures Used(Run(NO_BOOKS, ops).rows, key) <= limit + RaisedOver(NO_BOOKS, ops, key)
  {
    assert BooksOk(NO_BOOKS);
    assert Active([], key.pool) == {};
    RunWithin(NO_BOOKS, ops, key, limit, slots, 0);
  }
}
