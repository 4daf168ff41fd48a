/** What a settlement books: for each reservation of the binding the amount, the source, the status and the
    history entry, read off the caller's arguments, and exactly when a settlement is accepted. */
module PoolOutcomes {
  import opened Wrappers
  import opened PoolLedger
  import opened PoolRuns

  /** The caller reports `n` for the key. */
  predicate Reports(actual: Actual, key: PoolKey, n: nat) {
    match actual
    case NoActual => false
    case ByPool(amounts) => key.pool in amounts && amounts[key.pool] == n
    case ByKey(items) => Item(key, n) in items
  }

  // ---------------------------------------------------------------- amounts

  lemma {:induction false} ItemAmountsExact(items: seq<Item>, key: PoolKey, n: nat)
    requires DistinctKeys(items)
    ensures (key in ItemAmounts(items) && ItemAmounts(items)[key] == n) <==> Item(key, n) in items
  {
    if items != [] {
      var front, last := items[..|items| - 1], items[|items| - 1];
      ItemAmountsExact(front, key, n);
      assert items == front + [last];
    }
  }

  lemma {:induction false} PoolAmountsExact(rows: seq<Reservation>, binding: nat, amounts: map<nat, int>, key: PoolKey)
    ensures key in PoolAmounts(rows, binding, amounts)
        <==> OwnsKey(rows, binding, key) && key.pool in amounts && amounts[key.pool] >= 0
    ensures key in PoolAmounts(rows, binding, amounts) ==> PoolAmounts(rows, binding, amounts)[key] == amounts[key.pool]
  {
    if rows != [] {
      var front, last := rows[..|rows| - 1], rows[|rows| - 1];
      PoolAmountsExact(front, binding, amounts, key);
      assert OwnsKey(rows, binding, key) <==> OwnsKey(front, binding, key) || (last.binding == binding && last.key == key) by {
        if OwnsKey(front, binding, key) {
          var i :| 0 <= i < |front| && front[i].binding == binding && front[i].key == key;
          assert rows[i] == front[i];
        }
      }
    }
  }

  predicate Resolves(b: Books, binding: nat, actual: Actual) {
    match actual
    case NoActual => true
    case ByPool(amounts) => forall pool :: pool in amounts ==> OwnsPool(b.rows, binding, pool) && 0 <= amounts[pool] <= MAX_INT
    case ByKey(items) => Readable(items) && forall i :: 0 <= i < |items| ==> OwnsKey(b.rows, binding, items[i].key)
  }

  lemma ResolvedExactly(b: Books, binding: nat, actual: Actual)
    ensures Amounts(b, binding, actual).Ok? <==> Resolves(b, binding, actual)
  {
  }

  /** The resolved amount of an own key is the reported one. */
  lemma AmountIsReported(b: Books, binding: nat, actual: Actual, key: PoolKey, n: nat)
    requires Resolves(b, binding, actual) && OwnsKey(b.rows, binding, key)
    ensures var amounts := Amounts(b, binding, actual).value;
            (key in amounts && amounts[key] == n) <==> Reports(actual, key, n)
  {
    match actual
    case NoActual =>
    case ByPool(amounts) => PoolAmountsExact(b.rows, binding, amounts, key);
    case ByKey(items) => ItemAmountsExact(items, key, n);
  }

  // ---------------------------------------------------------------- one sweep

  lemma {:induction false} SweepAccepts(t: Table, n: nat, binding: nat, m: Motion)
    requires n <= |t.rows|
    ensures Sweep(t, n, binding, m).Ok?
        <==> forall i :: 0 <= i < n && t.rows[i].binding == binding ==> !Decide(t.rows[i], m).Refuse?
  {
    if n > 0 {
      SweepAccepts(t, n - 1, binding, m);
      if Sweep(t, n - 1, binding, m).Ok? {
        assert Sweep(t, n - 1, binding, m).value.rows[n - 1] == t.rows[n - 1];
      }
    }
  }

  predicate Writes(t: Table, n: nat, binding: nat, m: Motion, i: nat)
    requires i < |t.rows|
  {
    i < n && t.rows[i].binding == binding && Decide(t.rows[i], m).Write?
  }

  /** The change a sweep of the first `n` rows records for row `i`. */
  function Entry(t: Table, n: nat, binding: nat, m: Motion, i: nat): seq<Change>
    requires i < |t.rows|
  {
    if Writes(t, n, binding, m, i) then [ChangeOf(t.rows[i], Decide(t.rows[i], m).row, Decide(t.rows[i], m).kind)] else []
  }

  lemma WrittenId(r: Reservation, m: Motion)
    requires Decide(r, m).Write?
    ensures Decide(r, m).row.id == r.id
  {
  }

  lemma MovedRecords(t: Table, k: nat, binding: nat, m: Motion, id: nat)
    requires k < |t.rows| && Moved(t, k, binding, m).Ok?
    ensures HistoryOf(Moved(t, k, binding, m).value.histories, id)
         == if id == t.rows[k].id then HistoryOf(t.histories, id) + Entry(t, k + 1, binding, m, k)
            else HistoryOf(t.histories, id)
  {
    if Writes(t, k + 1, binding, m, k) {
      WrittenId(t.rows[k], m);
    }
  }

  /** Each row's history grows by its own change, and by no other. */
  lemma {:induction false} SweepRecords(t: Table, n: nat, binding: nat, m: Motion, i: nat)
    requires DistinctRows(t.rows) && n <= |t.rows| && i < |t.rows| && Sweep(t, n, binding, m).Ok?
    ensures HistoryOf(Sweep(t, n, binding, m).value.histories, t.rows[i].id)
         == HistoryOf(t.histories, t.rows[i].id) + Entry(t, n, binding, m, i)
  {
    var id, h := t.rows[i].id, HistoryOf(t.histories, t.rows[i].id);
    if n == 0 {
      assert h + [] == h;
    } else {
      SweepRecords(t, n - 1, binding, m, i);
      var done := Sweep(t, n - 1, binding, m).value;
      MovedRecords(done, n - 1, binding, m, id);
      SameEntry(t, done, n, binding, m);
      if i == n - 1 {
        assert HistoryOf(done.histories, id) == h + [] == h;
      } else {
        assert id != t.rows[n - 1].id;
      }
    }
  }

  lemma SameEntry(t: Table, done: Table, n: nat, binding: nat, m: Motion)
    requires 0 < n <= |t.rows| && |done.rows| == |t.rows| && done.rows[n - 1] == t.rows[n - 1]
    ensures Entry(done, n, binding, m, n - 1) == Entry(t, n, binding, m, n - 1)
  {
  }

  // ---------------------------------------------------------------- settlements

  /** What a settlement may do to one reservation of its binding. */
  predicate MaySettle(r: Reservation, actual: Actual, reported: bool, notApplied: bool, evidence: seq<nat>, source: Source) {
    && (r.status == Released ==> notApplied || actual == NoActual)
    && (r.status == Committed && notApplied ==> r.actual in {None, Some(0)} && evidence != [])
    && (r.source == Some(Billed) && reported ==> source == Billed)
  }

  /** The reservation as the settlement leaves it, evidence aside. */
  ghost predicate BookedAs(r: Reservation, q: Reservation, actual: Actual, notApplied: bool, source: Source) {
    && SameClaim(r, q)
    && (notApplied ==> q.status == Released && q.actual == Some(0) && q.source == Some(NotApplied))
    && (!notApplied ==>
          && (forall n: nat :: Reports(actual, r.key, n) ==>
                q.status == Committed && q.actual == Some(n) && q.source == Some(source))
          && ((forall n: nat :: !Reports(actual, r.key, n)) ==>
                q.actual == r.actual && q.source == r.source
                && q.status == if r.status == Released then Released else Committed))
  }

  function KindOf(r: Reservation, notApplied: bool): Kind {
    if notApplied then NotAppliedKind else if r.status == Committed then Correction else SettledKind
  }

  /** The history has one change more exactly if the row changed: from what it was to what it is. */
  predicate RecordedAs(b: Books, d: Books, r: Reservation, q: Reservation, kind: Kind) {
    HistoryOf(d.histories, r.id)
    == HistoryOf(b.histories, r.id)
       + if q == r then []
         else [Change(kind, Some(r.status), r.actual, r.source, q.status, q.actual, q.source, q.reserved, q.evidence)]
  }

  /** One reservation under the resolved amounts. */
  lemma RowSettled(r: Reservation, actual: Actual, amounts: map<PoolKey, nat>, notApplied: bool, evidence: seq<nat>,
                   source: Source)
    requires RowOk(r) && source != NotApplied
    requires forall n: nat :: (r.key in amounts && amounts[r.key] == n) <==> Reports(actual, r.key, n)
    ensures var v := Decide(r, Settling(amounts, actual != NoActual, notApplied, evidence, source));
            && (!v.Refuse? ==> MaySettle(r, actual, r.key in amounts, notApplied, evidence, source))
            && (v.Keep? ==> BookedAs(r, r, actual, notApplied, source))
            && (v.Write? ==> BookedAs(r, v.row, actual, notApplied, source) && v.kind == KindOf(r, notApplied)
                             && v.row != r && v.row.evidence == Dedup(r.evidence + evidence))
  {
    var m := Settling(amounts, actual != NoActual, notApplied, evidence, source);
    if r.key in amounts {
      assert Reports(actual, r.key, amounts[r.key]);
    }
  }

  lemma OwnRow(rows: seq<Reservation>, i: nat)
    requires i < |rows|
    ensures OwnsKey(rows, rows[i].binding, rows[i].key)
  {
  }

  /** An accepted settlement books each reservation of the binding as reported, and says so in its history. */
  lemma SettledExactly(b: Books, binding: nat, actual: Actual, notApplied: bool, evidence: seq<nat>, source: Source,
                       d: Books, i: nat)
    requires BooksOk(b) && Settle(b, binding, actual, notApplied, evidence, source) == Ok(d)
    requires i < |b.rows| && b.rows[i].binding == binding
    ensures |d.rows| == |b.rows| && BookedAs(b.rows[i], d.rows[i], actual, notApplied, source)
    ensures RecordedAs(b, d, b.rows[i], d.rows[i], KindOf(b.rows[i], notApplied))
    ensures d.rows[i] != b.rows[i] ==> d.rows[i].evidence == Dedup(b.rows[i].evidence + Dedup(evidence))
  {
    var r := b.rows[i];
    var amounts := Amounts(b, binding, actual).value;
    var m := Settling(amounts, actual != NoActual, notApplied, Dedup(evidence), source);
    ResolvedExactly(b, binding, actual);
    OwnRow(b.rows, i);
    forall n: nat ensures (r.key in amounts && amounts[r.key] == n) <==> Reports(actual, r.key, n) {
      AmountIsReported(b, binding, actual, r.key, n);
    }
    assert TableRowOk(TableOf(b), i);
    SweepDecides(TableOf(b), |b.rows|, binding, m, i);
    SweepRecords(TableOf(b), |b.rows|, binding, m, i);
    RowSettled(r, actual, amounts, notApplied, Dedup(evidence), source);
  }

  // ---------------------------------------------------------------- exactly when

  /** The reservation is already booked so. */
  ghost predicate Settled1(r: Reservation, actual: Actual, notApplied: bool, source: Source) {
    BookedAs(r, r, actual, notApplied, source)
  }

  /** A reservation refuses exactly if the settlement may not touch it, or its evidence would not fit. */
  lemma RowRefuses(r: Reservation, actual: Actual, amounts: map<PoolKey, nat>, notApplied: bool, evidence: seq<nat>,
                   source: Source)
    requires RowOk(r) && source != NotApplied && (notApplied ==> forall key :: key in amounts ==> amounts[key] == 0)
    requires forall n: nat :: (r.key in amounts && amounts[r.key] == n) <==> Reports(actual, r.key, n)
    ensures Decide(r, Settling(amounts, actual != NoActual, notApplied, evidence, source)).Refuse?
        <==> !MaySettle(r, actual, r.key in amounts, notApplied, evidence, source)
             || (!Settled1(r, actual, notApplied, source) && |Dedup(r.evidence + evidence)| > MAX_EVIDENCE)
  {
    if r.key in amounts {
      assert Reports(actual, r.key, amounts[r.key]);
    }
  }

  ghost predicate Reported(actual: Actual, key: PoolKey) {
    exists n: nat :: Reports(actual, key, n)
  }

  /** The settlement may touch this reservation, and its evidence still fits. */
  ghost predicate Settleable(r: Reservation, actual: Actual, notApplied: bool, evidence: seq<nat>, source: Source) {
    && MaySettle(r, actual, Reported(actual, r.key), notApplied, evidence, source)
    && (Settled1(r, actual, notApplied, source) || |Dedup(r.evidence + Dedup(evidence))| <= MAX_EVIDENCE)
  }

  /** What can be said of a settlement before any reservation is looked at. */
  ghost predicate Presentable(b: Books, binding: nat, actual: Actual, notApplied: bool, evidence: seq<nat>, source: Source) {
    && source != NotApplied && |Dedup(evidence)| <= MAX_EVIDENCE && binding in b.bindings && Resolves(b, binding, actual)
    && (notApplied ==> forall key, n: nat :: OwnsKey(b.rows, binding, key) && Reports(actual, key, n) ==> n == 0)
  }

  lemma AmountsOwned(b: Books, binding: nat, actual: Actual, key: PoolKey)
    requires Resolves(b, binding, actual) && key in Amounts(b, binding, actual).value
    ensures OwnsKey(b.rows, binding, key)
  {
    match actual
    case NoActual =>
    case ByPool(amounts) => PoolAmountsExact(b.rows, binding, amounts, key);
    case ByKey(items) =>
      var n := ItemAmounts(items)[key];
      ItemAmountsExact(items, key, n);
      var i :| 0 <= i < |items| && items[i] == Item(key, n);
      assert OwnsKey(b.rows, binding, items[i].key);
  }

  /** Nothing was consumed, as far as the resolved amounts go. */
  lemma NoneConsumed(b: Books, binding: nat, actual: Actual)
    requires Resolves(b, binding, actual)
    ensures (forall key :: key in Amounts(b, binding, actual).value ==> Amounts(b, binding, actual).value[key] == 0)
        <==> (forall key, n: nat :: OwnsKey(b.rows, binding, key) && Reports(actual, key, n) ==> n == 0)
  {
    var amounts := Amounts(b, binding, actual).value;
    forall key, n: nat | OwnsKey(b.rows, binding, key) && Reports(actual, key, n) ensures key in amounts && amounts[key] == n {
      AmountIsReported(b, binding, actual, key, n);
    }
    forall key | key in amounts ensures OwnsKey(b.rows, binding, key) && Reports(actual, key, amounts[key]) {
      AmountsOwned(b, binding, actual, key);
      AmountIsReported(b, binding, actual, key, amounts[key]);
    }
  }

  lemma ResolvedRow(b: Books, binding: nat, actual: Actual, i: nat)
    requires Resolves(b, binding, actual) && i < |b.rows| && b.rows[i].binding == binding
    ensures var amounts, key := Amounts(b, binding, actual).value, b.rows[i].key;
            && (forall n: nat :: (key in amounts && amounts[key] == n) <==> Reports(actual, key, n))
            && (key in amounts <==> Reported(actual, key))
  {
    OwnRow(b.rows, i);
    var amounts, key := Amounts(b, binding, actual).value, b.rows[i].key;
    forall n: nat ensures (key in amounts && amounts[key] == n) <==> Reports(actual, key, n) {
      AmountIsReported(b, binding, actual, key, n);
    }
    if key in amounts {
      assert Reports(actual, key, amounts[key]);
    }
  }

  lemma RowSettles(b: Books, binding: nat, actual: Actual, notApplied: bool, evidence: seq<nat>, source: Source, i: nat)
    requires Presentable(b, binding, actual, notApplied, evidence, source)
    requires i < |b.rows| && b.rows[i].binding == binding && RowOk(b.rows[i])
    ensures Decide(b.rows[i], Settling(Amounts(b, binding, actual).value, actual != NoActual, notApplied, Dedup(evidence),
                                       source)).Refuse?
        <==> !Settleable(b.rows[i], actual, notApplied, evidence, source)
  {
    NoneConsumed(b, binding, actual);
    ResolvedRow(b, binding, actual, i);
    EvidenceEmpty(evidence);
    RowRefuses(b.rows[i], actual, Amounts(b, binding, actual).value, notApplied, Dedup(evidence), source);
  }

  lemma EvidenceEmpty(evidence: seq<nat>)
    ensures Dedup(evidence) == [] <==> evidence == []
  {
  }

  /** What the acceptance of a settlement needs of the books, and `BooksOk` gives. */
  ghost predicate RowsOk(b: Books) {
    forall i :: 0 <= i < |b.rows| ==> RowOk(b.rows[i])
  }

  lemma BooksRowsOk(b: Books)
    requires BooksOk(b)
    ensures RowsOk(b)
  {
    forall i | 0 <= i < |b.rows| ensures RowOk(b.rows[i]) {
      assert TableRowOk(TableOf(b), i);
    }
  }

  lemma SweepSettles(b: Books, binding: nat, actual: Actual, notApplied: bool, evidence: seq<nat>, source: Source)
    requires RowsOk(b) && Presentable(b, binding, actual, notApplied, evidence, source)
    ensures Sweep(TableOf(b), |b.rows|, binding, Settling(Amounts(b, binding, actual).value, actual != NoActual, notApplied,
                                                          Dedup(evidence), source)).Ok?
        <==> forall i :: 0 <= i < |b.rows| && b.rows[i].binding == binding ==>
               Settleable(b.rows[i], actual, notApplied, evidence, source)
  {
    var m := Settling(Amounts(b, binding, actual).value, actual != NoActual, notApplied, Dedup(evidence), source);
    SweepAccepts(TableOf(b), |b.rows|, binding, m);
    forall i | 0 <= i < |b.rows| && b.rows[i].binding == binding
      ensures Decide(b.rows[i], m).Refuse? <==> !Settleable(b.rows[i], actual, notApplied, evidence, source)
    {
      RowSettles(b, binding, actual, notApplied, evidence, source, i);
    }
  }

  lemma PresentedSettles(b: Books, binding: nat, actual: Actual, notApplied: bool, evidence: seq<nat>, source: Source)
    requires Presentable(b, binding, actual, notApplied, evidence, source)
    ensures Settle(b, binding, actual, notApplied, evidence, source)
         == SweepBooks(b, binding, Settling(Amounts(b, binding, actual).value, actual != NoActual, notApplied, Dedup(evidence),
                                            source))
  {
    ResolvedExactly(b, binding, actual);
    NoneConsumed(b, binding, actual);
  }

  lemma OthersRefused(b: Books, binding: nat, actual: Actual, notApplied: bool, evidence: seq<nat>, source: Source)
    requires !Presentable(b, binding, actual, notApplied, evidence, source)
    ensures Settle(b, binding, actual, notApplied, evidence, source).Err?
  {
    ResolvedExactly(b, binding, actual);
    if Resolves(b, binding, actual) {
      NoneConsumed(b, binding, actual);
    }
  }

  /** A settlement is accepted exactly if it is presentable and every reservation of the binding is settleable. */
  lemma SettlesExactly(b: Books, binding: nat, actual: Actual, notApplied: bool, evidence: seq<nat>, source: Source)
    requires RowsOk(b)
    ensures Settle(b, binding, actual, notApplied, evidence, source).Ok?
        <==> Presentable(b, binding, actual, notApplied, evidence, source)
             && forall i :: 0 <= i < |b.rows| && b.rows[i].binding == binding ==>
                  Settleable(b.rows[i], actual, notApplied, evidence, source)
  {
    if Presentable(b, binding, actual, notApplied, evidence, source) {
      PresentedSettles(b, binding, actual, notApplied, evidence, source);
      SweepSettles(b, binding, actual, notApplied, evidence, source);
    } else {
      OthersRefused(b, binding, actual, notApplied, evidence, source);
    }
  }

  // ---------------------------------------------------------------- lost executions

  /** Marking a binding uncertain takes only open reservations, changes nothing but their status and evidence, and
      records each change. */
  lemma MarkedExactly(b: Books, binding: nat, evidence: seq<nat>, d: Books, i: nat)
    requires BooksOk(b) && MarkUncertain(b, binding, evidence) == Ok(d)
    requires i < |b.rows| && b.rows[i].binding == binding
    ensures |d.rows| == |b.rows| && b.rows[i].status in {Held, Uncertain}
    ensures d.rows[i] == if b.rows[i].status == Uncertain then b.rows[i]
                         else b.rows[i].(status := Uncertain, evidence := Dedup(b.rows[i].evidence + Dedup(evidence)))
    ensures RecordedAs(b, d, b.rows[i], d.rows[i], RemoteUnknown)
  {
    var m := RemoteLost(Dedup(evidence));
    SweepDecides(TableOf(b), |b.rows|, binding, m, i);
    SweepRecords(TableOf(b), |b.rows|, binding, m, i);
  }

  // ---------------------------------------------------------------- admission

  /** What a row takes from a balance observed at `observed`: an estimate while it is open, and afterwards what a
      settlement begun since the observation came to. */
  function TakenBy(r: Reservation, observed: Option<int>): nat {
    match r.status
    case Released => 0
    case Committed =>
      if observed.Some? && r.created < observed.value then 0 else if r.actual.Some? then r.actual.value else r.reserved
    case _ => r.reserved
  }

  function TakenFrom(rows: seq<Reservation>, key: PoolKey, observed: Option<int>): nat {
    if rows == [] then 0
    else (if rows[0].key == key then TakenBy(rows[0], observed) else 0) + TakenFrom(rows[1..], key, observed)
  }

  lemma {:induction false} TakenSnoc(rows: seq<Reservation>, r: Reservation, key: PoolKey, observed: Option<int>)
    ensures TakenFrom(rows + [r], key, observed)
         == TakenFrom(rows, key, observed) + if r.key == key then TakenBy(r, observed) else 0
    decreases |rows|
  {
    if rows == [] {
      assert TakenFrom([r][1..], key, observed) == 0;
    } else {
      assert (rows + [r])[1..] == rows[1..] + [r];
      TakenSnoc(rows[1..], r, key, observed);
    }
  }

  lemma {:induction false} DrawnExactly(rows: seq<Reservation>, key: PoolKey, observed: Option<int>)
    ensures Drawn(rows, key, observed) == TakenFrom(rows, key, observed)
  {
    if rows != [] {
      var front, last := rows[..|rows| - 1], rows[|rows| - 1];
      DrawnExactly(front, key, observed);
      TakenSnoc(front, last, key, observed);
      assert rows == front + [last];
    }
  }

  /** What a window has used is every row's part, whenever it began. */
  lemma {:induction false} UsedExactly(rows: seq<Reservation>, key: PoolKey)
    ensures Used(rows, key) == TakenFrom(rows, key, None)
  {
    if rows != [] {
      var front, last := rows[..|rows| - 1], rows[|rows| - 1];
      UsedExactly(front, key);
      TakenSnoc(front, last, key, None);
      assert rows == front + [last];
    }
  }

  /** The pool has room for the item: in its window, in its balance as last observed, and for one more binding. */
  predicate HasRoom(rows: seq<Reservation>, p: Pool, item: Item) {
    && p.localLimit.Some? && p.maxConcurrency.Some? && p.meter == Some(item.key.meter) && p.window == Some(item.key.window)
    && TakenFrom(rows, item.key, None) + item.amount <= p.localLimit.value
    && |Active(rows, item.key.pool)| < p.maxConcurrency.value
    && (p.remaining.Some? ==> TakenFrom(rows, item.key, p.observedAt) + item.amount <= p.remaining.value)
  }

  lemma {:induction false} RoomExactly(rows: seq<Reservation>, pools: map<nat, Pool>, items: seq<Item>)
    requires forall i :: 0 <= i < |items| ==> items[i].key.pool in pools && Bounded(pools[items[i].key.pool])
    requires forall i :: 0 <= i < |items| ==> Covers(pools[items[i].key.pool], items[i])
    ensures RoomsRefusal(rows, pools, items) == None
        <==> forall i :: 0 <= i < |items| ==> HasRoom(rows, pools[items[i].key.pool], items[i])
    decreases |items|
  {
    if items != [] {
      var p, rest := pools[items[0].key.pool], items[1..];
      DrawnExactly(rows, items[0].key, p.observedAt);
      UsedExactly(rows, items[0].key);
      assert forall i :: 0 <= i < |rest| ==> rest[i] == items[i + 1];
      RoomExactly(rows, pools, rest);
      assert RoomRefusal(rows, p, items[0]) == None <==> HasRoom(rows, p, items[0]);
      assert forall i :: 0 < i < |items| ==> items[i] == rest[i - 1];
    }
  }

  lemma {:induction false} CoverExactly(pools: map<nat, Pool>, items: seq<Item>)
    ensures PoolsRefusal(pools, items) == None
        <==> forall i :: 0 <= i < |items| ==> items[i].key.pool in pools && Covers(pools[items[i].key.pool], items[i])
    decreases |items|
  {
    if items != [] {
      var rest := items[1..];
      assert forall i :: 0 <= i < |rest| ==> rest[i] == items[i + 1];
      CoverExactly(pools, rest);
      assert forall i :: 0 < i < |items| ==> items[i] == rest[i - 1];
    }
  }

  /** A plan without an execution is admitted exactly when it asks for something, names an execution that has no
      plan yet, agrees with the plan known under its id, and each pool has room for its item. */
  lemma AdmissibleExactly(b: Books, q: Admission, pools: map<nat, Pool>)
    ensures Admissible(b, q, pools)
        <==> && q.plan.items != [] && DistinctKeys(q.plan.items)
             && (exists i :: 0 <= i < |q.plan.items| && q.plan.items[i].amount > 0)
             && (q.run.Some? || q.action.Some?)
             && (q.planId in b.plans ==> b.plans[q.planId] == q.plan)
             && (forall id :: id in b.bindings ==>
                   b.bindings[id].plan != q.planId && (q.run.Some? ==> b.bindings[id].run != q.run)
                   && (q.action.Some? ==> b.bindings[id].action != q.action))
             && (forall i :: 0 <= i < |q.plan.items| ==>
                   q.plan.items[i].key.pool in pools
                   && HasRoom(b.rows, pools[q.plan.items[i].key.pool], q.plan.items[i]))
  {
    CoverExactly(pools, q.plan.items);
    if PoolsRefusal(pools, q.plan.items) == None {
      forall i | 0 <= i < |q.plan.items|
        ensures q.plan.items[i].key.pool in pools && Bounded(pools[q.plan.items[i].key.pool])
      {
        assert Covers(pools[q.plan.items[i].key.pool], q.plan.items[i]);
      }
      RoomExactly(b.rows, pools, q.plan.items);
    }
    assert HasBinding(b, q.planId) <==> exists id :: id in b.bindings && b.bindings[id].plan == q.planId by {
      if id :| id in b.bindings && b.bindings[id].plan == q.planId {
        assert PlanBound(b, q.planId, id);
      }
    }
  }

  /** The reservation of one item. */
  predicate AdmittedRow(d: Books, row: Reservation, item: Item, binding: nat, pools: map<nat, Pool>, now: int) {
    && row.binding == binding && row.key == item.key && row.reserved == item.amount && row.status == Held
    && row.actual == None && row.source == None && row.evidence == [] && row.created == now
    && item.key.pool in pools && row.policy == pools[item.key.pool]
    && HistoryOf(d.histories, row.id) == [Change(Kind.Admitted, None, None, None, Held, None, None, item.amount, [])]
  }

  lemma NewRowsAdmitted(d: Books, q: Admission, pools: map<nat, Pool>, now: int, binding: nat, rows: seq<Reservation>, i: nat)
    requires PoolsKnown(pools, q.plan.items) && rows == NewRows(q.plan.items, pools, binding, now) && i < |rows|
    requires forall id :: id in NewHistories(rows) ==> id in d.histories && d.histories[id] == NewHistories(rows)[id]
    ensures AdmittedRow(d, rows[i], q.plan.items[i], binding, pools, now)
  {
    NewHistoriesExact(rows);
    assert rows[i] == NewRow(q.plan.items[i], pools[q.plan.items[i].key.pool], binding + 1 + i, binding, now);
  }

  lemma RowAdmitted(b: Books, q: Admission, pools: map<nat, Pool>, now: int, i: nat)
    requires PoolsKnown(pools, q.plan.items) && i < |q.plan.items|
    ensures var d := Admitted1(b, q, pools, now);
            |d.rows| == |b.rows| + |q.plan.items|
            && AdmittedRow(d, d.rows[|b.rows| + i], q.plan.items[i], b.next, pools, now)
  {
    var rows := NewRows(q.plan.items, pools, b.next, now);
    var d := Admitted1(b, q, pools, now);
    assert d.rows[|b.rows| + i] == rows[i];
    NewRowsAdmitted(d, q, pools, now, b.next, rows, i);
  }

  lemma AdmitsNew(b: Books, q: Admission, pools: map<nat, Pool>, now: int, r: Result<(Books, nat)>)
    requires Admits(b, q, pools, now, r) && Admissible(b, q, pools)
    ensures r == Ok((Admitted1(b, q, pools, now), b.next))
  {
  }

  /** An admitted plan gets an execution of its own, and one held reservation of the amount asked for an item, dated
      now, under the pool's policy and with a history that begins there. What was there stays. */
  lemma AdmittedExactly(b: Books, q: Admission, pools: map<nat, Pool>, now: int, r: Result<(Books, nat)>)
    requires Admits(b, q, pools, now, r) && Admissible(b, q, pools)
    ensures r.Ok? && r.value.1 == b.next
    ensures var (d, id) := r.value;
            && d.plans == b.plans[q.planId := q.plan] && d.next == b.next + 1 + |q.plan.items|
            && d.bindings == b.bindings[id := Binding(q.planId, q.plan.principal, q.run, q.action)]
            && |d.rows| == |b.rows| + |q.plan.items| && d.rows[..|b.rows|] == b.rows
            && forall i :: 0 <= i < |q.plan.items| ==> AdmittedRow(d, d.rows[|b.rows| + i], q.plan.items[i], id, pools, now)
  {
    AdmitsNew(b, q, pools, now, r);
    forall i | 0 <= i < |q.plan.items|
      ensures AdmittedRow(r.value.0, r.value.0.rows[|b.rows| + i], q.plan.items[i], b.next, pools, now)
    {
      RowAdmitted(b, q, pools, now, i);
    }
  }

  /** A plan that has an execution is answered by it exactly when the request is one for this plan, unchanged, and
      names no other run, Action or principal; the tables stay as they are. */
  lemma ReboundExactly(b: Books, q: Admission, pools: map<nat, Pool>, now: int, r: Result<(Books, nat)>, id: nat)
    requires BindingsOk(b) && Admits(b, q, pools, now, r) && id in b.bindings && b.bindings[id].plan == q.planId
    ensures r.Ok? <==> && RequestRefusal(q, pools) == None && (q.planId in b.plans ==> b.plans[q.planId] == q.plan)
                       && (q.run.Some? ==> b.bindings[id].run == q.run)
                       && (q.action.Some? ==> b.bindings[id].action == q.action)
                       && b.bindings[id].principal == q.plan.principal
    ensures r.Ok? ==> r.value.1 == id && r.value.0 == b.(plans := b.plans[q.planId := q.plan])
  {
    assert PlanBound(b, q.planId, id);
    forall other | other in b.bindings && PlanBound(b, q.planId, other) ensures other == id {
    }
  }

  /** Binding a run to a plan's execution succeeds exactly if it has that run, or none and the run is free. */
  lemma BoundExactly(b: Books, id: nat, run: nat)
    requires id in b.bindings
    ensures BindLegacy(b, id, run).Ok?
        <==> b.bindings[id].run == Some(run)
             || (b.bindings[id].run == None && forall other :: other in b.bindings ==> b.bindings[other].run != Some(run))
    ensures BindLegacy(b, id, run).Ok? ==>
              BindLegacy(b, id, run).value == b.(bindings := b.bindings[id := b.bindings[id].(run := Some(run))])
  {
    assert b.bindings[id].run == Some(run) ==> b.bindings[id := b.bindings[id].(run := Some(run))] == b.bindings;
  }
}
