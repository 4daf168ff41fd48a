/** The plugin store as the program runs it: every transaction updates the tables in place and
    restores them when it raises. */
module PluginStore {
  import opened Wrappers
  import opened PoolLedger
  import opened PoolRuns
  import opened UsageLedger

  /** `pool_totals` for one (pool, meter, window). */
  datatype Totals = Totals(held: nat, committed: nat, uncertain: nat, active: set<nat>) {
    function Used(): nat {
      held + uncertain + committed
    }
  }

  lemma ActiveStep(rows: seq<Reservation>, r: Reservation, pool: nat)
    ensures Active(rows + [r], pool)
            == if r.key.pool == pool && Open(r) then Active(rows, pool) + {r.binding} else Active(rows, pool)
  {
    var all := rows + [r];
    var more := if r.key.pool == pool && Open(r) then Active(rows, pool) + {r.binding} else Active(rows, pool);
    forall id ensures id in Active(all, pool) <==> id in more {
      if id in Active(all, pool) {
        var i :| 0 <= i < |all| && all[i].key.pool == pool && Open(all[i]) && all[i].binding == id;
        assert i < |rows| ==> all[i] == rows[i];
      }
      if id in Active(rows, pool) {
        var i :| 0 <= i < |rows| && rows[i].key.pool == pool && Open(rows[i]) && rows[i].binding == id;
        assert all[i] == rows[i];
      }
      if r.key.pool == pool && Open(r) && id == r.binding {
        assert all[|rows|] == r;
      }
    }
  }

  lemma NothingInserted(kept: Histories, items: seq<Item>, pools: map<nat, Pool>, binding: nat, now: int)
    requires forall i :: 0 <= i < |items| ==> items[i].key.pool in pools
    ensures NewRows(items[..0], pools, binding, now) == []
    ensures kept + NewHistories(NewRows(items[..0], pools, binding, now)) == kept
  {
  }

  lemma UnionThen<V>(kept: map<nat, V>, more: map<nat, V>, id: nat, v: V)
    ensures kept + more[id := v] == (kept + more)[id := v]
  {
  }

  lemma InsertedOne(items: seq<Item>, pools: map<nat, Pool>, binding: nat, now: int, i: nat)
    requires i < |items| && forall k :: 0 <= k < |items| ==> items[k].key.pool in pools
    ensures NewRows(items[..i + 1], pools, binding, now)
         == NewRows(items[..i], pools, binding, now)
            + [NewRow(items[i], pools[items[i].key.pool], binding + 1 + i, binding, now)]
  {
    assert items[..i + 1][..i] == items[..i];
  }

  lemma RecordedOne(base: seq<Reservation>, kept: Histories, added: seq<Reservation>, r: Reservation)
    ensures base + added + [r] == base + (added + [r])
    ensures (kept + NewHistories(added))[r.id := [FirstChange(r)]] == kept + NewHistories(added + [r])
  {
    assert (added + [r])[..|added|] == added;
    UnionThen(kept, NewHistories(added), r.id, [FirstChange(r)]);
  }

  class PluginStore {
    var plans: map<nat, Plan>
    var bindings: map<nat, Binding>
    var rows: seq<Reservation>
    var histories: Histories
    var observations: seq<Entry>
    var next: nat

    constructor ()
      ensures Tables() == NO_BOOKS && observations == []
    {
      plans, bindings, rows, histories, observations, next := map[], map[], [], map[], [], 0;
    }

    ghost function Tables(): Books
      reads this
    {
      Books(plans, bindings, rows, histories, next)
    }

    method PoolTotals(key: PoolKey) returns (t: Totals)
      ensures t.Used() == PoolLedger.Used(rows, key) && t.active == Active(rows, key.pool)
    {
      t := Totals(0, 0, 0, {});
      for i := 0 to |rows|
        invariant t.Used() == PoolLedger.Used(rows[..i], key) && t.active == Active(rows[..i], key.pool)
      {
        var r := rows[i];
        assert rows[..i + 1] == rows[..i] + [r] && rows[..i + 1][..i] == rows[..i];
        ActiveStep(rows[..i], r, key.pool);
        if r.key.pool == key.pool && (r.status == Held || r.status == Uncertain) {
          t := t.(active := t.active + {r.binding});
        }
        if r.key == key {
          var amount := if r.status == Committed && r.actual.Some? then r.actual.value else r.reserved;
          match r.status
          case Held => t := t.(held := t.held + amount);
          case Uncertain => t := t.(uncertain := t.uncertain + amount);
          case Committed => t := t.(committed := t.committed + amount);
          case Released =>
        }
      }
      assert rows[..|rows|] == rows;
    }

    /** What has already drawn on the pool's observed balance. */
    method Consumed(key: PoolKey, observed: Option<int>) returns (consumed: nat)
      ensures consumed == Drawn(rows, key, observed)
    {
      consumed := 0;
      for i := 0 to |rows|
        invariant consumed == Drawn(rows[..i], key, observed)
      {
        var prior := rows[i];
        assert rows[..i + 1][..i] == rows[..i];
        if prior.key == key {
          if prior.status == Held || prior.status == Uncertain {
            consumed := consumed + prior.reserved;
          } else if prior.status == Committed && (observed.None? || prior.created >= observed.value) {
            consumed := consumed + if prior.actual.Some? then prior.actual.value else prior.reserved;
          }
        }
      }
      assert rows[..|rows|] == rows;
    }

    method CheckRoom(pool: Pool, item: Item) returns (refusal: Option<Error>)
      requires Bounded(pool)
      ensures refusal == RoomRefusal(rows, pool, item)
    {
      var totals := PoolTotals(item.key);
      if totals.Used() + item.amount > pool.localLimit.value {
        return Some(BudgetExhausted);
      }
      if |totals.active| >= pool.maxConcurrency.value {
        return Some(BudgetExhausted);
      }
      if pool.remaining.Some? {
        var consumed := Consumed(item.key, pool.observedAt);
        if consumed + item.amount > pool.remaining.value {
          return Some(BudgetExhausted);
        }
      }
      return None;
    }

    static method CheckPools(pools: map<nat, Pool>, items: seq<Item>) returns (refusal: Option<Error>)
      ensures refusal == PoolsRefusal(pools, items)
    {
      for i := 0 to |items|
        invariant PoolsRefusal(pools, items) == PoolsRefusal(pools, items[i..])
      {
        assert items[i..][1..] == items[i + 1..];
        var item := items[i];
        if item.key.pool !in pools {
          return Some(BudgetUnknown);
        }
        var pool := pools[item.key.pool];
        if pool.localLimit.None? || pool.maxConcurrency.None? || pool.meter.None? || pool.window.None? {
          return Some(BudgetUnknown);
        }
        if pool.meter.value != item.key.meter || pool.window.value != item.key.window {
          return Some(BindingMismatch);
        }
      }
      assert items[|items|..] == [];
      return None;
    }

    method CheckRooms(pools: map<nat, Pool>, items: seq<Item>) returns (refusal: Option<Error>)
      requires forall i :: 0 <= i < |items| ==> items[i].key.pool in pools && Bounded(pools[items[i].key.pool])
      ensures refusal == RoomsRefusal(rows, pools, items)
    {
      for i := 0 to |items|
        invariant RoomsRefusal(rows, pools, items) == RoomsRefusal(rows, pools, items[i..])
      {
        assert items[i..][1..] == items[i + 1..];
        refusal := CheckRoom(pools[items[i].key.pool], items[i]);
        if refusal.Some? {
          return;
        }
      }
      assert items[|items|..] == [];
      return None;
    }

    /** Inserts the reservations of a new binding, each with its first history row. */
    method InsertRows(items: seq<Item>, pools: map<nat, Pool>, binding: nat, now: int)
      requires forall i :: 0 <= i < |items| ==> items[i].key.pool in pools
      modifies this`rows, this`histories, this`next
      ensures var added := NewRows(items, pools, binding, now);
              rows == old(rows) + added && histories == old(histories) + NewHistories(added)
              && next == binding + 1 + |items|
    {
      next := binding + 1;
      ghost var base, kept := rows, histories;
      ghost var added := NewRows(items[..0], pools, binding, now);
      NothingInserted(kept, items, pools, binding, now);
      for i := 0 to |items|
        invariant next == binding + 1 + i && added == NewRows(items[..i], pools, binding, now)
        invariant rows == base + added && histories == kept + NewHistories(added)
      {
        added := InsertRow(items, pools, binding, now, i, base, kept, added);
      }
      assert items[..|items|] == items;
    }

    method InsertRow(items: seq<Item>, pools: map<nat, Pool>, binding: nat, now: int, i: nat,
                     ghost base: seq<Reservation>, ghost kept: Histories, ghost added: seq<Reservation>)
      returns (ghost more: seq<Reservation>)
      requires i < |items| && forall k :: 0 <= k < |items| ==> items[k].key.pool in pools
      requires next == binding + 1 + i && added == NewRows(items[..i], pools, binding, now)
      requires rows == base + added && histories == kept + NewHistories(added)
      modifies this`rows, this`histories, this`next
      ensures next == binding + 2 + i && more == NewRows(items[..i + 1], pools, binding, now)
      ensures rows == base + more && histories == kept + NewHistories(more)
    {
      InsertedOne(items, pools, binding, now, i);
      var item := items[i];
      var r := Reservation(next, binding, item.key, Held, item.amount, None, None, pools[item.key.pool], [], now);
      more := InsertOne(r, base, kept, added);
      next := next + 1;
    }

    /** One reservation with the first entry of its history. */
    method InsertOne(r: Reservation, ghost base: seq<Reservation>, ghost kept: Histories, ghost added: seq<Reservation>)
      returns (ghost more: seq<Reservation>)
      requires rows == base + added && histories == kept + NewHistories(added)
      modifies this`rows, this`histories
      ensures more == added + [r] && rows == base + more && histories == kept + NewHistories(more)
    {
      RecordedOne(base, kept, added, r);
      rows := rows + [r];
      histories := histories[r.id := [FirstChange(r)]];
      more := added + [r];
    }

    /** The checks `admit` makes before it touches the tables. */
    static method CheckRequest(q: Admission, pools: map<nat, Pool>) returns (refusal: Option<Error>)
      ensures refusal == RequestRefusal(q, pools)
    {
      if !Readable(q.plan.items) {
        return Some(InvalidRequest);
      }
      if !exists i :: 0 <= i < |q.plan.items| && q.plan.items[i].amount > 0 {
        return Some(BudgetUnknown);
      }
      if q.run.None? && q.action.None? {
        return Some(InvalidRequest);
      }
      refusal := CheckPools(pools, q.plan.items);
    }

    /** A confirmed plan that already has its execution. */
    method AdmitAgain(q: Admission, id: nat) returns (r: Result<nat>)
      requires id in bindings
      modifies this`plans
      ensures r == Rebound(old(Tables()), q, id)
      ensures plans == if r.Ok? then old(plans)[q.planId := q.plan] else old(plans)
    {
      var old_ := bindings[id];
      if (q.run.Some? && old_.run != q.run) || (q.action.Some? && old_.action != q.action) {
        return Err(BindingMismatch);
      }
      if old_.principal != q.plan.principal {
        return Err(NotFound);
      }
      plans := plans[q.planId := q.plan];
      return Ok(id);
    }

    /** A plan without an execution: room in every pool, free references, then the insertions. */
    method AdmitNew(q: Admission, pools: map<nat, Pool>, now: int) returns (r: Result<nat>)
      requires forall i :: 0 <= i < |q.plan.items| ==>
                 q.plan.items[i].key.pool in pools && Bounded(pools[q.plan.items[i].key.pool])
      modifies this
      ensures match NewRefusal(old(Tables()), q, pools)
              case None => r == Ok(old(next)) && Tables() == Admitted1(old(Tables()), q, pools, now)
              case Some(error) => r == Err(error) && Tables() == old(Tables())
      ensures observations == old(observations)
    {
      var full := CheckRooms(pools, q.plan.items);
      if full.Some? {
        return Err(full.value);
      }
      if q.run.Some? && exists id: nat :: id in bindings && bindings[id].run == q.run {
        return Err(BindingMismatch);
      }
      if q.action.Some? && exists id: nat :: id in bindings && bindings[id].action == q.action {
        return Err(BindingMismatch);
      }
      var binding := next;
      plans := plans[q.planId := q.plan];
      bindings := bindings[binding := Binding(q.planId, q.plan.principal, q.run, q.action)];
      InsertRows(q.plan.items, pools, binding, now);
      return Ok(binding);
    }

    /** `admit`: an admissible plan gets its binding and reservations in one transaction. */
    method Admit(q: Admission, pools: map<nat, Pool>, now: int) returns (r: Result<nat>)
      modifies this
      ensures r.Ok? ==> Admits(old(Tables()), q, pools, now, Ok((Tables(), r.value)))
      ensures r.Err? ==> Admits(old(Tables()), q, pools, now, Err(r.error)) && Tables() == old(Tables())
      ensures observations == old(observations)
    {
      var refusal := CheckRequest(q, pools);
      if refusal.Some? {
        return Err(refusal.value);
      }
      PoolsCover(pools, q.plan.items);
      if q.planId in plans && plans[q.planId] != q.plan {
        return Err(BindingMismatch);
      }
      if id: nat :| id in bindings && bindings[id].plan == q.planId {
        assert PlanBound(Tables(), q.planId, id);
        r := AdmitAgain(q, id);
      } else {
        r := AdmitNew(q, pools, now);
      }
    }

    /** One pass over a binding's reservations; a refused row restores every table. */
    method SweepRows(binding: nat, m: Motion) returns (r: Result<()>)
      modifies this`rows, this`histories
      ensures match Sweep(Table(old(rows), old(histories)), |old(rows)|, binding, m)
              case Ok(t) => r == Ok(()) && rows == t.rows && histories == t.histories
              case Err(error) => r == Err(error) && rows == old(rows) && histories == old(histories)
    {
      ghost var t0 := Table(rows, histories);
      var savedRows, savedHistories := rows, histories;
      for i := 0 to |savedRows|
        invariant |rows| == |savedRows|
        invariant Sweep(t0, i, binding, m) == Ok(Table(rows, histories))
      {
        if rows[i].binding == binding {
          var verdict := Judge(rows[i], m);
          match verdict
          case Keep =>
          case Write(row, kind) =>
            var change := ChangeOf(rows[i], row, kind);
            rows := rows[i := row];
            histories := histories[row.id := (if row.id in histories then histories[row.id] else []) + [change]];
          case Refuse(error) =>
            RefusedSweep(t0, i + 1, binding, m, error);
            rows, histories := savedRows, savedHistories;
            return Err(error);
        }
      }
      return Ok(());
    }

    /** The settlement rules for one reservation, in the order they are checked. */
    static method Judge(r: Reservation, m: Motion) returns (verdict: Verdict)
      ensures verdict == Decide(r, m)
    {
      if m.RemoteLost? {
        if r.status == Uncertain {
          return Keep;
        }
        if r.status != Held {
          return Refuse(InvalidState);
        }
        return WithEvidence(r.(status := Uncertain), m.evidence, RemoteUnknown);
      }
      var observed := if m.notApplied then Some(0) else if r.key in m.amounts then Some(m.amounts[r.key]) else r.actual;
      var status := if m.notApplied then Released else Committed;
      var source := if m.notApplied then Some(NotApplied) else if r.key in m.amounts then Some(m.source) else r.source;
      if r.status == Released {
        if !m.notApplied && !m.given {
          return Keep;
        }
        if status != Released || observed != Some(0) {
          return Refuse(InvalidState);
        }
      }
      if r.status == Committed && m.notApplied {
        if (r.actual.Some? && r.actual.value != 0) || m.evidence == [] {
          return Refuse(InvalidState);
        }
      }
      if r.source == Some(Billed) && r.key in m.amounts && m.source != Billed {
        return Refuse(InvalidState);
      }
      if r.status == status && r.actual == observed && r.source == source {
        return Keep;
      }
      var next := r.(status := status, actual := observed, source := source);
      return WithEvidence(next, m.evidence, if m.notApplied then NotAppliedKind
                                            else if r.status == Committed then Correction else SettledKind);
    }

    method DoMarkUncertain(binding: nat, evidence: seq<nat>) returns (r: Result<()>)
      modifies this`rows, this`histories
      ensures match MarkUncertain(old(Tables()), binding, evidence)
              case Ok(b) => r == Ok(()) && Tables() == b
              case Err(error) => r == Err(error) && Tables() == old(Tables())
    {
      var all := Evidence(evidence);
      if all.Err? {
        return Err(all.error);
      }
      if binding !in bindings {
        return Err(NotFound);
      }
      r := SweepRows(binding, RemoteLost(all.value));
    }

    /** `settle`: amounts are resolved against the binding's own reservations, then each is judged. */
    method DoSettle(binding: nat, actual: Actual, notApplied: bool, evidence: seq<nat>, source: Source)
      returns (r: Result<()>)
      modifies this`rows, this`histories
      ensures match Settle(old(Tables()), binding, actual, notApplied, evidence, source)
              case Ok(b) => r == Ok(()) && Tables() == b
              case Err(error) => r == Err(error) && Tables() == old(Tables())
    {
      if source != ProviderObserved && source != Billed {
        return Err(InvalidRequest);
      }
      var all := Evidence(evidence);
      if all.Err? {
        return Err(all.error);
      }
      if binding !in bindings {
        return Err(NotFound);
      }
      var amounts := ResolveAmounts(binding, actual);
      if amounts.Err? {
        return Err(amounts.error);
      }
      if notApplied && exists key :: key in amounts.value && amounts.value[key] > 0 {
        return Err(InvalidRequest);
      }
      r := SweepRows(binding, Settling(amounts.value, actual != NoActual, notApplied, all.value, source));
    }

    method ResolveAmounts(binding: nat, actual: Actual) returns (r: Result<map<PoolKey, nat>>)
      ensures r == Amounts(Tables(), binding, actual)
    {
      match actual
      case NoActual => return Ok(map[]);
      case ByKey(items) =>
        if !Readable(items) {
          return Err(if items == [] then BudgetUnknown else InvalidRequest);
        }
        if exists i :: 0 <= i < |items| && !OwnsKey(rows, binding, items[i].key) {
          return Err(InvalidRequest);
        }
        return Ok(ItemAmounts(items));
      case ByPool(amounts) =>
        if exists pool :: pool in amounts && !OwnsPool(rows, binding, pool) {
          return Err(InvalidRequest);
        }
        if exists pool :: pool in amounts && !(0 <= amounts[pool] <= MAX_INT) {
          return Err(InvalidRequest);
        }
        var result: map<PoolKey, nat> := map[];
        for i := 0 to |rows|
          invariant result == PoolAmounts(rows[..i], binding, amounts)
        {
          assert rows[..i + 1][..i] == rows[..i];
          var key := rows[i].key;
          if rows[i].binding == binding && key.pool in amounts && amounts[key.pool] >= 0 {
            result := result[key := amounts[key.pool]];
          }
        }
        assert rows[..|rows|] == rows;
        return Ok(result);
    }

    method DoBindLegacy(action: nat, run: nat) returns (r: Result<nat>)
      modifies this`bindings
      ensures r.Ok? ==> r.value in old(bindings) && old(bindings)[r.value].action == Some(action)
                        && BindLegacy(old(Tables()), r.value, run) == Ok(Tables())
      ensures r.Err? ==> bindings == old(bindings)
      ensures r == Err(NotFound) <==> !exists id :: id in old(bindings) && old(bindings)[id].action == Some(action)
    {
      if id: nat :| id in bindings && bindings[id].action == Some(action) {
        var old_ := bindings[id];
        if old_.run.Some? && old_.run.value != run {
          return Err(BindingMismatch);
        }
        if old_.run == Some(run) {
          return Ok(id);
        }
        if exists other: nat :: other in bindings && bindings[other].run == Some(run) {
          return Err(BindingMismatch);
        }
        bindings := bindings[id := old_.(run := Some(run))];
        return Ok(id);
      }
      return Err(NotFound);
    }

    method RecordObservation(o: Observation) returns (r: Result<Entry>)
      modifies this`observations
      ensures match Record(old(observations), o)
              case Ok(pair) => r == Ok(pair.1) && observations == pair.0
              case Err(error) => r == Err(error) && observations == old(observations)
    {
      var stored := FindCursor(observations, o.key, o.cursor);
      if stored.Some? {
        if stored.value.observation != o {
          return Err(IdempotencyConflict);
        }
        return Ok(stored.value);
      }
      var previous := FindBaseline(observations, o.key);
      var entry := Derive(o, previous);
      observations := observations + [entry];
      return Ok(entry);
    }
  }

  lemma {:induction false} RefusedSweep(t: Table, n: nat, binding: nat, m: Motion, error: Error)
    requires n <= |t.rows| && Sweep(t, n, binding, m) == Err(error)
    ensures Sweep(t, |t.rows|, binding, m) == Err(error)
    decreases |t.rows| - n
  {
    if n < |t.rows| {
      RefusedSweep(t, n + 1, binding, m, error);
    }
  }
}
