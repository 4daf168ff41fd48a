/** The plugin store's snapshot validator, section by section in the order it reads the tables. */
module PoolValidator {
  import opened Wrappers
  import opened PoolLedger
  import opened PoolRuns
  import opened UsageLedger
  import opened PoolSnapshot

  // ---------------------------------------------------------------- plans

  ghost predicate PlansOf(plans: map<nat, Plan>, rows: seq<PlanRow>) {
    forall id, plan :: HasPlan(rows, id, plan) <==> id in plans && plans[id] == plan
  }

  lemma PlansStep(plans: map<nat, Plan>, rows: seq<PlanRow>, row: PlanRow)
    requires PlansSound(rows) && PlansOf(plans, rows)
    ensures PlansSound(rows + [row]) <==> PlanSound(row) && row.id !in plans
    ensures row.id !in plans ==> PlansOf(plans[row.id := row.item], rows + [row])
  {
    var all := rows + [row];
    assert all[|rows|] == row;
    if row.id in plans {
      assert HasPlan(rows, row.id, plans[row.id]);
      var i :| 0 <= i < |rows| && rows[i].id == row.id;
      assert all[i].id == row.id;
    } else {
      forall i | 0 <= i < |rows| ensures rows[i].id != row.id {
        assert HasPlan(rows, rows[i].id, rows[i].item);
      }
      var next := plans[row.id := row.item];
      forall id, plan ensures HasPlan(all, id, plan) <==> id in next && next[id] == plan {
        if HasPlan(rows, id, plan) {
          var i :| 0 <= i < |rows| && rows[i].id == id && rows[i].item == plan;
          assert all[i] == rows[i];
        }
      }
    }
  }

  lemma PlansPrefix(rows: seq<PlanRow>, n: nat)
    requires n <= |rows|
    ensures PlansSound(rows) ==>
              PlansSound(rows[..n])
  {
  }

  method CheckPlans(rows: seq<PlanRow>) returns (ok: bool, plans: map<nat, Plan>)
    ensures ok <==> PlansSound(rows)
    ensures ok ==> PlansOf(plans, rows)
  {
    ok, plans := true, map[];
    for i := 0 to |rows|
      invariant PlansSound(rows[..i]) && PlansOf(plans, rows[..i])
    {
      var row := rows[i];
      assert rows[..i + 1] == rows[..i] + [row];
      PlansStep(plans, rows[..i], row);
      if row.itemId != row.id || row.item.principal != row.principal || row.digest != row.item
         || !Readable(row.item.items) || row.id in plans
      {
        PlansPrefix(rows, i + 1);
        return false, plans;
      }
      plans := plans[row.id := row.item];
    }
    assert rows[..|rows|] == rows;
  }

  // ---------------------------------------------------------------- bindings

  /** What has been seen of the bindings so far. */
  datatype Seen = Seen(grants: map<nat, Binding>, plans: set<nat>, runs: set<nat>, actions: set<nat>)

  ghost predicate SeenOf(seen: Seen, rows: seq<BindingRow>) {
    && (forall id, g :: HasGrant(rows, id, g) <==> id in seen.grants && seen.grants[id] == g)
    && (forall p :: p in seen.plans <==> exists i :: 0 <= i < |rows| && rows[i].item.plan == p)
    && (forall r :: r in seen.runs <==> exists i :: 0 <= i < |rows| && rows[i].item.run == Some(r))
    && (forall a :: a in seen.actions <==> exists i :: 0 <= i < |rows| && rows[i].item.action == Some(a))
  }

  predicate Unseen(seen: Seen, row: BindingRow) {
    && row.id !in seen.grants && row.item.plan !in seen.plans
    && (row.item.run.Some? ==> row.item.run.value !in seen.runs)
    && (row.item.action.Some? ==> row.item.action.value !in seen.actions)
  }

  function Add(seen: Seen, row: BindingRow): Seen {
    Seen(seen.grants[row.id := row.item], seen.plans + {row.item.plan},
         if row.item.run.Some? then seen.runs + {row.item.run.value} else seen.runs,
         if row.item.action.Some? then seen.actions + {row.item.action.value} else seen.actions)
  }

  lemma UnseenIsApart(seen: Seen, rows: seq<BindingRow>, row: BindingRow)
    requires SeenOf(seen, rows)
    ensures Unseen(seen, row) <==> forall i :: 0 <= i < |rows| ==> BindingsApart(rows[i], row)
  {
    if Unseen(seen, row) {
      forall i | 0 <= i < |rows| ensures BindingsApart(rows[i], row) {
        assert HasGrant(rows, rows[i].id, rows[i].item);
        assert rows[i].item.plan in seen.plans;
        assert rows[i].item.run.Some? ==> rows[i].item.run.value in seen.runs;
        assert rows[i].item.action.Some? ==> rows[i].item.action.value in seen.actions;
      }
    } else if row.id in seen.grants {
      assert HasGrant(rows, row.id, seen.grants[row.id]);
    }
  }

  lemma SeenGrants(seen: Seen, rows: seq<BindingRow>, row: BindingRow, id: nat, g: Binding)
    requires SeenOf(seen, rows) && row.id !in seen.grants
    ensures HasGrant(rows + [row], id, g) <==> id in Add(seen, row).grants && Add(seen, row).grants[id] == g
  {
    var all := rows + [row];
    assert all[|rows|] == row;
    if HasGrant(rows, id, g) {
      var i :| 0 <= i < |rows| && rows[i].id == id && rows[i].item == g;
      assert all[i] == rows[i];
    }
  }

  lemma SeenStep(seen: Seen, rows: seq<BindingRow>, row: BindingRow)
    requires SeenOf(seen, rows) && row.id !in seen.grants
    ensures SeenOf(Add(seen, row), rows + [row])
  {
    var all, next := rows + [row], Add(seen, row);
    assert all[|rows|] == row;
    assert forall i :: 0 <= i < |rows| ==> all[i] == rows[i];
    forall id, g ensures HasGrant(all, id, g) <==> id in next.grants && next.grants[id] == g {
      SeenGrants(seen, rows, row, id, g);
    }
  }

  lemma BindingsStep(plans: seq<PlanRow>, outer: Outer, rows: seq<BindingRow>, row: BindingRow)
    requires BindingsSound(plans, outer, rows)
    ensures BindingsSound(plans, outer, rows + [row])
            <==> BindingSound(plans, outer, row) && forall i :: 0 <= i < |rows| ==> BindingsApart(rows[i], row)
  {
    var all := rows + [row];
    assert all[|rows|] == row;
    if BindingsSound(plans, outer, all) {
      forall i | 0 <= i < |rows| ensures BindingsApart(rows[i], row) {
        assert BindingsApart(all[i], all[|rows|]);
      }
    }
  }

  lemma BindingsPrefix(plans: seq<PlanRow>, outer: Outer, rows: seq<BindingRow>, n: nat)
    requires n <= |rows|
    ensures BindingsSound(plans, outer, rows) ==>
              BindingsSound(plans, outer, rows[..n])
  {
  }

  method CheckBinding(planRows: seq<PlanRow>, plans: map<nat, Plan>, outer: Outer, row: BindingRow) returns (ok: bool)
    requires PlansOf(plans, planRows)
    ensures ok <==> BindingSound(planRows, outer, row)
  {
    if row.itemId != row.id || row.item != row.columns || (row.item.run.None? && row.item.action.None?) {
      return false;
    }
    if row.item.plan !in plans || plans[row.item.plan].principal != row.item.principal {
      return false;
    }
    assert HasPlan(planRows, row.item.plan, plans[row.item.plan]);
    if row.item.run.Some? && outer.runs.Some? && row.item.run.value !in outer.runs.value {
      return false;
    }
    if row.item.action.Some? && outer.actions.Some? && row.item.action.value !in outer.actions.value {
      return false;
    }
    return true;
  }

  method CheckBindings(planRows: seq<PlanRow>, plans: map<nat, Plan>, outer: Outer, rows: seq<BindingRow>)
    returns (ok: bool, seen: Seen)
    requires PlansOf(plans, planRows)
    ensures ok <==> BindingsSound(planRows, outer, rows)
    ensures ok ==> SeenOf(seen, rows)
  {
    ok, seen := true, Seen(map[], {}, {}, {});
    for i := 0 to |rows|
      invariant BindingsSound(planRows, outer, rows[..i]) && SeenOf(seen, rows[..i])
    {
      var row := rows[i];
      var sound := CheckBinding(planRows, plans, outer, row);
      assert rows[..i + 1] == rows[..i] + [row];
      BindingsStep(planRows, outer, rows[..i], row);
      UnseenIsApart(seen, rows[..i], row);
      if !sound || !Unseen(seen, row) {
        BindingsPrefix(planRows, outer, rows, i + 1);
        return false, seen;
      }
      SeenStep(seen, rows[..i], row);
      seen := Add(seen, row);
    }
    assert rows[..|rows|] == rows;
  }

  // ---------------------------------------------------------------- reservations

  ghost predicate Lookups(d: Dump, plans: map<nat, Plan>, seen: Seen) {
    PlansOf(plans, d.plans) && SeenOf(seen, d.bindings)
  }

  predicate AmountPlanned(plans: map<nat, Plan>, grants: map<nat, Binding>, r: Reservation) {
    && r.binding in grants && grants[r.binding].plan in plans
    && AmountIn(plans[grants[r.binding].plan].items, r.key) == Some(r.reserved)
  }

  lemma PlannedLookup(d: Dump, plans: map<nat, Plan>, seen: Seen, r: Reservation)
    requires Lookups(d, plans, seen)
    ensures (exists g, plan :: PlannedFor(d, r, g, plan)) <==> AmountPlanned(plans, seen.grants, r)
  {
    if AmountPlanned(plans, seen.grants, r) {
      var g := seen.grants[r.binding];
      assert HasGrant(d.bindings, r.binding, g) && HasPlan(d.plans, g.plan, plans[g.plan]);
      assert PlannedFor(d, r, g, plans[g.plan]);
    }
    if g, plan :| PlannedFor(d, r, g, plan) {
      assert HasGrant(d.bindings, r.binding, g) && HasPlan(d.plans, g.plan, plan);
    }
  }

  method CheckReservation(d: Dump, plans: map<nat, Plan>, seen: Seen, row: ResRow) returns (ok: bool)
    requires Lookups(d, plans, seen)
    ensures ok <==> ReservationSound(d, row)
  {
    PlannedLookup(d, plans, seen, row.item);
    ok := ColumnsAgree(row) && StatusSound(row.item) && AmountPlanned(plans, seen.grants, row.item);
  }

  ghost predicate RowsSound(d: Dump, rows: seq<ResRow>) {
    && (forall i :: 0 <= i < |rows| ==> ReservationSound(d, rows[i]))
    && (forall i, j :: 0 <= i < j < |rows| ==> ReservationsApart(rows[i], rows[j]))
  }

  ghost predicate KeysOf(ids: set<nat>, keys: set<(nat, PoolKey)>, rows: seq<ResRow>) {
    && (forall id :: id in ids <==> HasReservation(rows, id))
    && (forall binding: nat, key :: (binding, key) in keys <==> OwnsKey(Items(rows), binding, key))
  }

  lemma KeysStep(ids: set<nat>, keys: set<(nat, PoolKey)>, rows: seq<ResRow>, row: ResRow)
    requires KeysOf(ids, keys, rows)
    ensures KeysOf(ids + {row.item.id}, keys + {(row.item.binding, row.item.key)}, rows + [row])
    ensures row.item.id !in ids && (row.item.binding, row.item.key) !in keys <==>
              forall i :: 0 <= i < |rows| ==> ReservationsApart(rows[i], row)
  {
    var all := rows + [row];
    assert all[|rows|] == row && Items(all) == Items(rows) + [row.item];
    forall id ensures HasReservation(all, id) <==> HasReservation(rows, id) || id == row.item.id {
      if HasReservation(rows, id) {
        var i :| 0 <= i < |rows| && rows[i].item.id == id;
        assert all[i].item.id == id;
      }
    }
    forall binding: nat, key
      ensures OwnsKey(Items(all), binding, key) <==>
                OwnsKey(Items(rows), binding, key) || (binding == row.item.binding && key == row.item.key)
    {
      if OwnsKey(Items(rows), binding, key) {
        OwnsMore(Items(rows), [row.item], binding, key);
      }
      if binding == row.item.binding && key == row.item.key {
        assert Items(all)[|rows|] == row.item;
      }
    }
    if row.item.id !in ids && (row.item.binding, row.item.key) !in keys {
      forall i | 0 <= i < |rows| ensures ReservationsApart(rows[i], row) {
        assert HasReservation(rows, rows[i].item.id);
        assert Items(rows)[i] == rows[i].item;
      }
    }
  }

  lemma RowsStep(d: Dump, rows: seq<ResRow>, row: ResRow)
    requires RowsSound(d, rows)
    ensures RowsSound(d, rows + [row])
            <==> ReservationSound(d, row) && forall i :: 0 <= i < |rows| ==> ReservationsApart(rows[i], row)
  {
    var all := rows + [row];
    assert all[|rows|] == row;
    if RowsSound(d, all) {
      forall i | 0 <= i < |rows| ensures ReservationsApart(rows[i], row) {
        assert ReservationsApart(all[i], all[|rows|]);
      }
    }
  }

  lemma RowsPrefix(d: Dump, rows: seq<ResRow>, n: nat)
    requires n <= |rows|
    ensures RowsSound(d, rows) ==>
              RowsSound(d, rows[..n])
  {
  }

  method CheckReservations(d: Dump, plans: map<nat, Plan>, seen: Seen)
    returns (ok: bool, ids: set<nat>, keys: set<(nat, PoolKey)>)
    requires Lookups(d, plans, seen)
    ensures ok <==> ReservationsSound(d)
    ensures ok ==> KeysOf(ids, keys, d.rows)
  {
    ok, ids, keys := true, {}, {};
    for i := 0 to |d.rows|
      invariant RowsSound(d, d.rows[..i]) && KeysOf(ids, keys, d.rows[..i])
    {
      var row := d.rows[i];
      var sound := CheckReservation(d, plans, seen, row);
      assert d.rows[..i + 1] == d.rows[..i] + [row];
      RowsStep(d, d.rows[..i], row);
      KeysStep(ids, keys, d.rows[..i], row);
      if !sound || row.item.id in ids || (row.item.binding, row.item.key) in keys {
        RowsPrefix(d, d.rows, i + 1);
        return false, ids, keys;
      }
      ids := ids + {row.item.id};
      keys := keys + {(row.item.binding, row.item.key)};
    }
    assert d.rows[..|d.rows|] == d.rows;
  }

  /** One binding: its plan's amounts against what is reserved for it. */
  method CheckPlanReserved(d: Dump, plans: map<nat, Plan>, keys: set<(nat, PoolKey)>, ids: set<nat>, row: BindingRow)
    returns (ok: bool)
    requires PlansOf(plans, d.plans) && KeysOf(ids, keys, d.rows) && row.item.plan in plans
    ensures ok <==> PlanReserved(d, row)
  {
    var items := plans[row.item.plan].items;
    assert HasPlan(d.plans, row.item.plan, plans[row.item.plan]);
    ok := forall i :: 0 <= i < |items| ==> (row.id, items[i].key) in keys;
  }

  method CheckAllReserved(d: Dump, outer: Outer, plans: map<nat, Plan>, keys: set<(nat, PoolKey)>, ids: set<nat>)
    returns (ok: bool)
    requires PlansOf(plans, d.plans) && KeysOf(ids, keys, d.rows) && BindingsSound(d.plans, outer, d.bindings)
    ensures ok <==> forall i :: 0 <= i < |d.bindings| ==> PlanReserved(d, d.bindings[i])
  {
    for i := 0 to |d.bindings|
      invariant forall k :: 0 <= k < i ==> PlanReserved(d, d.bindings[k])
    {
      assert BindingSound(d.plans, outer, d.bindings[i]);
      var sound := CheckPlanReserved(d, plans, keys, ids, d.bindings[i]);
      if !sound {
        return false;
      }
    }
    return true;
  }

  // ---------------------------------------------------------------- histories

  /** The change table's running histories. */
  ghost predicate HistoriesOf(histories: map<nat, seq<ChangeRow>>, changes: seq<ChangeRow>) {
    forall id :: HistoryRows(changes, id) == if id in histories then histories[id] else []
  }

  lemma LinksPrefix(h: seq<ChangeRow>, n: nat)
    requires n <= |h| && LinksSound(h)
    ensures LinksSound(h[..n])
  {
    forall i | 0 <= i < n ensures LinkSound(h[..n], i) {
      assert LinkSound(h, i);
    }
  }

  lemma LinksStep(h: seq<ChangeRow>, row: ChangeRow)
    requires LinksSound(h)
    ensures LinksSound(h + [row]) <==> LinkSound(h + [row], |h|)
  {
    forall i | 0 <= i < |h| ensures LinkSound(h + [row], i) {
      assert LinkSound(h, i);
    }
  }

  lemma {:induction false} HistoryRowsPrefix(changes: seq<ChangeRow>, n: nat, id: nat)
    requires n <= |changes|
    ensures HistoryRows(changes[..n], id) <= HistoryRows(changes, id)
    decreases |changes|
  {
    if n == |changes| {
      assert changes[..n] == changes;
    } else {
      var front := changes[..|changes| - 1];
      assert front[..n] == changes[..n];
      HistoryRowsPrefix(front, n, id);
    }
  }

  /** A sound history is sound up to any of its rows. */
  lemma SoundLinks(changes: seq<ChangeRow>, n: nat, id: nat, r: Reservation)
    requires n <= |changes| && HistorySound(HistoryRows(changes, id), r)
    ensures LinksSound(HistoryRows(changes[..n], id))
  {
    var h := HistoryRows(changes, id);
    HistoryRowsPrefix(changes, n, id);
    var k := |HistoryRows(changes[..n], id)|;
    assert HistoryRows(changes[..n], id) == h[..k];
    assert LinksSound(h);
    LinksPrefix(h, k);
  }

  /** A broken link spoils its reservation's history for good. */
  lemma BrokenLink(rows: seq<ResRow>, changes: seq<ChangeRow>, n: nat)
    requires 0 < n <= |changes|
    ensures HistoriesSound(rows, changes) ==>
              && LinksSound(HistoryRows(changes[..n], changes[n - 1].reservation))
              && HasReservation(rows, changes[n - 1].reservation)
  {
    if HistoriesSound(rows, changes) {
      var id := changes[n - 1].reservation;
      assert HasReservation(rows, id);
      var i :| 0 <= i < |rows| && rows[i].item.id == id;
      SoundLinks(changes, n, id, rows[i].item);
    }
  }

  /** One change row against the end of its history so far. */
  predicate FollowsOn(h: seq<ChangeRow>, row: ChangeRow) {
    LinkSound(h + [row], |h|)
  }

  /** Every change row was filed under its reservation, and every link held. */
  ghost predicate Filed(histories: map<nat, seq<ChangeRow>>, changes: seq<ChangeRow>) {
    HistoriesOf(histories, changes) && forall id :: id in histories ==> LinksSound(histories[id])
  }

  lemma FiledStep(histories: map<nat, seq<ChangeRow>>, changes: seq<ChangeRow>, i: nat, h: seq<ChangeRow>)
    requires i < |changes| && Filed(histories, changes[..i])
    requires h == if changes[i].reservation in histories then histories[changes[i].reservation] else []
    ensures HistoryRows(changes[..i + 1], changes[i].reservation) == h + [changes[i]]
    ensures FollowsOn(h, changes[i]) <==> LinksSound(h + [changes[i]])
    ensures FollowsOn(h, changes[i]) ==>
              Filed(histories[changes[i].reservation := h + [changes[i]]], changes[..i + 1])
  {
    assert changes[..i + 1][..i] == changes[..i];
    LinksStep(h, changes[i]);
  }

  /** One change row: it continues a reserved history, or the dump is unsound. */
  method CheckChange(rows: seq<ResRow>, ids: set<nat>, changes: seq<ChangeRow>, i: nat,
                     before: map<nat, seq<ChangeRow>>)
    returns (ok: bool, histories: map<nat, seq<ChangeRow>>)
    requires i < |changes| && Filed(before, changes[..i])
    requires changes[i].reservation in ids <==> HasReservation(rows, changes[i].reservation)
    ensures ok ==> Filed(histories, changes[..i + 1]) && HasReservation(rows, changes[i].reservation)
    ensures !ok ==> !HistoriesSound(rows, changes)
  {
    histories := before;
    var row := changes[i];
    if row.reservation !in ids {
      return false, histories;
    }
    var h := if row.reservation in histories then histories[row.reservation] else [];
    FiledStep(before, changes, i, h);
    if !FollowsOn(h, row) {
      BrokenLink(rows, changes, i + 1);
      return false, histories;
    }
    return true, histories[row.reservation := h + [row]];
  }

  method CheckChanges(rows: seq<ResRow>, ids: set<nat>, changes: seq<ChangeRow>)
    returns (ok: bool, histories: map<nat, seq<ChangeRow>>)
    requires forall id :: id in ids <==> HasReservation(rows, id)
    ensures ok ==> Filed(histories, changes)
    ensures ok ==> forall i :: 0 <= i < |changes| ==> HasReservation(rows, changes[i].reservation)
    ensures !ok ==> !HistoriesSound(rows, changes)
  {
    ok, histories := true, map[];
    for i := 0 to |changes|
      invariant Filed(histories, changes[..i])
      invariant forall k :: 0 <= k < i ==> HasReservation(rows, changes[k].reservation)
    {
      ok, histories := CheckChange(rows, ids, changes, i, histories);
      if !ok {
        return;
      }
    }
    assert changes[..|changes|] == changes;
    ok := true;
  }

  method CheckEnd(h: seq<ChangeRow>, r: Reservation) returns (ok: bool)
    requires LinksSound(h)
    ensures ok <==> HistorySound(h, r)
  {
    if h == [] || h[0].item.status != Held || h[0].item.actual != None {
      return false;
    }
    for i := 0 to |h|
      invariant forall k :: 0 <= k < i ==> h[k].item.reserved == r.reserved
    {
      if h[i].item.reserved != r.reserved {
        return false;
      }
    }
    var last := h[|h| - 1].item;
    return last.status == r.status && last.actual == r.actual && last.source == r.source && last.evidence == r.evidence;
  }

  method CheckHistory(changes: seq<ChangeRow>, histories: map<nat, seq<ChangeRow>>, row: ResRow) returns (ok: bool)
    requires Filed(histories, changes)
    ensures ok <==> EndSound(row, changes)
  {
    var r := row.item;
    assert HistoryRows(changes, r.id) == if r.id in histories then histories[r.id] else [];
    if r.id !in histories {
      return false;
    }
    ok := CheckEnd(histories[r.id], r);
  }

  predicate EndSound(row: ResRow, changes: seq<ChangeRow>) {
    HistorySound(HistoryRows(changes, row.item.id), row.item)
  }

  predicate EndsSound(rows: seq<ResRow>, changes: seq<ChangeRow>) {
    forall i :: 0 <= i < |rows| ==> EndSound(rows[i], changes)
  }

  /** The first reservation whose history does not end where the reservation is. */
  method FirstUnsound(rows: seq<ResRow>, changes: seq<ChangeRow>, histories: map<nat, seq<ChangeRow>>) returns (n: nat)
    requires Filed(histories, changes)
    ensures n <= |rows| && (n < |rows| ==> !EndSound(rows[n], changes))
    ensures forall k :: 0 <= k < n ==> EndSound(rows[k], changes)
  {
    n := 0;
    while n < |rows|
      invariant n <= |rows| && forall k :: 0 <= k < n ==> EndSound(rows[k], changes)
    {
      var sound := CheckHistory(changes, histories, rows[n]);
      if !sound {
        break;
      }
      n := n + 1;
    }
  }

  method CheckHistories(rows: seq<ResRow>, ids: set<nat>, changes: seq<ChangeRow>) returns (ok: bool)
    requires forall id :: id in ids <==> HasReservation(rows, id)
    ensures ok <==> HistoriesSound(rows, changes)
  {
    var sound, histories := CheckChanges(rows, ids, changes);
    if !sound {
      return false;
    }
    var n := FirstUnsound(rows, changes, histories);
    ok := n == |rows|;
    assert ok <==> EndsSound(rows, changes);
  }

  // ---------------------------------------------------------------- the whole dump

  /** `validate_snapshot`: it accepts exactly the sound dumps. */
  method Validate(d: Dump, outer: Outer) returns (ok: bool)
    ensures ok <==> SnapshotOk(d, outer)
  {
    var plansOk, plans := CheckPlans(d.plans);
    if !plansOk {
      return false;
    }
    var bindingsOk, seen := CheckBindings(d.plans, plans, outer, d.bindings);
    if !bindingsOk {
      return false;
    }
    var rowsOk, ids, keys := CheckReservations(d, plans, seen);
    if !rowsOk {
      return false;
    }
    var reservedOk := CheckAllReserved(d, outer, plans, keys, ids);
    if !reservedOk {
      return false;
    }
    var historiesOk := CheckHistories(d.rows, ids, d.changes);
    if !historiesOk {
      return false;
    }
    ok := ValidateLog(d.observations);
  }
}
