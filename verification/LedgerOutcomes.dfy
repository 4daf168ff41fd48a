/** Exactly when the control store's ledger accepts a reservation, a settlement or an uncertainty mark, and
    what it stores then. */
module LedgerOutcomes {
  import opened Wrappers
  import opened ControlLedger

  /** The budget carries every requested amount on top of what is settled and held. */
  predicate Carries(l: Ledger, budget: nat, limits: Amounts, entries: seq<Entry>) {
    forall i :: 0 <= i < |entries| ==>
      entries[i].key in limits && Used(l, budget, entries[i].key) + entries[i].amount <= limits[entries[i].key]
  }

  lemma {:induction false} RefusedExactly(l: Ledger, budget: nat, limits: Amounts, entries: seq<Entry>)
    ensures Refusal(l, budget, limits, entries) == None <==> Carries(l, budget, limits, entries)
    decreases |entries|
  {
    if entries != [] {
      var rest := entries[1..];
      RefusedExactly(l, budget, limits, rest);
      assert entries == [entries[0]] + rest;
      assert Carries(l, budget, limits, entries) <==>
             Carries(l, budget, limits, [entries[0]]) && Carries(l, budget, limits, rest) by {
        if Carries(l, budget, limits, entries) {
          assert forall i :: 0 <= i < |rest| ==> rest[i] == entries[i + 1];
        }
        if Carries(l, budget, limits, [entries[0]]) && Carries(l, budget, limits, rest) {
          forall i | 0 <= i < |entries|
            ensures entries[i].key in limits && Used(l, budget, entries[i].key) + entries[i].amount <= limits[entries[i].key]
          {
            assert i > 0 ==> entries[i] == rest[i - 1];
            assert i == 0 ==> entries[i] == [entries[0]][0];
          }
        }
      }
    }
  }

  /** A reservation nobody made before: it must be well formed, for the budget's own Task, and every amount must
      fit what the budget has left. */
  predicate Reservable(l: Ledger, request: Reservation) {
    && WellFormed(request.reserved) && request.reserved != [] && request.status == Held && request.actual == None
    && request.budget in l.budgets && l.budgets[request.budget].task == request.task
    && WellFormed(l.budgets[request.budget].limits)
    && Carries(l, request.budget, Read(l.budgets[request.budget].limits), request.reserved)
  }

  lemma ReadEmpty(entries: seq<Entry>)
    requires WellFormed(entries)
    ensures Read(entries) == map[] <==> entries == []
  {
    ParseExact(entries);
    if entries != [] {
      assert Lists(entries, entries[0].key);
    }
  }

  lemma InsertedExactly(l: Ledger, id: nat, request: Reservation)
    requires request.budget in l.budgets && WellFormed(request.reserved)
    ensures var b := l.budgets[request.budget];
            ReserveNew(l, id, request).Ok? <==>
              && b.task == request.task && WellFormed(b.limits)
              && Carries(l, request.budget, Read(b.limits), request.reserved)
  {
    var limits := l.budgets[request.budget].limits;
    ParseExact(limits);
    if WellFormed(limits) {
      RefusedExactly(l, request.budget, Read(limits), request.reserved);
    }
  }

  /** A new reservation is accepted exactly then, and stored as requested. */
  lemma ReservedExactly(l: Ledger, id: nat, request: Reservation)
    requires Matching(l.rows, id, request.budget, request.action) == []
    ensures Reserve(l, id, request).Ok? <==> Reservable(l, request)
    ensures Reserve(l, id, request).Ok? ==>
              Reserve(l, id, request).value
              == (Ledger(l.budgets, l.reservations[id := request], l.rows + [Row(id, request.budget, request.action)]), request)
  {
    ParseExact(request.reserved);
    if WellFormed(request.reserved) {
      ReadEmpty(request.reserved);
    }
    if request.budget in l.budgets && WellFormed(request.reserved) {
      InsertedExactly(l, id, request);
    }
  }

  /** A settlement is accepted exactly for an open reservation whose keys it stays within, or as a repetition with
      equal amounts. */
  predicate Settleable(l: Ledger, id: nat, actual: seq<Entry>) {
    && WellFormed(actual) && id in l.reservations
    && var r := l.reservations[id];
       match r.status
       case Settled => Read(Counted(r)) == Read(actual)
       case Released => false
       case _ => forall key :: key in Read(actual) ==> key in Read(r.reserved)
  }

  lemma {:induction false} DedupMembers(ids: seq<nat>, id: nat)
    ensures id in Dedup(ids) <==> id in ids
  {
    if ids != [] {
      DedupMembers(ids[..|ids| - 1], id);
      assert ids == ids[..|ids| - 1] + [ids[|ids| - 1]];
    }
  }

  /** It stores the amounts as reported, with its receipts, and nothing else; a repetition stores nothing. */
  lemma SettledExactly(l: Ledger, id: nat, actual: seq<Entry>, receipts: seq<nat>)
    ensures Settle(l, id, actual, receipts).Ok? <==> Settleable(l, id, actual)
    ensures Settleable(l, id, actual) ==>
              var next, r := Settle(l, id, actual, receipts).value, l.reservations[id];
              if r.status == Settled then next == l
              else
                && next.budgets == l.budgets && next.rows == l.rows && id in next.reservations
                && next.reservations - {id} == l.reservations - {id}
                && var z := next.reservations[id];
                   && z.status == Settled && z.actual == Some(actual) && z.revision == r.revision + 1
                   && z.task == r.task && z.budget == r.budget && z.action == r.action && z.reserved == r.reserved
                   && forall x :: x in z.receipts <==> x in receipts
  {
    ParseExact(actual);
    forall x ensures x in Dedup(receipts) <==> x in receipts {
      DedupMembers(receipts, x);
    }
  }

  /** A mark is accepted exactly for an open reservation, and changes its status alone. */
  lemma MarkedExactly(l: Ledger, id: nat)
    ensures MarkUncertain(l, id).Ok? <==> id in l.reservations && l.reservations[id].status in {Held, Uncertain}
    ensures MarkUncertain(l, id).Ok? ==>
              var next, r := MarkUncertain(l, id).value, l.reservations[id];
              next == if r.status == Uncertain then l
                      else l.(reservations := l.reservations[id := r.(status := Uncertain, revision := r.revision + 1)])
  {
  }

  /** A reservation that is known by its own number or by its Action is answered, unchanged, exactly if the request
      is well formed and claims the same: Task, budget, Action and every amount. */
  lemma RepeatedExactly(l: Ledger, id: nat, request: Reservation, known: nat)
    requires Matching(l.rows, id, request.budget, request.action) == [known] && known in l.reservations
    ensures var old_ := l.reservations[known];
            Reserve(l, id, request).Ok?
            <==> && WellFormed(request.reserved) && request.reserved != [] && request.status == Held && request.actual == None
                 && old_.task == request.task && old_.budget == request.budget && old_.action == request.action
                 && Read(old_.reserved) == Read(request.reserved)
    ensures Reserve(l, id, request).Ok? ==> Reserve(l, id, request).value == (l, l.reservations[known])
  {
    ParseExact(request.reserved);
    if WellFormed(request.reserved) {
      ReadEmpty(request.reserved);
    }
  }

  /** What a reservation counts for, by where it stands: what was settled, what is held, or nothing. */
  lemma CountsExactly(r: Reservation, key: Key)
    ensures r.status in {Held, Uncertain} ==> Portion(r, false, key) == Get(Read(r.reserved), key) && Portion(r, true, key) == 0
    ensures r.status == Settled && r.actual.Some? ==>
              Portion(r, true, key) == Get(Read(r.actual.value), key) && Portion(r, false, key) == 0
    ensures r.status == Released ==> Portion(r, true, key) == 0 && Portion(r, false, key) == 0
  {
    assert r.status == Settled && r.actual.Some? ==> Counted(r) == r.actual.value;
  }
}
