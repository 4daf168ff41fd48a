/** Dispatch, approval forwarding and restart over all runs. Every write to the store is its own
    method, because a crash may fall between any two of them. */
module Dispatch {
  import opened Wrappers
  import opened Collections
  import opened RunRecords

  /** Stored runs, the scheduler, the background workers, where each dispatch stands, and what the
      backends have really been asked. */
  datatype World = World(runs: map<nat, Run>, inflight: set<nat>, queue: seq<nat>, workers: set<nat>,
                         retained: map<nat, Retained>, stages: map<nat, Stage>, forwarding: map<nat, nat>,
                         calls: map<nat, nat>, sent: map<nat, multiset<nat>>, epoch: nat)

  function StageOf(w: World, r: nat): Stage {
    if r in w.stages then w.stages[r] else Idle
  }

  function CellOf(w: World, r: nat): Cell
    requires r in w.runs
  {
    Cell(w.runs[r], r in w.inflight, r in w.queue, if r in w.retained then Some(w.retained[r]) else None,
         r in w.workers, StageOf(w, r), if r in w.forwarding then Some(w.forwarding[r]) else None, w.epoch,
         if r in w.calls then w.calls[r] else 0, if r in w.sent then w.sent[r] else multiset{})
  }

  /** `scheduler.remove`. */
  function Without(queue: seq<nat>, r: nat): seq<nat> {
    if queue == [] then []
    else Without(queue[..|queue| - 1], r) + if queue[|queue| - 1] == r then [] else [queue[|queue| - 1]]
  }

  lemma {:induction false} WithoutExact(queue: seq<nat>, r: nat, q: nat)
    ensures q in Without(queue, r) <==> q in queue && q != r
  {
    if queue != [] {
      WithoutExact(queue[..|queue| - 1], r, q);
      assert queue == queue[..|queue| - 1] + [queue[|queue| - 1]];
    }
  }

  /** Only run `r` differs, and it is now `d`. */
  ghost predicate Only(before: World, after: World, r: nat, d: Cell)
    requires r in before.runs
  {
    && after.runs.Keys == before.runs.Keys && after.epoch == before.epoch
    && CellOf(after, r) == d
    && forall q :: q in before.runs && q != r ==> CellOf(after, q) == CellOf(before, q)
  }

  class Dispatcher {
    var runs: map<nat, Run>
    var inflight: set<nat>
    var queue: seq<nat>
    var workers: set<nat>
    var retained: map<nat, Retained>
    ghost var stages: map<nat, Stage>
    ghost var forwarding: map<nat, nat>
    ghost var calls: map<nat, nat>
    ghost var sent: map<nat, multiset<nat>>
    var epoch: nat

    constructor (stored: map<nat, Run>)
      ensures runs == stored && queue == [] && inflight == {} && workers == {}
    {
      runs, inflight, queue, workers, retained := stored, {}, [], {}, map[];
      stages, forwarding, calls, sent, epoch := map[], map[], map[], map[], 0;
    }

    ghost function Now(): World
      reads this
    {
      World(runs, inflight, queue, workers, retained, stages, forwarding, calls, sent, epoch)
    }

    method RemoveQueued(r: nat)
      modifies this`queue
      ensures queue == Without(old(queue), r)
    {
      var kept: seq<nat> := [];
      for i := 0 to |queue|
        invariant kept == Without(queue[..i], r)
      {
        assert queue[..i + 1][..i] == queue[..i];
        if queue[i] != r {
          kept := kept + [queue[i]];
        }
      }
      assert queue[..|queue|] == queue;
      queue := kept;
    }

    method ProjectSlot(r: nat)
      requires r in runs
      modifies this`inflight
      ensures inflight == if SlotHeld(runs[r]) then old(inflight) + {r} else old(inflight) - {r}
    {
      if SlotHeld(runs[r]) {
        inflight := inflight + {r};
      } else {
        inflight := inflight - {r};
      }
    }

    // -------------------------------------------------------------- one dispatch

    /** First write: the run is marked DISPATCHING and takes its slot; a run that is no queued intent
        is refused untouched. */
    method MarkDispatching(r: nat) returns (ok: bool)
      requires r in runs && StageOf(Now(), r) == Idle
      modifies this`runs, this`queue, this`stages
      ensures ok <==> Dispatchable(old(runs)[r])
      ensures ok ==> Only(old(Now()), Now(), r, Next(old(CellOf(Now(), r)), BeginDispatch))
      ensures !ok ==> Now() == old(Now())
    {
      var run := runs[r];
      if run.op != Some(Intended) || run.status != Queued || run.cancelRequested {
        return false;
      }
      ghost var before := queue;
      forall q ensures q in Without(before, r) <==> q in before && q != r {
        WithoutExact(before, r, q);
      }
      RemoveQueued(r);
      run := run.(held := Some(true), released := false);
      run := run.(status := Dispatching);
      runs := runs[r := run];
      stages := stages[r := Marked];
      return true;
    }

    /** Second write: the operation is persisted as DISPATCHED before anything is sent. */
    method CommitDispatched(r: nat)
      requires r in runs && StageOf(Now(), r) == Marked
      modifies this`runs, this`inflight, this`stages
      ensures Only(old(Now()), Now(), r, Next(old(CellOf(Now(), r)), CommitDispatch))
    {
      CommittedOnly(Now(), r);
      runs := runs[r := runs[r].(op := Some(Dispatched))];
      stages := stages[r := Committed];
      ProjectSlot(r);
    }

    /** The call itself, on a worker thread or in place. */
    method InvokeBackend(r: nat, background: bool)
      requires r in runs && StageOf(Now(), r) == Committed
      modifies this`workers, this`stages, this`calls
      ensures Only(old(Now()), Now(), r, Next(old(CellOf(Now(), r)), CallBackend(background)))
    {
      ghost var before := Now();
      calls := calls[r := (if r in calls then calls[r] else 0) + 1];
      if background {
        workers := workers + {r};
        stages := stages[r := Idle];
      } else {
        stages := stages[r := Calling(runs[r])];
      }
      InvokedCell(before, r, background);
      assert Now() == InvokedOf(before, r, background);
    }

    /** The three together: a queued intent is sent once, anything else is refused. */
    method DispatchCommitted(r: nat, background: bool) returns (ok: bool)
      requires r in runs && StageOf(Now(), r) == Idle
      modifies this
      ensures ok <==> Dispatchable(old(runs)[r])
      ensures ok ==> Only(old(Now()), Now(), r, Sent(old(CellOf(Now(), r)), background))
      ensures !ok ==> Now() == old(Now())
    {
      ok := MarkDispatching(r);
      if ok {
        CommitDispatched(r);
        InvokeBackend(r, background);
      }
    }

    /** A queued intent that failed its checks ends FAILED without any call. */
    method RefuseQueued1(r: nat)
      requires r in runs && StageOf(Now(), r) == Idle
      modifies this`runs, this`queue
      ensures Only(old(Now()), Now(), r, Next(old(CellOf(Now(), r)), RefuseQueued))
    {
      var run := runs[r];
      if run.op == Some(Intended) && !Terminal(run.status) {
        ghost var before := queue;
        forall q ensures q in Without(before, r) <==> q in before && q != r {
          WithoutExact(before, r, q);
        }
        RemoveQueued(r);
        runs := runs[r := run.(status := Failed, terminated := true, op := Some(OpFailed))];
      }
    }

    // -------------------------------------------------------------- the queue

    /** A run that is over or replaced leaves the queue. */
    method DropFromQueue(r: nat)
      requires r in runs && RunRecords.Closed(runs[r])
      modifies this`queue
      ensures Only(old(Now()), Now(), r, Next(old(CellOf(Now(), r)), DropQueued))
      ensures queue == Without(old(queue), r)
    {
      ghost var before := queue;
      forall q ensures q in Without(before, r) <==> q in before && q != r {
        WithoutExact(before, r, q);
      }
      RemoveQueued(r);
    }

    /** What `_drain_queue` does to one queued run, given what its checks and the scheduler answer. */
    method DrainOne(r: nat, allowed: bool, checks: bool)
      requires r in runs && StageOf(Now(), r) == Idle
      modifies this
      ensures Only(old(Now()), Now(), r, Drained(old(CellOf(Now(), r)), allowed, checks, true))
      ensures StageOf(Now(), r) == Idle
    {
      var run := runs[r];
      if Terminal(run.status) || !run.current {
        DropFromQueue(r);
        return;
      }
      if !allowed || run.op != Some(Intended) {
        return;
      }
      if checks && run.status == Queued && !run.cancelRequested {
        var ok := DispatchCommitted(r, true);
      } else {
        RefuseQueued1(r);
      }
    }

    /** `_drain_queue` with background workers: each run that was queued when the loop began gets its
        share of the pass, no other run is touched. */
    method DrainQueue(checks: map<nat, bool>, allowed: map<nat, bool>)
      requires forall r :: r in queue ==> r in runs && r in checks && r in allowed
      requires stages == map[] && NoRepeats(queue)
      modifies this
      ensures runs.Keys == old(runs.Keys)
      ensures forall r :: r in runs ==>
                CellOf(Now(), r) == if r in old(queue) then Drained(old(CellOf(Now(), r)), allowed[r], checks[r], true)
                                    else old(CellOf(Now(), r))
    {
      ghost var start := Now();
      var items := queue;
      for i := 0 to |items|
        invariant DrainedTo(start, Now(), items[..i], allowed, checks)
        invariant forall k :: i <= k < |items| ==> StageOf(Now(), items[k]) == Idle
      {
        ghost var before := Now();
        var r := items[i];
        assert items[..i + 1] == items[..i] + [r];
        DrainOne(r, allowed[r], checks[r]);
        DrainedMore(start, before, Now(), items[..i], allowed, checks, r);
        forall k | i + 1 <= k < |items| ensures StageOf(Now(), items[k]) == Idle {
          assert items[k] != r;
          assert CellOf(Now(), items[k]) == CellOf(before, items[k]);
        }
      }
      assert items[..|items|] == items;
    }

    // -------------------------------------------------------------- approvals

    /** First write of `approval_respond`: the attempt is on disk before anything is sent. */
    method BeginForwarding(r: nat) returns (ok: bool)
      requires r in runs && StageOf(Now(), r) == Idle && r !in forwarding
      modifies this`runs, this`forwarding
      ensures ok <==> MayForward(old(CellOf(Now(), r)))
      ensures ok ==> Only(old(Now()), Now(), r, Next(old(CellOf(Now(), r)), BeginForward))
      ensures !ok ==> Now() == old(Now())
    {
      var run := runs[r];
      if run.pending.None? || run.pending.value in run.attempts || !run.current || run.status != WaitingInput
         || run.cancelRequested
      {
        return false;
      }
      ForwardingOnly(Now(), r);
      forwarding := forwarding[r := run.pending.value];
      run := run.(attempts := run.attempts + {run.pending.value}, pending := None);
      runs := runs[r := run];
      return true;
    }

    /** The reply reaches the backend. */
    method SendForwarded(r: nat)
      requires r in runs && r in forwarding
      modifies this`forwarding, this`sent
      ensures Only(old(Now()), Now(), r, Next(old(CellOf(Now(), r)), SendForward))
    {
      ghost var before := Now();
      sent := sent[r := (if r in sent then sent[r] else multiset{}) + multiset{forwarding[r]}];
      forwarding := forwarding - {r};
      SentOut(before, r);
    }

    // -------------------------------------------------------------- restart

    /** A crash keeps the store and what the outside has seen, and nothing else. */
    method Crash()
      modifies this
      ensures runs == old(runs) && calls == old(calls) && sent == old(sent)
      ensures forall r :: r in runs ==> CellOf(Now(), r) == Next(old(CellOf(Now(), r)), Step.Crash)
    {
      ghost var before := Now();
      inflight, queue, workers, retained, stages, forwarding, epoch := {}, [], {}, map[], map[], map[], 0;
      forall r | r in runs ensures CellOf(Now(), r) == Next(CellOf(before, r), Step.Crash) {
        CrashedCell(before, r);
      }
    }

    /** The parts of a run a recording changes are stored, and its slot follows. */
    method Put(r: nat, run: Run, slot: bool, kept: Option<Retained>)
      requires r in runs
      modifies this`runs, this`inflight, this`retained
      ensures Now() == PutOf(old(Now()), r, run, slot, kept)
    {
      runs := runs[r := run];
      inflight := if slot then inflight + {r} else inflight - {r};
      retained := if kept.Some? then retained[r := kept.value] else retained - {r};
    }

    /** `_apply_retained_result_if_any`: a stashed report is replayed unless a worker is still alive. */
    method ReplayStash(r: nat, faults: Faults)
      requires r in runs
      modifies this`runs, this`inflight, this`retained
      ensures Only(old(Now()), Now(), r, Next(old(CellOf(Now(), r)), ApplyStash(faults)))
      ensures queue == old(queue) && stages == old(stages)
    {
      var run := runs[r];
      ghost var before := Now();
      ghost var c := CellOf(before, r);
      if run.stash.Some? && r !in workers {
        var v := View(r);
        var d := Replay(v, run.stash.value, run.stashApproval, faults);
        Put(r, d.run, d.slot, d.retained);
        ReplayFrame(c, v, run.stash.value, run.stashApproval, faults);
        PutCell(before, r, d.run, d.slot, d.retained);
      }
    }

    /** What this process knows of a run, without what only the outside knows. */
    method View(r: nat) returns (v: Cell)
      requires r in runs
      ensures SameRecord(v, CellOf(Now(), r))
    {
      v := Cell(runs[r], r in inflight, r in queue, if r in retained then Some(retained[r]) else None,
                r in workers, Idle, None, epoch, 0, multiset{});
    }

    /** The report of a process proven lost. */
    method RecordLost(r: nat, report: Report, faults: Faults)
      requires r in runs
      modifies this`runs, this`inflight, this`retained
      ensures Only(old(Now()), Now(), r, Next(old(CellOf(Now(), r)), RecordReport(report, faults)))
      ensures queue == old(queue) && stages == old(stages)
    {
      ghost var before := Now();
      ghost var c := CellOf(before, r);
      var v := View(r);
      var d := Record(v, report, None, faults);
      Put(r, d.run, d.slot, d.retained);
      RecordFrame(c, v, report, None, faults);
      PutCell(before, r, d.run, d.slot, d.retained);
    }

    /** `_project_slot` as a step of its own. */
    method Reproject(r: nat)
      requires r in runs
      modifies this`inflight
      ensures Only(old(Now()), Now(), r, Next(old(CellOf(Now(), r)), ProjectMarks))
    {
      ProjectedOnly(Now(), r);
      ProjectSlot(r);
    }

    /** `_release_untracked_run`, for a run without an operation. */
    method Release(r: nat)
      requires r in runs && runs[r].op == None && !Terminal(runs[r].status)
      modifies this`runs, this`inflight
      ensures Only(old(Now()), Now(), r, Next(old(CellOf(Now(), r)), ReleaseUntracked))
    {
      ghost var before := Now();
      var run := runs[r];
      run := run.(held := Some(false), released := true,
                  terminated := if run.status == PendingReconcile then run.terminated else false);
      run := run.(status := PendingReconcile);
      ReleasedOnly(before, r, run);
      runs := runs[r := run];
      ProjectSlot(r);
      assert Now() == before.(runs := before.runs[r := run], inflight := before.inflight - {r});
    }

    /** A dispatched operation nobody works on is marked unknown, and its run unresolved. */
    method MarkUnknown(r: nat)
      requires r in runs && runs[r].op == Some(Dispatched) && !Terminal(runs[r].status)
      modifies this`runs
      ensures Only(old(Now()), Now(), r, Next(Next(old(CellOf(Now(), r)), ReconcileOp), ReconcileStatus))
    {
      if r !in workers {
        UnknownOnly(Now(), r);
        runs := runs[r := runs[r].(op := Some(Unknown), status := PendingReconcile)];
      }
    }

    /** `_reconcile_one`. */
    method ReconcileOne(r: nat, again: Faults)
      requires r in runs
      modifies this`runs, this`inflight, this`retained
      ensures Only(old(Now()), Now(), r, Reconciled(old(CellOf(Now(), r)), again))
      ensures queue == old(queue) && stages == old(stages)
    {
      ReplayStash(r, again);
      var run := runs[r];
      if Terminal(run.status) {
        return;
      }
      if run.op == None {
        Release(r);
      } else if run.op == Some(Dispatched) {
        MarkUnknown(r);
      }
    }

    /** What is left to do for an unfinished run, once its stash was looked at. */
    method Resettle(r: nat, a: Restart) returns (failed: bool)
      requires r in runs && r !in queue
      modifies this`runs, this`inflight, this`retained, this`queue
      ensures Only(old(Now()), Now(), r, Resettled(old(CellOf(Now(), r)), a))
      ensures failed <==> ResettleFails(old(CellOf(Now(), r)), a)
      ensures queue == old(queue) || queue == old(queue) + [r]
      ensures stages == old(stages)
    {
      failed := false;
      if Terminal(runs[r].status) {
        Reproject(r);
      } else if runs[r].op == Some(Intended) {
        Requeue(r);
      } else if runs[r].op == None {
        ReconcileOne(r, a.again);
      } else if a.lost.Some? {
        RecordLost(r, a.lost.value, a.lostFaults);
        if a.lostFaults.record {
          return true;
        }
        Reproject(r);
      } else {
        Reproject(r);
        ReconcileOne(r, a.again);
      }
    }

    /** One task's share of `_restore_scheduler`. */
    method RestoreRun(r: nat, a: Restart) returns (failed: bool)
      requires r in runs && r !in queue
      modifies this`runs, this`inflight, this`retained, this`queue
      ensures Only(old(Now()), Now(), r, Restored(old(CellOf(Now(), r)), a))
      ensures failed <==> RestoreFails(old(CellOf(Now(), r)), a)
      ensures queue == old(queue) || queue == old(queue) + [r]
      ensures stages == old(stages)
    {
      if Terminal(runs[r].status) || !runs[r].current {
        return false;
      }
      ghost var before := Now();
      ReplayStash(r, a.stash);
      ghost var middle := Now();
      failed := Resettle(r, a);
      OnlyTwice(before, middle, Now(), r);
    }

    /** An intent that was never sent waits its turn again. */
    method Requeue(r: nat)
      requires r in runs && r !in queue && runs[r].op == Some(Intended) && !Terminal(runs[r].status)
      modifies this`inflight, this`queue
      ensures Only(old(Now()), Now(), r, Next(old(CellOf(Now(), r)), Restore))
      ensures queue == old(queue) + [r]
    {
      ghost var before := Now();
      inflight := inflight - {r};
      queue := queue + [r];
      RequeuedCell(before, r);
    }

    /** The loop of `_restore_scheduler`: each run on its own, up to a recording that fails. */
    method RestoreEach(order: seq<nat>, answers: map<nat, Restart>) returns (failed: bool, ghost done: seq<nat>)
      requires NoRepeats(order) && forall r :: r in order ==> r in runs && r in answers
      requires queue == [] && stages == map[]
      modifies this`runs, this`inflight, this`retained, this`queue
      ensures done <= order && RestoredTo(old(Now()), Now(), done, answers)
      ensures !failed ==> done == order && NoneFailed(old(Now()), order, answers)
      ensures failed ==> done != [] && RestoreFails(old(CellOf(Now(), done[|done| - 1])), answers[done[|done| - 1]])
      ensures QueuedFrom(queue, done) && stages == map[]
    {
      ghost var start := Now();
      for i := 0 to |order|
        invariant RestoredTo(start, Now(), order[..i], answers)
        invariant NoneFailed(start, order[..i], answers)
        invariant QueuedFrom(queue, order[..i]) && stages == map[]
      {
        ghost var before := Now();
        var r := order[i];
        assert order[..i + 1] == order[..i] + [r];
        assert r !in order[..i];
        failed := RestoreRun(r, answers[r]);
        RestoredMore(start, before, Now(), order[..i], answers, r);
        QueuedMore(before.queue, queue, order[..i], r);
        if failed {
          return true, order[..i + 1];
        }
        NoneFailedMore(start, order[..i], answers, r);
      }
      assert order[..|order|] == order;
      return false, order;
    }

    /** `_restore_scheduler`: slots and queue are rebuilt, stashed reports replayed, and with a resident
        core the queue is drained at the end. */
    method RestoreScheduler(order: seq<nat>, answers: map<nat, Restart>, resident: bool, checks: map<nat, bool>,
                            allowed: map<nat, bool>)
      returns (failed: bool)
      requires NoRepeats(order) && forall r :: r in order <==> r in runs
      requires forall r :: r in order ==> r in answers && r in checks && r in allowed
      requires queue == [] && stages == map[]
      modifies this
      ensures runs.Keys == old(runs.Keys)
      ensures !failed ==> forall r :: r in runs ==>
                CellOf(Now(), r) == var c := Restored(old(CellOf(Now(), r)), answers[r]);
                                    if resident && c.queued then Drained(c, allowed[r], checks[r], true) else c
      ensures failed <==> exists r :: r in order && RestoreFails(old(CellOf(Now(), r)), answers[r])
    {
      ghost var start := Now();
      ghost var done;
      failed, done := RestoreEach(order, answers);
      if failed {
        assert done[|done| - 1] in order;
        return;
      }
      if resident {
        DrainQueue(checks, allowed);
      }
    }
  }

  lemma OnlyTwice(before: World, middle: World, after: World, r: nat)
    requires r in before.runs && r in middle.runs && r in after.runs
    requires Only(before, middle, r, CellOf(middle, r)) && Only(middle, after, r, CellOf(after, r))
    ensures Only(before, after, r, CellOf(after, r))
  {
  }

  function PutOf(w: World, r: nat, run: Run, slot: bool, kept: Option<Retained>): World {
    w.(runs := w.runs[r := run], inflight := if slot then w.inflight + {r} else w.inflight - {r},
       retained := if kept.Some? then w.retained[r := kept.value] else w.retained - {r})
  }

  lemma PutCell(w: World, r: nat, run: Run, slot: bool, kept: Option<Retained>)
    requires r in w.runs
    ensures Only(w, PutOf(w, r, run, slot, kept), r, CellOf(w, r).(run := run, slot := slot, retained := kept))
  {
  }

  lemma SameInflight(w: World, r: nat)
    ensures (if r in w.inflight then w.inflight + {r} else w.inflight - {r}) == w.inflight
  {
  }

  lemma ProjectedOnly(w: World, r: nat)
    requires r in w.runs
    ensures Only(w, w.(inflight := if SlotHeld(w.runs[r]) then w.inflight + {r} else w.inflight - {r}), r,
                 Next(CellOf(w, r), ProjectMarks))
  {
    assert w.runs[r := w.runs[r]] == w.runs;
    PutRun(w, r, w.runs[r], SlotHeld(w.runs[r]));
  }

  lemma UnknownOnly(w: World, r: nat)
    requires r in w.runs && w.runs[r].op == Some(Dispatched) && !Terminal(w.runs[r].status) && r !in w.workers
    ensures Only(w, w.(runs := w.runs[r := w.runs[r].(op := Some(Unknown), status := PendingReconcile)]), r,
                 Next(Next(CellOf(w, r), ReconcileOp), ReconcileStatus))
  {
    SameInflight(w, r);
    PutRun(w, r, w.runs[r].(op := Some(Unknown), status := PendingReconcile), r in w.inflight);
  }

  lemma CommittedOnly(w: World, r: nat)
    requires r in w.runs && StageOf(w, r) == Marked
    ensures var run := w.runs[r].(op := Some(Dispatched));
            Only(w, w.(runs := w.runs[r := run], stages := w.stages[r := Committed],
                       inflight := if SlotHeld(run) then w.inflight + {r} else w.inflight - {r}), r,
                 Next(CellOf(w, r), CommitDispatch))
  {
    var run := w.runs[r].(op := Some(Dispatched));
    PutRun(w, r, run, SlotHeld(run));
  }

  lemma ForwardingOnly(w: World, r: nat)
    requires r in w.runs && r !in w.forwarding && MayForward(CellOf(w, r))
    ensures var digest := w.runs[r].pending.value;
            var run := w.runs[r].(attempts := w.runs[r].attempts + {digest}, pending := None);
            Only(w, w.(runs := w.runs[r := run], forwarding := w.forwarding[r := digest]), r,
                 Next(CellOf(w, r), BeginForward))
  {
    var digest := w.runs[r].pending.value;
    var run := w.runs[r].(attempts := w.runs[r].attempts + {digest}, pending := None);
    SameInflight(w, r);
    PutRun(w, r, run, r in w.inflight);
  }

  lemma ReleasedOnly(w: World, r: nat, run: Run)
    requires r in w.runs && w.runs[r].op == None && !Terminal(w.runs[r].status)
    requires run == w.runs[r].(held := Some(false), released := true, status := PendingReconcile,
                               terminated := if w.runs[r].status == PendingReconcile then w.runs[r].terminated else false)
    ensures !SlotHeld(run)
    ensures Only(w, w.(runs := w.runs[r := run], inflight := w.inflight - {r}), r, Next(CellOf(w, r), ReleaseUntracked))
  {
    ReleasedCell(CellOf(w, r), run);
    PutRun(w, r, run, false);
  }

  lemma ReleasedCell(c: Cell, run: Run)
    requires c.run.op == None && !Terminal(c.run.status)
    requires run == c.run.(held := Some(false), released := true, status := PendingReconcile,
                           terminated := if c.run.status == PendingReconcile then c.run.terminated else false)
    ensures Next(c, ReleaseUntracked) == c.(run := run, slot := false) && !SlotHeld(run)
  {
  }

  lemma PutRun(w: World, r: nat, run: Run, slot: bool)
    requires r in w.runs
    ensures var v := w.(runs := w.runs[r := run], inflight := if slot then w.inflight + {r} else w.inflight - {r});
            Only(w, v, r, CellOf(w, r).(run := run, slot := slot))
  {
  }

  lemma RequeuedCell(w: World, r: nat)
    requires r in w.runs && r !in w.queue && w.runs[r].op == Some(Intended) && !Terminal(w.runs[r].status)
    ensures Only(w, w.(inflight := w.inflight - {r}, queue := w.queue + [r]), r, Next(CellOf(w, r), Restore))
  {
    assert r in w.queue + [r];
  }

  /** Two cells agree on everything a recording looks at. */
  predicate SameRecord(a: Cell, c: Cell) {
    a.run == c.run && a.slot == c.slot && a.retained == c.retained && a.epoch == c.epoch
  }

  lemma PreserveFrame(c: Cell, v: Cell, report: Report, approval: Option<nat>, fails: bool)
    requires SameRecord(v, c)
    ensures var d := Preserve(v, report, approval, fails);
            Preserve(c, report, approval, fails) == c.(run := d.run, slot := d.slot, retained := d.retained)
  {
    var d := Remember(v, report, approval);
    assert Remember(c, report, approval) == c.(retained := d.retained) && d.run == v.run;
  }

  lemma RecordFrame(c: Cell, v: Cell, report: Report, approval: Option<nat>, faults: Faults)
    requires SameRecord(v, c)
    ensures var d := Record(v, report, approval, faults);
            Record(c, report, approval, faults) == c.(run := d.run, slot := d.slot, retained := d.retained)
  {
    if faults.record {
      PreserveFrame(c, v, report, approval, faults.preserve);
    } else if Closed(c.run) {
    } else {
      assert Ignored(c, report) == Ignored(v, report);
    }
  }

  lemma ReplayFrame(c: Cell, v: Cell, report: Report, approval: Option<nat>, faults: Faults)
    requires SameRecord(v, c)
    ensures var d := Replay(v, report, approval, faults);
            Replay(c, report, approval, faults) == c.(run := d.run, slot := d.slot, retained := d.retained)
  {
    if !IsProgress(report) {
      RecordFrame(c, v, report, approval, faults);
    } else if faults.record {
      PreserveFrame(c, v, report, approval, faults.preserve);
    }
  }

  /** The queue holds runs of `done`, none twice. */
  ghost predicate QueuedFrom(queue: seq<nat>, done: seq<nat>) {
    NoRepeats(queue) && forall q :: q in queue ==> q in done
  }

  lemma QueuedMore(before: seq<nat>, after: seq<nat>, done: seq<nat>, r: nat)
    requires QueuedFrom(before, done) && r !in done && (after == before || after == before + [r])
    ensures QueuedFrom(after, done + [r])
  {
  }

  /** The runs in `done` had their share of the drain, the others are as they were. */
  ghost predicate DrainedTo(start: World, w: World, done: seq<nat>, allowed: map<nat, bool>, checks: map<nat, bool>) {
    && w.runs.Keys == start.runs.Keys
    && (forall r :: r in done ==> r in allowed && r in checks)
    && forall r :: r in w.runs ==>
         CellOf(w, r) == if r in done then Drained(CellOf(start, r), allowed[r], checks[r], true) else CellOf(start, r)
  }

  lemma DrainedMore(start: World, before: World, after: World, done: seq<nat>, allowed: map<nat, bool>,
                    checks: map<nat, bool>, r: nat)
    requires DrainedTo(start, before, done, allowed, checks)
    requires r in before.runs && r !in done && r in allowed && r in checks
    requires Only(before, after, r, Drained(CellOf(before, r), allowed[r], checks[r], true))
    ensures DrainedTo(start, after, done + [r], allowed, checks)
  {
  }

  ghost predicate RestoredTo(start: World, w: World, done: seq<nat>, answers: map<nat, Restart>) {
    && w.runs.Keys == start.runs.Keys
    && (forall r :: r in done ==> r in answers && r in w.runs)
    && (forall r :: r in w.runs ==>
          CellOf(w, r) == if r in done then Restored(CellOf(start, r), answers[r]) else CellOf(start, r))
  }

  ghost predicate NoneFailed(start: World, done: seq<nat>, answers: map<nat, Restart>) {
    forall r :: r in done ==> r in start.runs && r in answers && !RestoreFails(CellOf(start, r), answers[r])
  }

  lemma NoneFailedMore(start: World, done: seq<nat>, answers: map<nat, Restart>, r: nat)
    requires NoneFailed(start, done, answers) && r in start.runs && r in answers
    requires !RestoreFails(CellOf(start, r), answers[r])
    ensures NoneFailed(start, done + [r], answers)
  {
  }

  lemma RestoredMore(start: World, before: World, after: World, done: seq<nat>, answers: map<nat, Restart>, r: nat)
    requires RestoredTo(start, before, done, answers) && r in before.runs && r !in done && r in answers
    requires Only(before, after, r, Restored(CellOf(before, r), answers[r]))
    ensures RestoredTo(start, after, done + [r], answers)
  {
  }

  function Crashed(w: World): World {
    w.(inflight := {}, queue := [], workers := {}, retained := map[], stages := map[], forwarding := map[], epoch := 0)
  }

  lemma CrashedCell(w: World, r: nat)
    requires r in w.runs
    ensures CellOf(Crashed(w), r) == Next(CellOf(w, r), Step.Crash)
  {
  }

  function InvokedOf(w: World, r: nat, background: bool): World
    requires r in w.runs
  {
    w.(calls := w.calls[r := (if r in w.calls then w.calls[r] else 0) + 1],
       workers := if background then w.workers + {r} else w.workers,
       stages := w.stages[r := if background then Idle else Calling(w.runs[r])])
  }

  lemma InvokedCell(w: World, r: nat, background: bool)
    requires r in w.runs && StageOf(w, r) == Committed
    ensures Only(w, InvokedOf(w, r, background), r, Next(CellOf(w, r), CallBackend(background)))
  {
    InvokedOthers(w, r, background);
    assert CellOf(InvokedOf(w, r, background), r).calls == CellOf(w, r).calls + 1;
  }

  lemma InvokedOthers(w: World, r: nat, background: bool)
    requires r in w.runs
    ensures forall q :: q in w.runs && q != r ==> CellOf(InvokedOf(w, r, background), q) == CellOf(w, q)
  {
  }

  function SendOf(w: World, r: nat): World
    requires r in w.forwarding
  {
    w.(sent := w.sent[r := (if r in w.sent then w.sent[r] else multiset{}) + multiset{w.forwarding[r]}],
       forwarding := w.forwarding - {r})
  }

  lemma SentCell(w: World, r: nat)
    requires r in w.runs && r in w.forwarding
    ensures CellOf(SendOf(w, r), r) == Next(CellOf(w, r), SendForward)
  {
    assert r !in SendOf(w, r).forwarding;
  }

  lemma SentOther(w: World, r: nat, q: nat)
    requires q in w.runs && r in w.forwarding && q != r
    ensures CellOf(SendOf(w, r), q) == CellOf(w, q)
  {
    assert q in SendOf(w, r).forwarding <==> q in w.forwarding;
  }

  lemma SentOut(w: World, r: nat)
    requires r in w.runs && r in w.forwarding
    ensures Only(w, SendOf(w, r), r, Next(CellOf(w, r), SendForward))
  {
    SentCell(w, r);
    forall q | q in w.runs && q != r ensures CellOf(SendOf(w, r), q) == CellOf(w, q) {
      SentOther(w, r, q);
    }
  }
}
