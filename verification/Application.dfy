/** The application's dispatch and result handling over all runs: stored runs and operations, the
    results this process retains, and the scheduler's slots and queue. Each method is tied to the
    step it performs on its own run and leaves every other run alone. */
module Application {
  import opened Wrappers
  import opened Collections
  import opened RunRecords

  /** The tables a recording may rewrite. */
  datatype Tables = Tables(runs: map<nat, Run>, retained: map<nat, Retained>, inflight: set<nat>)

  /** What recording looks at: the run, its slot, its retained report and the poll counter. */
  ghost function SliceOf(t: Tables, epoch: nat, r: nat): Cell
    requires r in t.runs
  {
    Cell(t.runs[r], r in t.inflight, false, if r in t.retained then Some(t.retained[r]) else None, false, Idle, None, epoch,
         0, multiset{})
  }

  /** Run `r` moved to `d`, every other run as it was. */
  function MovedTo(t: Tables, r: nat, d: Cell): Tables {
    Tables(t.runs[r := d.run], WithRetained(t.retained, r, d.retained), WithSlot(t.inflight, r, d.slot))
  }

  function WithRetained(retained: map<nat, Retained>, r: nat, item: Option<Retained>): map<nat, Retained> {
    match item case Some(x) => retained[r := x] case None => retained - {r}
  }

  function WithSlot(inflight: set<nat>, r: nat, held: bool): set<nat> {
    if held then inflight + {r} else inflight - {r}
  }

  class Application {
    var runs: map<nat, Run>
    var retained: map<nat, Retained>
    var inflight: set<nat>
    var queue: seq<nat>
    var workers: set<nat>
    var epoch: nat
    /** What backends have really been asked, per run. */
    ghost var calls: map<nat, nat>
    ghost var sent: map<nat, multiset<nat>>

    constructor (stored: map<nat, Run>)
      ensures runs == stored && retained == map[] && inflight == {} && queue == [] && workers == {} && epoch == 0
    {
      runs, retained, inflight, queue, workers, epoch := stored, map[], {}, [], {}, 0;
      calls, sent := map[], map[];
    }

    ghost function Held(): Tables
      reads this
    {
      Tables(runs, retained, inflight)
    }

    ghost function Slice(r: nat): Cell
      requires r in runs
      reads this
    {
      SliceOf(Held(), epoch, r)
    }

    // -------------------------------------------------------------- results

    /** `_remember_result` of a report whose write failed. */
    method RememberResult(r: nat, report: Report, approval: Option<nat>)
      requires r in runs
      modifies this`retained
      ensures Held() == MovedTo(old(Held()), r, Remember(old(Slice(r)), report, approval))
    {
      var failures, kept := 0, approval;
      if r in retained {
        var current := retained[r];
        if IsFallback(report) && !IsFallback(current.report) {
          return;
        }
        failures := current.failures;
        if kept.None? {
          kept := current.approval;
        }
      }
      failures := failures + 1;
      retained := retained[r := Retained(report, failures, epoch + BackoffGap(failures), kept)];
    }

    /** `_project_slot`. */
    method ProjectSlot(r: nat)
      requires r in runs
      modifies this`inflight
      ensures Held() == MovedTo(old(Held()), r, Project(old(Slice(r))))
    {
      if SlotHeld(runs[r]) {
        inflight := inflight + {r};
      } else {
        inflight := inflight - {r};
      }
    }

    /** The preserving transaction on the stored run. */
    static method StashResult(start: Run, report: Report, approval: Option<nat>) returns (run: Run)
      ensures run == Preserved(start, report, approval)
    {
      run := start;
      if Terminal(run.status) {
        return;
      }
      var copied := if run.stash.Some? && IsFallback(report) && !IsFallback(run.stash.value) then run.stash
                    else Some(report);
      run := run.(held := Some(false), released := true);
      if approval.Some? {
        run := run.(stashApproval := approval);
      }
      run := run.(stash := copied);
      if run.status != PendingReconcile {
        run := run.(status := PendingReconcile, terminated := false);
      }
      if run.op.Some? {
        run := run.(op := Some(Unknown));
      }
    }

    /** `_preserve_failed_result`: the slot is given back whether or not the write succeeds. */
    method PreserveFailedResult(r: nat, report: Report, approval: Option<nat>, fails: bool)
      requires r in runs
      modifies this`retained, this`runs, this`inflight
      ensures Held() == MovedTo(old(Held()), r, Preserve(old(Slice(r)), report, approval, fails))
    {
      RememberResult(r, report, approval);
      if !fails {
        var run := StashResult(runs[r], report, approval);
        runs := runs[r := run];
      }
      inflight := inflight - {r};
    }

    static method FindFresh(requests: seq<nat>, attempts: set<nat>) returns (request: Option<nat>)
      ensures request == FirstFresh(requests, attempts)
    {
      for i := 0 to |requests|
        invariant FirstFresh(requests, attempts) == FirstFresh(requests[i..], attempts)
      {
        assert requests[i..][1..] == requests[i + 1..];
        if requests[i] !in attempts {
          return Some(requests[i]);
        }
      }
      assert requests[|requests|..] == [];
      return None;
    }

    /** The recording transaction of `_record_result_once`. */
    method CommitResult(r: nat, report: Report)
      requires r in runs
      modifies this`runs
      ensures runs == old(runs)[r := Recorded(old(runs)[r], report)]
    {
      var run := runs[r];
      run := run.(stashApproval := None, stash := None);
      run := run.(released := false, held := None);
      run := run.(status := report.status, terminated := report.terminated);
      var requests := Requests(report);
      if run.pending.Some? {
        var gone := run.pending.value != OWN_DIGEST && report.approvals.Some?
                    && (run.pending.value !in requests || run.pending.value in run.attempts);
        if gone || Terminal(run.status) {
          run := run.(pending := None);
        }
      }
      if run.pending.None? {
        var request := FindFresh(requests, run.attempts);
        run := run.(pending := request);
      }
      if run.op.Some? {
        run := run.(op := Some(if run.status == Failed then OpFailed
                               else if Terminal(run.status) then Completed
                               else if run.status == PendingReconcile then Unknown else Dispatched));
      }
      if !Terminal(run.status) {
        run := run.(held := Some(true), released := false);
      }
      runs := runs[r := run];
    }

    /** `_record_result` for a fresh report. */
    method RecordResult(r: nat, report: Report, approval: Option<nat>, faults: Faults)
      requires r in runs
      modifies this`retained, this`runs, this`inflight
      ensures Held() == MovedTo(old(Held()), r, Record(old(Slice(r)), report, approval, faults))
    {
      if faults.record {
        PreserveFailedResult(r, report, approval, faults.preserve);
        return;
      }
      if Terminal(runs[r].status) || !runs[r].current {
        retained := retained - {r};
        return;
      }
      var richer := (runs[r].stash.Some? && !IsFallback(runs[r].stash.value))
                    || (r in retained && !IsFallback(retained[r].report));
      var freed := runs[r].held == Some(false) || runs[r].released;
      if IsFallback(report) && (richer || runs[r].status == PendingReconcile || freed) {
        return;
      }
      CommitResult(r, report);
      retained := retained - {r};
      ProjectSlot(r);
    }

    /** `_commit_retained_progress`. */
    method CommitProgress(r: nat)
      requires r in runs
      modifies this`runs
      ensures runs == old(runs)[r := if Closed(old(runs)[r]) then old(runs)[r] else ProgressKept(old(runs)[r])]
    {
      var run := runs[r];
      if Terminal(run.status) || !run.current {
        assert runs == runs[r := run];
        return;
      }
      run := run.(stash := None, stashApproval := None);
      run := run.(held := Some(false), released := true);
      run := run.(status := PendingReconcile, terminated := false);
      if run.op.Some? {
        run := run.(op := Some(Unknown));
      }
      runs := runs[r := run];
    }

    /** `_record_result` for a report this process or the store had kept. */
    method ReplayResult(r: nat, report: Report, approval: Option<nat>, faults: Faults)
      requires r in runs
      modifies this`retained, this`runs, this`inflight
      ensures Held() == MovedTo(old(Held()), r, Replay(old(Slice(r)), report, approval, faults))
    {
      if !IsProgress(report) {
        RecordResult(r, report, approval, faults);
        return;
      }
      if faults.record {
        PreserveFailedResult(r, report, approval, faults.preserve);
        return;
      }
      CommitProgress(r);
      retained := retained - {r};
      ProjectSlot(r);
    }

    // -------------------------------------------------------------- retry

    /** `_retry_retained_results`: the reports due when the loop starts, one after the other; each
        run is retried at most once and on its own. */
    method RetryRetained(order: seq<nat>, faults: map<nat, Faults>)
      requires forall r :: r in order <==> r in retained
      requires NoRepeats(order) && retained.Keys <= runs.Keys && retained.Keys <= faults.Keys
      modifies this`retained, this`runs, this`inflight
      ensures runs.Keys == old(runs.Keys)
      ensures forall r :: r in runs ==>
                Slice(r) == if r in old(retained) then Retried(old(Slice(r)), faults[r]) else old(Slice(r))
    {
      ghost var start := Held();
      for i := 0 to |order|
        invariant RetriedUpTo(start, Held(), epoch, order[..i], faults)
      {
        var r := order[i];
        ghost var before := Held();
        RetryOne(r, faults[r]);
        assert order[..i + 1] == order[..i] + [r];
        RetriedMore(start, before, Held(), epoch, order[..i], r, faults);
      }
      assert order[..|order|] == order;
    }

    /** One run of the retry loop. */
    method RetryOne(r: nat, faults: Faults)
      requires r in runs
      modifies this`retained, this`runs, this`inflight
      ensures Held() == MovedTo(old(Held()), r, Retried(old(Slice(r)), faults))
    {
      if r in retained && retained[r].readyAt <= epoch {
        ReplayResult(r, retained[r].report, retained[r].approval, faults);
      } else {
        Unmoved(Held(), epoch, r);
      }
    }
  }

  lemma Unmoved(t: Tables, epoch: nat, r: nat)
    requires r in t.runs
    ensures MovedTo(t, r, SliceOf(t, epoch, r)) == t
  {
    var d := SliceOf(t, epoch, r);
    assert t.runs[r := d.run] == t.runs && WithRetained(t.retained, r, d.retained) == t.retained;
  }

  /** Where a run stands after a retry, given whether its report was due. */
  ghost function Retried(c: Cell, faults: Faults): Cell {
    if Due(c) then Replay(c, c.retained.value.report, c.retained.value.approval, faults) else c
  }

  /** The runs in `done` have been retried, the rest are untouched. */
  ghost predicate RetriedUpTo(start: Tables, t: Tables, epoch: nat, done: seq<nat>, faults: map<nat, Faults>) {
    && t.runs.Keys == start.runs.Keys
    && forall q :: q in start.runs ==>
         SliceOf(t, epoch, q)
         == if q in done && q in faults then Retried(SliceOf(start, epoch, q), faults[q]) else SliceOf(start, epoch, q)
  }

  lemma RetriedFrame(c: Cell, faults: Faults)
    ensures var d := Retried(c, faults); d == c.(run := d.run, retained := d.retained, slot := d.slot)
  {
  }

  lemma MovedSlices(t: Tables, epoch: nat, r: nat, d: Cell, q: nat)
    requires r in t.runs && q in t.runs
    requires var c := SliceOf(t, epoch, r); d == c.(run := d.run, retained := d.retained, slot := d.slot)
    ensures q in MovedTo(t, r, d).runs
    ensures SliceOf(MovedTo(t, r, d), epoch, q) == if q == r then d else SliceOf(t, epoch, q)
  {
  }

  lemma RetriedMore(start: Tables, before: Tables, after: Tables, epoch: nat, done: seq<nat>, r: nat, faults: map<nat, Faults>)
    requires RetriedUpTo(start, before, epoch, done, faults) && r in start.runs && r in faults && r !in done
    requires after == MovedTo(before, r, Retried(SliceOf(before, epoch, r), faults[r]))
    ensures RetriedUpTo(start, after, epoch, done + [r], faults)
  {
    var d := Retried(SliceOf(before, epoch, r), faults[r]);
    RetriedFrame(SliceOf(before, epoch, r), faults[r]);
    forall q | q in start.runs
      ensures q in after.runs
      ensures SliceOf(after, epoch, q)
              == if q in done + [r] && q in faults then Retried(SliceOf(start, epoch, q), faults[q])
                 else SliceOf(start, epoch, q)
    {
      MovedSlices(before, epoch, r, d, q);
    }
  }
}
