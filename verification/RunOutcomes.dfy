/** What a run says after a report: its status, its operation, its open approval, and what is kept when the
    recording fails. None of it is stated through the recording functions. */
module RunOutcomes {
  import opened Wrappers
  import opened RunRecords

  // ---------------------------------------------------------------- operations

  /** The operation says how its run ended. */
  predicate OpAgrees(run: Run) {
    run.op.Some? ==>
      && (run.op == Some(OpFailed) <==> run.status == Failed)
      && (run.op == Some(Completed) <==> run.status in {Succeeded, Cancelled})
  }

  lemma RecordAgrees(c: Cell, r: Report, approval: Option<nat>, faults: Faults)
    requires OpAgrees(c.run)
    ensures OpAgrees(Record(c, r, approval, faults).run)
  {
    RememberForwards(c, r, approval);
  }

  lemma WritingAgrees(c: Cell, r: Report, approval: Option<nat>, faults: Faults)
    requires OpAgrees(c.run)
    ensures OpAgrees(Record(c, r, approval, faults).run) && OpAgrees(Replay(c, r, approval, faults).run)
  {
    RecordAgrees(c, r, approval, faults);
    RecordAgrees(c, r, approval, Faults(true, faults.preserve));
  }

  /** The dispatch write lands on a run that a report has ended since it was marked. */
  predicate CommitsOver(c: Cell, step: Step) {
    step.CommitDispatch? && c.stage == Marked && c.run.status in {Succeeded, Failed, Cancelled}
  }

  lemma StepAgrees(c: Cell, step: Step)
    requires OpAgrees(c.run)
    ensures OpAgrees(Next(c, step).run) <==> !CommitsOver(c, step)
  {
    if WritingOf(c, step).Some? {
      var w := WritingOf(c, step).value;
      WritingAgrees(w.base, w.report, w.approval, w.faults);
    }
  }

  predicate NeverCommitsOver(c: Cell, steps: seq<Step>)
    decreases |steps|
  {
    steps == [] || (!CommitsOver(c, steps[0]) && NeverCommitsOver(Next(c, steps[0]), steps[1..]))
  }

  /** Over every execution, through crashes, lost writes and late exceptions, the stored operation failed exactly
      if its run failed, and is completed exactly if its run succeeded or was cancelled; only a report between
      the two writes that precede the call could part them. */
  lemma {:induction false} OperationsAgree(c: Cell, steps: seq<Step>)
    requires OpAgrees(c.run) && NeverCommitsOver(c, steps)
    ensures OpAgrees(Execute(c, steps).run)
    decreases |steps|
  {
    if steps != [] {
      StepAgrees(c, steps[0]);
      OperationsAgree(Next(c, steps[0]), steps[1..]);
    }
  }

  // ---------------------------------------------------------------- approvals

  /** The report asks for this request: it lists it, or lists none and needs an approval of its own. */
  predicate Asks(r: Report, q: nat) {
    if r.approvals.Some? && r.approvals.value != [] then q in r.approvals.value else r.needsApproval && q == OWN_DIGEST
  }

  /** An open approval outlives the report: the run goes on, and the request was not dropped from the list. */
  predicate StaysOpen(run: Run, r: Report) {
    && run.pending.Some? && r.status !in {Succeeded, Failed, Cancelled}
    && (run.pending.value == OWN_DIGEST || r.approvals.None?
        || (Asks(r, run.pending.value) && run.pending.value !in run.attempts))
  }

  /** No listed request before `q` was left untried. */
  predicate FirstOf(requests: seq<nat>, attempts: set<nat>, q: nat) {
    exists i :: 0 <= i < |requests| && requests[i] == q && forall j :: 0 <= j < i ==> requests[j] in attempts
  }

  lemma {:induction false} FirstFreshExact(requests: seq<nat>, attempts: set<nat>)
    ensures match FirstFresh(requests, attempts)
            case Some(q) => q !in attempts && FirstOf(requests, attempts, q)
            case None => forall q :: q in requests ==> q in attempts
  {
    if requests != [] && requests[0] in attempts {
      var rest := requests[1..];
      FirstFreshExact(rest, attempts);
      if FirstFresh(rest, attempts).Some? {
        var i :| 0 <= i < |rest| && rest[i] == FirstFresh(rest, attempts).value && forall j :: 0 <= j < i ==> rest[j] in attempts;
        assert requests[i + 1] == rest[i];
        assert forall j :: 0 < j < i + 1 ==> requests[j] == rest[j - 1];
      } else {
        forall q | q in requests ensures q in attempts {
          assert q == requests[0] || q in rest;
        }
      }
    }
  }

  lemma AsksExactly(r: Report, q: nat)
    ensures q in Requests(r) <==> Asks(r, q)
  {
  }

  /** The open approval after a report: the old one while it stays open, else the first request never tried. */
  predicate ApprovalAfter(run: Run, r: Report, pending: Option<nat>) {
    if StaysOpen(run, r) then pending == run.pending
    else
      match pending
      case Some(q) =>
        Asks(r, q) && q !in run.attempts
        && (r.approvals.Some? && r.approvals.value != [] ==> FirstOf(r.approvals.value, run.attempts, q))
      case None =>
        && (r.approvals.Some? ==> forall q :: q in r.approvals.value ==> q in run.attempts)
        && (Asks(r, OWN_DIGEST) ==> OWN_DIGEST in run.attempts)
  }

  lemma ApprovalExactly(run: Run, r: Report)
    ensures ApprovalAfter(run, r, PendingAfter(run, r))
  {
    FirstFreshExact(Requests(r), run.attempts);
    AsksExactly(r, OWN_DIGEST);
    if run.pending.Some? {
      AsksExactly(r, run.pending.value);
    }
  }

  // ---------------------------------------------------------------- a report that is written

  /** A worker's fallback is dropped when anything better is known. */
  predicate Dropped(c: Cell, r: Report) {
    && r.status == PendingReconcile && !r.terminated && r.unknownError && !r.rich && Listed(r) == [] && !r.needsApproval
    && (RichStash(c) || RichRetained(c) || c.run.status == PendingReconcile || c.run.held == Some(false) || c.run.released)
  }

  predicate OpReports(before: Option<OpStatus>, r: Report, after: Option<OpStatus>) {
    && (before.None? <==> after.None?)
    && (after == Some(Completed) <==> before.Some? && r.status in {Succeeded, Cancelled})
    && (after == Some(OpFailed) <==> before.Some? && r.status == Failed)
    && (after == Some(Unknown) <==> before.Some? && r.status == PendingReconcile)
    && after != Some(Intended)
  }

  /** The run says what the report says, and nothing is left over of earlier ones. */
  predicate Says(c: Cell, r: Report, d: Cell) {
    var over := r.status in {Succeeded, Failed, Cancelled};
    && d.run.status == r.status && d.run.terminated == r.terminated && d.retained == None
    && d.run.stash == None && d.run.stashApproval == None
    && OpReports(c.run.op, r, d.run.op) && ApprovalAfter(c.run, r, d.run.pending)
    && d.run.held == (if over then None else Some(true)) && !d.run.released && d.slot == !over
    && d.run.attempts == c.run.attempts && d.run.cancelRequested == c.run.cancelRequested && d.run.current == c.run.current
  }

  lemma WrittenExactly(c: Cell, r: Report, approval: Option<nat>)
    requires !Closed(c.run) && !Dropped(c, r)
    ensures Says(c, r, Record(c, r, approval, Faults(false, false)))
  {
    ApprovalExactly(c.run, r);
  }

  /** A report that is written: an open run says what it reports; a closed one, or a dropped fallback, changes
      nothing, except that a closed run's retained report is forgotten. */
  lemma ReportedExactly(c: Cell, r: Report, preserve: bool)
    ensures var d := Next(c, RecordReport(r, Faults(false, preserve)));
            if Closed(c.run) then d == c.(retained := None)
            else if Dropped(c, r) then d == c
            else Says(c, r, d)
  {
    if !Closed(c.run) && !Dropped(c, r) {
      WrittenExactly(c, r, None);
    }
  }

  // ---------------------------------------------------------------- a report whose writing fails

  /** The gap doubles from one poll to eight. */
  lemma GapExact(failures: nat)
    ensures BackoffGap(failures)
         == if failures <= 1 then 1 else if failures == 2 then 2 else if failures == 3 then 4 else 8
  {
    assert Power2(3) == 8;
    if failures > 4 {
      PowerGrows(failures - 1);
    }
  }

  lemma {:induction false} PowerGrows(n: nat)
    requires n >= 3
    ensures Power2(n) >= 8
  {
    if n > 3 {
      PowerGrows(n - 1);
    } else {
      assert Power2(3) == 2 * Power2(2) == 4 * Power2(1) == 8 * Power2(0);
    }
  }

  /** The report to keep: a fallback never replaces a richer one. */
  predicate Keeps(old_: Option<Report>, r: Report, kept: Option<Report>) {
    if old_.Some? && IsFallback(r) && !IsFallback(old_.value) then kept == old_ else kept == Some(r)
  }

  function RetainedReport(c: Cell): Option<Report> {
    if c.retained.Some? then Some(c.retained.value.report) else None
  }

  /** A report whose writing fails is kept in memory for a later poll; unless the second write fails as well, an
      unfinished run stashes it, gives its slot back and waits for reconciliation. */
  lemma LostExactly(c: Cell, r: Report, preserve: bool)
    ensures var d := Next(c, RecordReport(r, Faults(true, preserve)));
            && Keeps(RetainedReport(c), r, RetainedReport(d)) && !d.slot
            && (RetainedReport(d) == Some(r) && d.retained != c.retained ==>
                  d.retained.value.failures == (if c.retained.Some? then c.retained.value.failures + 1 else 1)
                  && d.retained.value.readyAt == c.epoch + BackoffGap(d.retained.value.failures))
            && (if preserve || Terminal(c.run.status) then d.run == c.run
                else d.run.status == PendingReconcile && (d.run.op == if c.run.op.Some? then Some(Unknown) else None)
                     && Keeps(c.run.stash, r, d.run.stash) && d.run.held == Some(false) && d.run.released
                     && d.run.pending == c.run.pending && d.run.attempts == c.run.attempts)
  {
    RememberForwards(c, r, None);
  }

  lemma ProgressPolled(c: Cell, r: Report, approval: Option<nat>, preserve: bool)
    requires IsProgress(r)
    ensures var d := Replay(c, r, approval, Faults(false, preserve));
            && d.retained == None
            && (Closed(c.run) ==> d.run == c.run)
            && (!Closed(c.run) ==> d.run.status == PendingReconcile && !d.run.terminated && d.run.stash == None
                                   && (d.run.op == if c.run.op.Some? then Some(Unknown) else None)
                                   && d.run.pending == c.run.pending && !d.slot)
  {
  }

  lemma PollReplays(c: Cell, faults: Faults)
    requires c.retained.Some? && c.retained.value.readyAt <= c.epoch + 1
    ensures Next(c, Poll(faults)) == Replay(c.(epoch := c.epoch + 1), c.retained.value.report, c.retained.value.approval, faults)
  {
  }

  /** A replayed report is answered as if it came now, unless it is progress. */
  lemma ReplayedExactly(c: Cell, r: Report, approval: Option<nat>, preserve: bool)
    requires !IsProgress(r)
    ensures var d := Replay(c, r, approval, Faults(false, preserve));
            if Closed(c.run) then d == c.(retained := None) else if Dropped(c, r) then d == c else Says(c, r, d)
  {
    if !Closed(c.run) && !Dropped(c, r) {
      WrittenExactly(c, r, approval);
    }
  }

  /** A retained report whose time has come: progress is only forgotten, leaving an open run unresolved; anything
      else is recorded as if it came now. */
  lemma PolledExactly(c: Cell, preserve: bool)
    requires c.retained.Some? && c.retained.value.readyAt <= c.epoch + 1
    ensures var r, later, d := c.retained.value.report, c.(epoch := c.epoch + 1), Next(c, Poll(Faults(false, preserve)));
            if IsProgress(r) then
              && d.retained == None
              && (Closed(c.run) ==> d.run == c.run)
              && (!Closed(c.run) ==> d.run.status == PendingReconcile && !d.run.terminated && d.run.stash == None
                                     && (d.run.op == if c.run.op.Some? then Some(Unknown) else None)
                                     && d.run.pending == c.run.pending && !d.slot)
            else if Closed(later.run) then d == later.(retained := None)
            else if Dropped(later, r) then d == later
            else Says(later, r, d)
  {
    var later, r := c.(epoch := c.epoch + 1), c.retained.value.report;
    PollReplays(c, Faults(false, preserve));
    if IsProgress(r) {
      ProgressPolled(later, r, c.retained.value.approval, preserve);
    } else {
      ReplayedExactly(later, r, c.retained.value.approval, preserve);
    }
  }

  /** A report that was kept in the run because its own write was lost is answered like one that comes now, with
      progress only forgotten; while a worker lives it is left alone. */
  lemma StashExactly(c: Cell, preserve: bool)
    requires c.run.stash.Some?
    ensures var r, d := c.run.stash.value, Next(c, ApplyStash(Faults(false, preserve)));
            if c.worker || (Dropped(c, r) && !Closed(c.run)) then d == c
            else if Closed(c.run) then d.run == c.run && d.retained == None
            else if IsProgress(r) then d.run.status == PendingReconcile && d.run.stash == None && !d.slot && d.retained == None
            else Says(c, r, d)
  {
    var r := c.run.stash.value;
    if !c.worker {
      if IsProgress(r) {
        ProgressPolled(c, r, c.run.stashApproval, preserve);
      } else if !Closed(c.run) && !Dropped(c, r) {
        WrittenExactly(c, r, c.run.stashApproval);
      }
    }
  }

  // ---------------------------------------------------------------- restarts

  /** After a restart an operation that was sent is what its lost process is proven to have reported, or unknown
      and waiting for reconciliation; it is never taken up as running. */
  lemma RestartedExactly(c: Cell, a: Restart)
    requires !Closed(c.run) && c.run.op == Some(Dispatched) && c.run.stash == None && !c.worker
    requires a.lost.Some? ==> !a.lostFaults.record && !Dropped(c, a.lost.value)
    ensures var d := Restored(c, a);
            if a.lost.Some? then d.run.status == a.lost.value.status && OpReports(c.run.op, a.lost.value, d.run.op)
            else d.run.status == PendingReconcile && d.run.op == Some(Unknown)
  {
    assert Next(c, ApplyStash(a.stash)) == c;
    if a.lost.Some? {
      ReportedExactly(c, a.lost.value, a.lostFaults.preserve);
    } else {
      var d := Next(c, ProjectMarks);
      assert d.run == c.run && Next(d, ApplyStash(a.again)) == d;
    }
  }

  /** A queued intent whose checks fail, or that waits through a restart, was never sent. */
  lemma RefusedExactly(c: Cell)
    requires c.stage == Idle && c.run.op == Some(Intended) && !Terminal(c.run.status)
    ensures var d := Next(c, RefuseQueued);
            d.run.status == Failed && d.run.terminated && d.run.op == Some(OpFailed) && !d.queued && d.calls == c.calls
  {
  }

  /** From its creation on, a run and its operation agree. */
  lemma CreatedAgrees(steps: seq<Step>)
    requires NeverCommitsOver(FRESH_CELL, steps)
    ensures OpAgrees(Execute(FRESH_CELL, steps).run)
  {
    OperationsAgree(FRESH_CELL, steps);
  }

  /** The exception is there: a report that ends the run between the two writes leaves its operation dispatched. */
  lemma OperationsCanPart()
    ensures var over := Report(Failed, true, false, false, None, false);
            var d := Execute(FRESH_CELL, [BeginDispatch, RecordReport(over, Faults(false, false)), CommitDispatch]);
            d.run.status == Failed && d.run.op == Some(Dispatched) && !OpAgrees(d.run)
  {
    var over := Report(Failed, true, false, false, None, false);
    var steps := [BeginDispatch, RecordReport(over, Faults(false, false)), CommitDispatch];
    var marked := Next(FRESH_CELL, BeginDispatch);
    var told := Next(marked, RecordReport(over, Faults(false, false)));
    ReportedExactly(marked, over, false);
    assert steps[1..] == [RecordReport(over, Faults(false, false)), CommitDispatch];
    assert Execute(FRESH_CELL, steps) == Execute(marked, steps[1..]);
    assert steps[1..][1..] == [CommitDispatch];
    assert Execute(marked, steps[1..]) == Execute(told, [CommitDispatch]);
    assert Execute(told, [CommitDispatch]) == Execute(Next(told, CommitDispatch), []);
  }

  // ---------------------------------------------------------------- the queue

  /** A queue item's turn: what is over or replaced leaves the queue, what may not start waits, an intent that
      passes its checks is called exactly once, and one that does not ends failed without a call. */
  lemma DrainedExactly(c: Cell, allowed: bool, checks: bool, background: bool)
    requires c.stage == Idle
    ensures var d := Drained(c, allowed, checks, background);
            var over := c.run.status in {Succeeded, Failed, Cancelled} || !c.run.current;
            var intent := !over && allowed && c.run.op == Some(Intended);
            var sent := intent && checks && c.run.status == Queued && !c.run.cancelRequested;
            && d.calls == c.calls + (if sent then 1 else 0)
            && (over ==> d == c.(queued := false))
            && (!over && !intent ==> d == c)
            && (sent ==> d.run.op == Some(Dispatched) && d.run.status == Dispatching && d.run.held == Some(true)
                         && d.slot && !d.queued && (background ==> d.worker))
            && (intent && !sent ==> d.run.status == Failed && d.run.op == Some(OpFailed) && d.run.terminated && !d.queued)
  {
  }

  /** A pause takes effect unless a worker or a call has the run; it is resumed to where its operation and its
      approval left it. */
  lemma HandedOverExactly(c: Cell)
    requires c.stage == Idle
    ensures var d := Next(c, Pause);
            if Terminal(c.run.status) || c.worker then d == c else d == c.(run := c.run.(status := Paused))
    ensures var d := Next(c, Resume);
            if c.run.status != Paused then d == c
            else d.run == c.run.(status := d.run.status)
                 && (d.run.status == Queued <==> c.run.op == Some(Intended))
                 && (d.run.status == PendingReconcile <==> c.run.op == Some(Unknown))
                 && (d.run.status == WaitingInput <==> c.run.op !in {Some(Intended), Some(Unknown)} && c.run.pending.Some?)
                 && (d.run.status == Running <==> c.run.op !in {Some(Intended), Some(Unknown)} && c.run.pending.None?)
  {
  }

  /** An answer is sent for the approval that was open when it began, exactly once, and only to a run that waits. */
  lemma ForwardedExactly(c: Cell)
    requires c.stage == Idle && c.forwarding == None
    ensures var d := Next(Next(c, BeginForward), SendForward);
            if c.run.status == WaitingInput && c.run.current && !c.run.cancelRequested && c.run.pending.Some?
               && c.run.pending.value !in c.run.attempts
            then d.sent == c.sent + multiset{c.run.pending.value} && d.run.pending == None
                 && d.run.attempts == c.run.attempts + {c.run.pending.value}
            else d == c
  {
  }

  /** A run without any operation, which nothing can ever have sent, waits for reconciliation without a slot. */
  lemma UntrackedExactly(c: Cell)
    ensures var d := Next(c, ReleaseUntracked);
            if c.run.op.Some? || c.run.status in {Succeeded, Failed, Cancelled} then d == c
            else d.run == c.run.(status := PendingReconcile, held := Some(false), released := true,
                                 terminated := c.run.status == PendingReconcile && c.run.terminated)
                 && !d.slot && d.calls == c.calls
  {
  }

  /** While its worker lives, a run with an operation is not marked unresolved; without one, exactly what was sent
      is. */
  lemma ReconciledExactly(c: Cell, again: Faults)
    requires c.run.op.Some? && c.run.status !in {Succeeded, Failed, Cancelled}
    ensures c.worker ==> Reconciled(c, again) == c
    ensures !c.worker && c.run.stash == None && c.run.op == Some(Dispatched) ==>
              Reconciled(c, again) == c.(run := c.run.(op := Some(Unknown), status := PendingReconcile))
    ensures !c.worker && c.run.stash == None && c.run.op != Some(Dispatched) ==> Reconciled(c, again) == c
  {
    assert c.worker || c.run.stash == None ==> Next(c, ApplyStash(again)) == c;
  }
}
