/** The quality workflow as it works on its tables: each method changes the stored task in place and is
    proved to do exactly what `QualityFlow` says of that step. */
module QualityRuntime {
  import opened Wrappers
  import opened QualityFlow
  import opened QualityRuns

  /** `evaluate_quality`: acceptance and the findings of the failed checks. */
  method EvaluateChecks(checks: seq<Check>, implementation: Run) returns (acceptance: Acceptance, findings: seq<nat>)
    ensures acceptance == Evaluate(checks, implementation)
    ensures findings == CheckFindings(checks)
  {
    findings := [];
    var independent := false;
    for k := 0 to |checks|
      invariant findings == CheckFindings(checks[..k])
      invariant independent <==> AnyIndependent(checks[..k])
    {
      assert checks[..k + 1][..k] == checks[..k];
      assert AnyIndependent(checks[..k + 1]) <==> AnyIndependent(checks[..k]) || checks[k].independent by {
        assert checks[..k + 1] == checks[..k] + [checks[k]];
        assert forall j :: 0 <= j < k ==> checks[..k + 1][j] == checks[..k][j];
        assert checks[..k + 1][k] == checks[k];
      }
      if !checks[k].passed {
        findings := findings + [checks[k].finding];
      }
      independent := independent || checks[k].independent;
    }
    assert checks[..|checks|] == checks;
    FindingsEmpty(checks);
    if !Over(implementation.state) {
      acceptance := Pending;
    } else if implementation.state != Succeeded {
      acceptance := Rejected;
    } else if !independent {
      acceptance := NotConfigured;
    } else if findings != [] {
      acceptance := Rejected;
    } else {
      acceptance := Passed;
    }
  }

  /** `apply_gate` on the rows of the configured stages. */
  method ApplyGate(acceptance: Acceptance, gate: Option<seq<Row>>) returns (lowered: Acceptance, satisfied: bool)
    ensures lowered == Gated(acceptance, gate)
    ensures satisfied <==> GateMet(gate)
  {
    if gate.None? {
      return acceptance, true;
    }
    var rows := gate.value;
    var failed := false;
    satisfied := true;
    for k := 0 to |rows|
      invariant satisfied <==> forall j :: 0 <= j < k ==> rows[j].status == RowPassed && Trusted(rows[j])
      invariant failed <==> exists j :: 0 <= j < k && rows[j].status == RowFailed
    {
      var trusted := rows[k].source == IsolatedLocalCheck || rows[k].source == CoreReview
                     || (rows[k].externalAllowed && rows[k].source == ExternalReported);
      satisfied := satisfied && rows[k].status == RowPassed && trusted;
      failed := failed || rows[k].status == RowFailed;
    }
    lowered := acceptance;
    if !satisfied && acceptance == Passed {
      lowered := if failed then Rejected else Pending;
    }
  }

  /** The dependency gate. */
  function DependencyGate(acceptance: Acceptance, dependency: Option<bool>): (lowered: Acceptance)
    ensures lowered == Passed <==> acceptance == Passed && dependency != Some(false)
  {
    if dependency == Some(false) && acceptance == Passed then Pending else acceptance
  }

  method RememberFindings(open: seq<nat>, found: seq<nat>) returns (all: seq<nat>)
    ensures all == Remember(open, found)
  {
    all := open;
    for k := 0 to |found|
      invariant all == Remember(open, found[..k])
    {
      assert found[..k + 1][..k] == found[..k];
      if found[k] !in open {
        all := all + [found[k]];
      }
    }
    assert found[..|found|] == found;
  }

  /** The step `o` was carried out on task `id`: its effect is stored and its error reported. */
  ghost predicate Did(before: World, after: World, id: nat, o: Outcome, error: Option<Error>) {
    && after == Write(before, id, o.effect)
    && error == (if o.Raised? then Some(o.error) else None)
    && (o.Raised? ==> o.effect.task.current in after.runs && o.over == Over(after.runs[o.effect.task.current].state))
  }

  class QualityRuntime {
    var tasks: map<nat, Task>
    var runs: map<nat, Run>
    var intents: set<Intent>
    const lim: Limits

    constructor (stored: map<nat, Task>, known: map<nat, Run>, limits: Limits)
      ensures tasks == stored && runs == known && intents == {} && lim == limits
    {
      tasks, runs, intents, lim := stored, known, {}, limits;
    }

    ghost function Now(): World
      reads this
    {
      World(tasks, runs, intents)
    }

    /** `pause`, with the phase it leaves behind if any. */
    method PauseTask(id: nat, t: Task, phase: Option<Phase>)
      modifies this`tasks
      ensures tasks == old(tasks)[id := if phase.Some? then WithPhase(Pause(t), phase.value) else Pause(t)]
    {
      var held := t.(paused := true, human := true, acceptance := Pending);
      if phase.Some? {
        held := held.(quality := held.quality.(phase := phase.value));
      }
      tasks := tasks[id := held];
    }

    method InvalidateTask(id: nat, t: Task)
      modifies this`tasks
      ensures tasks == old(tasks)[id := Invalidate(t)]
    {
      PauseTask(id, t.(stale := true), Some(Stale));
    }

    /** `commit_intent` and the dispatch behind it: the run, the task and the intent are stored together. */
    method CommitIntent(id: nat, t: Task, issue: Issue, x: Turn) returns (error: Option<Error>)
      requires issue.id == x.newRun && t.current == x.newRun
      requires issue.run == NewRun(issue.run.role, issue.run.target, x)
      modifies this
      ensures Did(old(Now()), Now(), id, Commit(t, issue, x), error)
    {
      tasks, runs, intents := tasks[id := t], runs[issue.id := issue.run], intents + {issue.intent};
      return if x.sendFailure.Some? then Some(x.sendFailure.value.error) else None;
    }

    /** `_repair` and the part of `workflow_repair` behind it; `t` is already stored. */
    method Repair(id: nat, t: Task, x: Turn) returns (error: Option<Error>)
      requires id in tasks && tasks[id] == t && t.current in runs && Over(runs[t.current].state)
      modifies this
      ensures Did(old(Now()), Now(), id, RepairOutcome(id, t, old(intents), x, lim), error)
    {
      assert Write(Now(), id, Keep(t)) == Now() by {
        assert tasks[id := t] == tasks;
      }
      if !t.quality.autoRepair {
        PauseTask(id, t, None);
        return None;
      }
      if x.repairRefused.Some? {
        return x.repairRefused;
      }
      var intent := Intent(id, RepairOf, t.quality.key, t.current);
      if intent in intents {
        return if x.conflict then Some(IdempotencyConflict) else None;
      }
      if x.repairUnavailable.Some? {
        return x.repairUnavailable;
      }
      if t.repairCount >= lim.repairs {
        return Some(BudgetExhausted);
      }
      if t.runCount >= lim.runs {
        return Some(BudgetExhausted);
      }
      if x.notAdmitted.Some? {
        return x.notAdmitted;
      }
      var next := t.(repairCount := t.repairCount + 1, runCount := t.runCount + 1, acceptance := Pending,
                     stale := false, current := x.newRun);
      next := next.(quality := next.quality.(phase := Repairing));
      error := CommitIntent(id, next, Issue(x.newRun, NewRun(Repairer, t.quality.target, x), intent), x);
    }

    /** `_review`. */
    method Review(id: nat, t: Task, x: Turn) returns (error: Option<Error>)
      requires id in tasks && tasks[id] == t && t.current in runs && Over(runs[t.current].state)
      modifies this
      ensures Did(old(Now()), Now(), id, ReviewOutcome(id, t, old(intents), x, lim), error)
    {
      assert Write(Now(), id, Keep(t)) == Now() by {
        assert tasks[id := t] == tasks;
      }
      if !x.reviewer {
        PauseTask(id, t, None);
        return None;
      }
      if t.runCount >= lim.runs {
        return Some(BudgetExhausted);
      }
      if x.notAdmitted.Some? {
        return x.notAdmitted;
      }
      var intent := Intent(id, ReviewOf, t.quality.key, t.quality.implementation);
      if intent in intents {
        return if x.conflict then Some(IdempotencyConflict) else None;
      }
      var next := t.(current := x.newRun, runCount := t.runCount + 1);
      next := next.(quality := next.quality.(phase := Reviewing, reviewRun := Some(x.newRun)));
      error := CommitIntent(id, next, Issue(x.newRun, NewRun(Reviewer, t.quality.target, x), intent), x);
    }

    /** The `checking` phase. */
    method CheckPhase(id: nat, t: Task, implementation: Run, checks: seq<Check>, x: Turn) returns (error: Option<Error>)
      requires id in tasks && tasks[id] == t && t.current in runs && Over(runs[t.current].state)
      modifies this
      ensures Did(old(Now()), Now(), id, CheckingOutcome(id, t, implementation, old(intents), checks, x, lim), error)
    {
      var acceptance, findings := EvaluateChecks(checks, implementation);
      if acceptance != Passed {
        var open := RememberFindings(t.quality.open, findings);
        var checked := t.(quality := t.quality.(open := open));
        ghost var before := Now();
        tasks := tasks[id := checked];
        ghost var middle := Now();
        error := Repair(id, checked, x);
        ghost var o := RepairOutcome(id, checked, before.intents, x, lim);
        assert Write(middle, id, o.effect) == Write(before, id, o.effect);
      } else {
        error := Review(id, t, x);
      }
    }

    /** The `reviewing` phase: the reply is parsed, its evidence kept, and a clean one is put to the gates. */
    method ReviewPhase(id: nat, t: Task, run: Run, implementation: Run, checks: seq<Check>, x: Turn)
      returns (error: Option<Error>)
      requires id in tasks && tasks[id] == t && t.current in runs && Over(runs[t.current].state)
      modifies this`tasks
      ensures Did(old(Now()), Now(), id, ReviewingOutcome(t, run, implementation, checks, x), error)
    {
      assert Write(Now(), id, Keep(t)) == Now() by {
        assert tasks[id := t] == tasks;
      }
      var acceptance, failed := EvaluateChecks(checks, implementation);
      if run.role != Reviewer || t.quality.reviewRun != Some(t.current) || run.target != t.quality.target {
        return Some(InvalidRequest);
      }
      if run.report.None? || run.report.value.target != t.quality.target {
        return Some(InvalidRequest);
      }
      var findings := run.report.value.findings;
      var q := t.quality;
      var open := RememberFindings(q.open, findings + failed);
      var evidence := QualityFlow.Review(t.current, q.implementation, q.target, findings, acceptance == Passed);
      if findings + failed == [] && acceptance == Passed {
        error := CleanReview(id, t, implementation, x);
      } else {
        tasks := tasks[id := t.(quality := q.(phase := Reviewed, open := open, reviews := q.reviews + [evidence]))];
        return None;
      }
    }

    method CleanReview(id: nat, t: Task, implementation: Run, x: Turn) returns (error: Option<Error>)
      requires id in tasks && tasks[id] == t && t.current in runs && Over(runs[t.current].state)
      modifies this`tasks
      ensures Did(old(Now()), Now(), id, if x.gate.Err? then Raised(x.gate.error, Keep(t), true)
                                         else Done(Keep(CleanTask(t, implementation, x.gate.value, x.dependency))), error)
    {
      if x.gate.Err? {
        assert tasks[id := t] == tasks;
        return Some(x.gate.error);
      }
      var q := t.quality;
      var closures := q.closures;
      if implementation.role == Repairer {
        closures := closures + Close(q.open, q.implementation, t.current, q.target);
      }
      var evidence := QualityFlow.Review(t.current, q.implementation, q.target, [], true);
      var lowered, satisfied := ApplyGate(Passed, x.gate.value);
      lowered := DependencyGate(lowered, x.dependency);
      var phase := Completed;
      if !satisfied || lowered != Passed {
        phase := AwaitingStages;
      }
      tasks := tasks[id := t.(acceptance := lowered,
                              quality := q.(phase := phase, open := [], closures := closures,
                                            reviews := q.reviews + [evidence]))];
      return None;
    }

    /** The `awaiting_stages` phase. */
    method StagePhase(id: nat, t: Task, implementation: Run, checks: seq<Check>, x: Turn) returns (error: Option<Error>)
      requires id in tasks && tasks[id] == t && t.current in runs && Over(runs[t.current].state)
      modifies this`tasks
      ensures Did(old(Now()), Now(), id, StagesOutcome(t, implementation, checks, x), error)
    {
      var acceptance, _ := EvaluateChecks(checks, implementation);
      if x.gate.Err? {
        assert tasks[id := t] == tasks;
        return Some(x.gate.error);
      }
      var lowered, satisfied := ApplyGate(acceptance, x.gate.value);
      lowered := DependencyGate(lowered, x.dependency);
      var phase := if satisfied && lowered == Passed then Completed else AwaitingStages;
      tasks := tasks[id := t.(acceptance := lowered, quality := t.quality.(phase := phase))];
      return None;
    }

    /** The part of `_advance_one` that looks at the target. */
    method AdvanceSucceeded(id: nat, t: Task, run: Run, implementation: Run, x: Turn) returns (error: Option<Error>)
      requires id in tasks && tasks[id] == t && t.current in runs && Over(runs[t.current].state)
      requires !Closed(t.quality.phase)
      modifies this
      ensures Did(old(Now()), Now(), id, SucceededOutcome(id, t, run, implementation, old(intents), x, lim), error)
    {
      assert Write(Now(), id, Keep(t)) == Now() by {
        assert tasks[id := t] == tasks;
      }
      if x.capture.Err? {
        return Some(x.capture.error);
      }
      if t.quality.phase == Repairing {
        tasks := tasks[id := t.(quality := t.quality.(implementation := t.current, target := x.capture.value,
                                                      phase := Checking))];
        return None;
      }
      if x.capture.value != t.quality.target {
        InvalidateTask(id, t);
        return None;
      }
      if x.checks.Err? {
        return Some(x.checks.error);
      }
      if x.recapture.Err? {
        return Some(x.recapture.error);
      }
      if x.recapture.value != x.capture.value {
        InvalidateTask(id, t);
        return None;
      }
      error := AdvancePhase(id, t, run, implementation, x.checks.value, x);
    }

    method AdvancePhase(id: nat, t: Task, run: Run, implementation: Run, checks: seq<Check>, x: Turn)
      returns (error: Option<Error>)
      requires id in tasks && tasks[id] == t && t.current in runs && Over(runs[t.current].state)
      requires t.quality.phase in {AwaitingStages, Checking, Reviewing, Reviewed}
      modifies this
      ensures Did(old(Now()), Now(), id, PhaseOutcome(id, t, run, implementation, old(intents), checks, x, lim), error)
    {
      if t.quality.phase == AwaitingStages {
        error := StagePhase(id, t, implementation, checks, x);
      } else if t.quality.phase == Checking {
        error := CheckPhase(id, t, implementation, checks, x);
      } else if t.quality.phase == Reviewing {
        error := ReviewPhase(id, t, run, implementation, checks, x);
      } else {
        error := Repair(id, t, x);
      }
    }

    /** `_authorize` and `_advance_one`. */
    method AdvanceOne(id: nat, t: Task, run: Run, implementation: Run, x: Turn) returns (error: Option<Error>)
      requires id in tasks && tasks[id] == t && t.current in runs && runs[t.current] == run
      requires !Closed(t.quality.phase)
      modifies this
      ensures Did(old(Now()), Now(), id, TurnOutcome(id, t, run, implementation, old(intents), x, lim), error)
    {
      assert Write(Now(), id, Keep(t)) == Now() by {
        assert tasks[id := t] == tasks;
      }
      if x.refused.Some? {
        return x.refused;
      }
      if t.stale {
        InvalidateTask(id, t);
        return None;
      }
      if run.cancelRequested || run.state == Cancelled {
        PauseTask(id, t, Some(Blocked));
        return None;
      }
      if run.state == Unresolved {
        PauseTask(id, t, None);
        return None;
      }
      if !Over(run.state) {
        return None;
      }
      if run.state != Succeeded {
        PauseTask(id, t, Some(Blocked));
        return None;
      }
      error := AdvanceSucceeded(id, t, run, implementation, x);
    }

    /** One task's share of `advance`, with the handler that pauses what an error left stored. */
    method AdvanceTask(id: nat, x: Turn)
      requires Known(Now(), id)
      modifies this
      ensures Now() == Write(old(Now()), id, Polled(old(Now()), id, x, lim))
    {
      ghost var before := Now();
      var t := tasks[id];
      if t.quality.phase in {Unstarted, Completed, Stale, Blocked} || t.paused || t.human {
        assert tasks[id := t] == tasks;
        return;
      }
      var run := runs[t.current];
      ghost var o := TurnOutcome(id, t, run, ImplementationOf(before, id), intents, x, lim);
      var error := AdvanceOne(id, t, run, runs[t.quality.implementation], x);
      if error.Some? {
        var current := tasks[id];
        var blocked := error.value in {InvalidRequest, BudgetExhausted} && Over(runs[current.current].state);
        PauseTask(id, current, if blocked then Some(Blocked) else None);
        assert tasks == before.tasks[id := Handled(o).task];
      }
    }

    /** `advance`: every listed task moves at most one phase. */
    method Advance(order: seq<nat>, turns: map<nat, Turn>)
      requires forall id :: id in order ==> id in turns
      requires Possible(Now(), Polls(order, turns), lim)
      modifies this
      ensures Now() == Execute(old(Now()), Polls(order, turns), lim)
    {
      for k := 0 to |order|
        invariant Possible(Now(), Polls(order[k..], turns), lim)
        invariant Execute(Now(), Polls(order[k..], turns), lim) == Execute(old(Now()), Polls(order, turns), lim)
      {
        ghost var rest := Polls(order[k..], turns);
        assert rest[0] == Act(order[k], Poll(turns[order[k]]));
        assert rest[1..] == Polls(order[k + 1..], turns);
        AdvanceTask(order[k], turns[order[k]]);
      }
    }

    /** `validate_evidence`. */
    method ValidateEvidence(id: nat, x: Turn)
      requires Known(Now(), id)
      modifies this`tasks
      ensures tasks == old(tasks)[id := Validated(old(tasks)[id], ImplementationOf(old(Now()), id), x)]
    {
      var t := tasks[id];
      assert tasks[id := t] == tasks;
      if t.quality.phase != Completed {
        return;
      }
      if x.refused.Some? || x.capture.Err? || x.checks.Err? {
        InvalidateTask(id, t);
        return;
      }
      var acceptance, _ := EvaluateChecks(x.checks.value, runs[t.quality.implementation]);
      if x.capture.value != t.quality.target || t.stale || acceptance != Passed {
        InvalidateTask(id, t);
      }
    }

    /** `revalidate`. */
    method Revalidate(id: nat, gate: Result<Option<seq<Row>>>)
      requires id in tasks
      modifies this`tasks
      ensures tasks == old(tasks)[id := Revalidated(old(tasks)[id], gate)]
    {
      var t := tasks[id];
      assert tasks[id := t] == tasks;
      var completed := t.quality.phase == Completed && !t.stale && !t.paused;
      if gate == Ok(None) || (t.acceptance != Passed && !completed) {
        return;
      }
      if gate.Err? {
        tasks := tasks[id := t.(acceptance := Pending)];
        return;
      }
      var lowered, _ := ApplyGate(Passed, gate.value);
      tasks := tasks[id := t.(acceptance := lowered)];
    }

    /** Reading a task: what it says afterwards holds now. */
    method Inspect(id: nat, x: Turn)
      requires Known(Now(), id)
      modifies this`tasks
      ensures Now() == Write(old(Now()), id, Touched(old(Now()), id, QualityRuns.Inspect(x), lim))
    {
      ValidateEvidence(id, x);
      Revalidate(id, x.gate);
      var t := tasks[id];
      tasks := tasks[id := t.(acceptance := DependencyGate(t.acceptance, x.dependency))];
    }

    /** Every requested check must read within the targets, and one must look beyond the run. */
    method CheckSpecs(checks: seq<Spec>) returns (ok: bool)
      ensures ok <==> SpecsOk(checks)
    {
      var independent := false;
      for k := 0 to |checks|
        invariant independent <==> exists j :: 0 <= j < k && checks[j].independent
      {
        independent := independent || checks[k].independent;
      }
      if !independent {
        return false;
      }
      for k := 0 to |checks|
        invariant forall j :: 0 <= j < k ==> checks[j].file ==> checks[j].covered
      {
        if checks[k].file && !checks[k].covered {
          return false;
        }
      }
      return true;
    }

    /** The run a new flow starts from. */
    method StartingRun(t: Task, run: Run) returns (from: Result<nat>)
      requires t.current in runs && run == runs[t.current]
      ensures from == if Reuses(t, run) && !Over(run.state) then Err(InvalidRequest)
                      else Ok(if Reuses(t, run) then t.quality.implementation else t.current)
    {
      if t.quality.phase != Unstarted && run.role == Reviewer {
        if !Over(run.state) {
          return Err(InvalidRequest);
        }
        return Ok(t.quality.implementation);
      }
      return Ok(t.current);
    }

    /** `start` up to the stored flow; `Ok(true)` says that a new one was opened. */
    method OpenFlow(id: nat, ask: Ask) returns (r: Result<bool>)
      requires Known(Now(), id)
      modifies this`tasks
      ensures var t := old(tasks)[id];
              var o := StartOutcome(t, runs[t.current], ImplementationOf(old(Now()), id), ask);
              && (o.Err? ==> r == Err(o.error) && tasks == old(tasks))
              && (o.Ok? ==> r == Ok(ask.key !in t.quality.requests) && tasks == old(tasks)[id := o.value])
    {
      var t := tasks[id];
      assert tasks[id := t] == tasks;
      if ask.refused.Some? {
        return Err(ask.refused.value);
      }
      if ask.key in t.quality.requests {
        return if t.quality.requests[ask.key] != ask.hash then Err(IdempotencyConflict) else Ok(false);
      }
      if t.paused || t.human {
        return Err(CapabilityUnsupported);
      }
      if t.quality.phase !in {Unstarted, Completed, Stale, Blocked} {
        return Err(InvalidRequest);
      }
      var from :- StartingRun(t, runs[t.current]);
      if runs[from].state != Succeeded || runs[from].cancelRequested {
        return Err(InvalidRequest);
      }
      var ok := CheckSpecs(ask.checks);
      if !ok {
        return Err(InvalidRequest);
      }
      var target :- ask.target;
      var q := t.quality;
      var open := if q.phase == Unstarted then ask.found else q.open;
      tasks := tasks[id := t.(acceptance := Pending, stale := false,
                              quality := q.(phase := Checking, key := ask.key, requests := q.requests[ask.key := ask.hash],
                                            target := target, implementation := from, reviewRun := None,
                                            autoRepair := ask.autoRepair, open := open))];
      return Ok(true);
    }

    /** `start`: a flow that was opened is advanced at once, with every other one. */
    method StartFlow(id: nat, ask: Ask, order: seq<nat>, turns: map<nat, Turn>) returns (r: Result<bool>)
      requires Known(Now(), id)
      requires forall other :: other in order ==> other in turns
      requires Possible(Opened(Now(), id, ask, lim), Polls(order, turns), lim)
      modifies this
      ensures var t := old(tasks)[id];
              var o := StartOutcome(t, old(runs)[t.current], ImplementationOf(old(Now()), id), ask);
              && r == (if o.Err? then Err(o.error) else Ok(ask.key !in t.quality.requests))
              && Now() == if r == Ok(true) then Execute(Opened(old(Now()), id, ask, lim), Polls(order, turns), lim)
                          else old(Now())
    {
      assert tasks[id := tasks[id]] == tasks;
      r := OpenFlow(id, ask);
      if r == Ok(true) {
        Advance(order, turns);
      }
    }
  }

  ghost function Opened(w: World, id: nat, ask: Ask, lim: Limits): World
    requires Known(w, id)
  {
    Write(w, id, Touched(w, id, Start(ask), lim))
  }

  function Polls(order: seq<nat>, turns: map<nat, Turn>): (acts: seq<Act>)
    requires forall id :: id in order ==> id in turns
    ensures |acts| == |order|
  {
    seq(|order|, k requires 0 <= k < |order| => Act(order[k], Poll(turns[order[k]])))
  }
}
