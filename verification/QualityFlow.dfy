/** The quality workflow: check an implementation, have it reviewed, repair what was found, within a
    fixed number of runs for the task. Everything outside the flow (file snapshots, check results,
    reviewers, gates, the scheduler) answers through a `Turn`. */
module QualityFlow {
  import opened Wrappers

  datatype Phase =
    | Unstarted | Checking | Reviewing | Reviewed | Repairing | AwaitingStages | Completed | Stale | Blocked

  datatype Acceptance = Pending | NotConfigured | Rejected | Passed

  datatype Role = Worker | Reviewer | Repairer
  datatype RunState = Working | Unresolved | Succeeded | Failed | Cancelled

  /** A reviewer's parsed reply: the target it names and its findings, by digest. */
  datatype Report = Report(target: nat, findings: seq<nat>)
  datatype Run = Run(role: Role, state: RunState, cancelRequested: bool, target: nat, report: Option<Report>)

  /** The evidence kept of one review. */
  datatype Review = Review(run: nat, implementation: nat, target: nat, findings: seq<nat>, checksPassed: bool)
  datatype Closure = Closure(finding: nat, repairRun: nat, reviewRun: nat, target: nat)

  datatype Quality = Quality(phase: Phase, key: nat, requests: map<nat, nat>, target: nat, implementation: nat,
                             reviewRun: Option<nat>, autoRepair: bool, reviews: seq<Review>,
                             open: seq<nat>, closures: seq<Closure>)

  /** A check a caller asks a flow for: whether it looks beyond the run itself, and whether it reads a file and
      that file is among the flow's targets. */
  datatype Spec = Spec(independent: bool, file: bool, covered: bool)

  /** A request to open a flow: its key, the digest of all of it, what authorization and the snapshot of the
      targets answer, and the findings the task carries. */
  datatype Ask = Ask(key: nat, hash: nat, refused: Option<Error>, checks: seq<Spec>, target: Result<nat>,
                     autoRepair: bool, found: seq<nat>)

  /** `stale` is `evidence_stale`; a task is held when it is paused or a human owns it. */
  datatype Task = Task(paused: bool, human: bool, acceptance: Acceptance, stale: bool, runCount: nat,
                       repairCount: nat, current: nat, quality: Quality)

  /** The key under which an intent is committed: one review per implementation run and one repair per
      current run, within one flow of one task. */
  datatype Kind = ReviewOf | RepairOf
  datatype Intent = Intent(task: nat, kind: Kind, key: nat, run: nat)

  datatype Check = Check(independent: bool, passed: bool, finding: nat)

  datatype RowStatus = RowPassed | RowFailed | RowPending
  datatype Source = IsolatedLocalCheck | CoreReview | ExternalReported | Unsourced
  datatype Row = Row(status: RowStatus, source: Source, externalAllowed: bool)

  datatype SendFailure = SendFailure(error: Error, state: RunState)

  /** What the world outside answers while a task is advanced once. */
  datatype Turn = Turn(refused: Option<Error>, capture: Result<nat>, recapture: Result<nat>,
                       checks: Result<seq<Check>>, gate: Result<Option<seq<Row>>>, dependency: Option<bool>,
                       reviewer: bool, repairRefused: Option<Error>, repairUnavailable: Option<Error>,
                       notAdmitted: Option<Error>, conflict: bool, sendFailure: Option<SendFailure>, newRun: nat)

  datatype Limits = Limits(runs: nat, repairs: nat)

  /** A committed run: its id, its row, and the intent it answers. */
  datatype Issue = Issue(id: nat, run: Run, intent: Intent)
  datatype Effect = Effect(task: Task, issued: Option<Issue>)

  /** How one pass through `_advance_one` ends: normally, or with an error raised after `effect` was
      stored, when the task's run is or is not over. */
  datatype Outcome = Done(effect: Effect) | Raised(error: Error, effect: Effect, over: bool)

  predicate Over(s: RunState) {
    s in {Succeeded, Failed, Cancelled}
  }

  predicate Closed(p: Phase) {
    p in {Unstarted, Completed, Stale, Blocked}
  }

  predicate Held(t: Task) {
    t.paused || t.human
  }

  function Keep(t: Task): Effect {
    Effect(t, None)
  }

  function WithPhase(t: Task, p: Phase): Task {
    t.(quality := t.quality.(phase := p))
  }

  /** `pause`: hand the task to a human and take its acceptance back. */
  function Pause(t: Task): Task {
    t.(paused := true, human := true, acceptance := Pending)
  }

  function Invalidate(t: Task): Task {
    WithPhase(Pause(t.(stale := true)), Stale)
  }

  // -------------------------------------------------------------- checks, gates and findings

  function CheckFindings(checks: seq<Check>): seq<nat> {
    if checks == [] then []
    else CheckFindings(checks[..|checks| - 1]) + if checks[|checks| - 1].passed then [] else [checks[|checks| - 1].finding]
  }

  predicate AnyIndependent(checks: seq<Check>) {
    exists k :: 0 <= k < |checks| && checks[k].independent
  }

  predicate AllPass(checks: seq<Check>) {
    forall k :: 0 <= k < |checks| ==> checks[k].passed
  }

  lemma {:induction false} FindingsEmpty(checks: seq<Check>)
    ensures CheckFindings(checks) == [] <==> AllPass(checks)
  {
    if checks != [] {
      var init := checks[..|checks| - 1];
      FindingsEmpty(init);
      assert checks == init + [checks[|checks| - 1]];
      assert AllPass(checks) <==> AllPass(init) && checks[|checks| - 1].passed;
    }
  }

  function Evaluate(checks: seq<Check>, implementation: Run): Acceptance {
    if !Over(implementation.state) then Pending
    else if implementation.state != Succeeded then Rejected
    else if !AnyIndependent(checks) then NotConfigured
    else if !AllPass(checks) then Rejected
    else Passed
  }

  predicate Trusted(r: Row) {
    r.source in {IsolatedLocalCheck, CoreReview} || (r.externalAllowed && r.source == ExternalReported)
  }

  predicate Satisfied(rows: seq<Row>) {
    forall k :: 0 <= k < |rows| ==> rows[k].status == RowPassed && Trusted(rows[k])
  }

  predicate AnyFailed(rows: seq<Row>) {
    exists k :: 0 <= k < |rows| && rows[k].status == RowFailed
  }

  predicate GateMet(gate: Option<seq<Row>>) {
    gate.None? || Satisfied(gate.value)
  }

  /** `apply_gate`: stage evidence can only take a PASSED back. */
  function Gated(a: Acceptance, gate: Option<seq<Row>>): Acceptance {
    if gate.None? || Satisfied(gate.value) || a != Passed then a
    else if AnyFailed(gate.value) then Rejected
    else Pending
  }

  /** The dependency gate, also only downwards. */
  function Awaited(a: Acceptance, dependency: Option<bool>): Acceptance {
    if dependency == Some(false) && a == Passed then Pending else a
  }

  function Accepted(a: Acceptance, gate: Option<seq<Row>>, dependency: Option<bool>): Acceptance {
    Awaited(Gated(a, gate), dependency)
  }

  lemma AcceptedExactly(a: Acceptance, gate: Option<seq<Row>>, dependency: Option<bool>)
    ensures Accepted(a, gate, dependency) == Passed <==> a == Passed && GateMet(gate) && dependency != Some(false)
  {
    assert gate.Some? && !Satisfied(gate.value) && a == Passed ==> Gated(a, gate) != Passed;
  }

  /** `_remember_findings`: what is not already open is added. */
  function Remember(open: seq<nat>, found: seq<nat>): seq<nat> {
    if found == [] then open
    else Remember(open, found[..|found| - 1]) + if found[|found| - 1] in open then [] else [found[|found| - 1]]
  }

  lemma {:induction false} RememberExact(open: seq<nat>, found: seq<nat>, f: nat)
    ensures f in Remember(open, found) <==> f in open || f in found
    ensures open <= Remember(open, found)
  {
    if found != [] {
      RememberExact(open, found[..|found| - 1], f);
      assert found == found[..|found| - 1] + [found[|found| - 1]];
    }
  }

  function Close(open: seq<nat>, repairRun: nat, reviewRun: nat, target: nat): (closed: seq<Closure>)
    ensures |closed| == |open|
    ensures forall k :: 0 <= k < |open| ==> closed[k] == Closure(open[k], repairRun, reviewRun, target)
  {
    seq(|open|, k requires 0 <= k < |open| => Closure(open[k], repairRun, reviewRun, target))
  }

  // -------------------------------------------------------------- starting runs

  function NewRun(role: Role, target: nat, x: Turn): Run {
    Run(role, if x.sendFailure.Some? then x.sendFailure.value.state else Working, false, target, None)
  }

  /** A commit, and the dispatch that follows it and may fail. */
  function Commit(t: Task, issue: Issue, x: Turn): Outcome {
    if x.sendFailure.Some? then Raised(x.sendFailure.value.error, Effect(t, Some(issue)), Over(issue.run.state))
    else Done(Effect(t, Some(issue)))
  }

  function RepairTask(t: Task, x: Turn): Task {
    WithPhase(t.(repairCount := t.repairCount + 1, runCount := t.runCount + 1, acceptance := Pending,
                 stale := false, current := x.newRun), Repairing)
  }

  function RepairIntent(id: nat, t: Task): Intent {
    Intent(id, RepairOf, t.quality.key, t.current)
  }

  function RepairOutcome(id: nat, t: Task, used: set<Intent>, x: Turn, lim: Limits): Outcome {
    if !t.quality.autoRepair then Done(Keep(Pause(t)))
    else if x.repairRefused.Some? then Raised(x.repairRefused.value, Keep(t), true)
    else if RepairIntent(id, t) in used then
      if x.conflict then Raised(IdempotencyConflict, Keep(t), true) else Done(Keep(t))
    else if x.repairUnavailable.Some? then Raised(x.repairUnavailable.value, Keep(t), true)
    else if t.repairCount >= lim.repairs || t.runCount >= lim.runs then Raised(BudgetExhausted, Keep(t), true)
    else if x.notAdmitted.Some? then Raised(x.notAdmitted.value, Keep(t), true)
    else Commit(RepairTask(t, x), Issue(x.newRun, NewRun(Repairer, t.quality.target, x), RepairIntent(id, t)), x)
  }

  function ReviewTask(t: Task, x: Turn): Task {
    t.(runCount := t.runCount + 1, current := x.newRun,
       quality := t.quality.(phase := Reviewing, reviewRun := Some(x.newRun)))
  }

  function ReviewIntent(id: nat, t: Task): Intent {
    Intent(id, ReviewOf, t.quality.key, t.quality.implementation)
  }

  function ReviewOutcome(id: nat, t: Task, used: set<Intent>, x: Turn, lim: Limits): Outcome {
    if !x.reviewer then Done(Keep(Pause(t)))
    else if t.runCount >= lim.runs then Raised(BudgetExhausted, Keep(t), true)
    else if x.notAdmitted.Some? then Raised(x.notAdmitted.value, Keep(t), true)
    else if ReviewIntent(id, t) in used then
      if x.conflict then Raised(IdempotencyConflict, Keep(t), true) else Done(Keep(t))
    else Commit(ReviewTask(t, x), Issue(x.newRun, NewRun(Reviewer, t.quality.target, x), ReviewIntent(id, t)), x)
  }

  // -------------------------------------------------------------- one phase

  function CheckedTask(t: Task, checks: seq<Check>): Task {
    t.(quality := t.quality.(open := Remember(t.quality.open, CheckFindings(checks))))
  }

  function CheckingOutcome(id: nat, t: Task, implementation: Run, used: set<Intent>, checks: seq<Check>, x: Turn,
                           lim: Limits): Outcome {
    if Evaluate(checks, implementation) != Passed then RepairOutcome(id, CheckedTask(t, checks), used, x, lim)
    else ReviewOutcome(id, t, used, x, lim)
  }

  /** The reply is bound to this review run and this target. */
  predicate Bound(t: Task, run: Run) {
    && run.role == Reviewer && t.quality.reviewRun == Some(t.current) && run.target == t.quality.target
    && run.report.Some? && run.report.value.target == t.quality.target
  }

  /** The reviewed task before gates are asked. */
  function ReviewedTask(t: Task, findings: seq<nat>, checks: seq<Check>, passed: bool): Task {
    t.(quality := t.quality.(phase := Reviewed, open := Remember(t.quality.open, findings + CheckFindings(checks)),
                             reviews := t.quality.reviews
                             + [Review(t.current, t.quality.implementation, t.quality.target, findings, passed)]))
  }

  /** A clean review: findings are closed by the repair that preceded it, and the gates decide. */
  function CleanTask(t: Task, implementation: Run, gate: Option<seq<Row>>, dependency: Option<bool>): Task {
    var q := t.quality;
    var a := Accepted(Passed, gate, dependency);
    var closures := if implementation.role == Repairer then q.closures + Close(q.open, q.implementation, t.current, q.target)
                    else q.closures;
    t.(acceptance := a,
       quality := q.(phase := if !GateMet(gate) || a != Passed then AwaitingStages else Completed, open := [],
                     closures := closures,
                     reviews := q.reviews + [Review(t.current, q.implementation, q.target, [], true)]))
  }

  function ReviewingOutcome(t: Task, run: Run, implementation: Run, checks: seq<Check>, x: Turn): Outcome {
    if !Bound(t, run) then Raised(InvalidRequest, Keep(t), true)
    else
      var findings := run.report.value.findings;
      var passed := Evaluate(checks, implementation) == Passed;
      if findings != [] || CheckFindings(checks) != [] || !passed then
        Done(Keep(ReviewedTask(t, findings, checks, passed)))
      else if x.gate.Err? then Raised(x.gate.error, Keep(t), true)
      else Done(Keep(CleanTask(t, implementation, x.gate.value, x.dependency)))
  }

  function StagedTask(t: Task, a: Acceptance, gate: Option<seq<Row>>, dependency: Option<bool>): Task {
    var b := Accepted(a, gate, dependency);
    WithPhase(t.(acceptance := b), if GateMet(gate) && b == Passed then Completed else AwaitingStages)
  }

  function StagesOutcome(t: Task, implementation: Run, checks: seq<Check>, x: Turn): Outcome {
    if x.gate.Err? then Raised(x.gate.error, Keep(t), true)
    else Done(Keep(StagedTask(t, Evaluate(checks, implementation), x.gate.value, x.dependency)))
  }

  /** The phases that look at the target, once it was captured unchanged on both sides of the checks. */
  function PhaseOutcome(id: nat, t: Task, run: Run, implementation: Run, used: set<Intent>, checks: seq<Check>, x: Turn,
                        lim: Limits): Outcome {
    match t.quality.phase
    case AwaitingStages => StagesOutcome(t, implementation, checks, x)
    case Checking => CheckingOutcome(id, t, implementation, used, checks, x, lim)
    case Reviewing => ReviewingOutcome(t, run, implementation, checks, x)
    case Reviewed => RepairOutcome(id, t, used, x, lim)
    case _ => Done(Keep(t))
  }

  function RepairedTask(t: Task, target: nat): Task {
    t.(quality := t.quality.(implementation := t.current, target := target, phase := Checking))
  }

  /** A succeeded run's target is captured on both sides of the checks; only if it did not move does the phase
      go on, as `phase` says. */
  function Settled(t: Task, x: Turn, phase: Outcome): Outcome {
    if x.capture.Err? then Raised(x.capture.error, Keep(t), true)
    else if t.quality.phase == Repairing then Done(Keep(RepairedTask(t, x.capture.value)))
    else if x.capture.value != t.quality.target then Done(Keep(Invalidate(t)))
    else if x.checks.Err? then Raised(x.checks.error, Keep(t), true)
    else if x.recapture.Err? then Raised(x.recapture.error, Keep(t), true)
    else if x.recapture.value != x.capture.value then Done(Keep(Invalidate(t)))
    else phase
  }

  /** What follows once the current run has succeeded. */
  function SucceededOutcome(id: nat, t: Task, run: Run, implementation: Run, used: set<Intent>, x: Turn,
                            lim: Limits): Outcome {
    Settled(t, x, if x.checks.Ok? then PhaseOutcome(id, t, run, implementation, used, x.checks.value, x, lim) else Done(Keep(t)))
  }

  /** `_authorize` and the first half of `_advance_one`: only a succeeded run goes on, as `next` says. */
  function Authorized(t: Task, run: Run, x: Turn, next: Outcome): Outcome {
    if x.refused.Some? then Raised(x.refused.value, Keep(t), Over(run.state))
    else if t.stale then Done(Keep(Invalidate(t)))
    else if run.cancelRequested || run.state == Cancelled then Done(Keep(WithPhase(Pause(t), Blocked)))
    else if run.state == Unresolved then Done(Keep(Pause(t)))
    else if !Over(run.state) then Done(Keep(t))
    else if run.state != Succeeded then Done(Keep(WithPhase(Pause(t), Blocked)))
    else next
  }

  function TurnOutcome(id: nat, t: Task, run: Run, implementation: Run, used: set<Intent>, x: Turn,
                       lim: Limits): Outcome {
    Authorized(t, run, x, SucceededOutcome(id, t, run, implementation, used, x, lim))
  }

  /** The handler in `advance`: an error pauses what is stored by now. */
  function Handled(o: Outcome): Effect {
    match o
    case Done(e) => e
    case Raised(error, e, over) =>
      var t := Pause(e.task);
      e.(task := if error in {InvalidRequest, BudgetExhausted} && over then WithPhase(t, Blocked) else t)
  }

  /** One task's share of `advance`. */
  function Advanced(id: nat, t: Task, run: Run, implementation: Run, used: set<Intent>, x: Turn,
                    lim: Limits): Effect {
    if Closed(t.quality.phase) || Held(t) then Keep(t)
    else Handled(TurnOutcome(id, t, run, implementation, used, x, lim))
  }

  /** `validate_evidence`: a completed flow whose evidence no longer holds becomes stale. */
  function Validated(t: Task, implementation: Run, x: Turn): Task {
    if t.quality.phase != Completed then t
    else if x.refused.Some? || x.capture.Err? || x.checks.Err? then Invalidate(t)
    else if x.capture.value != t.quality.target || t.stale || Evaluate(x.checks.value, implementation) != Passed
    then Invalidate(t)
    else t
  }

  /** `revalidate`: a completed flow that is not paused, or a PASSED task, is put to its stages again. */
  function Revalidated(t: Task, gate: Result<Option<seq<Row>>>): Task {
    var completed := t.quality.phase == Completed && !t.stale && !t.paused;
    if gate == Ok(None) || (t.acceptance != Passed && !completed) then t
    else t.(acceptance := if gate.Err? then Pending else Gated(Passed, gate.value))
  }

  /** What reading a task does to it: evidence first, then stages, then dependencies. */
  function Inspected(t: Task, implementation: Run, x: Turn): Task {
    var checked := Revalidated(Validated(t, implementation, x), x.gate);
    checked.(acceptance := Awaited(checked.acceptance, x.dependency))
  }

  /** `task_cancel` on a flow that is under way. */
  function Stopped(t: Task): Task {
    if Closed(t.quality.phase) then t else WithPhase(Pause(t), Blocked)
  }

  /** The checks look beyond the run, and read no file outside the targets. */
  predicate SpecsOk(checks: seq<Spec>) {
    && (exists k :: 0 <= k < |checks| && checks[k].independent)
    && (forall k :: 0 <= k < |checks| ==> checks[k].file ==> checks[k].covered)
  }

  /** `start`: a repeated request is answered from the task, everything else must find the task in core hands,
      no flow under way and a succeeded implementation. */
  function StartOutcome(t: Task, run: Run, implementation: Run, ask: Ask): Result<Task> {
    if ask.refused.Some? then Err(ask.refused.value)
    else if ask.key in t.quality.requests then
      if t.quality.requests[ask.key] != ask.hash then Err(IdempotencyConflict) else Ok(t)
    else if Held(t) then Err(CapabilityUnsupported)
    else if !Closed(t.quality.phase) then Err(InvalidRequest)
    else if Reuses(t, run) && !Over(run.state) then Err(InvalidRequest)
    else
      var from := if Reuses(t, run) then implementation else run;
      if from.state != Succeeded || from.cancelRequested then Err(InvalidRequest)
      else if !SpecsOk(ask.checks) then Err(InvalidRequest)
      else if ask.target.Err? then Err(ask.target.error)
      else Ok(Started(t, run, ask))
  }

  /** A new flow over a reviewed task goes back to the implementation that was reviewed. */
  predicate Reuses(t: Task, run: Run) {
    t.quality.phase != Unstarted && run.role == Reviewer
  }

  function Started(t: Task, run: Run, ask: Ask): Task
    requires ask.target.Ok?
  {
    var q := t.quality;
    t.(acceptance := Pending, stale := false,
       quality := q.(phase := Checking, key := ask.key, requests := q.requests[ask.key := ask.hash],
                     target := ask.target.value, implementation := if Reuses(t, run) then q.implementation else t.current,
                     reviewRun := None, autoRepair := ask.autoRepair,
                     open := if q.phase == Unstarted then ask.found else q.open))
  }
}
