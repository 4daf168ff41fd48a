/** The quality workflow over whole histories: run budgets, the measure that bounds phase changes, and
    what a PASSED acceptance stands for. */
module QualityRuns {
  import opened Wrappers
  import opened QualityFlow

  datatype World = World(tasks: map<nat, Task>, runs: map<nat, Run>, intents: set<Intent>)

  /** One advance, a look at the task, or something done to it from outside the flow; `Judge` is the acceptance
      `workflow.evaluate` gives a task that has no flow. */
  datatype Event =
    | Poll(turn: Turn)
    | Inspect(turn: Turn)
    | Start(ask: Ask)
    | Judge(acceptance: Acceptance)
    | Cancel
    | Resume
    | Hold
    | Change
    | Report(run: nat, state: RunState, cancel: bool, report: Option<QualityFlow.Report>)

  datatype Act = Act(task: nat, event: Event)

  /** Task `id` and the runs it points at. */
  predicate Known(w: World, id: nat) {
    && id in w.tasks && w.tasks[id].current in w.runs
    && (w.tasks[id].quality.phase != Unstarted ==> w.tasks[id].quality.implementation in w.runs)
  }

  function ImplementationOf(w: World, id: nat): Run
    requires Known(w, id)
  {
    var q := w.tasks[id].quality;
    if q.phase == Unstarted then w.runs[w.tasks[id].current] else w.runs[q.implementation]
  }

  function Write(w: World, id: nat, e: Effect): World {
    if e.issued.None? then w.(tasks := w.tasks[id := e.task])
    else World(w.tasks[id := e.task], w.runs[e.issued.value.id := e.issued.value.run],
               w.intents + {e.issued.value.intent})
  }

  function Polled(w: World, id: nat, x: Turn, lim: Limits): Effect
    requires Known(w, id)
  {
    Advanced(id, w.tasks[id], w.runs[w.tasks[id].current], ImplementationOf(w, id), w.intents, x, lim)
  }

  /** What `event` does to the task itself. */
  function Touched(w: World, id: nat, event: Event, lim: Limits): Effect
    requires Known(w, id)
  {
    var t := w.tasks[id];
    match event
    case Poll(x) => Polled(w, id, x, lim)
    case Inspect(x) => Keep(Inspected(t, ImplementationOf(w, id), x))
    case Start(ask) =>
      var r := StartOutcome(t, w.runs[t.current], ImplementationOf(w, id), ask);
      Keep(if r.Ok? then r.value else t)
    case Judge(a) => Keep(if t.quality.phase == Unstarted then t.(acceptance := a) else t)
    case Cancel => Keep(Stopped(t))
    case Resume => Keep(t.(paused := false, human := false))
    case Hold => Keep(t.(paused := true, human := true))
    case Change => Keep(t.(stale := true, acceptance := if t.acceptance == Passed then Pending else t.acceptance))
    case Report(_, _, _, _) => Keep(t)
  }

  /** A new run gets an id nobody has. */
  predicate Enabled(w: World, act: Act) {
    && Known(w, act.task)
    && (act.event.Poll? ==> act.event.turn.newRun !in w.runs)
    && (act.event.Report? ==> act.event.run in w.runs)
  }

  function Next(w: World, act: Act, lim: Limits): World
    requires Enabled(w, act)
  {
    if act.event.Report? then
      var r := act.event;
      w.(runs := w.runs[r.run := w.runs[r.run].(state := r.state, cancelRequested := r.cancel, report := r.report)])
    else Write(w, act.task, Touched(w, act.task, act.event, lim))
  }

  ghost predicate Possible(w: World, acts: seq<Act>, lim: Limits)
    decreases |acts|
  {
    acts == [] || (Enabled(w, acts[0]) && Possible(Next(w, acts[0], lim), acts[1..], lim))
  }

  ghost function Execute(w: World, acts: seq<Act>, lim: Limits): World
    requires Possible(w, acts, lim)
    decreases |acts|
  {
    if acts == [] then w else Execute(Next(w, acts[0], lim), acts[1..], lim)
  }

  // -------------------------------------------------------------- the invariant

  /** The newest review is clean, its checks passed, and it looked at the flow's target. */
  predicate CleanlyReviewed(q: Quality) {
    && q.reviews != []
    && var last := q.reviews[|q.reviews| - 1];
       last.findings == [] && last.checksPassed && last.target == q.target && last.implementation == q.implementation
  }

  /** No intent stands in the way of the next one this flow will commit. */
  predicate Uncommitted(id: nat, t: Task, used: set<Intent>) {
    match t.quality.phase
    case Checking => ReviewIntent(id, t) !in used && RepairIntent(id, t) !in used
    case Reviewing => RepairIntent(id, t) !in used
    case Reviewed => RepairIntent(id, t) !in used
    case Repairing => RepairIntent(id, t) !in used && Intent(id, ReviewOf, t.quality.key, t.current) !in used
    case _ => true
  }

  predicate TaskOk(id: nat, t: Task, used: set<Intent>, lim: Limits) {
    && t.runCount <= lim.runs
    && (t.acceptance == Passed && t.quality.phase != Unstarted ==> t.quality.phase == Completed)
    && (t.quality.phase in {AwaitingStages, Completed} ==> CleanlyReviewed(t.quality))
    && Uncommitted(id, t, used)
  }

  /** Intents speak of existing runs, and of flows their task has started. */
  ghost predicate IntentsOk(w: World) {
    forall i :: i in w.intents ==> i.run in w.runs && i.task in w.tasks && i.key in w.tasks[i.task].quality.requests
  }

  ghost predicate WorldOk(w: World, lim: Limits) {
    && IntentsOk(w)
    && (forall id :: id in w.tasks ==> Known(w, id) && TaskOk(id, w.tasks[id], w.intents, lim)
                                       && (w.tasks[id].quality.phase != Unstarted
                                           ==> w.tasks[id].quality.key in w.tasks[id].quality.requests))
  }

  // -------------------------------------------------------------- one advance

  /** The effect `e` on task `t` is one the invariant survives; `fresh` runs are the only new ones. */
  predicate Good(id: nat, t: Task, e: Effect, used: set<Intent>, lim: Limits) {
    && TaskOk(id, e.task, if e.issued.Some? then used + {e.issued.value.intent} else used, lim)
    && e.task.quality.requests == t.quality.requests && e.task.quality.key == t.quality.key
    && (e.issued.Some? ==> e.issued.value.intent.task == id && e.issued.value.intent.key == t.quality.key
                           && e.issued.value.intent !in used)
    && (e.task.current == t.current || (e.issued.Some? && e.task.current == e.issued.value.id))
    && (e.task.quality.implementation in {t.quality.implementation, t.current})
    && (e.issued.Some? ==> e.issued.value.intent.run in {t.quality.implementation, t.current})
  }

  predicate FreshFor(id: nat, used: set<Intent>, run: nat) {
    forall i :: i in used ==> i.run != run
  }

  /** The flow only stopped, or nothing happened. */
  predicate Quiet(t: Task, e: Effect) {
    && e.issued.None? && e.task.runCount == t.runCount && e.task.current == t.current
    && (e.task.acceptance == Pending || e.task.acceptance == t.acceptance)
    && (e.task.quality.phase == t.quality.phase || (e.task.quality.phase in {Stale, Blocked} && e.task.acceptance == Pending))
    && e.task.quality == t.quality.(phase := e.task.quality.phase)
  }

  predicate Repaired(t: Task, x: Turn, e: Effect) {
    t.quality.phase == Repairing && x.capture.Ok? && e == Keep(RepairedTask(t, x.capture.value))
  }

  lemma SettledCases(t: Task, x: Turn, p: Outcome)
    ensures var o := Settled(t, x, p);
            o == p || Quiet(t, Handled(o)) || Repaired(t, x, Handled(o))
    ensures x.checks.Err? || t.quality.phase == Repairing
            ==> Quiet(t, Handled(Settled(t, x, p))) || Repaired(t, x, Handled(Settled(t, x, p)))
  {
  }

  lemma AuthorizedCases(t: Task, run: Run, x: Turn, p: Outcome)
    ensures Authorized(t, run, x, p) == p || Quiet(t, Handled(Authorized(t, run, x, p)))
  {
  }

  /** One advance leaves the flow alone, stops it, takes a repaired target over, or does what its phase says. */
  lemma AdvancedCases(id: nat, t: Task, run: Run, implementation: Run, used: set<Intent>, x: Turn, lim: Limits)
    returns (e: Effect)
    ensures e == Advanced(id, t, run, implementation, used, x, lim)
    ensures || Quiet(t, e) || Repaired(t, x, e)
            || (!Closed(t.quality.phase) && t.quality.phase != Repairing && x.checks.Ok?
                && e == Handled(PhaseOutcome(id, t, run, implementation, used, x.checks.value, x, lim)))
  {
    e := Advanced(id, t, run, implementation, used, x, lim);
    var p := if x.checks.Ok? then PhaseOutcome(id, t, run, implementation, used, x.checks.value, x, lim) else Done(Keep(t));
    SettledCases(t, x, p);
    AuthorizedCases(t, run, x, Settled(t, x, p));
  }

  /** A run was committed for `next`, and its dispatch may have failed since. */
  predicate Begins(next: Task, issue: Issue, e: Effect) {
    && e.issued == Some(issue)
    && (e.task == next || e.task == Pause(next) || e.task == WithPhase(Pause(next), Blocked))
  }

  lemma CommitBegins(next: Task, issue: Issue, x: Turn)
    ensures Begins(next, issue, Handled(Commit(next, issue, x)))
  {
  }

  function RepairIssue(id: nat, t: Task, x: Turn): Issue {
    Issue(x.newRun, NewRun(Repairer, t.quality.target, x), RepairIntent(id, t))
  }

  function ReviewIssue(id: nat, t: Task, x: Turn): Issue {
    Issue(x.newRun, NewRun(Reviewer, t.quality.target, x), ReviewIntent(id, t))
  }

  lemma RepairCases(id: nat, t: Task, used: set<Intent>, x: Turn, lim: Limits) returns (e: Effect)
    ensures e == Handled(RepairOutcome(id, t, used, x, lim))
    ensures || Quiet(t, e)
            || (RepairIntent(id, t) !in used && t.runCount < lim.runs && Begins(RepairTask(t, x), RepairIssue(id, t, x), e))
  {
    e := Handled(RepairOutcome(id, t, used, x, lim));
    CommitBegins(RepairTask(t, x), RepairIssue(id, t, x), x);
  }

  lemma ReviewCases(id: nat, t: Task, used: set<Intent>, x: Turn, lim: Limits) returns (e: Effect)
    ensures e == Handled(ReviewOutcome(id, t, used, x, lim))
    ensures || Quiet(t, e)
            || (ReviewIntent(id, t) !in used && t.runCount < lim.runs && Begins(ReviewTask(t, x), ReviewIssue(id, t, x), e))
  {
    e := Handled(ReviewOutcome(id, t, used, x, lim));
    CommitBegins(ReviewTask(t, x), ReviewIssue(id, t, x), x);
  }

  lemma BegunRepairGood(id: nat, t: Task, used: set<Intent>, x: Turn, lim: Limits, e: Effect)
    requires t.runCount < lim.runs && FreshFor(id, used, x.newRun) && x.newRun !in {t.current, t.quality.implementation}
    requires RepairIntent(id, t) !in used && Begins(RepairTask(t, x), RepairIssue(id, t, x), e)
    ensures Good(id, t, e, used, lim)
  {
  }

  lemma BegunReviewGood(id: nat, t: Task, used: set<Intent>, x: Turn, lim: Limits, e: Effect)
    requires t.runCount < lim.runs && FreshFor(id, used, x.newRun) && x.newRun !in {t.current, t.quality.implementation}
    requires t.acceptance != Passed && ReviewIntent(id, t) !in used && Begins(ReviewTask(t, x), ReviewIssue(id, t, x), e)
    ensures Good(id, t, e, used, lim)
  {
  }

  lemma RepairGood(id: nat, t: Task, used: set<Intent>, x: Turn, lim: Limits)
    requires t.quality.phase in {Checking, Reviewed} && TaskOk(id, t, used, lim)
    requires FreshFor(id, used, x.newRun) && x.newRun !in {t.current, t.quality.implementation}
    ensures Good(id, t, Handled(RepairOutcome(id, t, used, x, lim)), used, lim)
  {
    var e := RepairCases(id, t, used, x, lim);
    if Quiet(t, e) {
      QuietGood(id, t, e, used, x, lim);
    } else {
      BegunRepairGood(id, t, used, x, lim, e);
    }
  }

  lemma ReviewGood(id: nat, t: Task, used: set<Intent>, x: Turn, lim: Limits)
    requires t.quality.phase == Checking && TaskOk(id, t, used, lim)
    requires FreshFor(id, used, x.newRun) && x.newRun !in {t.current, t.quality.implementation}
    ensures Good(id, t, Handled(ReviewOutcome(id, t, used, x, lim)), used, lim)
  {
    var e := ReviewCases(id, t, used, x, lim);
    if Quiet(t, e) {
      QuietGood(id, t, e, used, x, lim);
    } else {
      BegunReviewGood(id, t, used, x, lim, e);
    }
  }

  lemma ReviewedGood(id: nat, t: Task, used: set<Intent>, findings: seq<nat>, checks: seq<Check>, passed: bool, lim: Limits)
    requires TaskOk(id, t, used, lim) && t.quality.phase == Reviewing
    ensures Good(id, t, Keep(ReviewedTask(t, findings, checks, passed)), used, lim)
  {
  }

  lemma ReviewingCases(t: Task, run: Run, implementation: Run, checks: seq<Check>, x: Turn) returns (e: Effect)
    ensures e == Handled(ReviewingOutcome(t, run, implementation, checks, x))
    ensures || Quiet(t, e)
            || (Bound(t, run)
                && e == Keep(ReviewedTask(t, run.report.value.findings, checks, Evaluate(checks, implementation) == Passed)))
            || (x.gate.Ok? && e == Keep(CleanTask(t, implementation, x.gate.value, x.dependency)))
  {
    e := Handled(ReviewingOutcome(t, run, implementation, checks, x));
  }

  lemma ReviewingGood(id: nat, t: Task, run: Run, implementation: Run, used: set<Intent>, checks: seq<Check>, x: Turn,
                      lim: Limits)
    requires TaskOk(id, t, used, lim) && t.quality.phase == Reviewing
    ensures Good(id, t, Handled(ReviewingOutcome(t, run, implementation, checks, x)), used, lim)
  {
    var e := ReviewingCases(t, run, implementation, checks, x);
    if Quiet(t, e) {
      QuietGood(id, t, e, used, x, lim);
    } else if x.gate.Ok? && e == Keep(CleanTask(t, implementation, x.gate.value, x.dependency)) {
      CleanGood(id, t, implementation, used, x.gate.value, x.dependency, lim);
    } else {
      ReviewedGood(id, t, used, run.report.value.findings, checks, Evaluate(checks, implementation) == Passed, lim);
    }
  }

  lemma CheckingGood(id: nat, t: Task, implementation: Run, used: set<Intent>, checks: seq<Check>, x: Turn, lim: Limits)
    requires TaskOk(id, t, used, lim) && t.quality.phase == Checking
    requires FreshFor(id, used, x.newRun) && x.newRun !in {t.current, t.quality.implementation}
    ensures Good(id, t, Handled(CheckingOutcome(id, t, implementation, used, checks, x, lim)), used, lim)
  {
    if Evaluate(checks, implementation) != Passed {
      RepairGood(id, CheckedTask(t, checks), used, x, lim);
    } else {
      ReviewGood(id, t, used, x, lim);
    }
  }

  lemma CleanGood(id: nat, t: Task, implementation: Run, used: set<Intent>, gate: Option<seq<Row>>,
                  dependency: Option<bool>, lim: Limits)
    requires TaskOk(id, t, used, lim) && t.quality.phase == Reviewing
    ensures Good(id, t, Keep(CleanTask(t, implementation, gate, dependency)), used, lim)
  {
    AcceptedExactly(Passed, gate, dependency);
  }

  lemma StagesGood(id: nat, t: Task, implementation: Run, used: set<Intent>, checks: seq<Check>, x: Turn, lim: Limits)
    requires TaskOk(id, t, used, lim) && t.quality.phase == AwaitingStages
    ensures Good(id, t, Handled(StagesOutcome(t, implementation, checks, x)), used, lim)
  {
    if x.gate.Ok? {
      AcceptedExactly(Evaluate(checks, implementation), x.gate.value, x.dependency);
    }
  }

  lemma PhaseGood(id: nat, t: Task, run: Run, implementation: Run, used: set<Intent>, checks: seq<Check>, x: Turn,
                  lim: Limits)
    requires TaskOk(id, t, used, lim) && !Closed(t.quality.phase)
    requires FreshFor(id, used, x.newRun) && x.newRun !in {t.current, t.quality.implementation}
    ensures Good(id, t, Handled(PhaseOutcome(id, t, run, implementation, used, checks, x, lim)), used, lim)
  {
    match t.quality.phase
    case AwaitingStages => StagesGood(id, t, implementation, used, checks, x, lim);
    case Reviewing => ReviewingGood(id, t, run, implementation, used, checks, x, lim);
    case Reviewed => RepairGood(id, t, used, x, lim);
    case Checking => CheckingGood(id, t, implementation, used, checks, x, lim);
    case _ =>
  }

  lemma QuietGood(id: nat, t: Task, e: Effect, used: set<Intent>, x: Turn, lim: Limits)
    requires TaskOk(id, t, used, lim) && (Quiet(t, e) || Repaired(t, x, e))
    ensures Good(id, t, e, used, lim)
  {
  }

  /** One advance keeps what the invariant says of its task. */
  lemma TurnGood(id: nat, t: Task, run: Run, implementation: Run, used: set<Intent>, x: Turn, lim: Limits)
    requires TaskOk(id, t, used, lim)
    requires FreshFor(id, used, x.newRun) && x.newRun !in {t.current, t.quality.implementation}
    ensures Good(id, t, Advanced(id, t, run, implementation, used, x, lim), used, lim)
  {
    var e := AdvancedCases(id, t, run, implementation, used, x, lim);
    if Quiet(t, e) || Repaired(t, x, e) {
      QuietGood(id, t, e, used, x, lim);
    } else {
      PhaseGood(id, t, run, implementation, used, x.checks.value, x, lim);
    }
  }

  // -------------------------------------------------------------- the invariant over the world

  lemma IntentsGrow(id: nat, other: nat, t: Task, used: set<Intent>, issued: Intent, lim: Limits)
    requires TaskOk(other, t, used, lim) && id != other && issued.task == id
    ensures TaskOk(other, t, used + {issued}, lim)
  {
  }

  lemma WriteKeeps(w: World, id: nat, e: Effect, lim: Limits)
    requires WorldOk(w, lim) && id in w.tasks && Good(id, w.tasks[id], e, w.intents, lim)
    requires w.tasks[id].quality.phase != Unstarted && e.task.quality.phase != Unstarted
    ensures WorldOk(Write(w, id, e), lim)
  {
    var v := Write(w, id, e);
    forall other | other in v.tasks
      ensures Known(v, other) && TaskOk(other, v.tasks[other], v.intents, lim)
    {
      if other != id && e.issued.Some? {
        IntentsGrow(id, other, w.tasks[other], w.intents, e.issued.value.intent, lim);
      }
    }
  }

  lemma PollKeeps(w: World, id: nat, x: Turn, lim: Limits)
    requires WorldOk(w, lim) && Known(w, id) && x.newRun !in w.runs
    ensures WorldOk(Write(w, id, Polled(w, id, x, lim)), lim)
  {
    var t := w.tasks[id];
    if t.quality.phase == Unstarted {
      assert Polled(w, id, x, lim) == Keep(t);
      assert Write(w, id, Keep(t)).tasks == w.tasks;
    } else {
      assert FreshFor(id, w.intents, x.newRun);
      TurnGood(id, t, w.runs[t.current], ImplementationOf(w, id), w.intents, x, lim);
      PollCounts(id, t, w.runs[t.current], ImplementationOf(w, id), w.intents, x, lim);
      WriteKeeps(w, id, Polled(w, id, x, lim), lim);
    }
  }

  /** Writing one task back without a new run. */
  lemma TouchKeeps(w: World, id: nat, t: Task, lim: Limits)
    requires WorldOk(w, lim) && Known(w, id) && TaskOk(id, t, w.intents, lim)
    requires t.current == w.tasks[id].current
    requires t.quality.phase != Unstarted ==> t.quality.implementation in w.runs && t.quality.key in t.quality.requests
    requires w.tasks[id].quality.requests.Keys <= t.quality.requests.Keys
    ensures WorldOk(Write(w, id, Keep(t)), lim)
  {
    var v := Write(w, id, Keep(t));
    forall other | other in v.tasks
      ensures Known(v, other) && TaskOk(other, v.tasks[other], v.intents, lim)
    {
    }
  }

  lemma StartKeeps(w: World, id: nat, ask: Ask, lim: Limits)
    requires WorldOk(w, lim) && Known(w, id)
    ensures WorldOk(Write(w, id, Touched(w, id, Start(ask), lim)), lim)
  {
    var t := w.tasks[id];
    var after := Touched(w, id, Start(ask), lim).task;
    if after != t {
      assert ReviewIntent(id, after) !in w.intents && RepairIntent(id, after) !in w.intents;
    }
    TouchKeeps(w, id, after, lim);
  }

  lemma InspectKeeps(w: World, id: nat, x: Turn, lim: Limits)
    requires WorldOk(w, lim) && Known(w, id)
    ensures WorldOk(Write(w, id, Touched(w, id, Inspect(x), lim)), lim)
  {
    var t := Validated(w.tasks[id], ImplementationOf(w, id), x);
    assert TaskOk(id, t, w.intents, lim);
    assert TaskOk(id, Revalidated(t, x.gate), w.intents, lim);
    TouchKeeps(w, id, Inspected(w.tasks[id], ImplementationOf(w, id), x), lim);
  }

  /** Every step keeps the invariant. */
  lemma NextKeeps(w: World, act: Act, lim: Limits)
    requires WorldOk(w, lim) && Enabled(w, act)
    ensures WorldOk(Next(w, act, lim), lim)
  {
    var id := act.task;
    match act.event
    case Poll(x) => PollKeeps(w, id, x, lim);
    case Inspect(x) => InspectKeeps(w, id, x, lim);
    case Start(ask) => StartKeeps(w, id, ask, lim);
    case Judge(a) => TouchKeeps(w, id, Touched(w, id, Judge(a), lim).task, lim);
    case Cancel => TouchKeeps(w, id, Touched(w, id, Cancel, lim).task, lim);
    case Resume => TouchKeeps(w, id, Touched(w, id, Resume, lim).task, lim);
    case Hold => TouchKeeps(w, id, Touched(w, id, Hold, lim).task, lim);
    case Change => TouchKeeps(w, id, Touched(w, id, Change, lim).task, lim);
    case Report(run, state, cancel, report) =>
      var v := Next(w, act, lim);
      forall other | other in v.tasks ensures Known(v, other) && TaskOk(other, v.tasks[other], v.intents, lim) {
      }
  }

  lemma {:induction false} ExecuteKeeps(w: World, acts: seq<Act>, lim: Limits)
    requires WorldOk(w, lim) && Possible(w, acts, lim)
    ensures WorldOk(Execute(w, acts, lim), lim)
    decreases |acts|
  {
    if acts != [] {
      NextKeeps(w, acts[0], lim);
      ExecuteKeeps(Next(w, acts[0], lim), acts[1..], lim);
    }
  }

  // -------------------------------------------------------------- budgets and the measure

  function Rank(p: Phase): nat {
    match p
    case Reviewing => 3
    case Repairing => 2
    case AwaitingStages => 2
    case Checking => 1
    case Reviewed => 1
    case Completed => 1
    case _ => 0
  }

  function Measure(t: Task, lim: Limits): int {
    3 * (lim.runs - t.runCount) + Rank(t.quality.phase)
  }

  predicate Moved(before: Task, after: Task) {
    before.quality.phase != after.quality.phase || before.runCount != after.runCount
  }

  predicate Falls(before: Task, after: Task, lim: Limits) {
    Moved(before, after) ==> Measure(after, lim) < Measure(before, lim)
  }

  lemma CheckingFalls(id: nat, t: Task, implementation: Run, used: set<Intent>, checks: seq<Check>, x: Turn, lim: Limits)
    requires t.quality.phase == Checking
    ensures Falls(t, Handled(CheckingOutcome(id, t, implementation, used, checks, x, lim)).task, lim)
  {
    if Evaluate(checks, implementation) != Passed {
      RepairFalls(id, CheckedTask(t, checks), used, x, lim);
    } else {
      ReviewFalls(id, t, used, x, lim);
    }
  }

  lemma ReviewingFalls(t: Task, run: Run, implementation: Run, checks: seq<Check>, x: Turn, lim: Limits)
    requires t.quality.phase == Reviewing
    ensures Falls(t, Handled(ReviewingOutcome(t, run, implementation, checks, x)).task, lim)
  {
  }

  lemma StagesFall(t: Task, implementation: Run, checks: seq<Check>, x: Turn, lim: Limits)
    requires t.quality.phase == AwaitingStages
    ensures Falls(t, Handled(StagesOutcome(t, implementation, checks, x)).task, lim)
  {
  }

  lemma PhaseFalls(id: nat, t: Task, run: Run, implementation: Run, used: set<Intent>, checks: seq<Check>, x: Turn,
                   lim: Limits)
    requires !Closed(t.quality.phase)
    ensures Falls(t, Handled(PhaseOutcome(id, t, run, implementation, used, checks, x, lim)).task, lim)
  {
    match t.quality.phase
    case Checking => CheckingFalls(id, t, implementation, used, checks, x, lim);
    case Reviewed => RepairFalls(id, t, used, x, lim);
    case Reviewing => ReviewingFalls(t, run, implementation, checks, x, lim);
    case AwaitingStages => StagesFall(t, implementation, checks, x, lim);
    case _ =>
  }

  /** One advance that changes the phase, or starts a run, lowers the measure. */
  lemma AdvanceFalls(id: nat, t: Task, run: Run, implementation: Run, used: set<Intent>, x: Turn, lim: Limits)
    ensures Falls(t, Advanced(id, t, run, implementation, used, x, lim).task, lim)
  {
    var e := AdvancedCases(id, t, run, implementation, used, x, lim);
    if !Quiet(t, e) && !Repaired(t, x, e) {
      PhaseFalls(id, t, run, implementation, used, x.checks.value, x, lim);
    }
  }

  lemma RepairFalls(id: nat, t: Task, used: set<Intent>, x: Turn, lim: Limits)
    requires t.quality.phase in {Checking, Reviewed}
    ensures Falls(t, Handled(RepairOutcome(id, t, used, x, lim)).task, lim)
  {
    var e := RepairCases(id, t, used, x, lim);
  }

  lemma ReviewFalls(id: nat, t: Task, used: set<Intent>, x: Turn, lim: Limits)
    requires t.quality.phase in {Checking, Reviewed}
    ensures Falls(t, Handled(ReviewOutcome(id, t, used, x, lim)).task, lim)
  {
    var e := ReviewCases(id, t, used, x, lim);
  }

  function Starts(id: nat, acts: seq<Act>): nat {
    if acts == [] then 0 else (if acts[0].task == id && acts[0].event.Start? then 1 else 0) + Starts(id, acts[1..])
  }

  /** How often task `id` changed phase or began a run. */
  ghost function Moves(w: World, id: nat, acts: seq<Act>, lim: Limits): nat
    requires Possible(w, acts, lim) && Known(w, id)
    decreases |acts|
  {
    if acts == [] then 0
    else
      var v := Next(w, acts[0], lim);
      if !Known(v, id) then 0
      else (if Moved(w.tasks[id], v.tasks[id]) then 1 else 0) + Moves(v, id, acts[1..], lim)
  }

  /** Events other than advances and starts never move a flow upwards. */
  lemma EventFalls(w: World, id: nat, event: Event, lim: Limits)
    requires Known(w, id) && !event.Poll? && !event.Start?
    ensures Falls(w.tasks[id], Touched(w, id, event, lim).task, lim)
  {
  }

  lemma StartFalls(w: World, id: nat, ask: Ask, lim: Limits)
    requires Known(w, id)
    ensures var t, after := w.tasks[id], Touched(w, id, Start(ask), lim).task;
            Measure(after, lim) + (if Moved(t, after) then 1 else 0) <= Measure(t, lim) + 2
  {
  }

  lemma StepFalls(w: World, act: Act, id: nat, lim: Limits)
    requires Enabled(w, act) && Known(w, id)
    ensures id in Next(w, act, lim).tasks
    ensures var t, after := w.tasks[id], Next(w, act, lim).tasks[id];
            Measure(after, lim) + (if Moved(t, after) then 1 else 0)
            <= Measure(t, lim) + (if act.task == id && act.event.Start? then 2 else 0)
  {
    var t := w.tasks[id];
    if act.task == id {
      if act.event.Poll? {
        AdvanceFalls(id, t, w.runs[t.current], ImplementationOf(w, id), w.intents, act.event.turn, lim);
      } else if act.event.Start? {
        StartFalls(w, id, act.event.ask, lim);
      } else {
        EventFalls(w, id, act.event, lim);
      }
    }
  }

  /** Over any history the flow changes phase at most as often as the measure allows, plus twice per
      explicit start: with a fixed budget it cannot go round for ever, whatever the world answers. */
  lemma {:induction false} MovesBounded(w: World, id: nat, acts: seq<Act>, lim: Limits)
    requires WorldOk(w, lim) && Possible(w, acts, lim) && Known(w, id)
    ensures Moves(w, id, acts, lim) <= Measure(w.tasks[id], lim) + 2 * Starts(id, acts)
    decreases |acts|
  {
    if acts != [] {
      var v := Next(w, acts[0], lim);
      NextKeeps(w, acts[0], lim);
      StepFalls(w, acts[0], id, lim);
      MovesBounded(v, id, acts[1..], lim);
    }
  }

  /** Runs per task: never more than the limit, and every run counted was committed by an intent. */
  lemma RunsBounded(w: World, id: nat, acts: seq<Act>, lim: Limits)
    requires WorldOk(w, lim) && Possible(w, acts, lim) && id in Execute(w, acts, lim).tasks
    ensures Execute(w, acts, lim).tasks[id].runCount <= lim.runs
  {
    ExecuteKeeps(w, acts, lim);
  }

  // -------------------------------------------------------------- what a run costs

  ghost function Committed(w: World, id: nat): set<Intent> {
    set i | i in w.intents && i.task == id
  }

  /** What writing an effect does to the intents of task `id`. */
  lemma WriteCounts(w: World, task: nat, e: Effect, id: nat)
    requires e.issued.Some? ==> e.issued.value.intent.task == task && e.issued.value.intent !in w.intents
    ensures |Committed(Write(w, task, e), id)|
         == |Committed(w, id)| + (if e.issued.Some? && task == id then 1 else 0)
  {
    if e.issued.Some? && task == id {
      assert Committed(Write(w, task, e), id) == Committed(w, id) + {e.issued.value.intent};
    } else {
      assert Committed(Write(w, task, e), id) == Committed(w, id);
    }
  }

  lemma PollStepCounts(w: World, task: nat, x: Turn, id: nat, lim: Limits)
    requires WorldOk(w, lim) && Known(w, task) && x.newRun !in w.runs && id in w.tasks
    ensures var v := Write(w, task, Polled(w, task, x, lim));
            && id in v.tasks
            && v.tasks[id].runCount - w.tasks[id].runCount == |Committed(v, id)| - |Committed(w, id)|
  {
    var t := w.tasks[task];
    PollCounts(task, t, w.runs[t.current], ImplementationOf(w, task), w.intents, x, lim);
    PollIssuesNew(w, task, x, lim);
    WriteCounts(w, task, Polled(w, task, x, lim), id);
  }

  lemma EventIssuesNothing(w: World, id: nat, event: Event, lim: Limits)
    requires Known(w, id) && !event.Poll?
    ensures Touched(w, id, event, lim).issued.None? && Touched(w, id, event, lim).task.runCount == w.tasks[id].runCount
  {
  }

  lemma StepCounts(w: World, act: Act, id: nat, lim: Limits)
    requires WorldOk(w, lim) && Enabled(w, act) && Known(w, id)
    ensures id in Next(w, act, lim).tasks
    ensures Next(w, act, lim).tasks[id].runCount - w.tasks[id].runCount
         == |Committed(Next(w, act, lim), id)| - |Committed(w, id)|
  {
    if act.event.Poll? {
      PollStepCounts(w, act.task, act.event.turn, id, lim);
    } else {
      EventIssuesNothing(w, act.task, act.event, lim);
      assert Next(w, act, lim).intents == w.intents;
      assert Committed(Next(w, act, lim), id) == Committed(w, id);
    }
  }

  /** One run and one intent at most, and the flow and the requests that opened it are not forgotten. */
  predicate Counted(id: nat, t: Task, e: Effect) {
    && e.task.quality.requests == t.quality.requests
    && (t.quality.phase != Unstarted ==> e.task.quality.phase != Unstarted)
    && e.task.runCount == t.runCount + (if e.issued.Some? then 1 else 0)
    && (e.issued.Some? ==> e.issued.value.intent.task == id)
  }

  lemma RepairCounts(id: nat, t: Task, used: set<Intent>, x: Turn, lim: Limits)
    ensures Counted(id, t, Handled(RepairOutcome(id, t, used, x, lim)))
  {
    var e := RepairCases(id, t, used, x, lim);
  }

  lemma ReviewCounts(id: nat, t: Task, used: set<Intent>, x: Turn, lim: Limits)
    ensures Counted(id, t, Handled(ReviewOutcome(id, t, used, x, lim)))
  {
    var e := ReviewCases(id, t, used, x, lim);
  }

  lemma CheckingCounts(id: nat, t: Task, implementation: Run, used: set<Intent>, checks: seq<Check>, x: Turn, lim: Limits)
    ensures Counted(id, t, Handled(CheckingOutcome(id, t, implementation, used, checks, x, lim)))
  {
    if Evaluate(checks, implementation) != Passed {
      RepairCounts(id, CheckedTask(t, checks), used, x, lim);
    } else {
      ReviewCounts(id, t, used, x, lim);
    }
  }

  lemma ReviewingCounts(id: nat, t: Task, run: Run, implementation: Run, checks: seq<Check>, x: Turn)
    ensures Counted(id, t, Handled(ReviewingOutcome(t, run, implementation, checks, x)))
  {
  }

  lemma StagesCount(id: nat, t: Task, implementation: Run, checks: seq<Check>, x: Turn)
    ensures Counted(id, t, Handled(StagesOutcome(t, implementation, checks, x)))
  {
  }

  lemma PhaseCounts(id: nat, t: Task, run: Run, implementation: Run, used: set<Intent>, checks: seq<Check>, x: Turn,
                    lim: Limits)
    ensures Counted(id, t, Handled(PhaseOutcome(id, t, run, implementation, used, checks, x, lim)))
  {
    match t.quality.phase
    case Checking => CheckingCounts(id, t, implementation, used, checks, x, lim);
    case Reviewed => RepairCounts(id, t, used, x, lim);
    case Reviewing => ReviewingCounts(id, t, run, implementation, checks, x);
    case AwaitingStages => StagesCount(id, t, implementation, checks, x);
    case _ =>
  }

  lemma PollCounts(id: nat, t: Task, run: Run, implementation: Run, used: set<Intent>, x: Turn, lim: Limits)
    ensures Counted(id, t, Advanced(id, t, run, implementation, used, x, lim))
  {
    var e := AdvancedCases(id, t, run, implementation, used, x, lim);
    if !Quiet(t, e) && !Repaired(t, x, e) {
      PhaseCounts(id, t, run, implementation, used, x.checks.value, x, lim);
    }
  }

  /** A committed intent is always a new one: no review and no repair is ever answered by a reused run. */
  lemma PollIssuesNew(w: World, id: nat, x: Turn, lim: Limits)
    requires WorldOk(w, lim) && Known(w, id) && x.newRun !in w.runs
    ensures Polled(w, id, x, lim).issued.Some? ==> Polled(w, id, x, lim).issued.value.intent !in w.intents
  {
    if w.tasks[id].quality.phase != Unstarted {
      assert FreshFor(id, w.intents, x.newRun);
      TurnGood(id, w.tasks[id], w.runs[w.tasks[id].current], ImplementationOf(w, id), w.intents, x, lim);
    }
  }

  /** Every run counted against the limit was committed by its own intent, so a history commits at most
      the runs the limit still allowed. */
  lemma {:induction false} RunsHaveIntents(w: World, id: nat, acts: seq<Act>, lim: Limits)
    requires WorldOk(w, lim) && Possible(w, acts, lim) && Known(w, id)
    ensures id in Execute(w, acts, lim).tasks
    ensures Execute(w, acts, lim).tasks[id].runCount - w.tasks[id].runCount
         == |Committed(Execute(w, acts, lim), id)| - |Committed(w, id)|
    ensures |Committed(Execute(w, acts, lim), id)| - |Committed(w, id)| <= lim.runs - w.tasks[id].runCount
    decreases |acts|
  {
    if acts != [] {
      NextKeeps(w, acts[0], lim);
      StepCounts(w, acts[0], id, lim);
      RunsHaveIntents(Next(w, acts[0], lim), id, acts[1..], lim);
    }
  }

  // -------------------------------------------------------------- what acceptance stands for

  /** What one advance must have seen to complete a flow. */
  predicate Earned(t: Task, run: Run, implementation: Run, x: Turn) {
    && x.refused.None? && !t.stale
    && run.state == Succeeded && !run.cancelRequested && implementation.state == Succeeded
    && x.capture == Ok(t.quality.target) && x.recapture == Ok(t.quality.target)
    && x.checks.Ok? && AnyIndependent(x.checks.value) && AllPass(x.checks.value)
    && x.gate.Ok? && GateMet(x.gate.value) && x.dependency != Some(false)
  }

  /** The flow has only its clean review, or the stages after one, to wait for. */
  predicate Ready(t: Task, run: Run) {
    || t.quality.phase == AwaitingStages
    || (t.quality.phase == Reviewing && Bound(t, run) && run.report.value.findings == [])
  }

  predicate Completes(o: Outcome) {
    Handled(o).task.quality.phase == Completed
  }

  lemma ReviewingCompletes(t: Task, run: Run, implementation: Run, checks: seq<Check>, x: Turn)
    requires t.quality.phase == Reviewing
    ensures Completes(ReviewingOutcome(t, run, implementation, checks, x))
        <==> Bound(t, run) && run.report.value.findings == [] && Evaluate(checks, implementation) == Passed
             && x.gate.Ok? && GateMet(x.gate.value) && x.dependency != Some(false)
  {
    FindingsEmpty(checks);
    if x.gate.Ok? {
      AcceptedExactly(Passed, x.gate.value, x.dependency);
    }
  }

  lemma StagesComplete(t: Task, implementation: Run, checks: seq<Check>, x: Turn)
    requires t.quality.phase == AwaitingStages
    ensures Completes(StagesOutcome(t, implementation, checks, x))
        <==> Evaluate(checks, implementation) == Passed
             && x.gate.Ok? && GateMet(x.gate.value) && x.dependency != Some(false)
  {
    if x.gate.Ok? {
      AcceptedExactly(Evaluate(checks, implementation), x.gate.value, x.dependency);
    }
  }

  /** Only a clean review, or the stages after one, completes a flow. */
  lemma PhaseCompletes(id: nat, t: Task, run: Run, implementation: Run, used: set<Intent>, checks: seq<Check>, x: Turn,
                       lim: Limits)
    requires !Closed(t.quality.phase)
    ensures Completes(PhaseOutcome(id, t, run, implementation, used, checks, x, lim))
        <==> Ready(t, run) && Evaluate(checks, implementation) == Passed
             && x.gate.Ok? && GateMet(x.gate.value) && x.dependency != Some(false)
  {
    match t.quality.phase
    case Reviewing => ReviewingCompletes(t, run, implementation, checks, x);
    case AwaitingStages => StagesComplete(t, implementation, checks, x);
    case Checking => StartingCompletesNothing(id, t, implementation, used, checks, x, lim);
    case Reviewed =>
    case _ =>
  }

  lemma StartingCompletesNothing(id: nat, t: Task, implementation: Run, used: set<Intent>, checks: seq<Check>, x: Turn,
                                 lim: Limits)
    requires t.quality.phase == Checking
    ensures !Completes(CheckingOutcome(id, t, implementation, used, checks, x, lim))
  {
    var repaired := RepairCases(id, CheckedTask(t, checks), used, x, lim);
    var reviewed := ReviewCases(id, t, used, x, lim);
  }

  lemma SettledCompletes(t: Task, x: Turn, p: Outcome)
    requires !Closed(t.quality.phase)
    ensures Completes(Settled(t, x, p))
        <==> x.capture.Ok? && t.quality.phase != Repairing && x.capture.value == t.quality.target && x.checks.Ok?
             && x.recapture == x.capture && Completes(p)
  {
  }

  lemma AuthorizedCompletes(t: Task, run: Run, x: Turn, p: Outcome)
    requires !Closed(t.quality.phase)
    ensures Completes(Authorized(t, run, x, p))
        <==> x.refused.None? && !t.stale && run.state == Succeeded && !run.cancelRequested && Completes(p)
  {
  }

  lemma SucceededCompletes(id: nat, t: Task, run: Run, implementation: Run, used: set<Intent>, x: Turn, lim: Limits)
    requires !Closed(t.quality.phase)
    ensures Completes(SucceededOutcome(id, t, run, implementation, used, x, lim))
        <==> Ready(t, run) && x.capture == Ok(t.quality.target) && x.recapture == Ok(t.quality.target)
             && x.checks.Ok? && Evaluate(x.checks.value, implementation) == Passed
             && x.gate.Ok? && GateMet(x.gate.value) && x.dependency != Some(false)
  {
    if x.checks.Ok? {
      PhaseCompletes(id, t, run, implementation, used, x.checks.value, x, lim);
      SettledCompletes(t, x, PhaseOutcome(id, t, run, implementation, used, x.checks.value, x, lim));
    } else {
      SettledCompletes(t, x, Done(Keep(t)));
    }
  }

  /** An advance completes a flow exactly when it earned it and only the review, or the stages after a
      clean review, were missing. */
  lemma CompletedExactly(id: nat, t: Task, run: Run, implementation: Run, used: set<Intent>, x: Turn, lim: Limits)
    requires !Closed(t.quality.phase) && !Held(t)
    ensures Advanced(id, t, run, implementation, used, x, lim).task.quality.phase == Completed
        <==> Earned(t, run, implementation, x) && Ready(t, run)
  {
    SucceededCompletes(id, t, run, implementation, used, x, lim);
    AuthorizedCompletes(t, run, x, SucceededOutcome(id, t, run, implementation, used, x, lim));
  }

  /** In every reachable world a PASSED task that was ever under a flow has completed it, on a clean review of
      the very target the flow is bound to. */
  lemma PassedIsReviewed(w: World, acts: seq<Act>, id: nat, lim: Limits)
    requires WorldOk(w, lim) && Possible(w, acts, lim) && id in Execute(w, acts, lim).tasks
    ensures var t := Execute(w, acts, lim).tasks[id];
            t.acceptance == Passed && t.quality.phase != Unstarted ==> t.quality.phase == Completed && CleanlyReviewed(t.quality)
  {
    ExecuteKeeps(w, acts, lim);
  }

  /** The flow's evidence holds as this look at it finds it. */
  predicate Current(t: Task, implementation: Run, x: Turn) {
    && t.quality.phase == Completed && !t.stale && x.refused.None? && x.capture == Ok(t.quality.target)
    && x.checks.Ok? && implementation.state == Succeeded && AnyIndependent(x.checks.value) && AllPass(x.checks.value)
  }

  /** Without stages the acceptance must have been there; with them it can come back, unless the task is paused. */
  predicate StagesMet(t: Task, gate: Result<Option<seq<Row>>>) {
    && gate.Ok?
    && (if gate.value.None? then t.acceptance == Passed
        else Satisfied(gate.value.value) && (t.acceptance == Passed || !t.paused))
  }

  lemma InspectedExactly(id: nat, t: Task, implementation: Run, used: set<Intent>, x: Turn, lim: Limits)
    requires TaskOk(id, t, used, lim) && t.quality.phase != Unstarted
    ensures Inspected(t, implementation, x).acceptance == Passed
        <==> Current(t, implementation, x) && StagesMet(t, x.gate) && x.dependency != Some(false)
  {
  }

  ghost function LookedAt(w: World, id: nat, x: Turn, lim: Limits): Task
    requires Known(w, id)
  {
    Touched(w, id, Inspect(x), lim).task
  }

  /** What the look found: current evidence, stages and dependencies met. */
  ghost predicate Evidenced(w: World, id: nat, x: Turn)
    requires Known(w, id)
  {
    var t := w.tasks[id];
    Current(t, ImplementationOf(w, id), x) && StagesMet(t, x.gate) && x.dependency != Some(false)
  }

  /** After any history, whoever looks at a task that was ever under a flow is told PASSED exactly when its flow
      completed, the target captured now is the one it completed on, the checks pass now, and its stages and
      dependencies are met; and then its newest review was clean and of that target. */
  lemma PassedWhenLookedAt(w: World, acts: seq<Act>, id: nat, x: Turn, lim: Limits)
    requires WorldOk(w, lim) && Possible(w, acts, lim) && Known(Execute(w, acts, lim), id)
    requires Execute(w, acts, lim).tasks[id].quality.phase != Unstarted
    ensures LookedAt(Execute(w, acts, lim), id, x, lim).acceptance == Passed
        <==> CleanlyReviewed(Execute(w, acts, lim).tasks[id].quality) && Evidenced(Execute(w, acts, lim), id, x)
  {
    var v := Execute(w, acts, lim);
    ExecuteKeeps(w, acts, lim);
    InspectedExactly(id, v.tasks[id], ImplementationOf(v, id), v.intents, x, lim);
  }

  /** A key stays bound to the request it first opened a flow for. */
  lemma {:induction false} KeyStaysBound(w: World, acts: seq<Act>, id: nat, key: nat, lim: Limits)
    requires Possible(w, acts, lim) && id in w.tasks && key in w.tasks[id].quality.requests
    ensures var v := Execute(w, acts, lim);
            && id in v.tasks && key in v.tasks[id].quality.requests
            && v.tasks[id].quality.requests[key] == w.tasks[id].quality.requests[key]
    decreases |acts|
  {
    if acts != [] {
      StepKeepsKeys(w, acts[0], id, key, lim);
      KeyStaysBound(Next(w, acts[0], lim), acts[1..], id, key, lim);
    }
  }

  lemma StepKeepsKeys(w: World, act: Act, id: nat, key: nat, lim: Limits)
    requires Enabled(w, act) && id in w.tasks && key in w.tasks[id].quality.requests
    ensures var v := Next(w, act, lim);
            && id in v.tasks && key in v.tasks[id].quality.requests
            && v.tasks[id].quality.requests[key] == w.tasks[id].quality.requests[key]
  {
    if act.task == id && act.event.Poll? {
      var t := w.tasks[id];
      PollCounts(id, t, w.runs[t.current], ImplementationOf(w, id), w.intents, act.event.turn, lim);
    }
  }

  /** A clean review that follows a repair closes every open finding by name; one that follows anything
      else empties the list without closing them. */
  lemma ClosedExactly(t: Task, implementation: Run, gate: Option<seq<Row>>, dependency: Option<bool>, f: nat)
    requires f in t.quality.open
    ensures var q := CleanTask(t, implementation, gate, dependency).quality;
            var closure := Closure(f, t.quality.implementation, t.current, t.quality.target);
            && q.open == []
            && (closure in q.closures <==> closure in t.quality.closures || implementation.role == Repairer)
  {
    var q := t.quality;
    var closed := Close(q.open, q.implementation, t.current, q.target);
    if implementation.role == Repairer {
      var k :| 0 <= k < |q.open| && q.open[k] == f;
      assert closed[k] in q.closures + closed;
    }
  }
}
