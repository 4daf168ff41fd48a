/** When a quality flow begins a run, what that run is bound to, and how many repairs a task can ever get. */
module QualityOutcomes {
  import opened Wrappers
  import opened QualityFlow
  import opened QualityRuns

  // ---------------------------------------------------------------- what one advance begins

  /** The task is in core hands, its run succeeded, and the target did not move on either side of the checks. */
  predicate Steady(t: Task, run: Run, x: Turn) {
    && !t.paused && !t.human && !t.stale && x.refused.None?
    && run.state == Succeeded && !run.cancelRequested
    && x.capture == Ok(t.quality.target) && x.recapture == Ok(t.quality.target) && x.checks.Ok?
  }

  /** The implementation succeeded and every check passes, one of them looking beyond the run. */
  predicate Sound(implementation: Run, checks: seq<Check>) {
    implementation.state == Succeeded && AnyIndependent(checks) && AllPass(checks)
  }

  /** The flow has come to where only a repair can follow. */
  predicate CallsForRepair(t: Task, run: Run, implementation: Run, x: Turn) {
    && Steady(t, run, x)
    && (t.quality.phase == Reviewed || (t.quality.phase == Checking && !Sound(implementation, x.checks.value)))
  }

  predicate CallsForReview(t: Task, run: Run, implementation: Run, x: Turn) {
    Steady(t, run, x) && t.quality.phase == Checking && Sound(implementation, x.checks.value)
  }

  /** A repair may begin: the flow consented to it, both budgets have room, its intent is new and nothing refuses. */
  predicate MayRepair(id: nat, t: Task, used: set<Intent>, x: Turn, lim: Limits) {
    && t.quality.autoRepair && t.repairCount < lim.repairs && t.runCount < lim.runs
    && Intent(id, RepairOf, t.quality.key, t.current) !in used
    && x.repairRefused.None? && x.repairUnavailable.None? && x.notAdmitted.None?
  }

  predicate MayReview(id: nat, t: Task, used: set<Intent>, x: Turn, lim: Limits) {
    && x.reviewer && t.runCount < lim.runs && Intent(id, ReviewOf, t.quality.key, t.quality.implementation) !in used
    && x.notAdmitted.None?
  }

  /** The committed run: bound to the flow's target, under the intent of its kind. */
  predicate Commits(id: nat, t: Task, x: Turn, issue: Issue, role: Role) {
    && issue.id == x.newRun && issue.run.role == role && issue.run.target == t.quality.target
    && !issue.run.cancelRequested && issue.run.report == None
    && issue.run.state == (if x.sendFailure.Some? then x.sendFailure.value.state else Working)
    && issue.intent == if role == Repairer then Intent(id, RepairOf, t.quality.key, t.current)
                       else Intent(id, ReviewOf, t.quality.key, t.quality.implementation)
  }

  lemma SettledIssues(t: Task, x: Turn, p: Outcome)
    ensures Handled(Settled(t, x, p)).issued
         == if x.capture == Ok(t.quality.target) && x.recapture == Ok(t.quality.target) && x.checks.Ok?
               && t.quality.phase != Repairing
            then Handled(p).issued else None
  {
  }

  lemma AuthorizedIssues(t: Task, run: Run, x: Turn, p: Outcome)
    ensures Handled(Authorized(t, run, x, p)).issued
         == if !t.stale && x.refused.None? && run.state == Succeeded && !run.cancelRequested then Handled(p).issued else None
  {
  }

  lemma RepairIssues(id: nat, t: Task, used: set<Intent>, x: Turn, lim: Limits)
    ensures var issued := Handled(RepairOutcome(id, t, used, x, lim)).issued;
            && (issued.Some? <==> MayRepair(id, t, used, x, lim))
            && (issued.Some? ==> Commits(id, t, x, issued.value, Repairer))
  {
  }

  lemma ReviewIssues(id: nat, t: Task, used: set<Intent>, x: Turn, lim: Limits)
    ensures var issued := Handled(ReviewOutcome(id, t, used, x, lim)).issued;
            && (issued.Some? <==> MayReview(id, t, used, x, lim))
            && (issued.Some? ==> Commits(id, t, x, issued.value, Reviewer))
  {
  }

  lemma EvaluatedSound(checks: seq<Check>, implementation: Run)
    ensures Evaluate(checks, implementation) == Passed <==> Sound(implementation, checks)
  {
  }

  lemma CheckingIssues(id: nat, t: Task, implementation: Run, used: set<Intent>, checks: seq<Check>, x: Turn, lim: Limits)
    ensures var issued := Handled(CheckingOutcome(id, t, implementation, used, checks, x, lim)).issued;
            if Sound(implementation, checks) then
              (issued.Some? <==> MayReview(id, t, used, x, lim)) && (issued.Some? ==> Commits(id, t, x, issued.value, Reviewer))
            else
              (issued.Some? <==> MayRepair(id, t, used, x, lim)) && (issued.Some? ==> Commits(id, t, x, issued.value, Repairer))
  {
    EvaluatedSound(checks, implementation);
    if Sound(implementation, checks) {
      ReviewIssues(id, t, used, x, lim);
    } else {
      RepairIssues(id, CheckedTask(t, checks), used, x, lim);
    }
  }

  /** What a phase begins once the target is steady. */
  predicate PhaseBegins(id: nat, t: Task, implementation: Run, used: set<Intent>, checks: seq<Check>, x: Turn, lim: Limits,
                        issued: Option<Issue>) {
    var repair := t.quality.phase == Reviewed || (t.quality.phase == Checking && !Sound(implementation, checks));
    var review := t.quality.phase == Checking && Sound(implementation, checks);
    && (issued.Some? <==> (repair && MayRepair(id, t, used, x, lim)) || (review && MayReview(id, t, used, x, lim)))
    && (issued.Some? ==> Commits(id, t, x, issued.value, if repair then Repairer else Reviewer))
  }

  lemma PhaseIssues(id: nat, t: Task, run: Run, implementation: Run, used: set<Intent>, checks: seq<Check>, x: Turn,
                    lim: Limits)
    ensures PhaseBegins(id, t, implementation, used, checks, x, lim,
                        Handled(PhaseOutcome(id, t, run, implementation, used, checks, x, lim)).issued)
  {
    match t.quality.phase
    case Checking => CheckingIssues(id, t, implementation, used, checks, x, lim);
    case Reviewed => RepairIssues(id, t, used, x, lim);
    case Reviewing => var e := ReviewingCases(t, run, implementation, checks, x);
    case AwaitingStages =>
    case _ =>
  }

  lemma AdvanceIssues(id: nat, t: Task, run: Run, implementation: Run, used: set<Intent>, x: Turn, lim: Limits)
    requires !Closed(t.quality.phase)
    ensures var issued := Advanced(id, t, run, implementation, used, x, lim).issued;
            && (!Steady(t, run, x) || t.quality.phase == Repairing ==> issued == None)
            && (Steady(t, run, x) && t.quality.phase != Repairing ==>
                  PhaseBegins(id, t, implementation, used, x.checks.value, x, lim, issued))
  {
    if x.checks.Ok? {
      var p := PhaseOutcome(id, t, run, implementation, used, x.checks.value, x, lim);
      PhaseIssues(id, t, run, implementation, used, x.checks.value, x, lim);
      SettledIssues(t, x, p);
      AuthorizedIssues(t, run, x, Settled(t, x, p));
    } else {
      SettledIssues(t, x, Done(Keep(t)));
      AuthorizedIssues(t, run, x, Settled(t, x, Done(Keep(t))));
    }
  }

  /** An advance begins a repair exactly when the flow calls for one and it may begin, a review exactly when the
      flow calls for one and it may begin, and no other run; each is bound to the flow's target. */
  lemma BeginsExactly(id: nat, t: Task, run: Run, implementation: Run, used: set<Intent>, x: Turn, lim: Limits)
    ensures var issued := Advanced(id, t, run, implementation, used, x, lim).issued;
            && (issued.Some? && issued.value.run.role == Repairer
                <==> CallsForRepair(t, run, implementation, x) && MayRepair(id, t, used, x, lim))
            && (issued.Some? && issued.value.run.role == Reviewer
                <==> CallsForReview(t, run, implementation, x) && MayReview(id, t, used, x, lim))
            && (issued.Some? ==> Commits(id, t, x, issued.value, issued.value.run.role) && issued.value.run.role != Worker)
  {
    if !Closed(t.quality.phase) {
      AdvanceIssues(id, t, run, implementation, used, x, lim);
    }
  }

  /** Without consent to repairs the task goes to a human where a repair would begin. */
  lemma UnrepairedIsPaused(id: nat, t: Task, run: Run, implementation: Run, used: set<Intent>, x: Turn, lim: Limits)
    requires CallsForRepair(t, run, implementation, x) && !t.quality.autoRepair
    ensures var e := Advanced(id, t, run, implementation, used, x, lim);
            e.issued == None && e.task.paused && e.task.human && e.task.acceptance == Pending
            && e.task.quality.phase == t.quality.phase && e.task.repairCount == t.repairCount
  {
    EvaluatedSound(x.checks.value, implementation);
  }

  // ---------------------------------------------------------------- repairs over histories

  /** Repairs are counted one by one, and only a repair counts. */
  predicate RepairsCounted(t: Task, e: Effect) {
    e.task.repairCount == t.repairCount + if e.issued.Some? && e.issued.value.run.role == Repairer then 1 else 0
  }

  lemma StartingRepairs(id: nat, t: Task, used: set<Intent>, x: Turn, lim: Limits)
    ensures RepairsCounted(t, Handled(RepairOutcome(id, t, used, x, lim)))
    ensures RepairsCounted(t, Handled(ReviewOutcome(id, t, used, x, lim)))
  {
  }

  lemma PhaseRepairs(id: nat, t: Task, run: Run, implementation: Run, used: set<Intent>, checks: seq<Check>, x: Turn,
                     lim: Limits)
    ensures RepairsCounted(t, Handled(PhaseOutcome(id, t, run, implementation, used, checks, x, lim)))
  {
    match t.quality.phase
    case Checking =>
      StartingRepairs(id, t, used, x, lim);
      StartingRepairs(id, CheckedTask(t, checks), used, x, lim);
    case Reviewed => StartingRepairs(id, t, used, x, lim);
    case Reviewing => assert RepairsCounted(t, Handled(ReviewingOutcome(t, run, implementation, checks, x)));
    case AwaitingStages => assert RepairsCounted(t, Handled(StagesOutcome(t, implementation, checks, x)));
    case _ =>
  }

  lemma AuthorizedRepairs(t: Task, run: Run, x: Turn, p: Outcome)
    requires RepairsCounted(t, Handled(p))
    ensures RepairsCounted(t, Handled(Authorized(t, run, x, Settled(t, x, p))))
  {
  }

  lemma AdvanceRepairs(id: nat, t: Task, run: Run, implementation: Run, used: set<Intent>, x: Turn, lim: Limits)
    ensures RepairsCounted(t, Advanced(id, t, run, implementation, used, x, lim))
  {
    if x.checks.Ok? {
      PhaseRepairs(id, t, run, implementation, used, x.checks.value, x, lim);
      AuthorizedRepairs(t, run, x, PhaseOutcome(id, t, run, implementation, used, x.checks.value, x, lim));
    } else {
      AuthorizedRepairs(t, run, x, Done(Keep(t)));
    }
  }

  /** A repair is only ever committed within the task's budget, and under a flow that consented to it. */
  ghost predicate RepairsOk(w: World, lim: Limits) {
    && (forall id :: id in w.tasks ==> w.tasks[id].repairCount <= lim.repairs)
    && (forall i :: i in w.intents && i.kind == RepairOf ==>
          i.task in w.tasks && (w.tasks[i.task].quality.key == i.key ==> w.tasks[i.task].quality.autoRepair))
  }

  lemma EventRepairs(w: World, id: nat, event: Event, lim: Limits)
    requires Known(w, id) && !event.Poll? && !event.Start?
    ensures var t, e := w.tasks[id], Touched(w, id, event, lim);
            e.issued == None && e.task.repairCount == t.repairCount && e.task.quality.key == t.quality.key
            && e.task.quality.autoRepair == t.quality.autoRepair
  {
  }

  lemma AdvanceKeepsFlow(id: nat, t: Task, run: Run, implementation: Run, used: set<Intent>, x: Turn, lim: Limits)
    ensures var q := Advanced(id, t, run, implementation, used, x, lim).task.quality;
            q.key == t.quality.key && q.autoRepair == t.quality.autoRepair
  {
    var e := AdvancedCases(id, t, run, implementation, used, x, lim);
    if !Quiet(t, e) && !Repaired(t, x, e) {
      PhaseKeepsFlow(id, t, run, implementation, used, x.checks.value, x, lim);
    }
  }

  predicate SameFlow(t: Task, e: Effect) {
    e.task.quality.key == t.quality.key && e.task.quality.autoRepair == t.quality.autoRepair
  }

  lemma StartingKeepsFlow(id: nat, t: Task, used: set<Intent>, x: Turn, lim: Limits)
    ensures SameFlow(t, Handled(RepairOutcome(id, t, used, x, lim)))
    ensures SameFlow(t, Handled(ReviewOutcome(id, t, used, x, lim)))
  {
    var repaired := RepairCases(id, t, used, x, lim);
    var reviewed := ReviewCases(id, t, used, x, lim);
  }

  lemma PhaseKeepsFlow(id: nat, t: Task, run: Run, implementation: Run, used: set<Intent>, checks: seq<Check>, x: Turn,
                       lim: Limits)
    ensures SameFlow(t, Handled(PhaseOutcome(id, t, run, implementation, used, checks, x, lim)))
  {
    match t.quality.phase
    case Checking =>
      StartingKeepsFlow(id, t, used, x, lim);
      StartingKeepsFlow(id, CheckedTask(t, checks), used, x, lim);
    case Reviewed => StartingKeepsFlow(id, t, used, x, lim);
    case Reviewing => assert SameFlow(t, Handled(ReviewingOutcome(t, run, implementation, checks, x)));
    case AwaitingStages => assert SameFlow(t, Handled(StagesOutcome(t, implementation, checks, x)));
    case _ =>
  }

  lemma PollRepairs(w: World, id: nat, x: Turn, lim: Limits)
    requires RepairsOk(w, lim) && Known(w, id)
    ensures RepairsOk(Write(w, id, Polled(w, id, x, lim)), lim)
  {
    var t := w.tasks[id];
    var run, implementation := w.runs[t.current], ImplementationOf(w, id);
    BeginsExactly(id, t, run, implementation, w.intents, x, lim);
    AdvanceRepairs(id, t, run, implementation, w.intents, x, lim);
    AdvanceKeepsFlow(id, t, run, implementation, w.intents, x, lim);
    WriteRepairs(w, id, Polled(w, id, x, lim), lim);
  }

  lemma WriteRepairs(w: World, id: nat, e: Effect, lim: Limits)
    requires RepairsOk(w, lim) && id in w.tasks && SameFlow(w.tasks[id], e) && e.task.repairCount <= lim.repairs
    requires e.issued.Some? && e.issued.value.intent.kind == RepairOf ==>
               e.issued.value.intent.task == id && w.tasks[id].quality.autoRepair
    ensures RepairsOk(Write(w, id, e), lim)
  {
  }

  lemma StartRepairs(w: World, id: nat, ask: Ask, lim: Limits)
    requires WorldOk(w, lim) && RepairsOk(w, lim) && Known(w, id)
    ensures RepairsOk(Write(w, id, Touched(w, id, Start(ask), lim)), lim)
  {
    assert IntentsOk(w);
    StartKeepsRepairs(w, id, Touched(w, id, Start(ask), lim).task, ask, lim);
  }

  lemma StartKeepsRepairs(w: World, id: nat, after: Task, ask: Ask, lim: Limits)
    requires IntentsOk(w) && RepairsOk(w, lim) && id in w.tasks && after.repairCount == w.tasks[id].repairCount
    requires || after == w.tasks[id]
             || (after.quality.key == ask.key && ask.key !in w.tasks[id].quality.requests)
    ensures RepairsOk(Write(w, id, Keep(after)), lim)
  {
  }

  lemma StepRepairs(w: World, act: Act, lim: Limits)
    requires WorldOk(w, lim) && RepairsOk(w, lim) && Enabled(w, act)
    ensures RepairsOk(Next(w, act, lim), lim)
  {
    if act.event.Poll? {
      PollRepairs(w, act.task, act.event.turn, lim);
    } else if act.event.Start? {
      StartRepairs(w, act.task, act.event.ask, lim);
    } else {
      EventRepairs(w, act.task, act.event, lim);
      WriteRepairs(w, act.task, Touched(w, act.task, act.event, lim), lim);
    }
  }

  /** Over every history no task is repaired more often than its limit allows, and no flow that did not consent
      to repairs has ever committed one. */
  lemma {:induction false} RepairsBounded(w: World, acts: seq<Act>, lim: Limits)
    requires WorldOk(w, lim) && RepairsOk(w, lim) && Possible(w, acts, lim)
    ensures RepairsOk(Execute(w, acts, lim), lim)
    decreases |acts|
  {
    if acts != [] {
      NextKeeps(w, acts[0], lim);
      StepRepairs(w, acts[0], lim);
      RepairsBounded(Next(w, acts[0], lim), acts[1..], lim);
    }
  }

  // ---------------------------------------------------------------- starting a flow

  /** Everything a new flow asks: core hands, no flow under way, a succeeded implementation, checks within the
      targets, and a snapshot of them. */
  predicate MayOpen(t: Task, run: Run, implementation: Run, ask: Ask) {
    && !t.paused && !t.human && t.quality.phase in {Unstarted, Completed, Stale, Blocked}
    && (if t.quality.phase != Unstarted && run.role == Reviewer
        then run.state in {Succeeded, Failed, Cancelled} && implementation.state == Succeeded && !implementation.cancelRequested
        else run.state == Succeeded && !run.cancelRequested)
    && (exists k :: 0 <= k < |ask.checks| && ask.checks[k].independent)
    && (forall k :: 0 <= k < |ask.checks| && ask.checks[k].file ==> ask.checks[k].covered)
    && ask.target.Ok?
  }

  /** A request is answered exactly if it is authorized and repeats a known one word for word, or is new and may
      open a flow; a new flow checks the current target afresh, with nothing accepted yet. */
  lemma OpensExactly(t: Task, run: Run, implementation: Run, ask: Ask)
    ensures var o := StartOutcome(t, run, implementation, ask);
            && (o.Ok? <==> ask.refused.None?
                           && (if ask.key in t.quality.requests then t.quality.requests[ask.key] == ask.hash
                               else MayOpen(t, run, implementation, ask)))
            && (o.Ok? && ask.key in t.quality.requests ==> o.value == t)
            && (o.Ok? && ask.key !in t.quality.requests ==>
                  var q := o.value.quality;
                  && q.phase == Checking && q.key == ask.key && q.target == ask.target.value && q.reviewRun == None
                  && q.autoRepair == ask.autoRepair && q.requests == t.quality.requests[ask.key := ask.hash]
                  && o.value.acceptance == Pending && !o.value.stale && o.value.repairCount == t.repairCount
                  && q.implementation == (if t.quality.phase != Unstarted && run.role == Reviewer
                                          then t.quality.implementation else t.current)
                  && q.reviews == t.quality.reviews && q.closures == t.quality.closures
                  && q.open == (if t.quality.phase == Unstarted then ask.found else t.quality.open))
            && (ask.refused.None? && ask.key in t.quality.requests && t.quality.requests[ask.key] != ask.hash
                ==> o == Err(IdempotencyConflict))
  {
  }

  // ---------------------------------------------------------------- what is kept, and what stops

  /** A review that found something, or whose checks fail, is kept as evidence; everything it found is open. */
  lemma ReviewRemembered(t: Task, findings: seq<nat>, checks: seq<Check>, passed: bool, f: nat)
    ensures var q := ReviewedTask(t, findings, checks, passed).quality;
            && q.phase == Reviewed && q.target == t.quality.target && q.implementation == t.quality.implementation
            && q.reviews == t.quality.reviews + [Review(t.current, t.quality.implementation, t.quality.target, findings, passed)]
            && (f in q.open <==> f in t.quality.open || f in findings || f in CheckFindings(checks))
  {
    RememberExact(t.quality.open, findings + CheckFindings(checks), f);
  }

  /** A finding of the checks is one of a check that failed. */
  lemma {:induction false} FailedChecks(checks: seq<Check>, f: nat)
    ensures f in CheckFindings(checks) <==> exists k :: 0 <= k < |checks| && !checks[k].passed && checks[k].finding == f
  {
    if checks != [] {
      var front, last := checks[..|checks| - 1], checks[|checks| - 1];
      FailedChecks(front, f);
      assert checks == front + [last];
      if k :| 0 <= k < |front| && !front[k].passed && front[k].finding == f {
        assert checks[k] == front[k];
      }
    }
  }

  /** After a repair the flow checks the repaired run on the target captured then. */
  lemma RepairTaken(id: nat, t: Task, run: Run, implementation: Run, used: set<Intent>, x: Turn, lim: Limits)
    requires t.quality.phase == Repairing && !Held(t) && !t.stale && x.refused.None? && x.capture.Ok?
    requires run.state == Succeeded && !run.cancelRequested
    ensures var e := Advanced(id, t, run, implementation, used, x, lim);
            && e.issued == None && e.task.quality.phase == Checking && e.task.quality.implementation == t.current
            && e.task.quality.target == x.capture.value && e.task.current == t.current && e.task.acceptance == t.acceptance
  {
  }

  /** Evidence that moved makes a flow stale: on an advance exactly when the target moved or someone said so. */
  lemma StaleExactly(id: nat, t: Task, run: Run, implementation: Run, used: set<Intent>, x: Turn, lim: Limits)
    requires !Closed(t.quality.phase) && !Held(t)
    ensures Advanced(id, t, run, implementation, used, x, lim).task.quality.phase == Stale
        <==> x.refused.None?
             && (t.stale
                 || (run.state == Succeeded && !run.cancelRequested && t.quality.phase != Repairing && x.capture.Ok?
                     && (x.capture.value != t.quality.target
                         || (x.checks.Ok? && x.recapture.Ok? && x.recapture.value != x.capture.value))))
  {
    if x.checks.Ok? {
      var p := PhaseOutcome(id, t, run, implementation, used, x.checks.value, x, lim);
      PhaseNeverStale(id, t, run, implementation, used, x.checks.value, x, lim);
      SettledStale(t, x, p);
      AuthorizedStale(t, run, x, Settled(t, x, p));
    } else {
      SettledStale(t, x, Done(Keep(t)));
      AuthorizedStale(t, run, x, Settled(t, x, Done(Keep(t))));
    }
  }

  predicate GoesStale(o: Outcome) {
    Handled(o).task.quality.phase == Stale
  }

  lemma PhaseNeverStale(id: nat, t: Task, run: Run, implementation: Run, used: set<Intent>, checks: seq<Check>, x: Turn,
                        lim: Limits)
    requires !Closed(t.quality.phase)
    ensures !GoesStale(PhaseOutcome(id, t, run, implementation, used, checks, x, lim))
  {
    match t.quality.phase
    case Checking =>
      StartingNeverStale(id, t, used, x, lim);
      StartingNeverStale(id, CheckedTask(t, checks), used, x, lim);
    case Reviewed => StartingNeverStale(id, t, used, x, lim);
    case Reviewing => assert !GoesStale(ReviewingOutcome(t, run, implementation, checks, x));
    case AwaitingStages => assert !GoesStale(StagesOutcome(t, implementation, checks, x));
    case _ =>
  }

  lemma StartingNeverStale(id: nat, t: Task, used: set<Intent>, x: Turn, lim: Limits)
    requires t.quality.phase != Stale
    ensures !GoesStale(RepairOutcome(id, t, used, x, lim)) && !GoesStale(ReviewOutcome(id, t, used, x, lim))
  {
  }

  lemma SettledStale(t: Task, x: Turn, p: Outcome)
    requires t.quality.phase != Stale && !GoesStale(p)
    ensures GoesStale(Settled(t, x, p))
        <==> t.quality.phase != Repairing && x.capture.Ok?
             && (x.capture.value != t.quality.target
                 || (x.checks.Ok? && x.recapture.Ok? && x.recapture.value != x.capture.value))
  {
  }

  lemma AuthorizedStale(t: Task, run: Run, x: Turn, p: Outcome)
    requires t.quality.phase != Stale
    ensures GoesStale(Authorized(t, run, x, p))
        <==> x.refused.None? && (t.stale || (run.state == Succeeded && !run.cancelRequested && GoesStale(p)))
  {
  }

  /** A stale flow is with a human and accepted no longer; the look at a completed flow makes it so exactly when
      its evidence does not hold. */
  lemma InvalidatedExactly(t: Task, implementation: Run, x: Turn)
    requires t.quality.phase == Completed
    ensures var v := Validated(t, implementation, x);
            if Current(t, implementation, x) then v == t
            else v.quality.phase == Stale && v.stale && v.paused && v.human && v.acceptance == Pending
  {
  }

  /** An error leaves the stored task with a human, and blocked exactly if it is a refusal of the flow itself and
      the task's run is over. */
  lemma ErrorPauses(error: Error, e: Effect, over: bool)
    ensures var z := Handled(Raised(error, e, over));
            && z.issued == e.issued && z.task.paused && z.task.human && z.task.acceptance == Pending
            && (z.task.quality.phase == (if error in {InvalidRequest, BudgetExhausted} && over then Blocked
                                         else e.task.quality.phase))
            && z.task.current == e.task.current && z.task.runCount == e.task.runCount
  {
  }

  /** A flow under way goes on only with a succeeded run: one that failed or was cancelled, or whose cancel was
      asked for, blocks it, an unresolved one is handed to a human, and a running one is waited for. */
  lemma UnfinishedRunStops(id: nat, t: Task, run: Run, implementation: Run, used: set<Intent>, x: Turn, lim: Limits)
    requires !Closed(t.quality.phase) && !t.paused && !t.human && !t.stale && x.refused.None?
    requires run.state != Succeeded || run.cancelRequested
    ensures var e := Advanced(id, t, run, implementation, used, x, lim);
            && e.issued == None && e.task.quality.reviews == t.quality.reviews && e.task.quality.open == t.quality.open
            && if run.cancelRequested || run.state in {Failed, Cancelled} then
                 e.task.quality.phase == Blocked && e.task.paused && e.task.human && e.task.acceptance == Pending
               else if run.state == Unresolved then
                 e.task.quality == t.quality && e.task.paused && e.task.human && e.task.acceptance == Pending
               else e.task == t
  {
  }

  /** Stage rows take a PASSED back and touch nothing else: it is rejected if a stage failed, and pending if
      stages or dependencies are only not there yet. */
  lemma LoweredExactly(a: Acceptance, gate: Option<seq<Row>>, dependency: Option<bool>)
    ensures var b := Accepted(a, gate, dependency);
            && (a != Passed ==> b == a)
            && (a == Passed ==>
                  && (b == Rejected <==> gate.Some? && exists k :: 0 <= k < |gate.value| && gate.value[k].status == RowFailed)
                  && (b == Pending <==>
                        && (gate.Some? ==> forall k :: 0 <= k < |gate.value| ==> gate.value[k].status != RowFailed)
                        && (dependency == Some(false) || (gate.Some? && !Satisfied(gate.value)))))
  {
    if gate.Some? && Satisfied(gate.value) {
      assert forall k :: 0 <= k < |gate.value| ==> gate.value[k].status == RowPassed;
    }
  }

  /** What the checks say of an implementation, value by value. */
  lemma EvaluatedExactly(checks: seq<Check>, implementation: Run)
    ensures var a := Evaluate(checks, implementation);
            && (a == Passed <==> Sound(implementation, checks))
            && (a == Pending <==> implementation.state in {Working, Unresolved})
            && (a == NotConfigured <==> implementation.state == Succeeded && forall k :: 0 <= k < |checks| ==> !checks[k].independent)
            && (a == Rejected <==> implementation.state in {Failed, Cancelled}
                                   || (implementation.state == Succeeded && AnyIndependent(checks)
                                       && exists k :: 0 <= k < |checks| && !checks[k].passed))
  {
  }

  /** Cancelling a task stops its flow for good: it is blocked, with a human, and keeps all its evidence. */
  lemma CancelStops(t: Task)
    ensures var z := Stopped(t);
            && (t.quality.phase in {Unstarted, Completed, Stale, Blocked} ==> z == t)
            && (t.quality.phase !in {Unstarted, Completed, Stale, Blocked} ==>
                  && z.quality == t.quality.(phase := Blocked) && z.paused && z.human && z.acceptance == Pending
                  && z.current == t.current && z.runCount == t.runCount)
  {
  }

  /** Stages awaited: the flow completes exactly when checks, stages and dependencies are met, and shows
      exactly what they give. */
  lemma StagesExactly(id: nat, t: Task, run: Run, implementation: Run, used: set<Intent>, x: Turn, lim: Limits)
    requires t.quality.phase == AwaitingStages && Steady(t, run, x) && x.gate.Ok?
    ensures var e := Advanced(id, t, run, implementation, used, x, lim);
            && e.issued == None && e.task.quality.reviews == t.quality.reviews
            && (e.task.acceptance == Passed <==>
                  Sound(implementation, x.checks.value) && GateMet(x.gate.value) && x.dependency != Some(false))
            && e.task.quality.phase == (if e.task.acceptance == Passed then Completed else AwaitingStages)
            && !e.task.paused && !e.task.human
  {
    EvaluatedSound(x.checks.value, implementation);
    AcceptedExactly(Evaluate(x.checks.value, implementation), x.gate.value, x.dependency);
  }

  /** A run that is called for and may not begin hands the task to a human, unless its intent was committed before
      and is answered; only a refusal of the flow itself blocks the flow. */
  lemma CalledInVain(id: nat, t: Task, run: Run, implementation: Run, used: set<Intent>, x: Turn, lim: Limits)
    requires CallsForReview(t, run, implementation, x) && !MayReview(id, t, used, x, lim)
    requires Intent(id, ReviewOf, t.quality.key, t.quality.implementation) !in used
    ensures var e := Advanced(id, t, run, implementation, used, x, lim);
            && e.issued == None && e.task.paused && e.task.human && e.task.acceptance == Pending
            && e.task.runCount == t.runCount && e.task.quality.open == t.quality.open
            && (e.task.quality.phase == Blocked <==>
                  x.reviewer && (t.runCount >= lim.runs || x.notAdmitted in {Some(InvalidRequest), Some(BudgetExhausted)}))
            && (e.task.quality.phase != Blocked ==> e.task.quality == t.quality)
  {
    EvaluatedSound(x.checks.value, implementation);
  }
}
