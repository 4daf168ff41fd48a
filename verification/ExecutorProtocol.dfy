/** The hand-over between worker threads and the core: one bounded queue of updates, an acknowledgement
    per update, and a stop flag. Each step below is one thread doing one thing, so a sequence of steps
    is one interleaving. */
module ExecutorProtocol {
  import opened Wrappers

  const CAPACITY: nat := 64

  /** Where a worker thread stands. `final` marks the last publish of a thread. */
  datatype Worker = Acting | Putting(update: nat, final: bool) | Waiting(update: nat, final: bool) | Gone

  /** Where the core stands inside `drain`. */
  datatype Core = Outside | Draining | Holding(update: nat) | Settling(update: nat)

  /** `registered` is the `workers` dictionary; `accepted` and `applied` are the histories of the queue's
      input and of the calls to `apply`; an update is in `errors` when its call failed; `returned` and
      `raised` are the publishes that ended normally or with an error. */
  datatype State = State(threads: map<nat, Worker>, registered: set<nat>, queue: seq<nat>, core: Core, stopping: bool,
                         acknowledged: set<nat>, errors: set<nat>, accepted: seq<nat>, applied: seq<nat>,
                         issued: set<nat>, returned: set<nat>, raised: set<nat>)

  datatype Step =
    | Start(run: nat)
    | Publish(run: nat, update: nat, final: bool)
    | Put(run: nat)
    | Confirm(run: nat)
    | GiveUp(run: nat)
    | BeginDrain
    | Take
    | Apply(ok: bool)
    | Acknowledge
    | EndDrain
    | Close

  function Done(final: bool): Worker {
    if final then Gone else Acting
  }

  /** A thread may check the stop flag just before it is set, so `Put` and `Confirm` do not look at it. */
  predicate Enabled(s: State, step: Step) {
    match step
    case Start(run) => !s.stopping && run !in s.registered
    case Publish(run, update, _) => run in s.threads && s.threads[run].Acting? && update !in s.issued
    case Put(run) => run in s.threads && s.threads[run].Putting? && |s.queue| < CAPACITY
    case Confirm(run) => run in s.threads && s.threads[run].Waiting? && s.threads[run].update in s.acknowledged
    case GiveUp(run) => run in s.threads && (s.threads[run].Putting? || s.threads[run].Waiting?) && s.stopping
    case BeginDrain => s.core == Outside
    case Take => s.core == Draining && s.queue != []
    case Apply(_) => s.core.Holding?
    case Acknowledge => s.core.Settling?
    case EndDrain => s.core == Draining && s.queue == []
    case Close => true
  }

  function Next(s: State, step: Step): State
    requires Enabled(s, step)
  {
    match step
    case Start(run) => s.(registered := s.registered + {run}, threads := s.threads[run := Acting])
    case Publish(run, update, final) =>
      s.(threads := s.threads[run := Putting(update, final)], issued := s.issued + {update})
    case Put(run) =>
      var w := s.threads[run];
      s.(threads := s.threads[run := Waiting(w.update, w.final)], queue := s.queue + [w.update],
         accepted := s.accepted + [w.update])
    case Confirm(run) =>
      var w := s.threads[run];
      if w.update in s.errors then s.(threads := s.threads[run := Done(w.final)], raised := s.raised + {w.update})
      else s.(threads := s.threads[run := Done(w.final)], returned := s.returned + {w.update})
    case GiveUp(run) =>
      var w := s.threads[run];
      s.(threads := s.threads[run := Done(w.final)], raised := s.raised + {w.update})
    case BeginDrain => s.(core := Draining)
    case Take => s.(core := Holding(s.queue[0]), queue := s.queue[1..])
    case Apply(ok) =>
      var u := s.core.update;
      s.(core := Settling(u), applied := s.applied + [u], errors := if ok then s.errors else s.errors + {u})
    case Acknowledge =>
      var u := s.core.update;
      s.(core := if u in s.errors then Outside else Draining, acknowledged := s.acknowledged + {u})
    case EndDrain =>
      s.(core := Outside,
         registered := set run | run in s.registered && run in s.threads && s.threads[run] != Gone)
    case Close => s.(stopping := true)
  }

  ghost predicate Possible(s: State, steps: seq<Step>)
    decreases |steps|
  {
    steps == [] || (Enabled(s, steps[0]) && Possible(Next(s, steps[0]), steps[1..]))
  }

  ghost function Execute(s: State, steps: seq<Step>): State
    requires Possible(s, steps)
    decreases |steps|
  {
    if steps == [] then s else Execute(Next(s, steps[0]), steps[1..])
  }

  /** The interleaving `steps` leads from `s` to `t`. */
  ghost predicate Reaches(s: State, steps: seq<Step>, t: State) {
    Possible(s, steps) && Execute(s, steps) == t
  }

  // -------------------------------------------------------------- the invariant

  function InHand(s: State): seq<nat> {
    if s.core.Holding? then [s.core.update] else []
  }

  /** Everything the queue accepted is applied, in the core's hand, or still queued, in that order. */
  predicate Conserved(s: State) {
    s.accepted == s.applied + InHand(s) + s.queue
  }

  ghost predicate Distinct(a: seq<nat>) {
    forall i, j :: 0 <= i < j < |a| ==> a[i] != a[j]
  }

  /** The update a thread is working on is its own, and `Waiting` means the queue has accepted it. */
  ghost predicate ThreadOk(s: State, run: nat)
    requires run in s.threads
  {
    match s.threads[run]
    case Acting => run in s.registered
    case Gone => true
    case Putting(u, _) => run in s.registered && u in s.issued && u !in s.accepted && u !in s.returned && u !in s.raised
    case Waiting(u, _) => run in s.registered && u in s.issued && u in s.accepted && u !in s.returned && u !in s.raised
  }

  function UpdateOf(w: Worker): Option<nat> {
    match w
    case Putting(u, _) => Some(u)
    case Waiting(u, _) => Some(u)
    case _ => None
  }

  ghost predicate ThreadsOk(s: State) {
    && (forall run :: run in s.threads ==> ThreadOk(s, run))
    && (forall a, b :: a in s.threads && b in s.threads && a != b && UpdateOf(s.threads[a]).Some?
                       ==> UpdateOf(s.threads[a]) != UpdateOf(s.threads[b]))
  }

  /** What was acknowledged was applied; what returned was acknowledged without error. */
  ghost predicate AnswersOk(s: State) {
    && (forall u :: u in s.acknowledged ==> u in s.applied)
    && (forall u :: u in s.errors ==> u in s.applied)
    && (forall u :: u in s.returned ==> u in s.acknowledged && u !in s.errors)
    && (forall u :: u in s.accepted ==> u in s.issued)
    && s.returned <= s.issued && s.raised <= s.issued
    && s.returned !! s.raised
    && (s.core.Settling? ==> s.applied != [] && s.applied[|s.applied| - 1] == s.core.update)
  }

  ghost predicate StateOk(s: State) {
    && |s.queue| <= CAPACITY
    && Conserved(s) && Distinct(s.accepted)
    && ThreadsOk(s) && AnswersOk(s)
  }

  function Fresh(): State {
    State(map[], {}, [], Outside, false, {}, {}, [], [], {}, {}, {})
  }

  lemma FreshOk()
    ensures StateOk(Fresh())
  {
  }

  // -------------------------------------------------------------- every step keeps it

  lemma AppendDistinct(a: seq<nat>, u: nat)
    requires Distinct(a) && u !in a
    ensures Distinct(a + [u])
  {
  }

  /** One thread moved to `w`; its update, if it has one, is nobody else's. */
  lemma ThreadMoves(s: State, t: State, run: nat, w: Worker)
    requires StateOk(s) && t.threads == s.threads[run := w] && s.registered <= t.registered && run in t.registered
    requires t.accepted == s.accepted && s.issued <= t.issued
    requires UpdateOf(w).Some? ==> w.Putting? && w.update in t.issued && w.update !in s.issued
                                   && w.update !in t.returned && w.update !in t.raised
    requires forall u :: (u in t.returned && u !in s.returned) || (u in t.raised && u !in s.raised)
                         ==> run in s.threads && UpdateOf(s.threads[run]) == Some(u)
    ensures ThreadsOk(t)
  {
    forall other | other in t.threads ensures ThreadOk(t, other) {
      if other != run {
        assert ThreadOk(s, other);
      } else if w.Putting? {
        assert w.update !in s.accepted;
      }
    }
    forall a, b | a in t.threads && b in t.threads && a != b && UpdateOf(t.threads[a]).Some?
      ensures UpdateOf(t.threads[a]) != UpdateOf(t.threads[b])
    {
      assert a in s.threads ==> ThreadOk(s, a);
      assert b in s.threads ==> ThreadOk(s, b);
    }
  }

  lemma ThreadStepKeeps(s: State, step: Step)
    requires StateOk(s) && Enabled(s, step)
    requires step.Start? || step.Publish? || step.Confirm? || step.GiveUp?
    ensures StateOk(Next(s, step))
  {
    var t := Next(s, step);
    assert Conserved(t) && Distinct(t.accepted);
    match step
    case Start(run) => ThreadMoves(s, t, run, Acting);
    case Publish(run, update, final) =>
      assert ThreadOk(s, run);
      PublishIsNew(s, update);
      ThreadMoves(s, t, run, Putting(update, final));
    case Confirm(run) =>
      assert ThreadOk(s, run);
      ThreadMoves(s, t, run, Done(s.threads[run].final));
    case GiveUp(run) =>
      assert ThreadOk(s, run);
      ThreadMoves(s, t, run, Done(s.threads[run].final));
  }

  lemma PublishIsNew(s: State, u: nat)
    requires StateOk(s) && u !in s.issued
    ensures u !in s.returned && u !in s.raised
  {
  }

  lemma PutKeeps(s: State, run: nat)
    requires StateOk(s) && Enabled(s, Put(run))
    ensures StateOk(Next(s, Put(run)))
  {
    var t := Next(s, Put(run));
    var u := s.threads[run].update;
    AppendDistinct(s.accepted, u);
    assert t.accepted == t.applied + InHand(t) + t.queue;
    forall other | other in t.threads ensures ThreadOk(t, other) {
      assert other != run ==> UpdateOf(s.threads[other]) != Some(u);
    }
  }

  lemma CoreStepKeeps(s: State, step: Step)
    requires StateOk(s) && Enabled(s, step)
    requires step.BeginDrain? || step.Take? || step.Apply? || step.Acknowledge? || step.EndDrain?
    ensures StateOk(Next(s, step))
  {
    var t := Next(s, step);
    match step
    case Take =>
      assert s.queue == [s.queue[0]] + s.queue[1..];
      assert t.accepted == t.applied + InHand(t) + t.queue;
    case Apply(ok) =>
      assert t.accepted == t.applied + InHand(t) + t.queue;
      ApplyIsNew(s);
    case _ =>
  }

  /** The update in hand has not been applied before, so it was neither acknowledged nor returned. */
  lemma ApplyIsNew(s: State)
    requires StateOk(s) && s.core.Holding?
    ensures s.core.update !in s.applied && s.core.update !in s.acknowledged && s.core.update !in s.returned
  {
    var u := s.core.update;
    forall k | 0 <= k < |s.applied| ensures s.applied[k] != u {
      assert s.accepted[k] == s.applied[k] && s.accepted[|s.applied|] == u;
    }
  }

  /** The same of the update at the head of the queue. */
  lemma HeadIsNew(s: State)
    requires StateOk(s) && s.core == Draining && s.queue != []
    ensures s.queue[0] !in s.applied && s.queue[0] !in s.errors
  {
    CoreStepKeeps(s, Take);
    ApplyIsNew(Next(s, Take));
  }

  lemma NextKeeps(s: State, step: Step)
    requires StateOk(s) && Enabled(s, step)
    ensures StateOk(Next(s, step))
  {
    match step
    case Put(run) => PutKeeps(s, run);
    case BeginDrain => CoreStepKeeps(s, step);
    case Take => CoreStepKeeps(s, step);
    case Apply(_) => CoreStepKeeps(s, step);
    case Acknowledge => CoreStepKeeps(s, step);
    case EndDrain => CoreStepKeeps(s, step);
    case Close => assert Conserved(Next(s, Close)) && forall run :: run in s.threads ==> ThreadOk(s, run);
    case _ => ThreadStepKeeps(s, step);
  }

  lemma {:induction false} ExecuteKeeps(s: State, steps: seq<Step>)
    requires StateOk(s) && Possible(s, steps)
    ensures StateOk(Execute(s, steps))
    decreases |steps|
  {
    if steps != [] {
      NextKeeps(s, steps[0]);
      ExecuteKeeps(Next(s, steps[0]), steps[1..]);
    }
  }

  // -------------------------------------------------------------- what the protocol promises

  /** Under every interleaving a publish that returned normally was applied, without error. */
  lemma ReturnedWasApplied(steps: seq<Step>, u: nat)
    requires Possible(Fresh(), steps)
    ensures var s := Execute(Fresh(), steps);
            u in s.returned ==> u in s.applied && u !in s.errors && u !in s.raised
  {
    FreshOk();
    ExecuteKeeps(Fresh(), steps);
  }

  /** No update is applied twice, and updates are applied in the order the queue accepted them. */
  lemma AppliedOnceInOrder(steps: seq<Step>)
    requires Possible(Fresh(), steps)
    ensures var s := Execute(Fresh(), steps);
            Distinct(s.applied) && s.applied <= s.accepted && |s.accepted| <= |s.applied| + 1 + CAPACITY
  {
    FreshOk();
    ExecuteKeeps(Fresh(), steps);
    var s := Execute(Fresh(), steps);
    assert s.accepted[..|s.applied|] == s.applied;
    forall i, j | 0 <= i < j < |s.applied| ensures s.applied[i] != s.applied[j] {
      assert s.accepted[i] != s.accepted[j];
    }
  }

  predicate Drains(steps: seq<Step>) {
    exists i :: 0 <= i < |steps| && steps[i] == BeginDrain
  }

  /** While the core is outside, whatever the threads do applies nothing and takes nothing. */
  lemma {:induction false} OutsideApplies(s: State, steps: seq<Step>)
    requires Possible(s, steps) && s.core == Outside && !Drains(steps)
    ensures var t := Execute(s, steps); t.core == Outside && t.applied == s.applied && s.queue <= t.queue
    decreases |steps|
  {
    if steps != [] {
      assert steps[0] != BeginDrain;
      assert forall i :: 0 <= i < |steps[1..]| ==> steps[1..][i] == steps[i + 1];
      OutsideApplies(Next(s, steps[0]), steps[1..]);
    }
  }

  /** An update whose application fails ends the drain: until the next drain begins, under every
      interleaving, nothing further is applied and what was queued behind it stays in place. */
  lemma FirstErrorStops(s: State, steps: seq<Step>)
    requires StateOk(s) && s.core.Holding? && !Drains(steps)
    requires Possible(Next(Next(s, Apply(false)), Acknowledge), steps)
    ensures var t := Execute(Next(Next(s, Apply(false)), Acknowledge), steps);
            && t.applied == s.applied + [s.core.update] && s.queue <= t.queue && s.core.update in t.errors
  {
    OutsideApplies(Next(Next(s, Apply(false)), Acknowledge), steps);
    ErrorsStay(Next(Next(s, Apply(false)), Acknowledge), steps);
  }

  lemma {:induction false} ErrorsStay(s: State, steps: seq<Step>)
    requires Possible(s, steps)
    ensures s.errors <= Execute(s, steps).errors && s.raised <= Execute(s, steps).raised
    ensures s.accepted <= Execute(s, steps).accepted
    decreases |steps|
  {
    if steps != [] {
      var t := Next(s, steps[0]);
      assert s.accepted <= t.accepted;
      ErrorsStay(t, steps[1..]);
    }
  }

  /** What the queue accepted is applied as soon as it is neither in the core's hand nor queued. */
  lemma AcceptedExactly(s: State, u: nat)
    requires StateOk(s) && u in s.accepted
    ensures u in s.applied <==> u !in InHand(s) && u !in s.queue
  {
    var n := |s.applied|;
    if u in s.applied {
      var k :| 0 <= k < n && s.applied[k] == u;
      assert s.accepted[k] == u;
      forall j | n <= j < |s.accepted| ensures s.accepted[j] != u {
      }
      assert forall j :: 0 <= j < |InHand(s)| ==> InHand(s)[j] == s.accepted[n + j];
      assert forall j :: 0 <= j < |s.queue| ==> s.queue[j] == s.accepted[n + |InHand(s)| + j];
    }
  }

  /** An update its thread gave up before the queue took it has no way back in. */
  lemma {:induction false} NeverPutLater(s: State, steps: seq<Step>, u: nat)
    requires StateOk(s) && Possible(s, steps) && u in s.raised && u !in s.accepted
    ensures u !in Execute(s, steps).accepted
    decreases |steps|
  {
    if steps != [] {
      NextKeeps(s, steps[0]);
      if steps[0].Put? {
        assert ThreadOk(s, steps[0].run);
      }
      NeverPutLater(Next(s, steps[0]), steps[1..], u);
    }
  }

  /** A publish that raised was applied, or will be, exactly when the queue had taken its update by then:
      in every continuation it is applied if and only if it had been put and no longer waits. */
  lemma RaisedExactly(s: State, steps: seq<Step>, u: nat)
    requires StateOk(s) && Possible(s, steps) && u in s.raised
    ensures var t := Execute(s, steps);
            u in t.applied <==> u in s.accepted && u !in InHand(t) && u !in t.queue
  {
    ExecuteKeeps(s, steps);
    ErrorsStay(s, steps);
    var t := Execute(s, steps);
    if u in s.accepted {
      var k :| 0 <= k < |s.accepted| && s.accepted[k] == u;
      assert t.accepted[k] == u;
      AcceptedExactly(t, u);
    } else {
      NeverPutLater(s, steps, u);
      assert u in t.applied ==> u in t.accepted;
    }
  }

  /** A live thread keeps its registration, so its run cannot be started again, under any interleaving. */
  lemma LiveIsRegistered(steps: seq<Step>, run: nat)
    requires Possible(Fresh(), steps)
    ensures var s := Execute(Fresh(), steps);
            run in s.threads && s.threads[run] != Gone ==> run in s.registered && !Enabled(s, Start(run))
  {
    FreshOk();
    ExecuteKeeps(Fresh(), steps);
    var s := Execute(Fresh(), steps);
    if run in s.threads && s.threads[run] != Gone {
      assert ThreadOk(s, run);
    }
  }

  /** The state of a lone worker publishing update 7, at each stage of its hand-over. */
  function Lone(w: Worker, queue: seq<nat>, core: Core, applied: seq<nat>): State {
    State(map[1 := w], {1}, queue, core, false, {}, {}, if w.Putting? then [] else [7], applied, {7}, {}, {})
  }

  /** The worker gave up although its update was applied. */
  function Abandoned(): State {
    Lone(Waiting(7, true), [], Settling(7), [7]).(stopping := true, threads := map[1 := Gone], raised := {7})
  }

  lemma AbandonedAfterApply(s: State, steps: seq<Step>)
    requires s == Lone(Waiting(7, true), [], Holding(7), [])
    requires steps == [Apply(true)] + ([Close] + [GiveUp(1)])
    ensures Possible(s, steps) && Execute(s, steps) == Abandoned()
  {
    var settled := Lone(Waiting(7, true), [], Settling(7), [7]);
    var stopped := settled.(stopping := true);
    Joined(stopped, [GiveUp(1)], Abandoned());
    Prefixed(settled, Close, [GiveUp(1)], Abandoned());
    Prefixed(s, Apply(true), [Close] + [GiveUp(1)], Abandoned());
  }

  lemma AbandonedAfterPut(s: State, tail: seq<Step>) returns (steps: seq<Step>)
    requires s == Lone(Putting(7, true), [], Outside, [])
    requires Possible(Lone(Waiting(7, true), [], Holding(7), []), tail)
    requires Execute(Lone(Waiting(7, true), [], Holding(7), []), tail) == Abandoned()
    ensures Possible(s, steps) && Execute(s, steps) == Abandoned()
  {
    assert [7][1..] == [];
    assert Next(Lone(Waiting(7, true), [7], Draining, []), Take) == Lone(Waiting(7, true), [], Holding(7), []);
    Prefixed(Lone(Waiting(7, true), [7], Draining, []), Take, tail, Abandoned());
    steps := [Take] + tail;
    Prefixed(Lone(Waiting(7, true), [7], Outside, []), BeginDrain, steps, Abandoned());
    steps := [BeginDrain] + steps;
    assert s.threads[1 := Waiting(7, true)] == map[1 := Waiting(7, true)];
    assert Next(s, Put(1)) == Lone(Waiting(7, true), [7], Outside, []);
    Prefixed(s, Put(1), steps, Abandoned());
    steps := [Put(1)] + steps;
  }

  /** A publish can end with an error although its update was applied: the stop flag was seen first. */
  lemma RaisedMayBeApplied() returns (steps: seq<Step>)
    ensures Possible(Fresh(), steps)
    ensures var s := Execute(Fresh(), steps); 7 in s.raised && 7 in s.applied && s.errors == {}
  {
    var tail := [Apply(true)] + ([Close] + [GiveUp(1)]);
    AbandonedAfterApply(Lone(Waiting(7, true), [], Holding(7), []), tail);
    var putting := Lone(Putting(7, true), [], Outside, []);
    tail := AbandonedAfterPut(putting, tail);
    var acting := Next(Fresh(), Start(1));
    assert Next(acting, Publish(1, 7, true)) == putting;
    Prefixed(acting, Publish(1, 7, true), tail, Abandoned());
    Prefixed(Fresh(), Start(1), [Publish(1, 7, true)] + tail, Abandoned());
    steps := [Start(1)] + ([Publish(1, 7, true)] + tail);
  }

  lemma Joined(s: State, steps: seq<Step>, after: State)
    requires |steps| == 1 && Enabled(s, steps[0]) && Next(s, steps[0]) == after
    ensures Possible(s, steps) && Execute(s, steps) == after
  {
    assert steps[1..] == [];
  }

  lemma Prefixed(s: State, step: Step, steps: seq<Step>, after: State)
    requires Enabled(s, step) && Possible(Next(s, step), steps) && Execute(Next(s, step), steps) == after
    ensures Possible(s, [step] + steps) && Execute(s, [step] + steps) == after
  {
    assert ([step] + steps)[1..] == steps;
  }
}
