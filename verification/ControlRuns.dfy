/** Whole runs of the control runtime: commands, `advance` transactions, the executor, its
    adapters and crashes in any order, and the end-to-end turn budget. */
module ControlRuns {
  import opened Wrappers
  import opened ControlLedger
  import opened ControlEntities
  import opened ControlSpec
  import Fencing
  import Outbox

  /** Everything persisted, plus the volatile submission call and the prompts adapters still hold. */
  datatype State = State(tasks: map<nat, Task>, attempts: map<nat, Attempt>, ledger: Ledger,
                         operations: map<nat, nat>, legacy: map<nat, Legacy>, calling: Option<nat>, sending: set<nat>)

  predicate Known(s: State, n: nat) {
    n in s.attempts && n in s.ledger.reservations && s.attempts[n].run.task in s.tasks
  }

  function ViewOf(s: State, n: nat): View
    requires Known(s, n)
  {
    View(s.attempts[n], s.ledger.reservations[n], if n in s.legacy then Some(s.legacy[n]) else None,
         s.calling == Some(n), n in s.sending)
  }

  function TaskOf(s: State, n: nat): Task
    requires Known(s, n)
  {
    s.tasks[s.attempts[n].run.task]
  }

  /** Writes one attempt's rows back; rows of other attempts are not touched. */
  function Put(s: State, n: nat, v: View): State {
    s.(attempts := s.attempts[n := v.a], ledger := Rewrite(s.ledger, n, v.r),
       legacy := match v.legacy case Some(l) => s.legacy[n := l] case None => s.legacy,
       calling := if v.calling then Some(n) else if s.calling == Some(n) then None else s.calling,
       sending := if v.sending then s.sending + {n} else s.sending - {n})
  }

  function PutEffect(s: State, n: nat, e: Effect): State {
    var next := Put(s, n, e.v);
    match e.task
    case None => next
    case Some(status) =>
      if e.v.a.run.task in s.tasks then
        next.(tasks := next.tasks[e.v.a.run.task := next.tasks[e.v.a.run.task].(status := status)])
      else next
  }

  // ---------------------------------------------------------------- starting work

  datatype Request = Request(task: nat, attempt: nat, previous: Option<nat>, expires: int, payload: nat,
                             configuration: nat)

  function NewAttempt(s: State, q: Request, env: Env): Attempt
    requires q.task in s.tasks
  {
    var lease := Fencing.Lease(Some(env.worker), env.now + LEASE_SECONDS, 1);
    var retry := match q.previous
                 case Some(p) => if p in s.attempts then s.attempts[p].run.retry + 1 else 1
                 case None => 1;
    Attempt(Run(q.task, retry, RunStatus.Queued, WantRunning, Runner, 1, false, lease, s.tasks[q.task].contract,
                q.configuration),
            Action(ActionStatus.Admitted, false, 1, false, false), AssignmentStatus.Ready,
            Grant(true, q.expires, 0), Outbox.Delivery(q.payload, Outbox.Pending), lease)
  }

  function Reservation1(task: nat, n: nat): Reservation {
    Holding(task, task, n)
  }

  predicate RetryOk(s: State, q: Request) {
    match q.previous
    case None => q.task in s.tasks && s.tasks[q.task].status == TaskStatus.Ready
    case Some(p) =>
      && q.task in s.tasks && s.tasks[q.task].status == TaskStatus.Failed
      && p in s.attempts && s.attempts[p].run.task == q.task && s.attempts[p].run.status == RunStatus.Failed
      && s.tasks[q.task].active == Some(p)
  }

  /** `run.start` and `run.retry` as one transaction: a refused reservation undoes all of it. */
  function Start(s: State, q: Request, env: Env): Result<State> {
    if q.task !in s.tasks then Err(NotFound)
    else if !RetryOk(s, q) then Err(InvalidArgument)
    else if q.configuration != env.configuration || s.tasks[q.task].configuration != env.configuration then
      Err(RevisionConflict)
    else
      var reserved :- Reserve(s.ledger, q.attempt, Reservation1(q.task, q.attempt));
      Ok(s.(attempts := s.attempts[q.attempt := NewAttempt(s, q, env)], ledger := reserved.0,
            tasks := s.tasks[q.task := s.tasks[q.task].(status := TaskStatus.Active, active := Some(q.attempt))]))
  }

  // ---------------------------------------------------------------- commands

  /** A client command; identifiers of new Tasks and attempts are minted fresh. */
  datatype Command =
    | CreateTask(task: nat, limit: nat, configuration: nat, acceptance: seq<Criterion>)
    | AmendTask(task: nat, acceptance: seq<Criterion>)
    | StartRun(request: Request)
    | Control(n: nat, action: RunCommand)

  function Create(s: State, task: nat, limit: nat, entity: Task): Result<State> {
    if !Demanding(entity.acceptance) || task in s.tasks || task in s.ledger.budgets || limit > MAX_INT then
      Err(InvalidArgument)
    else Ok(s.(tasks := s.tasks[task := entity],
               ledger := s.ledger.(budgets := s.ledger.budgets[task := Budget(task, Count(limit))])))
  }

  function Amend(s: State, task: nat, acceptance: seq<Criterion>): Result<State> {
    if task !in s.tasks then Err(NotFound)
    else if s.tasks[task].status != TaskStatus.Ready then Err(CapabilityUnsupported)
    else if !Demanding(acceptance) then Err(InvalidArgument)
    else Ok(s.(tasks := s.tasks[task := s.tasks[task].(contract := s.tasks[task].contract + 1, acceptance := acceptance)]))
  }

  function ControlRun(s: State, n: nat, action: RunCommand, env: Env): Result<State> {
    if !Known(s, n) then Err(NotFound)
    else
      var v :- ControlSpec.Command(ViewOf(s, n), action, env);
      Ok(Put(s, n, v))
  }

  function Perform(s: State, c: Command, env: Env): Result<State> {
    match c
    case CreateTask(task, limit, configuration, acceptance) =>
      Create(s, task, limit, Task(TaskStatus.Ready, 1, configuration, None, acceptance))
    case AmendTask(task, acceptance) => Amend(s, task, acceptance)
    case StartRun(request) => if request.attempt in s.attempts then Err(InvalidArgument) else Start(s, request, env)
    case Control(n, action) => ControlRun(s, n, action, env)
  }

  /** The command envelope: a known key answers from its record, a new command must not be expired. */
  function Submit(s: State, key: nat, digest: nat, expires: int, c: Command, env: Env): Result<State> {
    if key in s.operations then
      if s.operations[key] == digest then Ok(s) else Err(IdempotencyConflict)
    else if expires <= env.now then Err(InvalidArgument)
    else
      var next :- Perform(s, c, env);
      Ok(next.(operations := next.operations[key := digest]))
  }

  // ---------------------------------------------------------------- steps

  datatype Step =
    | SubmitStep(key: nat, digest: nat, expires: int, command: Command)
    | Take(n: nat)
    | DispatchStep(n: nat)
    | AbsentIntent(n: nat)
    | UndeliveredStep(n: nat)
    | PauseObserved(n: nat)
    | MarkNotDelivered(n: nat)
    | ConcludeStep(n: nat)
    | OutsideStep(n: nat, event: Outside)
    | Crash

  predicate Live(s: State, n: nat) {
    Known(s, n) && !ActionOver(s.attempts[n].action.status) && !RunOver(s.attempts[n].run.status)
  }

  function Owned(s: State, n: nat, env: Env): Result<View>
    requires Known(s, n)
  {
    var a :- Own(s.attempts[n], env);
    Ok(ViewOf(s, n).(a := a))
  }

  predicate InOutbox(s: State, n: nat) {
    Live(s, n) && n !in s.legacy && !s.attempts[n].action.dispatched
  }

  predicate Watched(s: State, n: nat) {
    Live(s, n) && n in s.legacy
  }

  function Flagged(a: Attempt): Attempt {
    a.(action := a.action.(notDelivered := true))
  }

  // One function a transaction; where its guard fails nothing happens.

  function AfterTake(s: State, n: nat, env: Env): State {
    if Live(s, n) then (match Owned(s, n, env) case Ok(v) => Put(s, n, v) case Err(_) => s) else s
  }

  predicate MayDispatch(s: State, n: nat) {
    InOutbox(s, n) && s.attempts[n].run.desired == WantRunning && s.calling == None
  }

  function AfterDispatch(s: State, n: nat, env: Env): State {
    if !MayDispatch(s, n) then s
    else if GuardRefusal(s.attempts[n], TaskOf(s, n), env, false) == None then Put(s, n, Dispatch(ViewOf(s, n)))
    else PutEffect(s, n, Deny(ViewOf(s, n)))
  }

  predicate IntentAbsent(s: State, n: nat) {
    Live(s, n) && n !in s.legacy && s.attempts[n].action.dispatched && s.calling != Some(n)
  }

  function AfterAbsent(s: State, n: nat, env: Env): State {
    if !IntentAbsent(s, n) then s
    else
      match Owned(s, n, env)
      case Ok(v) => PutEffect(s, n, NotApplied(v))
      case Err(_) => s
  }

  function AfterUndelivered(s: State, n: nat): State {
    if InOutbox(s, n) && s.attempts[n].run.desired != WantRunning then
      PutEffect(s, n, UndeliveredControl(ViewOf(s, n)))
    else s
  }

  function AfterPauseObserved(s: State, n: nat, env: Env): State {
    if !(Watched(s, n) && Undelivered(s.legacy[n]) && s.attempts[n].run.desired == WantPaused) then s
    else
      match Owned(s, n, env)
      case Ok(v) => PutEffect(s, n, ConfirmPause(v))
      case Err(_) => s
  }

  function AfterFlag(s: State, n: nat): State {
    if Watched(s, n) && Undelivered(s.legacy[n]) && s.attempts[n].run.desired == WantCanceled then
      Put(s, n, ViewOf(s, n).(a := Flagged(s.attempts[n])))
    else s
  }

  function AfterConclude(s: State, n: nat, env: Env): State {
    if !Watched(s, n) then s
    else
      match Owned(s, n, env)
      case Err(_) => s
      case Ok(v) =>
        match Conclude(v, TaskOf(s, n), env)
        case Ok(e) => PutEffect(s, n, e)
        case Err(_) => s
  }

  function AfterOutside(s: State, n: nat, event: Outside, env: Env): State {
    if Known(s, n) then Put(s, n, Outer(ViewOf(s, n), event, TaskOf(s, n), env)) else s
  }

  function AfterSubmit(s: State, key: nat, digest: nat, expires: int, c: Command, env: Env): State {
    match Submit(s, key, digest, expires, c, env)
    case Ok(next) => next
    case Err(_) => s
  }

  function Next(s: State, step: Step, env: Env): State {
    match step
    case SubmitStep(key, digest, expires, c) => AfterSubmit(s, key, digest, expires, c, env)
    case Take(n) => AfterTake(s, n, env)
    case DispatchStep(n) => AfterDispatch(s, n, env)
    case AbsentIntent(n) => AfterAbsent(s, n, env)
    case UndeliveredStep(n) => AfterUndelivered(s, n)
    case PauseObserved(n) => AfterPauseObserved(s, n, env)
    case MarkNotDelivered(n) => AfterFlag(s, n)
    case ConcludeStep(n) => AfterConclude(s, n, env)
    case OutsideStep(n, event) => AfterOutside(s, n, event, env)
    case Crash => s.(calling := None, sending := {})
  }

  datatype Event = Event(step: Step, env: Env)

  function Execute(s: State, events: seq<Event>): State
    decreases |events|
  {
    if events == [] then s else Execute(Next(s, events[0].step, events[0].env), events[1..])
  }

  // ---------------------------------------------------------------- the invariant

  ghost predicate AttemptsSound(s: State) {
    && s.attempts.Keys == s.ledger.reservations.Keys
    && forall n :: n in s.attempts ==> Known(s, n) && Sound(ViewOf(s, n))
  }

  predicate Bound(s: State, n: nat)
    requires n in s.attempts && n in s.ledger.reservations
  {
    var r := s.ledger.reservations[n];
    r.task == r.budget == s.attempts[n].run.task && r.action == n
  }

  /** A live attempt is its Task's active one, so a Task has at most one live attempt. */
  predicate Placed(s: State, n: nat)
    requires Known(s, n)
  {
    !ActionOver(s.attempts[n].action.status) ==>
      TaskOf(s, n).status == TaskStatus.Active && TaskOf(s, n).active == Some(n)
  }

  ghost predicate AttemptsPlaced(s: State)
    requires AttemptsSound(s)
  {
    forall n :: n in s.attempts ==> Bound(s, n) && Placed(s, n)
  }

  ghost predicate BudgetsOk(s: State) {
    && s.tasks.Keys == s.ledger.budgets.Keys
    && forall t :: t in s.tasks ==>
         s.ledger.budgets[t].task == t
         && exists limit: nat :: limit <= MAX_INT && s.ledger.budgets[t].limits == Count(limit)
  }

  ghost predicate StrayFree(s: State) {
    && (forall n :: n in s.legacy || n in s.sending ==> n in s.attempts)
    && (s.calling.Some? ==> s.calling.value in s.attempts)
  }

  ghost predicate StateOk(s: State) {
    && LedgerOk(s.ledger) && Within(s.ledger) && BudgetsOk(s) && StrayFree(s)
    && AttemptsSound(s) && AttemptsPlaced(s)
  }

  // ---------------------------------------------------------------- writing one attempt back

  lemma ViewPut(s: State, n: nat, v: View, m: nat)
    requires Known(s, n) && Known(s, m) && v.a.run.task == s.attempts[n].run.task
    requires v.legacy.None? ==> n !in s.legacy
    requires v.calling ==> s.calling == None || s.calling == Some(n)
    ensures Known(Put(s, n, v), m)
    ensures ViewOf(Put(s, n, v), m) == if m == n then v else ViewOf(s, m)
  {
  }

  predicate SameClaimant(a: Reservation, b: Reservation) {
    a.task == b.task && a.budget == b.budget && a.action == b.action
  }

  predicate Plain(r: Reservation) {
    && r.reserved == Count(1) && r.status != Released
    && (r.status == Settled ==> r.actual == Some(Count(0)) || r.actual == Some(Count(1)))
    && (r.status != Settled ==> r.actual == None)
  }

  lemma PlainIsStored(r: Reservation)
    requires Plain(r)
    ensures Stored(r)
  {
    CountReads(0);
    CountReads(1);
    assert map[TURNS := 0].Keys == map[TURNS := 1].Keys;
  }

  lemma PlainPortion(r: Reservation, key: Key)
    requires Plain(r)
    ensures Portion(r, true, key) + Portion(r, false, key) == if key == TURNS then Charge(r) else 0
  {
    CountReads(0);
    CountReads(1);
    assert Count(0)[0] == Entry(TURNS, 0) && Count(1)[0] == Entry(TURNS, 1);
  }

  lemma RewriteSmaller(l: Ledger, id: nat, r: Reservation)
    requires LedgerOk(l) && Within(l) && id in l.reservations && SameClaimant(r, l.reservations[id])
    requires Plain(r) && Plain(l.reservations[id]) && Charge(r) <= Charge(l.reservations[id])
    ensures LedgerOk(Rewrite(l, id, r)) && Within(Rewrite(l, id, r))
  {
    PlainIsStored(r);
    RewriteKeepsShape(l, id, r);
    var next := Rewrite(l, id, r);
    forall b, key | b in next.budgets ensures KeyWithin(next, b, key) {
      RewriteTotals(l, id, r, b, key);
      PlainPortion(r, key);
      PlainPortion(l.reservations[id], key);
      assert KeyWithin(l, b, key);
    }
  }

  lemma SoundIsPlain(v: View)
    requires Sound(v)
    ensures Plain(v.r)
  {
  }

  /** What a transaction may hand back for attempt `n`. */
  predicate Fits(s: State, n: nat, v: View)
    requires Known(s, n)
  {
    && Sound(v) && v.a.run.task == s.attempts[n].run.task && SameClaimant(v.r, s.ledger.reservations[n])
    && Charge(v.r) <= Charge(s.ledger.reservations[n])
    && (v.legacy.None? ==> n !in s.legacy)
    && (v.calling ==> s.calling == None || s.calling == Some(n))
  }

  lemma PutKeepsViews(s: State, n: nat, v: View)
    requires AttemptsSound(s) && n in s.attempts && Fits(s, n, v)
    ensures AttemptsSound(Put(s, n, v))
    ensures forall m :: m in s.attempts ==> ViewOf(Put(s, n, v), m) == if m == n then v else ViewOf(s, m)
  {
    var next := Put(s, n, v);
    assert next.attempts.Keys == s.attempts.Keys;
    forall m | m in next.attempts
      ensures Known(next, m) && Sound(ViewOf(next, m)) && ViewOf(next, m) == if m == n then v else ViewOf(s, m)
    {
      assert Known(s, m) && Sound(ViewOf(s, m));
      ViewPut(s, n, v, m);
    }
  }

  lemma PutKeepsLedger(s: State, n: nat, v: View)
    requires StateOk(s) && n in s.attempts && Fits(s, n, v)
    ensures LedgerOk(Put(s, n, v).ledger) && Within(Put(s, n, v).ledger)
  {
    assert Sound(ViewOf(s, n));
    SoundIsPlain(ViewOf(s, n));
    SoundIsPlain(v);
    RewriteSmaller(s.ledger, n, v.r);
  }

  lemma PutKeepsPlaces(s: State, n: nat, v: View)
    requires StateOk(s) && n in s.attempts && Fits(s, n, v)
    requires ActionOver(v.a.action.status) || !ActionOver(s.attempts[n].action.status)
    requires AttemptsSound(Put(s, n, v))
    ensures AttemptsPlaced(Put(s, n, v))
  {
    var next := Put(s, n, v);
    forall m | m in next.attempts ensures Bound(next, m) && Placed(next, m) {
      assert Bound(s, m) && Placed(s, m);
    }
  }

  /** Writing back a fitting view that does not reopen a finished attempt keeps the state sound. */
  lemma PutKeeps(s: State, n: nat, v: View)
    requires StateOk(s) && n in s.attempts && Fits(s, n, v)
    requires ActionOver(v.a.action.status) || !ActionOver(s.attempts[n].action.status)
    ensures StateOk(Put(s, n, v))
  {
    PutKeepsViews(s, n, v);
    PutKeepsLedger(s, n, v);
    PutKeepsPlaces(s, n, v);
    assert BudgetsOk(Put(s, n, v));
    assert StrayFree(Put(s, n, v));
  }

  lemma OnlyLiveAttempt(s: State, n: nat, m: nat)
    requires AttemptsSound(s) && AttemptsPlaced(s) && n in s.attempts && m in s.attempts
    requires !ActionOver(s.attempts[n].action.status) && !ActionOver(s.attempts[m].action.status)
    requires s.attempts[n].run.task == s.attempts[m].run.task
    ensures n == m
  {
    assert Placed(s, n) && Placed(s, m);
  }

  function Retask(s: State, t: nat, task: Task): State {
    s.(tasks := s.tasks[t := task])
  }

  lemma RetaskKeepsViews(s: State, t: nat, task: Task)
    requires AttemptsSound(s) && t in s.tasks
    ensures AttemptsSound(Retask(s, t, task))
  {
    var next := Retask(s, t, task);
    forall m | m in next.attempts ensures Known(next, m) && Sound(ViewOf(next, m)) {
      assert Known(s, m) && Sound(ViewOf(s, m));
      assert ViewOf(next, m) == ViewOf(s, m);
    }
  }

  predicate TaskIdle(s: State, t: nat) {
    forall m :: m in s.attempts && s.attempts[m].run.task == t ==> ActionOver(s.attempts[m].action.status)
  }

  lemma RetaskKeepsPlaces(s: State, t: nat, task: Task)
    requires AttemptsSound(s) && AttemptsPlaced(s) && t in s.tasks && AttemptsSound(Retask(s, t, task))
    requires TaskIdle(s, t)
    ensures AttemptsPlaced(Retask(s, t, task))
  {
    var next := Retask(s, t, task);
    forall m | m in next.attempts ensures Bound(next, m) && Placed(next, m) {
      assert Bound(s, m) && Placed(s, m);
    }
  }

  /** A Task without live attempts may change in any way. */
  lemma RetaskKeeps(s: State, t: nat, task: Task)
    requires StateOk(s) && t in s.tasks
    requires TaskIdle(s, t)
    ensures StateOk(Retask(s, t, task))
  {
    RetaskKeepsViews(s, t, task);
    RetaskKeepsPlaces(s, t, task);
    var next := Retask(s, t, task);
    assert next.tasks.Keys == s.tasks.Keys;
    assert BudgetsOk(next) && StrayFree(next);
  }

  lemma EndedLeavesIdle(s: State, n: nat, v: View)
    requires AttemptsSound(s) && AttemptsPlaced(s) && n in s.attempts && !ActionOver(s.attempts[n].action.status)
    requires v.a.run.task == s.attempts[n].run.task && ActionOver(v.a.action.status)
    ensures TaskIdle(Put(s, n, v), v.a.run.task) && v.a.run.task in Put(s, n, v).tasks
  {
    var next := Put(s, n, v);
    assert Known(s, n);
    forall m | m in next.attempts && next.attempts[m].run.task == v.a.run.task
      ensures ActionOver(next.attempts[m].action.status)
    {
      if m != n && !ActionOver(s.attempts[m].action.status) {
        OnlyLiveAttempt(s, n, m);
      }
    }
  }

  lemma PutEffectKeeps(s: State, n: nat, e: Effect)
    requires StateOk(s) && n in s.attempts && Fits(s, n, e.v) && !ActionOver(s.attempts[n].action.status)
    requires e.task.Some? <==> ActionOver(e.v.a.action.status)
    ensures StateOk(PutEffect(s, n, e))
  {
    PutKeeps(s, n, e.v);
    if e.task.Some? {
      EndedLeavesIdle(s, n, e.v);
      var next, t := Put(s, n, e.v), e.v.a.run.task;
      RetaskKeeps(next, t, next.tasks[t].(status := e.task.value));
    }
  }

  // ---------------------------------------------------------------- every step keeps the invariant

  /** `v` is the attempt as read, except for its attempt rows. */
  predicate ReadAs(s: State, n: nat, v: View)
    requires Known(s, n)
  {
    v == ViewOf(s, n).(a := v.a) && v.a.run.task == s.attempts[n].run.task
  }

  lemma FitsFrom(s: State, n: nat, v: View, w: View)
    requires AttemptsSound(s) && StrayFree(s) && n in s.attempts && ReadAs(s, n, v) && Sound(w)
    requires w.a.run.task == v.a.run.task && SameClaimant(w.r, v.r) && Charge(w.r) <= Charge(v.r)
    requires w.legacy == v.legacy && w.calling == v.calling
    ensures Fits(s, n, w)
  {
    assert Known(s, n);
  }

  /** A live attempt is either still in the outbox or already marked as delivering. */
  predicate Open(v: View) {
    Sound(v) && Charge(v.r) == 1 && if v.a.action.dispatched then Sent(v) else Fresh(v)
  }

  lemma LiveIsOpen(s: State, n: nat)
    requires AttemptsSound(s) && Live(s, n)
    ensures n in s.attempts && Open(ViewOf(s, n))
  {
    assert Known(s, n) && Sound(ViewOf(s, n));
  }

  lemma OwnOpen(v: View, a: Attempt, env: Env)
    requires Open(v) && Own(v.a, env) == Ok(a)
    ensures Open(v.(a := a)) && a.run.task == v.a.run.task && a.run.desired == v.a.run.desired
    ensures a.action.dispatched == v.a.action.dispatched
  {
    OwnKeeps(v, env);
  }

  /** An own attempt as the transaction reads it. */
  predicate Held1(s: State, n: nat, v: View)
    requires Known(s, n)
  {
    Open(v) && ReadAs(s, n, v) && v.a.run.desired == s.attempts[n].run.desired
    && v.a.action.dispatched == s.attempts[n].action.dispatched
  }

  lemma OwnedHeld(s: State, n: nat, env: Env)
    requires AttemptsSound(s) && Live(s, n) && Owned(s, n, env).Ok?
    ensures Held1(s, n, Owned(s, n, env).value)
  {
    LiveIsOpen(s, n);
    OwnOpen(ViewOf(s, n), Own(s.attempts[n], env).value, env);
  }

  lemma ReadHeld(s: State, n: nat)
    requires AttemptsSound(s) && Live(s, n)
    ensures Held1(s, n, ViewOf(s, n))
  {
    LiveIsOpen(s, n);
  }

  /** What an effect on an open attempt must respect. */
  predicate Settles(v: View, e: Effect) {
    && Sound(e.v) && e.v.a.run.task == v.a.run.task && SameClaimant(e.v.r, v.r)
    && e.v.legacy == v.legacy && e.v.calling == v.calling
    && (e.task.Some? <==> ActionOver(e.v.a.action.status))
  }

  lemma EffectKeeps(s: State, n: nat, v: View, e: Effect)
    requires StateOk(s) && Live(s, n) && n in s.attempts && Held1(s, n, v) && Settles(v, e)
    ensures StateOk(PutEffect(s, n, e))
  {
    FitsFrom(s, n, v, e.v);
    PutEffectKeeps(s, n, e);
  }

  lemma OwnedEffectKeeps(s: State, n: nat, env: Env, r: Result<Effect>)
    requires StateOk(s) && Live(s, n) && Owned(s, n, env).Ok?
    requires r.Ok? ==> Settles(Owned(s, n, env).value, r.value)
    ensures r.Ok? ==> StateOk(PutEffect(s, n, r.value))
  {
    if r.Ok? {
      OwnedHeld(s, n, env);
      EffectKeeps(s, n, Owned(s, n, env).value, r.value);
    }
  }

  lemma TakeKeeps(s: State, n: nat, env: Env)
    requires StateOk(s)
    ensures StateOk(AfterTake(s, n, env))
  {
    if Live(s, n) && Owned(s, n, env).Ok? {
      OwnedHeld(s, n, env);
      var v := Owned(s, n, env).value;
      FitsFrom(s, n, v, v);
      PutKeeps(s, n, v);
    }
  }

  lemma DenySettles(v: View)
    requires Open(v) && !v.a.action.dispatched
    ensures Settles(v, Deny(v))
  {
    DenyKeeps(v);
  }

  lemma DispatchFits(s: State, n: nat, env: Env)
    requires AttemptsSound(s) && StrayFree(s) && InOutbox(s, n) && s.calling == None
    requires GuardRefusal(s.attempts[n], TaskOf(s, n), env, false) == None
    ensures Fits(s, n, Dispatch(ViewOf(s, n)))
  {
    LiveIsOpen(s, n);
    DispatchKeeps(ViewOf(s, n), TaskOf(s, n), env);
  }

  lemma DispatchStepKeeps(s: State, n: nat, env: Env)
    requires StateOk(s)
    ensures StateOk(AfterDispatch(s, n, env))
  {
    if MayDispatch(s, n) {
      ReadHeld(s, n);
      if GuardRefusal(s.attempts[n], TaskOf(s, n), env, false) == None {
        DispatchFits(s, n, env);
        PutKeeps(s, n, Dispatch(ViewOf(s, n)));
      } else {
        DenySettles(ViewOf(s, n));
        EffectKeeps(s, n, ViewOf(s, n), Deny(ViewOf(s, n)));
      }
    }
  }

  lemma NotAppliedSettles(v: View)
    requires Open(v) && v.a.action.dispatched && v.legacy.None? && !v.calling
    ensures Settles(v, NotApplied(v))
  {
    NotAppliedKeeps(v);
  }

  lemma AbsentKeeps(s: State, n: nat, env: Env)
    requires StateOk(s)
    ensures StateOk(AfterAbsent(s, n, env))
  {
    if IntentAbsent(s, n) && Owned(s, n, env).Ok? {
      OwnedHeld(s, n, env);
      NotAppliedSettles(Owned(s, n, env).value);
      OwnedEffectKeeps(s, n, env, Ok(NotApplied(Owned(s, n, env).value)));
    }
  }

  lemma UndeliveredSettles(v: View)
    requires Open(v) && !v.a.action.dispatched && v.a.run.desired != WantRunning
    ensures Settles(v, UndeliveredControl(v))
  {
    UndeliveredKeeps(v);
  }

  lemma UndeliveredStepKeeps(s: State, n: nat)
    requires StateOk(s)
    ensures StateOk(AfterUndelivered(s, n))
  {
    if InOutbox(s, n) && s.attempts[n].run.desired != WantRunning {
      ReadHeld(s, n);
      UndeliveredSettles(ViewOf(s, n));
      EffectKeeps(s, n, ViewOf(s, n), UndeliveredControl(ViewOf(s, n)));
    }
  }

  lemma PauseSettles(v: View)
    requires Open(v) && v.a.action.dispatched && v.a.run.desired == WantPaused && v.legacy.Some?
    ensures Settles(v, ConfirmPause(v))
  {
    ConfirmPauseKeeps(v);
  }

  lemma WatchedIsDispatched(s: State, n: nat)
    requires AttemptsSound(s) && Watched(s, n)
    ensures s.attempts[n].action.dispatched
  {
    LiveIsOpen(s, n);
  }

  lemma PauseObservedKeeps(s: State, n: nat, env: Env)
    requires StateOk(s)
    ensures StateOk(AfterPauseObserved(s, n, env))
  {
    if Watched(s, n) && Undelivered(s.legacy[n]) && s.attempts[n].run.desired == WantPaused && Owned(s, n, env).Ok? {
      OwnedHeld(s, n, env);
      WatchedIsDispatched(s, n);
      PauseSettles(Owned(s, n, env).value);
      OwnedEffectKeeps(s, n, env, Ok(ConfirmPause(Owned(s, n, env).value)));
    }
  }

  lemma ConcludeFrame(v: View, task: Task, env: Env)
    requires v.legacy.Some? && Conclude(v, task, env).Ok?
    ensures var w := Conclude(v, task, env).value.v;
            && w.a.run.task == v.a.run.task && SameClaimant(w.r, v.r) && w.legacy == v.legacy && w.calling == v.calling
  {
  }

  lemma ConcludeSettles(v: View, task: Task, env: Env)
    requires Open(v) && v.a.action.dispatched && v.legacy.Some? && Conclude(v, task, env).Ok?
    ensures Settles(v, Conclude(v, task, env).value)
  {
    ConcludeKeeps(v, task, env);
    ConcludeFrame(v, task, env);
    var e := Conclude(v, task, env).value;
    OverIsAction(e.v);
  }

  lemma OverIsAction(v: View)
    requires Sound(v)
    ensures Over(v) <==> ActionOver(v.a.action.status)
  {
  }

  lemma ConcludeStepKeeps(s: State, n: nat, env: Env)
    requires StateOk(s)
    ensures StateOk(AfterConclude(s, n, env))
  {
    if Watched(s, n) && Owned(s, n, env).Ok? {
      OwnedHeld(s, n, env);
      WatchedIsDispatched(s, n);
      var v := Owned(s, n, env).value;
      var r := Conclude(v, TaskOf(s, n), env);
      if r.Ok? {
        ConcludeSettles(v, TaskOf(s, n), env);
      }
      OwnedEffectKeeps(s, n, env, r);
    }
  }

  /** What a change outside the effects must respect. */
  predicate Moves(v: View, w: View) {
    && Sound(w) && w.a.run.task == v.a.run.task && w.r == v.r
    && (v.legacy.Some? ==> w.legacy.Some?) && (w.calling ==> v.calling)
    && (ActionOver(w.a.action.status) <==> ActionOver(v.a.action.status))
  }

  lemma MoveKeeps(s: State, n: nat, w: View)
    requires StateOk(s) && n in s.attempts && Moves(ViewOf(s, n), w)
    ensures StateOk(Put(s, n, w))
  {
    assert Known(s, n);
    assert Fits(s, n, w);
    PutKeeps(s, n, w);
  }

  lemma OuterMoves(v: View, event: Outside, task: Task, env: Env)
    requires Sound(v)
    ensures Moves(v, Outer(v, event, task, env))
  {
    OuterKeeps(v, event, task, env);
  }

  lemma OutsideKeeps(s: State, n: nat, event: Outside, env: Env)
    requires StateOk(s)
    ensures StateOk(AfterOutside(s, n, event, env))
  {
    if Known(s, n) {
      assert Sound(ViewOf(s, n));
      OuterMoves(ViewOf(s, n), event, TaskOf(s, n), env);
      MoveKeeps(s, n, Outer(ViewOf(s, n), event, TaskOf(s, n), env));
    }
  }

  lemma FlaggedMoves(v: View)
    requires Sound(v) && v.legacy.Some? && Undelivered(v.legacy.value) && v.a.run.desired == WantCanceled
    ensures Moves(v, v.(a := Flagged(v.a)))
  {
  }

  lemma MarkNotDeliveredKeeps(s: State, n: nat)
    requires StateOk(s)
    ensures StateOk(AfterFlag(s, n))
  {
    if Watched(s, n) && Undelivered(s.legacy[n]) && s.attempts[n].run.desired == WantCanceled {
      assert Sound(ViewOf(s, n));
      FlaggedMoves(ViewOf(s, n));
      MoveKeeps(s, n, ViewOf(s, n).(a := Flagged(s.attempts[n])));
    }
  }

  lemma CrashStepKeeps(s: State)
    requires StateOk(s)
    ensures StateOk(s.(calling := None, sending := {}))
  {
    var next := s.(calling := None, sending := {});
    forall n | n in next.attempts ensures Known(next, n) && Sound(ViewOf(next, n)) {
      assert Known(s, n) && Sound(ViewOf(s, n));
      CrashKeeps(ViewOf(s, n));
      assert ViewOf(next, n) == ViewOf(s, n).(calling := false, sending := false);
    }
    forall n | n in next.attempts ensures Bound(next, n) && Placed(next, n) {
      assert Bound(s, n) && Placed(s, n);
    }
    assert BudgetsOk(next) && StrayFree(next);
  }

  // Commands.

  lemma CommandMoves(v: View, action: RunCommand, env: Env)
    requires Sound(v) && ControlSpec.Command(v, action, env).Ok?
    ensures Moves(v, ControlSpec.Command(v, action, env).value)
  {
    CommandKeeps(v, action, env);
  }

  lemma ControlKeeps(s: State, n: nat, action: RunCommand, env: Env)
    requires StateOk(s) && ControlRun(s, n, action, env).Ok?
    ensures StateOk(ControlRun(s, n, action, env).value)
  {
    assert Sound(ViewOf(s, n));
    CommandMoves(ViewOf(s, n), action, env);
    MoveKeeps(s, n, ControlSpec.Command(ViewOf(s, n), action, env).value);
  }

  lemma AmendRetasks(s: State, task: nat, acceptance: seq<Criterion>)
    requires Amend(s, task, acceptance).Ok?
    ensures task in s.tasks && s.tasks[task].status != TaskStatus.Active
    ensures Amend(s, task, acceptance).value
         == Retask(s, task, s.tasks[task].(contract := s.tasks[task].contract + 1, acceptance := acceptance))
  {
  }

  lemma RestingKeeps(s: State, task: nat, entity: Task)
    requires StateOk(s) && task in s.tasks && s.tasks[task].status != TaskStatus.Active
    ensures StateOk(Retask(s, task, entity))
  {
    IdleUnlessActive(s, task);
    RetaskKeeps(s, task, entity);
  }

  lemma AmendKeeps(s: State, task: nat, acceptance: seq<Criterion>)
    requires StateOk(s) && Amend(s, task, acceptance).Ok?
    ensures StateOk(Amend(s, task, acceptance).value)
  {
    AmendRetasks(s, task, acceptance);
    RestingKeeps(s, task, s.tasks[task].(contract := s.tasks[task].contract + 1, acceptance := acceptance));
  }

  lemma IdleUnlessActive(s: State, t: nat)
    requires StateOk(s) && t in s.tasks && s.tasks[t].status != TaskStatus.Active
    ensures TaskIdle(s, t)
  {
    forall m | m in s.attempts && s.attempts[m].run.task == t ensures ActionOver(s.attempts[m].action.status) {
      assert Placed(s, m);
    }
  }

  /** A new Task's budget, and nothing else, is added. */
  predicate Extends(s: State, next: State, task: nat, limit: nat) {
    && limit <= MAX_INT && task !in s.tasks && task in next.tasks && next.tasks.Keys == s.tasks.Keys + {task}
    && next == s.(tasks := next.tasks, ledger := next.ledger)
    && next.ledger == ControlLedger.Apply(s.ledger, PutBudget(task, Budget(task, Count(limit))))
    && forall t :: t in s.tasks ==> next.tasks[t] == s.tasks[t]
  }

  lemma CreateExtends(s: State, task: nat, limit: nat, entity: Task)
    requires Create(s, task, limit, entity).Ok?
    ensures Extends(s, Create(s, task, limit, entity).value, task, limit)
  {
  }

  lemma ExtendedViews(s: State, next: State, task: nat, limit: nat)
    requires AttemptsSound(s) && AttemptsPlaced(s) && Extends(s, next, task, limit)
    ensures AttemptsSound(next) && AttemptsPlaced(next)
  {
    forall m | m in next.attempts ensures Known(next, m) && Sound(ViewOf(next, m)) {
      assert Known(s, m) && Sound(ViewOf(s, m));
      assert ViewOf(next, m) == ViewOf(s, m);
    }
    forall m | m in next.attempts ensures Bound(next, m) && Placed(next, m) {
      assert Bound(s, m) && Placed(s, m);
    }
  }

  lemma ExtendedKeeps(s: State, next: State, task: nat, limit: nat)
    requires StateOk(s) && Extends(s, next, task, limit)
    ensures StateOk(next)
  {
    PutBudgetKeeps(s.ledger, task, Budget(task, Count(limit)));
    ExtendedViews(s, next, task, limit);
    assert next.tasks.Keys == next.ledger.budgets.Keys;
    assert StrayFree(next);
  }

  lemma CreateKeeps(s: State, task: nat, limit: nat, entity: Task)
    requires StateOk(s) && Create(s, task, limit, entity).Ok?
    ensures StateOk(Create(s, task, limit, entity).value)
  {
    CreateExtends(s, task, limit, entity);
    ExtendedKeeps(s, Create(s, task, limit, entity).value, task, limit);
  }

  lemma {:induction false} NoMatch(s: State, rows: seq<Row>, t: nat, n: nat)
    requires forall i :: 0 <= i < |rows| ==> rows[i].action == rows[i].id && rows[i].id != n
    ensures Matching(rows, n, t, n) == []
  {
    if rows != [] {
      NoMatch(s, rows[..|rows| - 1], t, n);
    }
  }

  lemma FreshNumber(s: State, t: nat, n: nat)
    requires StateOk(s) && n !in s.attempts
    ensures Matching(s.ledger.rows, n, t, n) == []
    ensures n !in s.legacy && n !in s.sending && s.calling != Some(n)
  {
    forall i | 0 <= i < |s.ledger.rows| ensures s.ledger.rows[i].action == s.ledger.rows[i].id && s.ledger.rows[i].id != n {
      assert RowMatches(s.ledger, s.ledger.rows[i]);
      assert Bound(s, s.ledger.rows[i].id);
    }
    NoMatch(s, s.ledger.rows, t, n);
  }

  function Begun(s: State, q: Request, env: Env): State
    requires q.task in s.tasks
  {
    s.(attempts := s.attempts[q.attempt := NewAttempt(s, q, env)],
       ledger := Insert(s.ledger, q.attempt, Reservation1(q.task, q.attempt)),
       tasks := s.tasks[q.task := s.tasks[q.task].(status := TaskStatus.Active, active := Some(q.attempt))])
  }

  /** An accepted start inserts a new reservation, never answers from an old one. */
  lemma StartBegins(s: State, q: Request, env: Env, next: State)
    requires StateOk(s) && q.attempt !in s.attempts && Start(s, q, env) == Ok(next)
    ensures next == Begun(s, q, env)
    ensures LedgerOk(Begun(s, q, env).ledger) && Within(Begun(s, q, env).ledger)
  {
    FreshNumber(s, q.task, q.attempt);
    ReserveKeeps(s.ledger, q.attempt, Reservation1(q.task, q.attempt));
  }

  lemma NewIsSound(s: State, q: Request, env: Env)
    requires q.task in s.tasks
    ensures Sound(View(NewAttempt(s, q, env), Reservation1(q.task, q.attempt), None, false, false))
  {
  }

  lemma BegunView(s: State, q: Request, env: Env, m: nat)
    requires q.task in s.tasks && q.attempt !in s.legacy && q.attempt !in s.sending && s.calling != Some(q.attempt)
    requires m != q.attempt ==> Known(s, m)
    ensures Known(Begun(s, q, env), m)
    ensures ViewOf(Begun(s, q, env), m)
         == if m == q.attempt then View(NewAttempt(s, q, env), Reservation1(q.task, q.attempt), None, false, false)
            else ViewOf(s, m)
  {
  }

  lemma BegunViews(s: State, q: Request, env: Env)
    requires StateOk(s) && q.attempt !in s.attempts && q.task in s.tasks
    ensures AttemptsSound(Begun(s, q, env))
  {
    FreshNumber(s, q.task, q.attempt);
    NewIsSound(s, q, env);
    BegunSound(s, q, env);
  }

  lemma BegunSound(s: State, q: Request, env: Env)
    requires AttemptsSound(s) && q.task in s.tasks
    requires q.attempt !in s.legacy && q.attempt !in s.sending && s.calling != Some(q.attempt)
    requires Sound(View(NewAttempt(s, q, env), Reservation1(q.task, q.attempt), None, false, false))
    ensures AttemptsSound(Begun(s, q, env))
  {
    var next := Begun(s, q, env);
    assert next.attempts.Keys == next.ledger.reservations.Keys;
    forall m | m in next.attempts ensures Known(next, m) && Sound(ViewOf(next, m)) {
      BegunView(s, q, env, m);
    }
  }

  lemma BegunPlaces(s: State, q: Request, env: Env)
    requires StateOk(s) && q.attempt !in s.attempts && q.task in s.tasks && TaskIdle(s, q.task)
    requires AttemptsSound(Begun(s, q, env))
    ensures AttemptsPlaced(Begun(s, q, env))
  {
    var next := Begun(s, q, env);
    forall m | m in next.attempts ensures Bound(next, m) && Placed(next, m) {
      if m != q.attempt {
        assert Bound(s, m) && Placed(s, m);
      }
    }
  }

  lemma StartKeeps(s: State, q: Request, env: Env)
    requires StateOk(s) && q.attempt !in s.attempts && Start(s, q, env).Ok?
    ensures StateOk(Start(s, q, env).value)
  {
    StartBegins(s, q, env, Start(s, q, env).value);
    IdleUnlessActive(s, q.task);
    BegunViews(s, q, env);
    BegunPlaces(s, q, env);
    var next := Begun(s, q, env);
    assert next.tasks.Keys == s.tasks.Keys && next.ledger.budgets == s.ledger.budgets;
    assert BudgetsOk(next) && StrayFree(next);
  }

  lemma PerformKeeps(s: State, c: Command, env: Env, next: State)
    requires StateOk(s) && Perform(s, c, env) == Ok(next)
    ensures StateOk(next)
  {
    match c
    case CreateTask(task, limit, configuration, acceptance) =>
      CreateKeeps(s, task, limit, Task(TaskStatus.Ready, 1, configuration, None, acceptance));
    case AmendTask(task, acceptance) => AmendKeeps(s, task, acceptance);
    case StartRun(request) => StartKeeps(s, request, env);
    case Control(n, action) => ControlKeeps(s, n, action, env);
  }

  lemma RecordedKeeps(s: State, operations: map<nat, nat>)
    requires StateOk(s)
    ensures StateOk(s.(operations := operations))
  {
    var next := s.(operations := operations);
    forall m | m in next.attempts ensures Known(next, m) && Sound(ViewOf(next, m)) {
      assert Known(s, m) && Sound(ViewOf(s, m));
      assert ViewOf(next, m) == ViewOf(s, m);
    }
    forall m | m in next.attempts ensures Bound(next, m) && Placed(next, m) {
      assert Bound(s, m) && Placed(s, m);
    }
    assert BudgetsOk(next) && StrayFree(next);
  }

  lemma SubmitKeeps(s: State, key: nat, digest: nat, expires: int, c: Command, env: Env)
    requires StateOk(s)
    ensures StateOk(AfterSubmit(s, key, digest, expires, c, env))
  {
    if Submit(s, key, digest, expires, c, env).Ok? && key !in s.operations {
      var done := Perform(s, c, env).value;
      PerformKeeps(s, c, env, done);
      RecordedKeeps(done, done.operations[key := digest]);
    }
  }

  lemma NextKeeps(s: State, step: Step, env: Env, next: State)
    requires StateOk(s) && next == Next(s, step, env)
    ensures StateOk(next)
  {
    match step
    case SubmitStep(key, digest, expires, c) => SubmitKeeps(s, key, digest, expires, c, env);
    case Take(n) => TakeKeeps(s, n, env);
    case DispatchStep(n) => DispatchStepKeeps(s, n, env);
    case AbsentIntent(n) => AbsentKeeps(s, n, env);
    case UndeliveredStep(n) => UndeliveredStepKeeps(s, n);
    case PauseObserved(n) => PauseObservedKeeps(s, n, env);
    case MarkNotDelivered(n) => MarkNotDeliveredKeeps(s, n);
    case ConcludeStep(n) => ConcludeStepKeeps(s, n, env);
    case OutsideStep(n, event) => OutsideKeeps(s, n, event, env);
    case Crash => CrashStepKeeps(s);
  }

  /** The invariant holds after every run of commands, control transactions, executor events and crashes. */
  lemma {:induction false} ExecuteKeeps(s: State, events: seq<Event>)
    requires StateOk(s)
    ensures StateOk(Execute(s, events))
    decreases |events|
  {
    if events != [] {
      var next := Next(s, events[0].step, events[0].env);
      NextKeeps(s, events[0].step, events[0].env, next);
      ExecuteKeeps(next, events[1..]);
    }
  }

  const EMPTY_STATE := State(map[], map[], EMPTY, map[], map[], None, {})

  lemma EmptyOk()
    ensures StateOk(EMPTY_STATE)
  {
    assert EMPTY_STATE.attempts.Keys == EMPTY_STATE.ledger.reservations.Keys;
  }

  /** In every reachable state an Action is finished exactly when its Reservation is settled, its
      outbox row is done and its Run is over; until then the Reservation is held or uncertain. */
  lemma LedgersAgree(events: seq<Event>, n: nat)
    requires n in Execute(EMPTY_STATE, events).attempts
    ensures var s := Execute(EMPTY_STATE, events);
            && n in s.ledger.reservations
            && (ActionOver(s.attempts[n].action.status) <==> s.ledger.reservations[n].status == Settled)
            && (ActionOver(s.attempts[n].action.status) <==> s.attempts[n].outbox.status == Outbox.Done)
            && (ActionOver(s.attempts[n].action.status) <==> RunOver(s.attempts[n].run.status))
            && (s.ledger.reservations[n].status != Settled ==> s.ledger.reservations[n].status in {Held, Uncertain})
  {
    EmptyOk();
    ExecuteKeeps(EMPTY_STATE, events);
    var s := Execute(EMPTY_STATE, events);
    assert Known(s, n) && Sound(ViewOf(s, n));
    OverEverywhere(ViewOf(s, n));
  }

  // ---------------------------------------------------------------- the end-to-end turn budget

  /** What the provider was sent for the attempts listed in the reservation index of one Task. */
  function PromptSum(legacy: map<nat, Legacy>, rows: seq<Row>, t: nat): nat {
    if rows == [] then 0
    else
      var last := rows[|rows| - 1];
      PromptSum(legacy, rows[..|rows| - 1], t)
      + (if last.budget == t && last.id in legacy then legacy[last.id].prompts else 0)
  }

  /** A step that really submits a prompt for an attempt of Task `t`. */
  predicate Submits(s: State, step: Step, t: nat) {
    && step.OutsideStep? && step.event == SendPrompt
    && Known(s, step.n) && step.n in s.sending && s.attempts[step.n].run.task == t
  }

  /** How many prompts a run submits for Task `t`. */
  function Submissions(s: State, events: seq<Event>, t: nat): nat
    decreases |events|
  {
    if events == [] then 0
    else
      (if Submits(s, events[0].step, t) then 1 else 0)
      + Submissions(Next(s, events[0].step, events[0].env), events[1..], t)
  }

  lemma {:induction false} PromptSumIgnores(legacy: map<nat, Legacy>, rows: seq<Row>, t: nat, n: nat, l: Legacy)
    requires !Indexed(rows, n)
    ensures PromptSum(legacy[n := l], rows, t) == PromptSum(legacy, rows, t)
  {
    if rows != [] {
      var front := rows[..|rows| - 1];
      assert rows[|rows| - 1].id != n;
      assert forall i :: 0 <= i < |front| ==> front[i] == rows[i];
      PromptSumIgnores(legacy, front, t, n, l);
    }
  }

  lemma {:induction false} PromptSumRewritten(legacy: map<nat, Legacy>, rows: seq<Row>, t: nat, at: nat, l: Legacy)
    requires Distinct(rows) && at < |rows|
    ensures var n := rows[at].id;
            PromptSum(legacy[n := l], rows, t)
            == PromptSum(legacy, rows, t)
               + (if rows[at].budget == t then l.prompts - (if n in legacy then legacy[n].prompts else 0) else 0)
  {
    var front, last := rows[..|rows| - 1], rows[|rows| - 1];
    if at == |rows| - 1 {
      assert !Indexed(front, last.id);
      PromptSumIgnores(legacy, front, t, last.id, l);
    } else {
      assert last.id != rows[at].id;
      PromptSumRewritten(legacy, front, t, at, l);
    }
  }

  /** The attempts' reservations cover their submissions, one by one and so in total. */
  lemma {:induction false} ChargesCover(s: State, rows: seq<Row>, t: nat)
    requires AttemptsSound(s) && forall i :: 0 <= i < |rows| ==> rows[i].id in s.attempts
    ensures PromptSum(s.legacy, rows, t)
            <= Sum(s.ledger.reservations, rows, t, true, TURNS) + Sum(s.ledger.reservations, rows, t, false, TURNS)
  {
    if rows != [] {
      var front, last := rows[..|rows| - 1], rows[|rows| - 1];
      ChargesCover(s, front, t);
      assert Known(s, last.id) && Sound(ViewOf(s, last.id));
      ChargeCovers(ViewOf(s, last.id));
      SoundIsPlain(ViewOf(s, last.id));
      PlainPortion(s.ledger.reservations[last.id], TURNS);
    }
  }

  lemma PromptsWithinLimit(s: State, t: nat)
    requires StateOk(s) && t in s.tasks
    ensures t in s.ledger.budgets && PromptSum(s.legacy, s.ledger.rows, t) <= Get(Read(s.ledger.budgets[t].limits), TURNS)
  {
    forall i | 0 <= i < |s.ledger.rows| ensures s.ledger.rows[i].id in s.attempts {
      assert RowMatches(s.ledger, s.ledger.rows[i]);
    }
    ChargesCover(s, s.ledger.rows, t);
    assert KeyWithin(s.ledger, t, TURNS);
  }

  // Only a submission moves the count.

  predicate SameRecords(s: State, next: State) {
    next.legacy == s.legacy && next.ledger.rows == s.ledger.rows
  }

  lemma PutKeepsRecords(s: State, n: nat, v: View)
    requires Known(s, n) && v.legacy == ViewOf(s, n).legacy
    ensures SameRecords(s, Put(s, n, v))
  {
    var next := Put(s, n, v);
    assert next.legacy == s.legacy;
  }

  lemma EffectKeepsRecords(s: State, n: nat, e: Effect)
    requires Known(s, n) && e.v.legacy == ViewOf(s, n).legacy
    ensures SameRecords(s, PutEffect(s, n, e))
  {
    PutKeepsRecords(s, n, e.v);
  }

  lemma ControlStepKeepsRecords(s: State, step: Step, env: Env)
    requires !step.OutsideStep? && !step.SubmitStep?
    ensures SameRecords(s, Next(s, step, env))
  {
    match step
    case Take(n) =>
      if Live(s, n) && Owned(s, n, env).Ok? { PutKeepsRecords(s, n, Owned(s, n, env).value); }
    case DispatchStep(n) =>
      if InOutbox(s, n) {
        PutKeepsRecords(s, n, Dispatch(ViewOf(s, n)));
        EffectKeepsRecords(s, n, Deny(ViewOf(s, n)));
      }
    case AbsentIntent(n) =>
      if Live(s, n) && Owned(s, n, env).Ok? { EffectKeepsRecords(s, n, NotApplied(Owned(s, n, env).value)); }
    case UndeliveredStep(n) =>
      if Live(s, n) { EffectKeepsRecords(s, n, UndeliveredControl(ViewOf(s, n))); }
    case PauseObserved(n) =>
      if Live(s, n) && Owned(s, n, env).Ok? { EffectKeepsRecords(s, n, ConfirmPause(Owned(s, n, env).value)); }
    case MarkNotDelivered(n) =>
      if Live(s, n) { PutKeepsRecords(s, n, ViewOf(s, n).(a := Flagged(s.attempts[n]))); }
    case ConcludeStep(n) => if Watched(s, n) { ConcludeKeepsRecords(s, n, env); }
    case Crash =>
  }

  lemma ConcludeKeepsRecords(s: State, n: nat, env: Env)
    requires Watched(s, n)
    ensures SameRecords(s, AfterConclude(s, n, env))
  {
    if Owned(s, n, env).Ok? {
      var v := Owned(s, n, env).value;
      var r := Conclude(v, TaskOf(s, n), env);
      if r.Ok? {
        ConcludeFrame(v, TaskOf(s, n), env);
        EffectKeepsRecords(s, n, r.value);
      }
    }
  }

  function CountOf(s: State, t: nat): nat {
    PromptSum(s.legacy, s.ledger.rows, t)
  }

  lemma CommandKeepsLegacy(v: View, action: RunCommand, env: Env)
    requires ControlSpec.Command(v, action, env).Ok?
    ensures ControlSpec.Command(v, action, env).value.legacy == v.legacy
  {
  }

  lemma ControlKeepsCount(s: State, n: nat, action: RunCommand, env: Env, t: nat)
    requires ControlRun(s, n, action, env).Ok?
    ensures CountOf(ControlRun(s, n, action, env).value, t) == CountOf(s, t)
  {
    CommandKeepsLegacy(ViewOf(s, n), action, env);
    PutKeepsRecords(s, n, ControlSpec.Command(ViewOf(s, n), action, env).value);
  }

  /** A start adds the index row of an attempt nothing was submitted for. */
  lemma StartKeepsCount(s: State, q: Request, env: Env, t: nat)
    requires StateOk(s) && q.attempt !in s.attempts && Start(s, q, env).Ok?
    ensures CountOf(Start(s, q, env).value, t) == CountOf(s, t)
  {
    StartBegins(s, q, env, Start(s, q, env).value);
    FreshNumber(s, q.task, q.attempt);
    AppendedRow(s.legacy, s.ledger.rows, Row(q.attempt, q.task, q.attempt), t);
  }

  lemma PerformKeepsCount(s: State, c: Command, env: Env, t: nat)
    requires StateOk(s) && Perform(s, c, env).Ok?
    ensures CountOf(Perform(s, c, env).value, t) == CountOf(s, t)
  {
    if c.Control? {
      ControlKeepsCount(s, c.n, c.action, env, t);
    } else if c.StartRun? {
      StartKeepsCount(s, c.request, env, t);
    }
  }

  lemma SubmitKeepsCount(s: State, step: Step, env: Env, t: nat, next: State)
    requires StateOk(s) && step.SubmitStep? && next == Next(s, step, env)
    ensures CountOf(next, t) == CountOf(s, t)
  {
    if Submit(s, step.key, step.digest, step.expires, step.command, env).Ok? && step.key !in s.operations {
      PerformKeepsCount(s, step.command, env, t);
    }
  }

  lemma AppendedRow(legacy: map<nat, Legacy>, rows: seq<Row>, row: Row, t: nat)
    requires row.id !in legacy
    ensures PromptSum(legacy, rows + [row], t) == PromptSum(legacy, rows, t)
  {
    assert (rows + [row])[..|rows|] == rows;
  }

  lemma OuterCounts(v: View, event: Outside, task: Task, env: Env)
    requires Sound(v)
    ensures v.legacy.Some? ==> Outer(v, event, task, env).legacy.Some?
    ensures Prompts(Outer(v, event, task, env)) - Prompts(v) == if event == SendPrompt && v.sending then 1 else 0
  {
    OuterKeeps(v, event, task, env);
  }

  lemma OutsideCounts(s: State, n: nat, event: Outside, env: Env, t: nat)
    requires StateOk(s) && Known(s, n)
    ensures CountOf(AfterOutside(s, n, event, env), t)
            == CountOf(s, t)
               + if event == SendPrompt && n in s.sending && s.attempts[n].run.task == t then 1 else 0
  {
    assert Sound(ViewOf(s, n));
    OuterCounts(ViewOf(s, n), event, TaskOf(s, n), env);
    PutCounts(s, n, Outer(ViewOf(s, n), event, TaskOf(s, n), env), t);
  }

  lemma PutCounts(s: State, n: nat, v: View, t: nat)
    requires StateOk(s) && Known(s, n) && (ViewOf(s, n).legacy.Some? ==> v.legacy.Some?)
    ensures PromptSum(Put(s, n, v).legacy, s.ledger.rows, t)
            == PromptSum(s.legacy, s.ledger.rows, t)
               + if s.attempts[n].run.task == t then Prompts(v) - Prompts(ViewOf(s, n)) else 0
  {
    if v.legacy.Some? {
      assert Indexed(s.ledger.rows, n);
      var at :| 0 <= at < |s.ledger.rows| && s.ledger.rows[at].id == n;
      assert RowMatches(s.ledger, s.ledger.rows[at]) && Bound(s, n);
      PromptSumRewritten(s.legacy, s.ledger.rows, t, at, v.legacy.value);
    }
  }

  lemma NextCounts(s: State, step: Step, env: Env, t: nat, next: State)
    requires StateOk(s) && next == Next(s, step, env)
    ensures CountOf(next, t) == CountOf(s, t) + if Submits(s, step, t) then 1 else 0
  {
    if step.OutsideStep? {
      if Known(s, step.n) {
        OutsideCounts(s, step.n, step.event, env, t);
      }
    } else if step.SubmitStep? {
      SubmitKeepsCount(s, step, env, t, next);
    } else {
      ControlStepKeepsRecords(s, step, env);
    }
  }

  lemma {:induction false} SubmissionsAdd(s: State, events: seq<Event>, t: nat)
    requires StateOk(s)
    ensures CountOf(Execute(s, events), t) == CountOf(s, t) + Submissions(s, events, t)
    decreases |events|
  {
    if events != [] {
      var next := Next(s, events[0].step, events[0].env);
      NextCounts(s, events[0].step, events[0].env, t, next);
      NextKeeps(s, events[0].step, events[0].env, next);
      SubmissionsAdd(next, events[1..], t);
    }
  }

  /** End to end: over every interleaving of commands, control transactions, retries, executor
      events and crashes, the prompts submitted for a Task never exceed its hard turn limit. */
  lemma SubmissionsWithinBudget(events: seq<Event>, t: nat)
    requires t in Execute(EMPTY_STATE, events).tasks
    ensures var end := Execute(EMPTY_STATE, events);
            t in end.ledger.budgets
            && Submissions(EMPTY_STATE, events, t) <= Get(Read(end.ledger.budgets[t].limits), TURNS)
  {
    EmptyOk();
    ExecuteKeeps(EMPTY_STATE, events);
    SubmissionsAdd(EMPTY_STATE, events, t);
    PromptsWithinLimit(Execute(EMPTY_STATE, events), t);
  }

  /** A Task's budget is written once: the limit at the end is the limit it was created with. */
  lemma {:induction false} LimitsNeverRewritten(s: State, events: seq<Event>, t: nat)
    requires t in s.ledger.budgets
    ensures t in Execute(s, events).ledger.budgets && Execute(s, events).ledger.budgets[t] == s.ledger.budgets[t]
    decreases |events|
  {
    if events != [] {
      var next := Next(s, events[0].step, events[0].env);
      BudgetStays(s, events[0].step, events[0].env, t);
      LimitsNeverRewritten(next, events[1..], t);
    }
  }

  predicate SameBudget(s: State, next: State, t: nat)
    requires t in s.ledger.budgets
  {
    t in next.ledger.budgets && next.ledger.budgets[t] == s.ledger.budgets[t]
  }

  lemma CommandKeepsBudget(s: State, c: Command, env: Env, t: nat)
    requires t in s.ledger.budgets && Perform(s, c, env).Ok?
    ensures SameBudget(s, Perform(s, c, env).value, t)
  {
    if c.StartRun? {
      var q := c.request;
      var r := Reserve(s.ledger, q.attempt, Reservation1(q.task, q.attempt));
      assert r.Ok? ==> r.value.0.budgets == s.ledger.budgets;
    }
  }

  lemma BudgetStays(s: State, step: Step, env: Env, t: nat)
    requires t in s.ledger.budgets
    ensures SameBudget(s, Next(s, step, env), t)
  {
    if step.SubmitStep? && Perform(s, step.command, env).Ok? {
      CommandKeepsBudget(s, step.command, env, t);
    }
  }

  /** No attempt is ever submitted twice, and one whose settlement is zero was never submitted. */
  lemma SubmittedAtMostOnce(events: seq<Event>, n: nat)
    requires n in Execute(EMPTY_STATE, events).attempts
    ensures var s := Execute(EMPTY_STATE, events);
            && Known(s, n) && Prompts(ViewOf(s, n)) <= 1
            && (Charge(s.ledger.reservations[n]) == 0 ==> Prompts(ViewOf(s, n)) == 0 && n !in s.sending)
  {
    EmptyOk();
    ExecuteKeeps(EMPTY_STATE, events);
    SubmittedOnceIn(Execute(EMPTY_STATE, events), n);
  }

  lemma SubmittedOnceIn(s: State, n: nat)
    requires AttemptsSound(s) && n in s.attempts
    ensures Known(s, n) && Prompts(ViewOf(s, n)) <= 1
    ensures Charge(s.ledger.reservations[n]) == 0 ==> Prompts(ViewOf(s, n)) == 0 && n !in s.sending
  {
    assert Known(s, n) && Sound(ViewOf(s, n));
    ChargeCovers(ViewOf(s, n));
  }
}
