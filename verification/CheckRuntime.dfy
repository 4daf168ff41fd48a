/** The check runtime as it works on its tables: each call computes what `CheckCalls` says of it, its
    answer included. */
module CheckRuntime {
  import opened Wrappers
  import opened CheckJobs
  import opened CheckCalls

  /** Every job but those in `rest` has been looked at by `restore`. */
  ghost predicate RestoredBut(before: map<nat, Job>, jobs: map<nat, Job>, rest: set<nat>) {
    && jobs.Keys == before.Keys
    && forall id :: id in before ==> jobs[id] == if id in rest then before[id] else Restored(before[id])
  }

  class CheckRuntime {
    var jobs: map<nat, Job>
    var active: map<nat, bool>
    var updates: seq<(nat, Update)>
    var workers: set<nat>
    ghost var launches: map<nat, nat>
    const limit: nat

    constructor (stored: map<nat, Job>, concurrency: nat)
      ensures jobs == stored && active == map[] && updates == [] && workers == {} && limit == concurrency
    {
      jobs, active, updates, workers, launches, limit := stored, map[], [], {}, map[], concurrency;
    }

    ghost function At(submitting: Option<nat>): State
      reads this
    {
      State(jobs, active, updates, workers, submitting, launches)
    }

    ghost function Now(): State
      reads this
    {
      At(None)
    }

    /** `record`: a report for a job no longer in hand is ignored; a cancel wins over any report. */
    method RecordUpdate(id: nat, u: Update, current: bool)
      requires id in active ==> id in jobs
      modifies this`jobs, this`active
      ensures Now() == Record(old(Now()), id, u, current)
    {
      if id !in active {
        return;
      }
      var job := jobs[id];
      var status := u.status;
      if status == Running || status == Cancelling {
        status := Unknown;
      }
      if job.status == Cancelling || active[id] {
        status := Cancelled;
      }
      if status == Completed {
        if !current {
          status := StaleResult;
        }
      }
      jobs := jobs[id := job.(status := status, passed := if status == Completed then Some(u.passed) else None)];
      active := active - {id};
    }

    method DeliverOne(a: Answer) returns (failed: bool)
      requires updates != [] && Handy(Now())
      modifies this`jobs, this`active, this`updates
      ensures Now() == DeliverHead(old(Now()), a) && failed == HeadFails(old(Now()), a)
    {
      var head := updates[0];
      updates := updates[1..];
      if head.0 in active && !a.saved {
        return true;
      }
      RecordUpdate(head.0, head.1, a.current);
      failed := false;
    }

    /** The executor's drain: updates in order, up to and including the first whose write fails. */
    method DrainUpdates(answers: seq<Answer>) returns (failed: bool)
      requires |updates| <= |answers| && Handy(Now())
      modifies this`jobs, this`active, this`updates
      ensures Delivered(old(Now()), answers) == Outcome(Now(), failed)
    {
      failed := false;
      var rest := answers;
      while updates != []
        invariant |updates| <= |rest| && Handy(Now()) && workers == old(workers)
        invariant Delivered(Now(), rest) == Delivered(old(Now()), answers)
        decreases |updates|
      {
        failed := DeliverOne(rest[0]);
        if failed {
          return;
        }
        rest := rest[1..];
      }
    }

    /** Jobs that nobody will report on become unknown and leave the active table. */
    method GiveUp(lost: set<nat>)
      requires lost <= active.Keys && Handy(Now())
      modifies this`jobs, this`active
      ensures Now() == Without(old(Now()), lost)
    {
      ghost var start := Now();
      var rest := lost;
      while rest != {}
        invariant rest <= active.Keys && Handy(Now())
        invariant Without(Now(), rest) == Without(start, lost)
        decreases |rest|
      {
        var id :| id in rest;
        WithoutOne(Now(), rest, id);
        jobs := jobs[id := jobs[id].(status := Unknown)];
        active := active - {id};
        rest := rest - {id};
      }
      WithoutNone(Now());
    }

    /** `drain`. */
    method Drain(answers: seq<Answer>, alive: set<nat>) returns (failed: bool)
      requires |updates| <= |answers| && Handy(Now())
      modifies this
      ensures Drained(old(Now()), answers, alive) == Outcome(Now(), failed)
    {
      failed := DrainUpdates(answers);
      if !failed {
        workers := workers * alive;
        GiveUp(active.Keys - workers);
      }
    }

    /** The persisted half of a cancel: the status first, then the stop event. */
    method CancelJob(id: nat)
      requires id in jobs && !Finished(jobs[id].status)
      modifies this`jobs, this`active
      ensures Now() == Asked(old(Now()), id, true)
    {
      jobs := jobs[id := jobs[id].(status := Cancelling)];
      if id in active {
        active := active[id := true];
      }
    }

    /** `get`, with or without a cancel. */
    method Get(id: nat, cancel: bool, saved: bool, answers: seq<Answer>, alive: set<nat>, current: bool)
      returns (view: Result<Job>)
      requires |updates| <= |answers| && Handy(Now())
      modifies this
      ensures Got(old(Now()), Now(), view, id, cancel, saved, answers, alive, current)
    {
      if id !in jobs {
        return Err(NotFound);
      }
      if cancel && (jobs[id].status == Running || jobs[id].status == Cancelling) {
        if !saved {
          return Err(InvalidState);
        }
        CancelJob(id);
      }
      var failed := Drain(answers, alive);
      view := if failed then Err(InvalidState) else Ok(View(jobs[id], current));
    }

    /** The search for a job of this run that already carries the key. */
    method FindKey(run: nat, key: Option<nat>) returns (found: Option<nat>)
      ensures found.None? ==> !KeyTaken(jobs, run, key)
      ensures found.Some? ==> key.Some? && found.value in jobs && jobs[found.value].run == run && jobs[found.value].key == key
    {
      found := None;
      if key.None? {
        return;
      }
      var rest := jobs.Keys;
      while rest != {}
        invariant rest <= jobs.Keys
        invariant forall id :: id in jobs && id !in rest ==> jobs[id].run != run || jobs[id].key != key
        decreases |rest|
      {
        var id :| id in rest;
        if jobs[id].run == run && jobs[id].key == key {
          return Some(id);
        }
        rest := rest - {id};
      }
    }

    /** The part of `submit` behind the drain: a repeated key is answered from the stored job, a full run
        or a full table is refused, and only a stored intent is ever started. */
    method Intent(id: nat, job: Job, saved: bool, current: bool) returns (answer: Result<Option<Job>>)
      requires Handy(Now()) && id !in jobs
      modifies this`jobs
      ensures Intended(old(Now()), answer, job, saved, current, limit)
      ensures jobs == if answer == Ok(None) then old(jobs)[id := job] else old(jobs)
    {
      var found := FindKey(job.run, job.key);
      if found.Some? {
        assert Matches(jobs, found.value, job);
        if jobs[found.value].request != job.request {
          return Err(IdempotencyConflict);
        }
        return Ok(Some(View(jobs[found.value], current)));
      }
      var stored := set other | other in jobs && jobs[other].run == job.run;
      assert stored == JobsOf(jobs, job.run);
      if |stored| >= MAX_JOBS {
        return Err(RateLimited);
      }
      if |active| >= limit {
        return Err(RateLimited);
      }
      if !saved {
        return Err(InvalidState);
      }
      jobs := jobs[id := job];
      return Ok(None);
    }

    /** Starting on a worker: the job is in hand before the thread exists. */
    method LaunchBackground(id: nat)
      requires Handy(Now()) && id in jobs
      modifies this`active, this`workers, this`launches
      ensures Now() == Next(old(At(Some(id))), LaunchAsync(id), limit)
    {
      active := active[id := false];
      launches := launches[id := (if id in launches then launches[id] else 0) + 1];
      workers := workers + {id};
    }

    /** Running the check in place and recording what it said. */
    method LaunchInPlace(id: nat, u: Update, current: bool, saved: bool)
      requires Handy(Now()) && id in jobs
      modifies this`jobs, this`active, this`launches
      ensures Now() == Next(old(At(Some(id))), LaunchHere(id, u, current, saved), limit)
    {
      active := active[id := false];
      launches := launches[id := (if id in launches then launches[id] else 0) + 1];
      if saved {
        RecordUpdate(id, u, current);
      }
    }

    /** Starting on a worker failed: the job is recorded as unknown and never started again. */
    method LaunchFailed(id: nat, ghost began: bool, saved: bool)
      requires Handy(Now()) && id in jobs
      modifies this`jobs, this`active, this`launches
      ensures Now() == Next(old(At(Some(id))), LaunchRefused(id, began, saved), limit)
    {
      active := active[id := false];
      if began {
        launches := launches[id := (if id in launches then launches[id] else 0) + 1];
      }
      if saved {
        RecordUpdate(id, Update(Unknown, false), false);
      }
    }

    /** From the stored intent to the end of `submit`. */
    method Launch(id: nat, how: How)
      requires Handy(Now()) && id in jobs
      modifies this
      ensures Now() == Next(old(At(Some(id))), how.Step(id), limit)
    {
      match how {
        case Background => LaunchBackground(id);
        case BackgroundFails(began, saved) => LaunchFailed(id, began, saved);
        case InPlace(update, current, saved) => LaunchInPlace(id, update, current, saved);
      }
    }

    /** `new_id`: an id no stored job has. */
    method NewId() returns (id: nat)
      ensures id !in jobs
    {
      id := 0;
      var rest := jobs.Keys;
      while rest != {}
        invariant rest <= jobs.Keys && forall k :: k in jobs && k !in rest ==> k < id
        decreases |rest|
      {
        var k :| k in rest;
        id := if k < id then id else k + 1;
        rest := rest - {k};
      }
    }

    /** Intent and start, once the drain is done. */
    method Place(id: nat, job: Job, how: How, stored: bool, current: bool) returns (answer: Result<Job>)
      requires Handy(Now()) && id !in jobs && job.status == Running && job.passed.None?
      modifies this
      ensures Accepts(old(Now()), Now(), answer, id, job, how, stored, current, limit)
    {
      var known := Intent(id, job, stored, current);
      if known.Err? {
        return Err(known.error);
      }
      if known.value.Some? {
        return Ok(known.value.value);
      }
      assert At(Some(id)) == Next(old(Now()), CheckJobs.Intend(id, job), limit);
      Launch(id, how);
      if how.BackgroundFails? || (how.InPlace? && jobs[id].status != Completed && jobs[id].status != Cancelled) {
        return Err(UnknownRemote);
      }
      answer := Ok(jobs[id]);
    }

    /** `submit`. `how` says how the start went, `id` is the id drawn for the job. */
    method Submit(job: Job, how: How, resident: bool, stored: bool, current: bool, answers: seq<Answer>, alive: set<nat>)
      returns (answer: Result<Job>, ghost id: nat)
      requires |updates| <= |answers| && Handy(Now()) && job.status == Running && job.passed.None?
      modifies this
      ensures id !in old(jobs)
      ensures Submitted(old(Now()), Now(), answer, id, job, how, resident, stored, current, answers, alive, limit)
    {
      var failed := Drain(answers, alive);
      var drawn := NewId();
      id := drawn;
      if failed {
        return Err(InvalidState), id;
      }
      if !how.InPlace? && (!resident || job.key.None?) {
        return Err(InvalidRequest), id;
      }
      answer := Place(drawn, job, how, stored, current);
    }

    /** Restart: what was volatile is gone, and each undecided job is marked unknown, none is rerun. */
    method Restore()
      requires Handy(Now())
      modifies this
      ensures Now() == Next(old(Now()), CheckJobs.Restart, limit)
    {
      RestoreJobs();
      active, updates, workers := map[], [], {};
    }

    method RestoreJobs()
      modifies this`jobs
      ensures jobs == map id | id in old(jobs) :: Restored(old(jobs)[id])
    {
      var rest := jobs.Keys;
      while rest != {}
        invariant rest <= jobs.Keys && RestoredBut(old(jobs), jobs, rest)
        decreases |rest|
      {
        var id :| id in rest;
        if jobs[id].status == Running || jobs[id].status == Cancelling {
          jobs := jobs[id := jobs[id].(status := Unknown)];
        }
        rest := rest - {id};
      }
    }

    /** `close`: every job in hand is told to stop, what was published is recorded as cancelled, and what
        stays unconfirmed is unknown. */
    method CloseDown(answers: seq<Answer>, alive: set<nat>) returns (failed: bool)
      requires |updates| <= |answers| && Handy(Now())
      modifies this
      ensures Shut(old(Now()), answers, alive) == Outcome(Now(), failed)
    {
      active := map id | id in active :: true;
      failed := Drain(answers, alive);
      if !failed {
        GiveUp(active.Keys);
      }
    }
  }
}
