/** The core's side of the executor as it works in place. Every method is a sequence of protocol steps,
    so what holds under every interleaving holds of it. */
module Executor {
  import opened Wrappers
  import opened ExecutorProtocol

  lemma {:induction false} ExecuteConcat(s: State, steps: seq<Step>, more: seq<Step>)
    requires Possible(s, steps) && Possible(Execute(s, steps), more)
    ensures Possible(s, steps + more)
    ensures Execute(s, steps + more) == Execute(Execute(s, steps), more)
    decreases |steps|
  {
    if steps == [] {
      assert steps + more == more;
    } else {
      assert (steps + more)[1..] == steps[1..] + more;
      ExecuteConcat(Next(s, steps[0]), steps[1..], more);
    }
  }

  /** One more step at the end of an interleaving. */
  lemma Extended(start: State, before: seq<Step>, s: State, step: Step)
    requires Reaches(start, before, s) && Enabled(s, step)
    ensures Reaches(start, before + [step], Next(s, step))
  {
    Joined(s, [step], Next(s, step));
    ExecuteConcat(start, before, [step]);
  }

  /** What taking, applying and acknowledging the head of the queue leaves behind. */
  function HeadDrained(s: State, fails: bool): State
    requires s.queue != []
  {
    var u := s.queue[0];
    s.(core := if fails then Outside else Draining, queue := s.queue[1..], applied := s.applied + [u],
       errors := if fails then s.errors + {u} else s.errors, acknowledged := s.acknowledged + {u})
  }

  lemma HeadSteps(s: State, fails: bool)
    requires s.core == Draining && s.queue != [] && s.queue[0] !in s.errors
    ensures Enabled(s, Take) && Enabled(Next(s, Take), Apply(!fails))
    ensures Enabled(Next(Next(s, Take), Apply(!fails)), Acknowledge)
    ensures Next(Next(Next(s, Take), Apply(!fails)), Acknowledge) == HeadDrained(s, fails)
  {
  }

  lemma OneDrained(start: State, before: seq<Step>, s: State, fails: bool) returns (steps: seq<Step>)
    requires StateOk(start) && Reaches(start, before, s) && s.core == Draining && s.queue != []
    ensures Reaches(start, steps, HeadDrained(s, fails))
  {
    ExecuteKeeps(start, before);
    HeadIsNew(s);
    HeadSteps(s, fails);
    Extended(start, before, s, Take);
    Extended(start, before + [Take], Next(s, Take), Apply(!fails));
    Extended(start, before + [Take] + [Apply(!fails)], Next(Next(s, Take), Apply(!fails)), Acknowledge);
    steps := before + [Take] + [Apply(!fails)] + [Acknowledge];
  }

  /** What a worker thread may do on its own. */
  datatype ThreadEvent = Publishes(run: nat, final: bool) | Puts(run: nat) | Confirms(run: nat) | GivesUp(run: nat)

  class Executor {
    var nextUpdate: nat
    var queue: seq<nat>
    var registered: set<nat>
    var threads: map<nat, Worker>
    var stopping: bool
    var acknowledged: set<nat>
    var errors: set<nat>
    ghost var accepted: seq<nat>
    ghost var applied: seq<nat>
    ghost var issued: set<nat>
    ghost var returned: set<nat>
    ghost var raised: set<nat>

    constructor ()
      ensures Now() == Fresh() && Traced(Now(), [], Outside)
    {
      nextUpdate := 0;
      queue, registered, threads, stopping, acknowledged, errors := [], {}, map[], false, {}, {};
      accepted, applied, issued, returned, raised := [], [], {}, {}, {};
    }

    /** The protocol state while the core stands at `core`. */
    ghost function At(core: Core): State
      reads this
    {
      State(threads, registered, queue, core, stopping, acknowledged, errors, accepted, applied, issued, returned, raised)
    }

    ghost function Now(): State
      reads this
    {
      At(Outside)
    }

    /** `steps` lead from `start` to here, with the core at `core`, and updates are numbered in turn. */
    ghost predicate Traced(start: State, steps: seq<Step>, core: Core)
      reads this
    {
      StateOk(start) && Reaches(start, steps, At(core)) && forall u :: u in issued ==> u < nextUpdate
    }

    /** `start`: refused when closed or when the run is already registered. */
    method StartRun(run: nat) returns (result: Result<()>)
      modifies this`registered, this`threads
      ensures result.Ok? <==> !old(stopping) && run !in old(registered)
      ensures result.Ok? ==> Now() == Next(old(Now()), Start(run))
      ensures result.Err? ==> Now() == old(Now())
    {
      if stopping || run in registered {
        return Err(InvalidState);
      }
      registered := registered + {run};
      threads := threads[run := Acting];
      return Ok(());
    }

    /** One thread acts, if it can, whatever the core is doing. */
    method ThreadMoves(e: ThreadEvent, ghost core: Core) returns (ghost step: Option<Step>)
      requires forall u :: u in issued ==> u < nextUpdate
      modifies this`threads, this`nextUpdate, this`issued, this`queue, this`accepted, this`returned, this`raised
      ensures step.None? ==> At(core) == old(At(core))
      ensures step.Some? ==> Enabled(old(At(core)), step.value) && At(core) == Next(old(At(core)), step.value)
      ensures old(queue) <= queue && accepted == old(accepted) + queue[|old(queue)|..]
      ensures forall u :: u in issued ==> u < nextUpdate
    {
      step := None;
      if e.run in threads {
        var w := threads[e.run];
        if e.Publishes? && w.Acting? {
          step := Some(Publish(e.run, nextUpdate, e.final));
          threads, issued := threads[e.run := Putting(nextUpdate, e.final)], issued + {nextUpdate};
          nextUpdate := nextUpdate + 1;
        } else if e.Puts? && w.Putting? && |queue| < CAPACITY {
          step := Some(Put(e.run));
          threads, queue, accepted := threads[e.run := Waiting(w.update, w.final)], queue + [w.update], accepted + [w.update];
        } else if e.Confirms? && w.Waiting? && w.update in acknowledged {
          step := Some(Confirm(e.run));
          threads := threads[e.run := Done(w.final)];
          if w.update in errors {
            raised := raised + {w.update};
          } else {
            returned := returned + {w.update};
          }
        } else if e.GivesUp? && (w.Putting? || w.Waiting?) && stopping {
          step := Some(GiveUp(e.run));
          threads, raised := threads[e.run := Done(w.final)], raised + {w.update};
        }
      }
    }

    method ThreadActs(e: ThreadEvent, ghost core: Core, ghost start: State, ghost before: seq<Step>)
      returns (ghost steps: seq<Step>)
      requires Traced(start, before, core)
      modifies this`threads, this`nextUpdate, this`issued, this`queue, this`accepted, this`returned, this`raised
      ensures Traced(start, steps, core)
      ensures old(queue) <= queue && accepted == old(accepted) + queue[|old(queue)|..]
    {
      ghost var step := ThreadMoves(e, core);
      steps := if step.Some? then before + [step.value] else before;
      if step.Some? {
        Extended(start, before, old(At(core)), step.value);
      }
    }

    method ThreadsAct(events: seq<ThreadEvent>, ghost core: Core, ghost start: State, ghost before: seq<Step>)
      returns (ghost steps: seq<Step>)
      requires Traced(start, before, core)
      modifies this`threads, this`nextUpdate, this`issued, this`queue, this`accepted, this`returned, this`raised
      ensures Traced(start, steps, core)
      ensures old(queue) <= queue && accepted == old(accepted) + queue[|old(queue)|..]
    {
      steps := before;
      for i := 0 to |events|
        invariant Traced(start, steps, core)
        invariant old(queue) <= queue && accepted == old(accepted) + queue[|old(queue)|..]
      {
        steps := ThreadActs(events[i], core, start, steps);
      }
    }

    /** One turn of the drain loop: take, apply, note the error, acknowledge. */
    method DrainOne(fails: bool, ghost start: State, ghost before: seq<Step>) returns (u: nat, ghost steps: seq<Step>)
      requires queue != [] && Traced(start, before, Draining)
      modifies this`queue, this`applied, this`errors, this`acknowledged
      ensures u == old(queue)[0] && queue == old(queue)[1..] && applied == old(applied) + [u]
      ensures acknowledged == old(acknowledged) + {u} && errors == if fails then old(errors) + {u} else old(errors)
      ensures Traced(start, steps, if fails then Outside else Draining)
    {
      steps := OneDrained(start, before, At(Draining), fails);
      u := queue[0];
      queue := queue[1..];
      applied := applied + [u];
      if fails {
        errors := errors + {u};
      }
      acknowledged := acknowledged + {u};
    }

    /** The end of a drain that met no error: dead threads leave the dictionary. */
    method ForgetDead(ghost start: State, ghost before: seq<Step>) returns (ghost steps: seq<Step>)
      requires queue == [] && Traced(start, before, Draining)
      modifies this`registered
      ensures registered == set run | run in old(registered) && run in threads && threads[run] != Gone
      ensures Traced(start, steps, Outside)
    {
      ghost var draining := At(Draining);
      registered := set run | run in registered && run in threads && threads[run] != Gone;
      Joined(draining, [EndDrain], Now());
      ExecuteConcat(start, before, [EndDrain]);
      steps := before + [EndDrain];
    }

    /** `drain`, with whatever the threads do before each look at the queue (`arrivals`): updates are
        applied in acceptance order up to and including the first one whose call fails; the rest stays
        queued. Only a drain that met no error forgets the dead threads. */
    method Drain(failing: set<nat>, arrivals: seq<seq<ThreadEvent>>)
      returns (failed: Option<nat>, ghost done: seq<nat>, ghost steps: seq<Step>)
      requires Traced(Now(), [], Outside)
      modifies this
      ensures Traced(old(Now()), steps, Outside)
      ensures forall u :: u in done ==> u !in failing
      ensures failed.None? ==> queue == [] && applied == old(applied) + done
      ensures failed.Some? ==> failed.value in failing && applied == old(applied) + done + [failed.value]
      ensures applied + queue == accepted
      ensures failed.Some? ==> registered == old(registered)
      ensures failed.None? ==>
                registered == set run | run in old(registered) && run in threads && threads[run] != Gone
    {
      ghost var start := Now();
      done, failed, steps := [], None, [BeginDrain];
      Joined(start, steps, At(Draining));
      var k := 0;
      while true
        invariant k <= |arrivals| && applied == start.applied + done
        invariant forall u :: u in done ==> u !in failing
        invariant registered == start.registered
        invariant Traced(start, steps, Draining)
        decreases |arrivals| - k, |queue|
      {
        var more := k < |arrivals|;
        if more {
          steps := ThreadsAct(arrivals[k], Draining, start, steps);
          k := k + 1;
        }
        if queue == [] {
          break;
        }
        var u;
        if queue[0] in failing {
          u, steps := DrainOne(true, start, steps);
          AllAccounted(start, steps);
          return Some(u), done, steps;
        }
        u, steps := DrainOne(false, start, steps);
        done := done + [u];
      }
      steps := ForgetDead(start, steps);
      AllAccounted(start, steps);
    }

    /** Outside a drain every accepted update is applied or still queued. */
    lemma AllAccounted(start: State, steps: seq<Step>)
      requires Traced(start, steps, Outside)
      ensures applied + queue == accepted
    {
      ExecuteKeeps(start, steps);
      assert Conserved(Now());
      assert applied + [] == applied;
    }

    /** `close`. */
    method CloseDown()
      modifies this`stopping
      ensures Now() == Next(old(Now()), Close)
    {
      stopping := true;
    }
  }
}
