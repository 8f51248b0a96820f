// The loops of one quantum as the runner executes them when nobody interferes: each store call is one step of
// the transition system, so the loops are runs of it, and here is what they have done when they return.

module QuantumRunner {
  import opened Common
  import opened Quantum
  import opened Runs

  datatype Recovery = Recovered | Yielded | WaitingForDecision

  datatype ToolsEnd = Answered | BudgetExhausted | NotPrepared

  datatype StepsEnd = Completed | OutOfSteps | OutOfBudget | Failed

  // A model step that called tools: its calls, their slots, and the slots that were answered.
  datatype Turn = Turn(calls: seq<CallId>, slots: seq<Slot>, answered: seq<Slot>)

  predicate HasState(attempts: map<AttemptId, Attempt>, id: AttemptId, run: RunId, state: AttemptState) {
    id in attempts && attempts[id].run == run && attempts[id].state == state
  }

  // Where the recovery loop goes on after it has found an attempt in a state.
  function Found(state: AttemptState, id: AttemptId, rest: seq<AttemptId>): Phase {
    if state == Prepared then MayInvoke(id, rest)
    else if Terminal(state) then Settled(id, rest)
    else Unknown(id)
  }

  /** The durable store, with the history and the position of every quantum beside it. */
  class RuntimeStore {
    var lease: Option<Fence>
    var ended: set<RunId>
    var attempts: map<AttemptId, Attempt>
    var transcript: seq<Entry>
    ghost var quanta: map<QuantumId, Quantum>
    ghost var born: set<QuantumId>
    ghost var log: seq<Event>

    ghost function Now(): State
      reads this
    {
      State(lease, ended, attempts, transcript, quanta, born, log)
    }

    constructor ()
      ensures Now() == EMPTY
    {
      lease, ended, attempts, transcript, quanta, born, log := None, {}, map[], [], map[], {}, [];
    }

    // The quantum t is at this point of the runner's code.
    ghost predicate Stands(t: QuantumId, fence: Fence, run: RunId, phase: Phase)
      reads this
    {
      IsAttached(Now(), t) && quanta[t].fence == fence && quanta[t].run == run && quanta[t].phase == phase
    }

    method ValidateRun(fence: Fence, run: RunId) returns (ok: bool)
      ensures ok <==> lease == Some(fence) && run !in ended
    {
      ok := lease == Some(fence) && run !in ended;
    }

    /** What recovery finds; a running attempt loses its outcome. */
    method RecoverAttempt(ghost t: QuantumId, id: AttemptId) returns (state: AttemptState)
      requires IsAttached(Now(), t) && quanta[t].phase.Recovering? && quanta[t].phase.todo != []
      requires quanta[t].phase.todo[0] == id && id in attempts
      modifies this
      ensures state == old(attempts)[id].state
      ensures Next(old(Now()), Recover(t)) == Some(Now())
      ensures lease == old(lease) && ended == old(ended) && transcript == old(transcript) && log == old(log)
      ensures attempts == if state == Running then WithState(old(attempts), id, OutcomeUnknown) else old(attempts)
      ensures quanta == old(quanta)[t := old(quanta)[t].(phase := Found(state, id, old(quanta)[t].phase.todo[1..]))]
    {
      ghost var after := Next(Now(), Recover(t)).value;
      state := attempts[id].state;
      if state == Running { attempts := WithState(attempts, id, OutcomeUnknown); }
      quanta := after.quanta;
    }

    method RejectPreparedAttempt(ghost t: QuantumId, fence: Fence, run: RunId, id: AttemptId, ghost rest: seq<AttemptId>)
      returns (ok: bool)
      requires Stands(t, fence, run, MayInvoke(id, rest))
      modifies this
      ensures Next(old(Now()), RejectPrepared(t)) == if ok then Some(Now()) else None
      ensures !ok ==> Now() == old(Now())
      ensures lease == old(lease) && ended == old(ended) && transcript == old(transcript) && log == old(log)
      ensures ok <==> lease == Some(fence) && run !in ended && HasState(old(attempts), id, run, Prepared)
      ensures ok ==> attempts == WithState(old(attempts), id, FailedKnown)
      ensures ok ==> quanta == old(quanta)[t := old(quanta)[t].(phase := Settled(id, rest))]
    {
      ghost var after := Next(Now(), RejectPrepared(t));
      ok := ValidateRun(fence, run);
      if !ok || id !in attempts || attempts[id].run != run || attempts[id].state != Prepared { return false; }
      attempts := WithState(attempts, id, FailedKnown);
      quanta := after.value.quanta;
    }

    method BlockUnknownAttempt(ghost t: QuantumId, fence: Fence, run: RunId, id: AttemptId) returns (ok: bool)
      requires Stands(t, fence, run, Unknown(id))
      modifies this
      ensures Next(old(Now()), Block(t)) == if ok then Some(Now()) else None
      ensures !ok ==> Now() == old(Now())
      ensures lease == old(lease) && ended == old(ended) && transcript == old(transcript) && log == old(log)
      ensures ok <==> lease == Some(fence) && run !in ended && HasState(old(attempts), id, run, OutcomeUnknown)
      ensures ok ==> attempts == WithState(old(attempts), id, AttemptState.WaitingForDecision)
    {
      ghost var after := Next(Now(), Block(t));
      ok := ValidateRun(fence, run);
      if !ok || id !in attempts || attempts[id].run != run || attempts[id].state != OutcomeUnknown { return false; }
      attempts := WithState(attempts, id, AttemptState.WaitingForDecision);
      quanta := after.value.quanta;
    }

    method MarkAttemptRunning(ghost t: QuantumId, fence: Fence, run: RunId, id: AttemptId) returns (ok: bool)
      requires IsAttached(Now(), t) && quanta[t].fence == fence && quanta[t].run == run
      requires NextToRun(quanta[t].phase).Some? && NextToRun(quanta[t].phase).value.0 == id
      modifies this
      ensures Next(old(Now()), MarkRunning(t)) == if ok then Some(Now()) else None
      ensures !ok ==> Now() == old(Now())
      ensures lease == old(lease) && ended == old(ended) && transcript == old(transcript)
      ensures ok <==> lease == Some(fence) && run !in ended && HasState(old(attempts), id, run, Prepared)
      ensures ok ==> attempts == WithState(old(attempts), id, Running) && log == old(log) + [Marked(t, id)]
      ensures ok ==> quanta == old(quanta)[t := old(quanta)[t].(phase := Executing(id, NextToRun(old(quanta)[t].phase).value.1))]
    {
      ghost var after := Next(Now(), MarkRunning(t));
      ok := ValidateRun(fence, run);
      if !ok || id !in attempts || attempts[id].run != run || attempts[id].state != Prepared { return false; }
      attempts := WithState(attempts, id, Running);
      quanta, log := after.value.quanta, after.value.log;
    }

    /** Executing the tool leaves no trace in the store. */
    method ExecuteTool(ghost t: QuantumId)
      requires IsAttached(Now(), t) && quanta[t].phase.Executing?
      modifies this
      ensures Next(old(Now()), RunTool(t)) == Some(Now())
      ensures lease == old(lease) && ended == old(ended) && transcript == old(transcript) && attempts == old(attempts)
      ensures log == old(log) + [Ran(t, old(quanta)[t].phase.id)]
      ensures quanta == old(quanta)[t := old(quanta)[t].(phase := Executed(old(quanta)[t].phase.id, old(quanta)[t].phase.after))]
    {
      ghost var after := Next(Now(), RunTool(t)).value;
      quanta, log := after.quanta, after.log;
    }

    method Finish(ghost t: QuantumId, fence: Fence, run: RunId, id: AttemptId, succeeded: bool) returns (ok: bool)
      requires IsAttached(Now(), t) && quanta[t].fence == fence && quanta[t].run == run
      requires quanta[t].phase.Executed? && quanta[t].phase.id == id
      modifies this
      ensures Next(old(Now()), FinishAttempt(t, succeeded)) == if ok then Some(Now()) else None
      ensures !ok ==> Now() == old(Now())
      ensures lease == old(lease) && ended == old(ended) && transcript == old(transcript) && log == old(log)
      ensures ok <==> lease == Some(fence) && run !in ended && HasState(old(attempts), id, run, Running)
      ensures ok ==> attempts == WithState(old(attempts), id, if succeeded then Succeeded else FailedKnown)
      ensures ok ==> quanta == old(quanta)[t := old(quanta)[t].(phase := Continue(id, old(quanta)[t].phase.after))]
    {
      ghost var after := Next(Now(), FinishAttempt(t, succeeded));
      ok := ValidateRun(fence, run);
      if !ok || id !in attempts || attempts[id].run != run || attempts[id].state != Running { return false; }
      attempts := WithState(attempts, id, if succeeded then Succeeded else FailedKnown);
      quanta := after.value.quanta;
    }

    /** One recovered result, with the assistant message before it that the runner has not seen. */
    method CheckpointOne(ghost t: QuantumId, fence: Fence, run: RunId, id: AttemptId, ghost rest: seq<AttemptId>,
                         named: bool) returns (ok: bool)
      requires Stands(t, fence, run, Settled(id, rest))
      requires id in attempts && (named <==> attempts[id].call in quanta[t].seen)
      modifies this
      ensures Next(old(Now()), CheckpointRecovered(t)) == if ok then Some(Now()) else None
      ensures !ok ==> Now() == old(Now())
      ensures lease == old(lease) && ended == old(ended) && log == old(log)
      ensures ok <==> lease == Some(fence) && run !in ended && old(attempts)[id].run == run && Terminal(old(attempts)[id].state)
      ensures ok ==> attempts == Checkpoint(old(attempts), [id])
      ensures ok ==> transcript == old(transcript) + RecoveredEntries(old(attempts)[id].call, id, named)
      ensures ok ==> quanta == old(quanta)[t := old(quanta)[t].(phase := Recovering(rest),
                                                               seen := old(quanta)[t].seen + {old(attempts)[id].call})]
    {
      ghost var after := Next(Now(), CheckpointRecovered(t));
      ok := ValidateRun(fence, run);
      if !ok || attempts[id].run != run || !Terminal(attempts[id].state) { return false; }
      transcript := transcript + RecoveredEntries(attempts[id].call, id, named);
      attempts := Checkpoint(attempts, [id]);
      quanta := after.value.quanta;
    }

    /** Runs the tool of a prepared attempt and records how it ended; false when the store refuses a step. */
    method RunPrepared(ghost t: QuantumId, fence: Fence, run: RunId, id: AttemptId, succeeded: bool, ghost after: After)
      returns (ok: bool, ghost trace: seq<Action>)
      requires IsAttached(Now(), t) && quanta[t].fence == fence && quanta[t].run == run
      requires NextToRun(quanta[t].phase) == Some((id, after))
      modifies this
      ensures Leads(Stepper(), old(Now()), trace, Now())
      ensures ok <==> lease == Some(fence) && run !in ended && HasState(old(attempts), id, run, Prepared)
      ensures lease == old(lease) && ended == old(ended) && transcript == old(transcript)
      ensures !ok ==> Now() == old(Now())
      ensures ok ==> log == old(log) + Executions(t, [id])
      ensures ok ==>
                && attempts == old(attempts)[id := old(attempts)[id].(state := if succeeded then Succeeded else FailedKnown)]
                && quanta == old(quanta)[t := old(quanta)[t].(phase := Continue(id, after))]
    {
      ghost var first := Now();
      trace := [];
      ok := MarkAttemptRunning(t, fence, run, id);
      if !ok { return; }
      LeadsOn(Stepper(), first, [], first, MarkRunning(t), Now());
      trace := [] + [MarkRunning(t)];
      ghost var marked := Now();
      ExecuteTool(t);
      LeadsOn(Stepper(), first, trace, marked, RunTool(t), Now());
      trace := trace + [RunTool(t)];
      ghost var ran := Now();
      ok := Finish(t, fence, run, id, succeeded);
      LeadsOn(Stepper(), first, trace, ran, FinishAttempt(t, succeeded), Now());
      trace := trace + [FinishAttempt(t, succeeded)];
      OneExecution(t, id);
      assert log == old(log) + [Marked(t, id)] + [Ran(t, id)];
    }

    /** A prepared attempt that recovery finds is refused, or executed and finished. */
    method SettlePrepared(ghost t: QuantumId, fence: Fence, run: RunId, id: AttemptId, ghost rest: seq<AttemptId>,
                          allowed: bool, succeeds: bool) returns (ghost trace: seq<Action>)
      requires Stands(t, fence, run, MayInvoke(id, rest)) && HasState(attempts, id, run, Prepared)
      requires lease == Some(fence) && run !in ended
      modifies this
      ensures Leads(Stepper(), old(Now()), trace, Now()) && lease == old(lease) && ended == old(ended) && transcript == old(transcript)
      ensures attempts == old(attempts)[id := old(attempts)[id].(state := if allowed && succeeds then Succeeded else FailedKnown)]
      ensures log == old(log) + Executions(t, if allowed then [id] else [])
      ensures quanta == old(quanta)[t := old(quanta)[t].(phase := Settled(id, rest))]
    {
      var ok;
      if allowed {
        ok, trace := RunPrepared(t, fence, run, id, succeeds, InRecovery(rest));
      } else {
        ghost var first := Now();
        ok := RejectPreparedAttempt(t, fence, run, id, rest);
        LeadsOn(Stepper(), first, [], first, RejectPrepared(t), Now());
        trace := [] + [RejectPrepared(t)];
      }
    }

    /** An attempt whose outcome is unknown blocks its run, unless it already does. */
    method GiveUp(ghost t: QuantumId, fence: Fence, run: RunId, id: AttemptId, state: AttemptState)
      returns (ghost trace: seq<Action>)
      requires Stands(t, fence, run, Unknown(id)) && lease == Some(fence) && run !in ended
      requires HasState(attempts, id, run, if state == AttemptState.WaitingForDecision then state else OutcomeUnknown)
      modifies this
      ensures Leads(Stepper(), old(Now()), trace, Now())
      ensures lease == old(lease) && ended == old(ended) && transcript == old(transcript) && log == old(log)
      ensures attempts == WithState(old(attempts), id, AttemptState.WaitingForDecision)
    {
      trace := [];
      if state != AttemptState.WaitingForDecision {
        ghost var found := Now();
        var blocked := BlockUnknownAttempt(t, fence, run, id);
        LeadsOn(Stepper(), found, [], found, Block(t), Now());
        trace := [] + [Block(t)];
      }
    }

    /** The end of a round that found or made the attempt terminal; before is what the round did so far. */
    method CheckpointSettled(ghost t: QuantumId, fence: Fence, run: RunId, id: AttemptId, ghost rest: seq<AttemptId>,
                             seen: set<CallId>, ghost first: State, ghost before: seq<Action>)
      returns (ghost trace: seq<Action>)
      requires LoopOk(first, t, fence, run, [id] + rest, seen) && Leads(Stepper(), first, before, Now())
      requires lease == Some(fence) && run !in ended && Stands(t, fence, run, Settled(id, rest)) && quanta[t].seen == seen
      requires SameButFor(first.attempts, attempts, id) && id in first.attempts
      requires id in attempts && attempts[id].run == run && attempts[id].call == first.attempts[id].call
      requires Terminal(attempts[id].state)
      modifies this
      ensures Leads(Stepper(), first, trace, Now()) && lease == old(lease) && ended == old(ended) && log == old(log)
      ensures id in attempts && attempts[id] == old(attempts)[id].(checkpointed := true)
      ensures SameButFor(first.attempts, attempts, id) && Resolved(attempts, id)
      ensures LoopOk(Now(), t, fence, run, rest, seen + {first.attempts[id].call})
      ensures transcript == old(transcript)
                + RecoveredEntries(first.attempts[id].call, id, first.attempts[id].call in seen)
    {
      ghost var settled := Now();
      var ok := CheckpointOne(t, fence, run, id, rest, attempts[id].call in seen);
      LeadsOn(Stepper(), first, before, settled, CheckpointRecovered(t), Now());
      trace := before + [CheckpointRecovered(t)];
      LeadsKeeps(first, trace, Now());
      LoopGoesOn(first, Now(), t, fence, run, id, rest, seen);
    }

    /** One round of the recovery loop. */
    method RecoverOne(ghost t: QuantumId, fence: Fence, run: RunId, id: AttemptId, ghost rest: seq<AttemptId>,
                      seen: set<CallId>, allowed: bool, succeeds: bool, mayRun: bool)
      returns (end: Recovery, ghost trace: seq<Action>)
      requires LoopOk(Now(), t, fence, run, [id] + rest, seen) && lease == Some(fence) && run !in ended
      modifies this
      ensures Leads(Stepper(), old(Now()), trace, Now()) && lease == old(lease) && ended == old(ended)
      ensures SameButFor(old(attempts), attempts, id)
      ensures log == old(log) + Executions(t, if old(attempts)[id].state == Prepared && allowed && mayRun then [id] else [])
      ensures end.Recovered? ==> RecoveredAs(old(attempts), attempts, id, allowed, succeeds)
      ensures end == RoundEnd(old(attempts)[id].state, allowed, mayRun)
      ensures Resolved(old(attempts), id) ==> Resolved(attempts, id)
      ensures end.Recovered? ==>
                && LoopOk(Now(), t, fence, run, rest, seen + {old(attempts)[id].call}) && Resolved(attempts, id)
                && transcript == old(transcript) + RecoveredEntries(old(attempts)[id].call, id, old(attempts)[id].call in seen)
      ensures !end.Recovered? ==> transcript == old(transcript)
      ensures end.Yielded? ==> attempts == old(attempts)
      ensures end.WaitingForDecision? ==> HasState(attempts, id, run, AttemptState.WaitingForDecision)
    {
      ghost var first := Now();
      assert ([id] + rest)[0] == id && ([id] + rest)[1..] == rest;
      var state := RecoverAttempt(t, id);
      LeadsOn(Stepper(), first, [], first, Recover(t), Now());
      trace := [] + [Recover(t)];
      ghost var found := Now();
      if !Terminal(state) && state != Prepared {
        ghost var more := GiveUp(t, fence, run, id, state);
        LeadsFurther(Stepper(), first, trace, found, more, Now());
        return Recovery.WaitingForDecision, trace + more;
      }
      if state == Prepared {
        if allowed && !mayRun { return Yielded, trace; }
        ghost var more := SettlePrepared(t, fence, run, id, rest, allowed, succeeds);
        LeadsFurther(Stepper(), first, trace, found, more, Now());
        trace := trace + more;
      }
      trace := CheckpointSettled(t, fence, run, id, rest, seen, first, trace);
      return Recovered, trace;
    }

    /** The recovery loop, undisturbed. If it gets through, every attempt that was left is resolved, each with its
        result in the transcript; otherwise it stops at the first attempt that must wait or exceeds the budget,
        with all earlier ones resolved. Exactly the prepared attempts among them that the policy allows are executed,
        once each and no more than the budget; those that it refuses are recorded as failed. */
    method RecoverAttempts(ghost t: QuantumId, fence: Fence, run: RunId, todo: seq<AttemptId>, context: set<CallId>,
                           allowed: AttemptId -> bool, succeeds: AttemptId -> bool, maxToolSteps: nat)
      returns (end: Recovery, toolSteps: nat, seen: set<CallId>, done: nat, ghost trace: seq<Action>,
              ghost executed: seq<AttemptId>)
      requires LoopOk(Now(), t, fence, run, todo, context) && lease == Some(fence) && run !in ended
      modifies this
      ensures Leads(Stepper(), old(Now()), trace, Now()) && lease == old(lease) && ended == old(ended) && Inv(Now())
      ensures ResolvedUpTo(attempts, todo, done)
      ensures end.Recovered? <==> done == |todo|
      ensures end.Recovered? ==> LoopOk(Now(), t, fence, run, [], seen)
      ensures end.WaitingForDecision? ==> done < |todo| && HasState(attempts, todo[done], run, AttemptState.WaitingForDecision)
      ensures end.Yielded? ==> done < |todo| && HasState(attempts, todo[done], run, Prepared) && toolSteps == maxToolSteps
      ensures log == old(log) + Executions(t, executed) && |executed| == toolSteps <= maxToolSteps
      ensures ExecutedUpTo(old(attempts), todo, done, allowed, executed)
      ensures AllRecovered(old(attempts), attempts, todo, done, allowed, succeeds)
      ensures end.Yielded? ==> allowed(todo[done])
    {
      ghost var first := Now();
      seen, toolSteps, done, trace, executed := context, 0, 0, [], [];
      NoRecoveryYet(this, t, fence, run, todo, context, allowed, succeeds);
      while done < |todo|
        invariant 0 <= done <= |todo| && |executed| == toolSteps <= maxToolSteps
        invariant RecoveredSoFar(first, t, fence, run, todo, done, seen, allowed, succeeds, trace, executed)
      {
        var call := attempts[todo[done]].call;
        end, toolSteps, trace, executed :=
          RecoverNext(first, t, fence, run, todo, done, seen, allowed, succeeds, toolSteps, maxToolSteps, trace, executed);
        if !end.Recovered? { return; }
        seen := seen + {call};
        done := done + 1;
      }
      assert todo[done..] == [];
      end := Recovered;
    }

    // The recovery loop after `done` attempts, since the state in which it began.
    ghost predicate RecoveredSoFar(first: State, t: QuantumId, fence: Fence, run: RunId, todo: seq<AttemptId>, done: nat,
                                   seen: set<CallId>, allowed: AttemptId -> bool, succeeds: AttemptId -> bool,
                                   trace: seq<Action>, executed: seq<AttemptId>)
      reads this
    {
      && done <= |todo| && Distinct(todo) && StoppedAt(first, t, fence, run, todo, done, allowed, succeeds, trace, executed)
      && LoopOk(Now(), t, fence, run, todo[done..], seen) && UntouchedFrom(first.attempts, attempts, todo, done)
    }

    // What holds wherever the recovery loop stops.
    ghost predicate StoppedAt(first: State, t: QuantumId, fence: Fence, run: RunId, todo: seq<AttemptId>, done: nat,
                              allowed: AttemptId -> bool, succeeds: AttemptId -> bool, trace: seq<Action>,
                              executed: seq<AttemptId>)
      reads this
    {
      && Leads(Stepper(), first, trace, Now()) && Inv(Now())
      && lease == first.lease == Some(fence) && ended == first.ended && run !in ended
      && log == first.log + Executions(t, executed) && ResolvedUpTo(attempts, todo, done)
      && ExecutedUpTo(first.attempts, todo, done, allowed, executed)
      && AllRecovered(first.attempts, attempts, todo, done, allowed, succeeds)
    }

    /** The next round of the recovery loop. */
    method RecoverNext(ghost first: State, ghost t: QuantumId, fence: Fence, run: RunId, todo: seq<AttemptId>, done: nat,
                       seen: set<CallId>, allowed: AttemptId -> bool, succeeds: AttemptId -> bool, spent: nat,
                       maxToolSteps: nat, ghost before: seq<Action>, ghost sofar: seq<AttemptId>)
      returns (end: Recovery, toolSteps: nat, ghost trace: seq<Action>, ghost executed: seq<AttemptId>)
      requires done < |todo| && |sofar| == spent <= maxToolSteps
      requires RecoveredSoFar(first, t, fence, run, todo, done, seen, allowed, succeeds, before, sofar)
      modifies this
      ensures |executed| == toolSteps <= maxToolSteps
      ensures end.Recovered? ==>
                RecoveredSoFar(first, t, fence, run, todo, done + 1, seen + {old(attempts)[todo[done]].call}, allowed,
                               succeeds, trace, executed)
      ensures !end.Recovered? ==>
                StoppedAt(first, t, fence, run, todo, done, allowed, succeeds, trace, executed) && toolSteps == spent
      ensures end.WaitingForDecision? ==> HasState(attempts, todo[done], run, AttemptState.WaitingForDecision)
      ensures end.Yielded? ==>
                HasState(attempts, todo[done], run, Prepared) && allowed(todo[done]) && toolSteps == maxToolSteps
    {
      var mayRun := spent < maxToolSteps;
      var runs := attempts[todo[done]].state == Prepared && allowed(todo[done]) && mayRun;
      end, trace, executed := RecoverRound(first, t, fence, run, todo, done, seen, allowed, succeeds, mayRun, before, sofar);
      toolSteps := spent + if runs then 1 else 0;
    }

    method RecoverRound(ghost first: State, ghost t: QuantumId, fence: Fence, run: RunId, todo: seq<AttemptId>, done: nat,
                        seen: set<CallId>, allowed: AttemptId -> bool, succeeds: AttemptId -> bool, mayRun: bool,
                        ghost before: seq<Action>, ghost sofar: seq<AttemptId>)
      returns (end: Recovery, ghost trace: seq<Action>, ghost executed: seq<AttemptId>)
      requires done < |todo|
      requires RecoveredSoFar(first, t, fence, run, todo, done, seen, allowed, succeeds, before, sofar)
      modifies this
      ensures end == RoundEnd(old(attempts)[todo[done]].state, allowed(todo[done]), mayRun)
      ensures end.Recovered? ==>
                && RecoveredSoFar(first, t, fence, run, todo, done + 1, seen + {old(attempts)[todo[done]].call}, allowed,
                                  succeeds, trace, executed)
                && |executed| == |sofar|
                     + (if old(attempts)[todo[done]].state == Prepared && allowed(todo[done]) && mayRun then 1 else 0)
      ensures !end.Recovered? ==>
                executed == sofar && StoppedAt(first, t, fence, run, todo, done, allowed, succeeds, trace, executed)
      ensures end.WaitingForDecision? ==> HasState(attempts, todo[done], run, AttemptState.WaitingForDecision)
      ensures end.Yielded? ==> HasState(attempts, todo[done], run, Prepared)
    {
      var id := todo[done];
      assert [id] + todo[done + 1..] == todo[done..];
      ghost var (since, was) := (Now(), attempts);
      ghost var more;
      end, more := RecoverOne(t, fence, run, id, todo[done + 1..], seen, allowed(id), succeeds(id), mayRun);
      LeadsFurther(Stepper(), first, before, since, more, Now());
      trace := before + more;
      LeadsKeeps(since, more, Now());
      StillResolved(was, attempts, todo, done);
      StillRecovered(first.attempts, was, attempts, todo, done, allowed, succeeds);
      ghost var now := if was[id].state == Prepared && allowed(id) && mayRun then [id] else [];
      OneMoreExecution(t, first.log, sofar, now);
      executed := sofar + now;
      if end.Recovered? { ExecutedMore(first.attempts, todo, done, allowed, sofar); }
    }

    /** The attempt for a call: the one that the run already has for it, or a new one under a fresh identifier. */
    method PrepareAttemptFor(ghost t: QuantumId, fence: Fence, run: RunId, call: CallId, freshId: AttemptId)
      returns (id: AttemptId)
      requires IsAttached(Now(), t) && quanta[t].fence == fence && quanta[t].run == run && quanta[t].phase.Preparing?
      requires |quanta[t].phase.ready| < |quanta[t].phase.calls| && quanta[t].phase.calls[|quanta[t].phase.ready|] == call
      requires lease == Some(fence) && run !in ended && freshId !in attempts
      modifies this
      ensures Next(old(Now()), PrepareAttempt(t, id)) == Some(Now())
      ensures lease == old(lease) && ended == old(ended) && transcript == old(transcript) && log == old(log)
      ensures id in attempts && attempts[id].run == run && attempts[id].call == call
      ensures attempts == old(attempts) || (id == freshId && attempts == old(attempts)[id := Attempt(run, call, Prepared, false)])
      ensures var phase := old(quanta)[t].phase;
        quanta == old(quanta)[t := old(quanta)[t].(phase := Preparing(phase.calls, phase.ready + [Slot(call, Some(id))]))]
    {
      var existing := set o | o in attempts && attempts[o].run == run && attempts[o].call == call;
      if existing != {} {
        id :| id in existing;
      } else {
        id := freshId;
      }
      ghost var after := Next(Now(), PrepareAttempt(t, id));
      if existing == {} {
        assert forall o | o in attempts :: !(attempts[o].run == run && attempts[o].call == call) by {
          forall o | o in attempts ensures !(attempts[o].run == run && attempts[o].call == call) { assert o !in existing; }
        }
        attempts := attempts[id := Attempt(run, call, Prepared, false)];
      }
      quanta := after.value.quanta;
    }

    method SkipRefused(ghost t: QuantumId)
      requires IsAttached(Now(), t) && quanta[t].phase.Preparing? && |quanta[t].phase.ready| < |quanta[t].phase.calls|
      modifies this
      ensures Next(old(Now()), PrepareRefused(t)) == Some(Now())
      ensures lease == old(lease) && ended == old(ended) && transcript == old(transcript) && attempts == old(attempts)
      ensures log == old(log)
      ensures var phase := old(quanta)[t].phase;
        quanta == old(quanta)[t := old(quanta)[t].(phase :=
          Preparing(phase.calls, phase.ready + [Slot(phase.calls[|phase.ready|], None)]))]
    {
      quanta := Next(Now(), PrepareRefused(t)).value.quanta;
    }

    /** One call: an attempt, or none when the policy refuses it. */
    method PrepareCall(ghost t: QuantumId, fence: Fence, run: RunId, calls: seq<CallId>, slots: seq<Slot>, allowed: bool,
                       freshId: AttemptId) returns (slot: Slot, ghost a: Action)
      requires Stands(t, fence, run, Preparing(calls, slots)) && |slots| < |calls| && lease == Some(fence) && run !in ended
      requires freshId !in attempts && AttemptsFor(attempts, run, slots)
      modifies this
      ensures Next(old(Now()), a) == Some(Now())
      ensures lease == old(lease) && ended == old(ended) && transcript == old(transcript) && log == old(log)
      ensures slot.call == calls[|slots|] && (slot.attempt.Some? <==> allowed)
      ensures Stands(t, fence, run, Preparing(calls, slots + [slot]))
      ensures AttemptsFor(attempts, run, slots + [slot]) && OnlyPrepared(old(attempts), attempts)
      ensures forall id | id in attempts :: id in old(attempts) || id == freshId
    {
      if allowed {
        var id := PrepareAttemptFor(t, fence, run, calls[|slots|], freshId);
        return Slot(calls[|slots|], Some(id)), PrepareAttempt(t, id);
      } else {
        SkipRefused(t);
        return Slot(calls[|slots|], None), PrepareRefused(t);
      }
    }

    /** The loop that prepares an attempt for each call that the policy allows; nothing is started yet. */
    method PrepareCalls(ghost t: QuantumId, fence: Fence, run: RunId, calls: seq<CallId>, allowed: nat -> bool,
                        firstFree: AttemptId) returns (slots: seq<Slot>, ghost trace: seq<Action>)
      requires Stands(t, fence, run, Preparing(calls, [])) && lease == Some(fence) && run !in ended
      requires AllBelow(attempts, firstFree)
      modifies this
      ensures Leads(Stepper(), old(Now()), trace, Now())
      ensures lease == old(lease) && ended == old(ended) && transcript == old(transcript) && log == old(log)
      ensures |slots| == |calls| && Stands(t, fence, run, Preparing(calls, slots))
      ensures SlotsMatch(slots, calls, allowed)
      ensures AttemptsFor(attempts, run, slots) && OnlyPrepared(old(attempts), attempts)
      ensures AllBelow(attempts, firstFree + |calls|)
    {
      ghost var first := Now();
      slots, trace := [], [];
      for i := 0 to |calls|
        invariant Leads(Stepper(), first, trace, Now()) && lease == Some(fence) && ended == old(ended)
        invariant transcript == old(transcript) && log == old(log) && |slots| == i && Stands(t, fence, run, Preparing(calls, slots))
        invariant SlotsMatch(slots, calls, allowed)
        invariant AttemptsFor(attempts, run, slots) && OnlyPrepared(old(attempts), attempts)
        invariant AllBelow(attempts, firstFree + i)
      {
        ghost var (before, was) := (Now(), attempts);
        ghost var a;
        var slot;
        slot, a := PrepareCall(t, fence, run, calls, slots, allowed(i), firstFree + i);
        OnlyPreparedSince(old(attempts), was, attempts);
        LeadsOn(Stepper(), first, trace, before, a, Now());
        trace := trace + [a];
        OneMoreMatches(slots, calls, allowed, slot);
        slots := slots + [slot];
      }
    }

    /** The results of the tool loop become durable together with their attempts. */
    method CheckpointAll(ghost t: QuantumId, fence: Fence, run: RunId, ghost left: seq<Slot>, results: seq<Slot>)
      returns (ok: bool)
      requires Stands(t, fence, run, Tools(left, results)) && results != [] && (left == [] || left[0].attempt.Some?)
      requires AllSettled(attempts, run, results)
      modifies this
      ensures Next(old(Now()), CheckpointResults(t)) == if ok then Some(Now()) else None
      ensures ok <==> lease == Some(fence) && run !in ended
      ensures lease == old(lease) && ended == old(ended) && log == old(log)
      ensures ok ==> transcript == old(transcript) + Results(results) && attempts == Checkpoint(old(attempts), Done(results))
      ensures ok ==> Stands(t, fence, run, if left == [] then Modelling else Leaving)
      ensures !ok ==> Now() == old(Now())
    {
      ghost var after := Next(Now(), CheckpointResults(t));
      forall id | id in Done(results) ensures id in attempts && attempts[id].run == run && Terminal(attempts[id].state) {
        DoneComesFromSlots(results, id);
      }
      ok := ValidateRun(fence, run);
      if !ok { return; }
      transcript := transcript + Results(results);
      attempts := Checkpoint(attempts, Done(results));
      quanta := after.value.quanta;
    }

    /** One call of the tool loop: refused without an attempt, or run; false when its attempt is not prepared. */
    method RunSlot(ghost t: QuantumId, fence: Fence, run: RunId, slot: Slot, ghost left: seq<Slot>, ghost results: seq<Slot>,
                   succeeds: bool) returns (ok: bool, ghost trace: seq<Action>)
      requires Stands(t, fence, run, Tools([slot] + left, results)) && lease == Some(fence) && run !in ended
      modifies this
      ensures Leads(Stepper(), old(Now()), trace, Now())
      ensures lease == old(lease) && ended == old(ended) && transcript == old(transcript)
      ensures ok <==> (slot.attempt.Some? ==> HasState(old(attempts), slot.attempt.value, run, Prepared))
      ensures !ok ==> Now() == old(Now())
      ensures ok ==> Stands(t, fence, run, Tools(left, results + [slot]))
      ensures ok && slot.attempt.Some? ==>
                SameButFor(old(attempts), attempts, slot.attempt.value) && Settles(attempts, run, slot.attempt.value)
      ensures (slot.attempt.None? ==> attempts == old(attempts)) && attempts.Keys == old(attempts).Keys
      ensures ok ==> log == old(log) + Executions(t, Done([slot]))
      ensures ok && slot.attempt.Some? ==>
                attempts[slot.attempt.value].state == if succeeds then Succeeded else FailedKnown
    {
      assert ([slot] + left)[0] == slot && ([slot] + left)[1..] == left;
      if slot.attempt.None? {
        ghost var first := Now();
        Refuse(t);
        DoneOfOne(slot);
        assert log == old(log) + Executions(t, []);
        LeadsOn(Stepper(), first, [], first, RefuseCall(t), Now());
        return true, [] + [RefuseCall(t)];
      }
      ok, trace := RunPrepared(t, fence, run, slot.attempt.value, succeeds, InTools(slot.call, left, results));
      assert Slot(slot.call, Some(slot.attempt.value)) == slot;
      DoneOfOne(slot);
    }

    /** The tool loop, undisturbed: `count` calls are answered in order and their results appended together. It stops
        early at a call beyond the budget, which then stays unanswered, or fails, with nothing appended, at an
        attempt that is not prepared. Exactly the attempts of the answered calls are executed, in order, each once, and
        each of them takes one step of the budget. */
    method RunTools(ghost t: QuantumId, fence: Fence, run: RunId, slots: seq<Slot>, succeeds: AttemptId -> bool,
                    spent: nat, maxToolSteps: nat)
      returns (end: ToolsEnd, count: nat, toolSteps: nat, ghost trace: seq<Action>)
      requires Inv(Now()) && Stands(t, fence, run, Tools(slots, [])) && lease == Some(fence) && run !in ended
      requires spent <= maxToolSteps
      modifies this
      ensures Leads(Stepper(), old(Now()), trace, Now()) && lease == old(lease) && ended == old(ended) && Inv(Now())
      ensures count <= |slots| && spent <= toolSteps <= maxToolSteps
      ensures end.NotPrepared? ==>
                && count < |slots| && slots[count].attempt.Some? && transcript == old(transcript)
                && !HasState(attempts, slots[count].attempt.value, run, Prepared)
      ensures !end.NotPrepared? ==>
                && transcript == old(transcript) + Results(slots[..count])
                && forall i | 0 <= i < count && slots[i].attempt.Some? :: Resolved(attempts, slots[i].attempt.value)
      ensures end.Answered? ==> count == |slots|
      ensures !end.NotPrepared? && count > 0 ==> Stands(t, fence, run, if end.Answered? then Modelling else Leaving)
      ensures attempts.Keys == old(attempts).Keys
      ensures log == old(log) + Executions(t, Done(slots[..count]))
      ensures toolSteps == spent + |Done(slots[..count])| + (if end.NotPrepared? then 1 else 0)
      ensures ExecutedSlots(attempts, slots, count, succeeds)
      ensures end.BudgetExhausted? ==> count < |slots| && slots[count].attempt.Some? && toolSteps == maxToolSteps
    {
      ghost var first := Now();
      end, count, toolSteps, trace := AnswerSlots(t, fence, run, slots, succeeds, spent, maxToolSteps);
      if end.NotPrepared? {
        LeadsKeeps(first, trace, Now());
        return;
      }
      trace := CheckpointTools(first, t, fence, run, slots, count, succeeds, trace);
    }

    method AnswerSlots(ghost t: QuantumId, fence: Fence, run: RunId, slots: seq<Slot>, succeeds: AttemptId -> bool,
                       spent: nat, maxToolSteps: nat)
      returns (end: ToolsEnd, count: nat, toolSteps: nat, ghost trace: seq<Action>)
      requires Stands(t, fence, run, Tools(slots, [])) && lease == Some(fence) && run !in ended && spent <= maxToolSteps
      modifies this
      ensures ToolsSoFar(old(Now()), t, fence, run, slots, count, succeeds, trace)
      ensures toolSteps == spent + |Done(slots[..count])| + (if end.NotPrepared? then 1 else 0) && toolSteps <= maxToolSteps
      ensures end.Answered? ==> count == |slots|
      ensures end.NotPrepared? ==>
                && count < |slots| && slots[count].attempt.Some?
                && !HasState(attempts, slots[count].attempt.value, run, Prepared)
      ensures end.BudgetExhausted? ==> count < |slots| && slots[count].attempt.Some? && toolSteps == maxToolSteps
    {
      ghost var first := Now();
      count, toolSteps, trace, end := 0, spent, [], Answered;
      NoToolsYet(this, t, fence, run, slots, succeeds);
      while count < |slots|
        invariant 0 <= count <= |slots| && spent <= toolSteps <= maxToolSteps
        invariant ToolsSoFar(first, t, fence, run, slots, count, succeeds, trace)
        invariant end.Answered? && toolSteps == spent + |Done(slots[..count])|
      {
        end, toolSteps, trace := NextSlot(first, t, fence, run, slots, count, succeeds, toolSteps, maxToolSteps, trace);
        if !end.Answered? { return; }
        count := count + 1;
      }
    }

    /** The next call of the tool loop, unless it is beyond the budget. */
    method NextSlot(ghost first: State, ghost t: QuantumId, fence: Fence, run: RunId, slots: seq<Slot>, count: nat,
                    succeeds: AttemptId -> bool, spent: nat, maxToolSteps: nat, ghost before: seq<Action>)
      returns (end: ToolsEnd, toolSteps: nat, ghost trace: seq<Action>)
      requires count < |slots| && ToolsSoFar(first, t, fence, run, slots, count, succeeds, before) && spent <= maxToolSteps
      modifies this
      ensures end.Answered? ==>
                && ToolsSoFar(first, t, fence, run, slots, count + 1, succeeds, trace)
                && toolSteps - spent == |Done(slots[..count + 1])| - |Done(slots[..count])|
      ensures !end.Answered? ==>
                ToolsSoFar(first, t, fence, run, slots, count, succeeds, trace) && slots[count].attempt.Some?
      ensures spent <= toolSteps <= maxToolSteps
      ensures end.BudgetExhausted? ==> toolSteps == spent == maxToolSteps
      ensures end.NotPrepared? ==>
                toolSteps == spent + 1 && !HasState(attempts, slots[count].attempt.value, run, Prepared)
    {
      end, toolSteps, trace := Answered, spent, before;
      if slots[count].attempt.Some? {
        if toolSteps >= maxToolSteps { return BudgetExhausted, toolSteps, trace; }
        toolSteps := toolSteps + 1;
      }
      var ok;
      ok, trace := AnswerSlot(first, t, fence, run, slots, count, succeeds, before);
      if !ok { end := NotPrepared; }
    }

    // The tool loop after `count` calls, since the state in which it began.
    ghost predicate ToolsSoFar(first: State, t: QuantumId, fence: Fence, run: RunId, slots: seq<Slot>, count: nat,
                               succeeds: AttemptId -> bool, trace: seq<Action>)
      reads this
    {
      && count <= |slots| && Leads(Stepper(), first, trace, Now()) && lease == first.lease == Some(fence)
      && ended == first.ended && run !in ended && transcript == first.transcript && attempts.Keys == first.attempts.Keys
      && Stands(t, fence, run, Tools(slots[count..], slots[..count])) && AllSettled(attempts, run, slots[..count])
      && log == first.log + Executions(t, Done(slots[..count])) && ExecutedSlots(attempts, slots, count, succeeds)
    }

    /** The next call of the tool loop. */
    method AnswerSlot(ghost first: State, ghost t: QuantumId, fence: Fence, run: RunId, slots: seq<Slot>, count: nat,
                      succeeds: AttemptId -> bool, ghost before: seq<Action>) returns (ok: bool, ghost trace: seq<Action>)
      requires count < |slots| && ToolsSoFar(first, t, fence, run, slots, count, succeeds, before)
      modifies this
      ensures ok ==>
                && ToolsSoFar(first, t, fence, run, slots, count + 1, succeeds, trace)
                && |Done(slots[..count + 1])| == |Done(slots[..count])| + (if slots[count].attempt.Some? then 1 else 0)
      ensures !ok ==>
                && ToolsSoFar(first, t, fence, run, slots, count, succeeds, trace) && Now() == old(Now())
                && slots[count].attempt.Some? && !HasState(attempts, slots[count].attempt.value, run, Prepared)
    {
      var slot := slots[count];
      assert [slot] + slots[count + 1..] == slots[count..] && slots[..count] + [slot] == slots[..count + 1];
      ghost var (was, since) := (attempts, Now());
      ghost var more;
      ok, more := RunSlot(t, fence, run, slot, slots[count + 1..], slots[..count],
                          slot.attempt.Some? && succeeds(slot.attempt.value));
      LeadsFurther(Stepper(), first, before, since, more, Now());
      trace := before + more;
      if ok {
        OneMoreSettled(was, attempts, run, slots, count);
        OneMoreExecuted(was, attempts, slots, count, succeeds);
        DoneOfOne(slot);
        OneMoreExecution(t, first.log, Done(slots[..count]), Done([slot]));
      }
    }

    /** The end of the tool loop: what was answered becomes durable. */
    method CheckpointTools(ghost first: State, ghost t: QuantumId, fence: Fence, run: RunId, slots: seq<Slot>, count: nat,
                           ghost succeeds: AttemptId -> bool, ghost before: seq<Action>) returns (ghost trace: seq<Action>)
      requires Inv(first) && ToolsSoFar(first, t, fence, run, slots, count, succeeds, before)
      requires count < |slots| ==> slots[count].attempt.Some?
      modifies this
      ensures Leads(Stepper(), first, trace, Now()) && Inv(Now())
      ensures lease == old(lease) && ended == old(ended) && log == old(log)
      ensures transcript == first.transcript + Results(slots[..count]) && attempts.Keys == first.attempts.Keys
      ensures count > 0 ==> Stands(t, fence, run, if count == |slots| then Modelling else Leaving)
      ensures forall i | 0 <= i < count && slots[i].attempt.Some? :: Resolved(attempts, slots[i].attempt.value)
      ensures ExecutedSlots(attempts, slots, count, succeeds)
    {
      trace := before;
      if count > 0 {
        ghost var since := Now();
        var ok := CheckpointAll(t, fence, run, slots[count..], slots[..count]);
        LeadsOn(Stepper(), first, trace, since, CheckpointResults(t), Now());
        trace := trace + [CheckpointResults(t)];
        AllResolved(since.attempts, run, slots, count);
        CheckpointKeepsStates(since.attempts, Done(slots[..count]), slots, count, succeeds);
      } else {
        assert Results(slots[..0]) == [] && transcript + [] == transcript;
      }
      LeadsKeeps(first, trace, Now());
    }

    /** The assistant message becomes durable before any of its tools is started. */
    method CheckpointCalls(ghost t: QuantumId, fence: Fence, run: RunId, calls: seq<CallId>, ghost slots: seq<Slot>)
      returns (ok: bool)
      requires Stands(t, fence, run, Preparing(calls, slots)) && |slots| == |calls|
      modifies this
      ensures Next(old(Now()), CheckpointAssistant(t)) == if ok then Some(Now()) else None
      ensures ok <==> lease == Some(fence) && run !in ended
      ensures lease == old(lease) && ended == old(ended) && attempts == old(attempts) && log == old(log)
      ensures ok ==> transcript == old(transcript) + [Assistant(calls)] && Stands(t, fence, run, Tools(slots, []))
      ensures !ok ==> Now() == old(Now())
    {
      ghost var after := Next(Now(), CheckpointAssistant(t));
      ok := ValidateRun(fence, run);
      if !ok { return; }
      transcript := transcript + [Assistant(calls)];
      quanta := after.value.quanta;
    }

    method TakeCalls(ghost t: QuantumId, calls: seq<CallId>)
      requires IsAttached(Now(), t) && quanta[t].phase.Modelling? && calls != []
      modifies this
      ensures Next(old(Now()), AnswerCalls(t, calls)) == Some(Now())
      ensures lease == old(lease) && ended == old(ended) && transcript == old(transcript) && attempts == old(attempts)
      ensures log == old(log)
      ensures quanta == old(quanta)[t := old(quanta)[t].(phase := Preparing(calls, []))]
    {
      quanta := Next(Now(), AnswerCalls(t, calls)).value.quanta;
    }

    /** One model step that ends in tool calls, undisturbed: the assistant message, then the results of its calls in
        order up to the budget. It fails, with the assistant message already durable, at a call whose attempt is not
        prepared, which takes a call name that the run has used before. */
    method AnswerTurn(ghost t: QuantumId, fence: Fence, run: RunId, calls: seq<CallId>, allowed: nat -> bool,
                      succeeds: AttemptId -> bool, firstFree: AttemptId, spent: nat, maxToolSteps: nat)
      returns (end: ToolsEnd, slots: seq<Slot>, count: nat, toolSteps: nat, ghost trace: seq<Action>)
      requires Inv(Now()) && Stands(t, fence, run, Modelling) && lease == Some(fence) && run !in ended && calls != []
      requires AllBelow(attempts, firstFree) && spent <= maxToolSteps
      modifies this
      ensures Leads(Stepper(), old(Now()), trace, Now()) && Inv(Now()) && lease == old(lease) && ended == old(ended)
      ensures |slots| == |calls| && count <= |calls| && spent <= toolSteps <= maxToolSteps
      ensures SlotsMatch(slots, calls, allowed)
      ensures end.NotPrepared? ==> transcript == old(transcript) + [Assistant(calls)]
      ensures !end.NotPrepared? ==>
                && transcript == old(transcript) + [Assistant(calls)] + Results(slots[..count])
                && forall i | 0 <= i < count && slots[i].attempt.Some? :: Resolved(attempts, slots[i].attempt.value)
      ensures end.Answered? ==> count == |calls| && Stands(t, fence, run, Modelling)
      ensures end.NotPrepared? ==> count < |calls|
      ensures AllBelow(attempts, firstFree + |calls|)
      ensures log == old(log) + Executions(t, Done(slots[..count]))
      ensures toolSteps == spent + |Done(slots[..count])| + (if end.NotPrepared? then 1 else 0)
      ensures ExecutedSlots(attempts, slots, count, succeeds)
      ensures end.BudgetExhausted? ==> count < |calls| && allowed(count) && toolSteps == maxToolSteps
    {
      ghost var first := Now();
      TakeCalls(t, calls);
      LeadsOn(Stepper(), first, [], first, AnswerCalls(t, calls), Now());
      trace := [] + [AnswerCalls(t, calls)];
      ghost var taken := Now();
      ghost var more;
      slots, more := PrepareCalls(t, fence, run, calls, allowed, firstFree);
      LeadsFurther(Stepper(), first, trace, taken, more, Now());
      trace := trace + more;
      ghost var ready := Now();
      var ok := CheckpointCalls(t, fence, run, calls, slots);
      LeadsOn(Stepper(), first, trace, ready, CheckpointAssistant(t), Now());
      trace := trace + [CheckpointAssistant(t)];
      LeadsKeeps(first, trace, Now());
      ghost var named := Now();
      end, count, toolSteps, more := RunTools(t, fence, run, slots, succeeds, spent, maxToolSteps);
      LeadsFurther(Stepper(), first, trace, named, more, Now());
      trace := trace + more;
    }

    /** The plain answer of the model: it becomes durable and ends the run. */
    method FinalizeRun(ghost t: QuantumId, fence: Fence, run: RunId) returns (ok: bool)
      requires Stands(t, fence, run, Modelling)
      modifies this
      ensures Next(old(Now()), Finalize(t)) == if ok then Some(Now()) else None
      ensures ok <==> old(lease) == Some(fence) && run !in old(ended)
      ensures lease == old(lease) && attempts == old(attempts) && log == old(log)
      ensures ok ==> transcript == old(transcript) + [Assistant([])] && ended == old(ended) + {run}
      ensures !ok ==> Now() == old(Now())
    {
      ghost var after := Next(Now(), Finalize(t));
      ok := ValidateRun(fence, run);
      if !ok { return; }
      transcript := transcript + [Assistant([])];
      ended := ended + {run};
      quanta := after.value.quanta;
    }

    /** The model loop, undisturbed: as many steps as there are replies, until one calls no tool. Every turn but the last
        is answered to its end. The loop completes exactly at a reply without calls, which ends the run; it stops at a
        call beyond the budget, fails at an attempt that is not prepared, and otherwise runs out of steps. The
        transcript gets exactly the calls and results of the turns and then the answer, and exactly the attempts of the
        answered calls are executed, in order, within the budget. */
    method RunModelSteps(ghost t: QuantumId, fence: Fence, run: RunId, replies: seq<seq<CallId>>,
                         allowed: (nat, nat) -> bool, succeeds: AttemptId -> bool, firstFree: AttemptId, maxToolSteps: nat,
                         spent: nat)
      returns (end: StepsEnd, turns: seq<Turn>, toolSteps: nat, ghost trace: seq<Action>)
      requires Inv(Now()) && Stands(t, fence, run, Modelling) && lease == Some(fence) && run !in ended
      requires AllBelow(attempts, firstFree) && spent <= maxToolSteps
      modifies this
      ensures StepsEnded(old(Now()), t, fence, run, replies, allowed, end, turns, trace)
      ensures toolSteps == spent + |AllDone(turns)| + (if end.Failed? then 1 else 0) && toolSteps <= maxToolSteps
      ensures end.OutOfBudget? ==> toolSteps == maxToolSteps
    {
      ghost var first := Now();
      turns, toolSteps, trace := [], spent, [];
      var nextFree: nat := firstFree;
      NoStepsYet(this, t, fence, run, replies, allowed);
      for i := 0 to |replies|
        invariant |turns| == i && StepsSoFar(first, t, fence, run, replies, allowed, turns, trace)
        invariant AllBelow(attempts, nextFree) && toolSteps == spent + |AllDone(turns)| && toolSteps <= maxToolSteps
      {
        var stopped;
        stopped, turns, toolSteps, trace :=
          TakeStep(first, t, fence, run, replies, allowed, succeeds, nextFree, turns, toolSteps, maxToolSteps, trace);
        if stopped.Some? { return stopped.value, turns, toolSteps, trace; }
        nextFree := nextFree + |replies[i]|;
      }
      return OutOfSteps, turns, toolSteps, trace;
    }

    // The model loop where it has stopped: what the transcript, the log and the ended runs have got.
    ghost predicate StepsEnded(first: State, t: QuantumId, fence: Fence, run: RunId, replies: seq<seq<CallId>>,
                               allowed: (nat, nat) -> bool, end: StepsEnd, turns: seq<Turn>, trace: seq<Action>)
      reads this
    {
      && Leads(Stepper(), first, trace, Now()) && lease == first.lease && TurnsMatch(turns, replies, allowed)
      && ended == (if end.Completed? then first.ended + {run} else first.ended)
      && log == first.log + Executions(t, AllDone(turns))
      && match end
         case Completed =>
           && |turns| < |replies| && replies[|turns|] == [] && AllAnswered(turns, |turns|)
           && transcript == first.transcript + AllRecorded(turns, false) + [Assistant([])]
         case OutOfSteps =>
           && |turns| == |replies| && AllAnswered(turns, |turns|)
           && transcript == first.transcript + AllRecorded(turns, false)
         case _ =>
           && turns != [] && turns[|turns| - 1].answered < turns[|turns| - 1].slots && AllAnswered(turns, |turns| - 1)
           && transcript == first.transcript + AllRecorded(turns, end.Failed?)
    }

    /** One model step: the answer, or a turn. */
    method TakeStep(ghost first: State, ghost t: QuantumId, fence: Fence, run: RunId, replies: seq<seq<CallId>>,
                    allowed: (nat, nat) -> bool, succeeds: AttemptId -> bool, firstFree: AttemptId, turns: seq<Turn>,
                    spent: nat, maxToolSteps: nat, ghost before: seq<Action>)
      returns (stopped: Option<StepsEnd>, turns': seq<Turn>, toolSteps: nat, ghost trace: seq<Action>)
      requires |turns| < |replies| && StepsSoFar(first, t, fence, run, replies, allowed, turns, before)
      requires AllBelow(attempts, firstFree) && spent <= maxToolSteps
      modifies this
      ensures stopped.None? ==>
                && |turns'| == |turns| + 1 && StepsSoFar(first, t, fence, run, replies, allowed, turns', trace)
                && AllBelow(attempts, firstFree + |replies[|turns|]|)
      ensures stopped.Some? ==> StepsEnded(first, t, fence, run, replies, allowed, stopped.value, turns', trace)
      ensures toolSteps - spent == |AllDone(turns')| - |AllDone(turns)| + (if stopped == Some(Failed) then 1 else 0)
      ensures toolSteps <= maxToolSteps && (stopped == Some(OutOfBudget) ==> toolSteps == maxToolSteps)
    {
      if replies[|turns|] == [] {
        trace := FinishSteps(first, t, fence, run, replies, allowed, turns, before);
        return Some(Completed), turns, spent, trace;
      }
      var turnEnd, turn;
      turnEnd, turn, toolSteps, trace := TakeTurn(first, t, fence, run, replies, allowed, succeeds, firstFree, turns,
                                                  spent, maxToolSteps, before);
      turns' := turns + [turn];
      assert forall i | 0 <= i < |turns| :: turns'[i] == turns[i];
      match turnEnd {
        case Answered => stopped := None;
        case BudgetExhausted => stopped := Some(OutOfBudget);
        case NotPrepared => stopped := Some(Failed);
      }
    }

    // The model loop after some turns, all of them answered to their end, since the state in which it began.
    ghost predicate StepsSoFar(first: State, t: QuantumId, fence: Fence, run: RunId, replies: seq<seq<CallId>>,
                               allowed: (nat, nat) -> bool, turns: seq<Turn>, trace: seq<Action>)
      reads this
    {
      && Inv(Now()) && Stands(t, fence, run, Modelling) && lease == first.lease == Some(fence)
      && ended == first.ended && run !in ended && Leads(Stepper(), first, trace, Now())
      && TurnsMatch(turns, replies, allowed) && AllAnswered(turns, |turns|)
      && transcript == first.transcript + AllRecorded(turns, false)
      && log == first.log + Executions(t, AllDone(turns))
    }

    /** The end of the model loop at a plain answer. */
    method FinishSteps(ghost first: State, ghost t: QuantumId, fence: Fence, run: RunId, ghost replies: seq<seq<CallId>>,
                       ghost allowed: (nat, nat) -> bool, ghost turns: seq<Turn>, ghost before: seq<Action>)
      returns (ghost trace: seq<Action>)
      requires StepsSoFar(first, t, fence, run, replies, allowed, turns, before)
      modifies this
      ensures Leads(Stepper(), first, trace, Now()) && lease == first.lease && ended == first.ended + {run}
      ensures transcript == first.transcript + AllRecorded(turns, false) + [Assistant([])]
      ensures log == first.log + Executions(t, AllDone(turns))
    {
      ghost var since := Now();
      var ok := FinalizeRun(t, fence, run);
      LeadsOn(Stepper(), first, before, since, Finalize(t), Now());
      trace := before + [Finalize(t)];
    }

    /** The next turn of the model loop. */
    method TakeTurn(ghost first: State, ghost t: QuantumId, fence: Fence, run: RunId, replies: seq<seq<CallId>>,
                    allowed: (nat, nat) -> bool, succeeds: AttemptId -> bool, firstFree: AttemptId, turns: seq<Turn>,
                    spent: nat, maxToolSteps: nat, ghost before: seq<Action>)
      returns (end: ToolsEnd, turn: Turn, toolSteps: nat, ghost trace: seq<Action>)
      requires |turns| < |replies| && replies[|turns|] != []
      requires StepsSoFar(first, t, fence, run, replies, allowed, turns, before)
      requires AllBelow(attempts, firstFree) && spent <= maxToolSteps
      modifies this
      ensures TurnsMatch(turns + [turn], replies, allowed) && toolSteps <= maxToolSteps
      ensures Leads(Stepper(), first, trace, Now()) && lease == first.lease && ended == first.ended
      ensures end.Answered? ==>
                && StepsSoFar(first, t, fence, run, replies, allowed, turns + [turn], trace)
                && AllBelow(attempts, firstFree + |replies[|turns|]|)
      ensures !end.Answered? ==> turn.answered < turn.slots
      ensures end.BudgetExhausted? ==> toolSteps == maxToolSteps
      ensures transcript == first.transcript + AllRecorded(turns + [turn], end.NotPrepared?)
      ensures log == first.log + Executions(t, AllDone(turns + [turn]))
      ensures |AllDone(turns + [turn])| == |AllDone(turns)| + (toolSteps - spent) - (if end.NotPrepared? then 1 else 0)
    {
      var step := |turns|;
      ghost var since := Now();
      ghost var more;
      var slots, count;
      end, slots, count, toolSteps, more := AnswerTurn(t, fence, run, replies[step], AtStep(allowed, step), succeeds,
                                                       firstFree, spent, maxToolSteps);
      LeadsFurther(Stepper(), first, before, since, more, Now());
      trace := before + more;
      turn := Turn(replies[step], slots, slots[..count]);
      OneMoreTurn(turns, turn, replies, allowed);
      TurnExtends(turns, turn, end.NotPrepared?);
      TurnAdds(first, since, Now(), t, turns, turn, end.NotPrepared?);
      if end.Answered? { assert slots[..count] == slots; }
    }

    method Refuse(ghost t: QuantumId)
      requires IsAttached(Now(), t) && quanta[t].phase.Tools? && quanta[t].phase.left != []
      requires quanta[t].phase.left[0].attempt.None?
      modifies this
      ensures Next(old(Now()), RefuseCall(t)) == Some(Now())
      ensures lease == old(lease) && ended == old(ended) && transcript == old(transcript) && attempts == old(attempts)
      ensures log == old(log)
      ensures var phase := old(quanta)[t].phase;
        quanta == old(quanta)[t := old(quanta)[t].(phase := Tools(phase.left[1..], phase.results + [phase.left[0]]))]
    {
      quanta := Next(Now(), RefuseCall(t)).value.quanta;
    }
  }

  /** The history of executing these attempts, each started by the quantum before. */
  ghost function Executions(t: QuantumId, ids: seq<AttemptId>): seq<Event> {
    if ids == [] then []
    else Executions(t, ids[..|ids| - 1]) + [Marked(t, ids[|ids| - 1]), Ran(t, ids[|ids| - 1])]
  }

  function AtStep(allowed: (nat, nat) -> bool, step: nat): nat -> bool { (k: nat) => allowed(step, k) }

  // Every turn is for its reply, with one slot per call and an attempt exactly where the policy allows the call.
  ghost predicate TurnsMatch(turns: seq<Turn>, replies: seq<seq<CallId>>, allowed: (nat, nat) -> bool) {
    && |turns| <= |replies|
    && forall i | 0 <= i < |turns| :: TurnMatches(turns[i], replies[i], AtStep(allowed, i))
  }

  predicate AllAnswered(turns: seq<Turn>, count: int) {
    count <= |turns| && forall i | 0 <= i < count :: turns[i].answered == turns[i].slots
  }

  ghost predicate TurnMatches(turn: Turn, calls: seq<CallId>, allowed: nat -> bool) {
    && turn.calls == calls != [] && |turn.slots| == |calls| && SlotsMatch(turn.slots, calls, allowed)
    && turn.answered <= turn.slots
  }

  /** What turns leave in the transcript: the message with the calls and then the results; none of the last turn if it
      failed. */
  function AllRecorded(turns: seq<Turn>, failed: bool): seq<Entry> {
    if turns == [] then []
    else
      var last := turns[|turns| - 1];
      AllRecorded(turns[..|turns| - 1], false) + [Assistant(last.calls)] + if failed then [] else Results(last.answered)
  }

  /** The attempts of the answered calls of all turns. */
  function AllDone(turns: seq<Turn>): seq<AttemptId> {
    if turns == [] then [] else AllDone(turns[..|turns| - 1]) + Done(turns[|turns| - 1].answered)
  }

  lemma OneMoreTurn(turns: seq<Turn>, turn: Turn, replies: seq<seq<CallId>>, allowed: (nat, nat) -> bool)
    requires TurnsMatch(turns, replies, allowed) && |turns| < |replies|
    requires turn.calls == replies[|turns|] != [] && |turn.slots| == |turn.calls| && turn.answered <= turn.slots
    requires SlotsMatch(turn.slots, turn.calls, AtStep(allowed, |turns|))
    ensures TurnsMatch(turns + [turn], replies, allowed)
  {
    forall i | 0 <= i <= |turns| ensures TurnMatches((turns + [turn])[i], replies[i], AtStep(allowed, i)) {
      if i < |turns| { assert (turns + [turn])[i] == turns[i]; }
    }
  }

  lemma NoRecoveryYet(store: RuntimeStore, t: QuantumId, fence: Fence, run: RunId, todo: seq<AttemptId>,
                      context: set<CallId>, allowed: AttemptId -> bool, succeeds: AttemptId -> bool)
    requires LoopOk(store.Now(), t, fence, run, todo, context) && store.lease == Some(fence) && run !in store.ended
    ensures store.RecoveredSoFar(store.Now(), t, fence, run, todo, 0, context, allowed, succeeds, [], [])
  {
    assert todo[0..] == todo && store.log + Executions(t, []) == store.log;
  }

  lemma NoToolsYet(store: RuntimeStore, t: QuantumId, fence: Fence, run: RunId, slots: seq<Slot>,
                   succeeds: AttemptId -> bool)
    requires store.Stands(t, fence, run, Tools(slots, [])) && store.lease == Some(fence) && run !in store.ended
    ensures store.ToolsSoFar(store.Now(), t, fence, run, slots, 0, succeeds, [])
  {
    assert slots[0..] == slots && slots[..0] == [] && store.log + Executions(t, []) == store.log;
  }

  lemma NoStepsYet(store: RuntimeStore, t: QuantumId, fence: Fence, run: RunId, replies: seq<seq<CallId>>,
                   allowed: (nat, nat) -> bool)
    requires Inv(store.Now()) && store.Stands(t, fence, run, Modelling)
    requires store.lease == Some(fence) && run !in store.ended
    ensures store.StepsSoFar(store.Now(), t, fence, run, replies, allowed, [], [])
  {
    assert store.log + Executions(t, []) == store.log && store.transcript + [] == store.transcript;
  }

  lemma TurnAdds(first: State, since: State, now: State, t: QuantumId, turns: seq<Turn>, turn: Turn, failed: bool)
    requires since.transcript == first.transcript + AllRecorded(turns, false)
    requires since.log == first.log + Executions(t, AllDone(turns))
    requires now.transcript == since.transcript + [Assistant(turn.calls)] + (if failed then [] else Results(turn.answered))
    requires now.log == since.log + Executions(t, Done(turn.answered))
    ensures now.transcript == first.transcript + AllRecorded(turns + [turn], failed)
    ensures now.log == first.log + Executions(t, AllDone(turns + [turn]))
  {
    TurnExtends(turns, turn, failed);
    var results := if failed then [] else Results(turn.answered);
    ThreeTogether(first.transcript, AllRecorded(turns, false), [Assistant(turn.calls)], results);
    ExecutionsTogether(t, AllDone(turns), Done(turn.answered));
    ThreeTogether(first.log, Executions(t, AllDone(turns)), Executions(t, Done(turn.answered)), []);
  }

  lemma ThreeTogether<T>(a: seq<T>, b: seq<T>, c: seq<T>, d: seq<T>)
    ensures a + b + c + d == a + (b + c + d) && b + c + [] == b + c && a + b + c + [] == a + b + c
  {}

  lemma TurnExtends(turns: seq<Turn>, turn: Turn, failed: bool)
    ensures AllRecorded(turns + [turn], failed)
         == AllRecorded(turns, false) + [Assistant(turn.calls)] + (if failed then [] else Results(turn.answered))
    ensures AllDone(turns + [turn]) == AllDone(turns) + Done(turn.answered)
  {
    assert (turns + [turn])[..|turns|] == turns;
  }

  lemma {:induction false} ExecutionsTogether(t: QuantumId, a: seq<AttemptId>, b: seq<AttemptId>)
    ensures Executions(t, a) + Executions(t, b) == Executions(t, a + b)
    decreases |b|
  {
    if b == [] {
      assert a + b == a;
    } else {
      assert (a + b)[..|a + b| - 1] == a + b[..|b| - 1];
      ExecutionsTogether(t, a, b[..|b| - 1]);
    }
  }

  lemma OneExecution(t: QuantumId, id: AttemptId)
    ensures Executions(t, [id]) == [Marked(t, id), Ran(t, id)]
  {
    assert [id][..0] == [];
  }

  lemma OneMoreExecution(t: QuantumId, log: seq<Event>, ids: seq<AttemptId>, more: seq<AttemptId>)
    requires |more| <= 1
    ensures log + Executions(t, ids) + Executions(t, more) == log + Executions(t, ids + more)
  {
    if more == [] {
      assert ids + more == ids;
    } else {
      assert more == [more[0]] && (ids + more)[..|ids|] == ids;
      OneExecution(t, more[0]);
    }
  }

  // What recovery makes of an attempt: a prepared one was refused or executed, the others had ended before; its
  // result is durable.
  ghost predicate RecoveredAs(attempts: map<AttemptId, Attempt>, attempts': map<AttemptId, Attempt>, id: AttemptId,
                              allowed: bool, succeeds: bool)
  {
    && id in attempts && id in attempts'
    && attempts'[id].run == attempts[id].run && attempts'[id].call == attempts[id].call && attempts'[id].checkpointed
    && (if attempts[id].state == Prepared
        then attempts'[id].state == if allowed && succeeds then Succeeded else FailedKnown
        else attempts'[id].state == attempts[id].state)
  }

  // Of the first attempts exactly the prepared ones that the policy allows were executed, once each.
  ghost predicate ExecutedUpTo(attempts: map<AttemptId, Attempt>, todo: seq<AttemptId>, done: nat,
                               allowed: AttemptId -> bool, executed: seq<AttemptId>)
  {
    && (forall i | 0 <= i < |todo| ::
          todo[i] in executed <==>
            i < done && allowed(todo[i]) && todo[i] in attempts && attempts[todo[i]].state == Prepared)
    && (forall id | id in executed :: id in todo) && Distinct(executed)
  }

  lemma ExecutedMore(attempts: map<AttemptId, Attempt>, todo: seq<AttemptId>, done: nat, allowed: AttemptId -> bool,
                     executed: seq<AttemptId>)
    requires done < |todo| && Distinct(todo) && ExecutedUpTo(attempts, todo, done, allowed, executed)
    requires todo[done] in attempts
    ensures ExecutedUpTo(attempts, todo, done + 1, allowed, executed +
              if allowed(todo[done]) && attempts[todo[done]].state == Prepared then [todo[done]] else [])
  {}

  ghost predicate AllRecovered(attempts: map<AttemptId, Attempt>, attempts': map<AttemptId, Attempt>,
                               todo: seq<AttemptId>, done: nat, allowed: AttemptId -> bool, succeeds: AttemptId -> bool)
  {
    done <= |todo|
    && forall i | 0 <= i < done :: RecoveredAs(attempts, attempts', todo[i], allowed(todo[i]), succeeds(todo[i]))
  }

  ghost predicate UntouchedFrom(attempts: map<AttemptId, Attempt>, attempts': map<AttemptId, Attempt>,
                                todo: seq<AttemptId>, done: nat)
  {
    forall i | done <= i < |todo| ::
      todo[i] in attempts && todo[i] in attempts' && attempts'[todo[i]] == attempts[todo[i]]
  }

  lemma StillRecovered(first: map<AttemptId, Attempt>, attempts: map<AttemptId, Attempt>,
                       attempts': map<AttemptId, Attempt>, todo: seq<AttemptId>, done: nat,
                       allowed: AttemptId -> bool, succeeds: AttemptId -> bool)
    requires done < |todo| && Distinct(todo) && SameButFor(attempts, attempts', todo[done])
    requires AllRecovered(first, attempts, todo, done, allowed, succeeds) && UntouchedFrom(first, attempts, todo, done)
    ensures AllRecovered(first, attempts', todo, done, allowed, succeeds)
    ensures UntouchedFrom(first, attempts', todo, done + 1)
    ensures RecoveredAs(attempts, attempts', todo[done], allowed(todo[done]), succeeds(todo[done])) ==>
              AllRecovered(first, attempts', todo, done + 1, allowed, succeeds)
  {
    forall i | 0 <= i < done ensures todo[i] != todo[done] && attempts'[todo[i]] == attempts[todo[i]] {
      assert RecoveredAs(first, attempts, todo[i], allowed(todo[i]), succeeds(todo[i]));
    }
  }

  // What the loop over the unresolved attempts relies on: they belong to the run and wait in this order.
  ghost predicate LoopOk(s: State, t: QuantumId, fence: Fence, run: RunId, todo: seq<AttemptId>, seen: set<CallId>) {
    && Inv(s) && IsAttached(s, t) && s.quanta[t] == Attached(fence, run, seen, Recovering(todo))
    && Distinct(todo) && forall id | id in todo :: id in s.attempts && s.attempts[id].run == run
  }

  // An attempt whose observation is durable.
  predicate Resolved(attempts: map<AttemptId, Attempt>, id: AttemptId) {
    id in attempts && attempts[id].checkpointed && Terminal(attempts[id].state)
  }

  ghost predicate SameButFor(attempts: map<AttemptId, Attempt>, attempts': map<AttemptId, Attempt>, id: AttemptId) {
    forall other | other in attempts && other != id :: other in attempts' && attempts'[other] == attempts[other]
  }

  lemma StillResolved(attempts: map<AttemptId, Attempt>, attempts': map<AttemptId, Attempt>, todo: seq<AttemptId>, done: nat)
    requires done < |todo| && Distinct(todo[done..]) && SameButFor(attempts, attempts', todo[done])
    requires ResolvedUpTo(attempts, todo, done)
    requires Resolved(attempts, todo[done]) ==> Resolved(attempts', todo[done])
    ensures ResolvedUpTo(attempts', todo, done)
    ensures Resolved(attempts', todo[done]) ==> ResolvedUpTo(attempts', todo, done + 1)
  {
    forall i | 0 <= i < done ensures Resolved(attempts', todo[i]) {
      assert Resolved(attempts, todo[i]);
      if todo[i] != todo[done] { assert attempts'[todo[i]] == attempts[todo[i]]; }
    }
  }

  ghost predicate ResolvedUpTo(attempts: map<AttemptId, Attempt>, todo: seq<AttemptId>, done: nat) {
    done <= |todo| && forall i | 0 <= i < done :: Resolved(attempts, todo[i])
  }

  // Every attempt among these slots is one of the run for the call of its slot.
  ghost predicate AttemptsFor(attempts: map<AttemptId, Attempt>, run: RunId, slots: seq<Slot>) {
    forall i | 0 <= i < |slots| && slots[i].attempt.Some? ::
      var id := slots[i].attempt.value;
      id in attempts && attempts[id].run == run && attempts[id].call == slots[i].call
  }

  // One slot per call so far, with an attempt exactly where the policy allows the call.
  ghost predicate SlotsMatch(slots: seq<Slot>, calls: seq<CallId>, allowed: nat -> bool) {
    |slots| <= |calls| && forall i | 0 <= i < |slots| :: slots[i].call == calls[i] && (slots[i].attempt.Some? <==> allowed(i))
  }

  lemma OneMoreMatches(slots: seq<Slot>, calls: seq<CallId>, allowed: nat -> bool, slot: Slot)
    requires SlotsMatch(slots, calls, allowed) && |slots| < |calls|
    requires slot.call == calls[|slots|] && (slot.attempt.Some? <==> allowed(|slots|))
    ensures SlotsMatch(slots + [slot], calls, allowed)
  {}

  ghost predicate AllBelow(attempts: map<AttemptId, Attempt>, firstFree: AttemptId) {
    forall id | id in attempts :: id < firstFree
  }

  lemma OnlyPreparedSince(a: map<AttemptId, Attempt>, b: map<AttemptId, Attempt>, c: map<AttemptId, Attempt>)
    requires OnlyPrepared(a, b) && OnlyPrepared(b, c)
    ensures OnlyPrepared(a, c)
  {}

  // Nothing but new, prepared attempts was added.
  ghost predicate OnlyPrepared(attempts: map<AttemptId, Attempt>, attempts': map<AttemptId, Attempt>) {
    && (forall id | id in attempts :: id in attempts' && attempts'[id] == attempts[id])
    && forall id | id in attempts' && id !in attempts :: attempts'[id].state == Prepared && !attempts'[id].checkpointed
  }

  // The attempts of these slots belong to the run and have a known outcome.
  ghost predicate AllSettled(attempts: map<AttemptId, Attempt>, run: RunId, slots: seq<Slot>) {
    forall i | 0 <= i < |slots| && slots[i].attempt.Some? :: Settles(attempts, run, slots[i].attempt.value)
  }

  predicate Settles(attempts: map<AttemptId, Attempt>, run: RunId, id: AttemptId) {
    id in attempts && attempts[id].run == run && Terminal(attempts[id].state)
  }

  lemma {:induction false} DoneComesFromSlots(slots: seq<Slot>, id: AttemptId)
    ensures id in Done(slots) <==> exists i | 0 <= i < |slots| :: slots[i].attempt == Some(id)
    decreases |slots|
  {
    if slots != [] {
      var init := slots[..|slots| - 1];
      DoneComesFromSlots(init, id);
      if id in Done(init) {
        var i :| 0 <= i < |init| && init[i].attempt == Some(id);
        assert slots[i].attempt == Some(id);
      }
      if i :| 0 <= i < |slots| && slots[i].attempt == Some(id) {
        if i < |init| { assert init[i].attempt == Some(id); }
      }
    }
  }

  lemma OneMoreSettled(attempts: map<AttemptId, Attempt>, attempts': map<AttemptId, Attempt>, run: RunId,
                       slots: seq<Slot>, count: nat)
    requires count < |slots| && AllSettled(attempts, run, slots[..count])
    requires slots[count].attempt.None? ==> attempts' == attempts
    requires slots[count].attempt.Some? ==>
               SameButFor(attempts, attempts', slots[count].attempt.value) && Settles(attempts', run, slots[count].attempt.value)
    ensures AllSettled(attempts', run, slots[..count + 1])
  {
    forall i | 0 <= i <= count && slots[i].attempt.Some? ensures Settles(attempts', run, slots[i].attempt.value) {
      if i < count { assert slots[..count][i] == slots[i]; }
    }
  }

  lemma DoneOfOne(slot: Slot)
    ensures Done([slot]) == if slot.attempt.Some? then [slot.attempt.value] else []
  {
    assert [slot][..0] == [];
  }

  // The attempts of the first slots were executed, each once, and ended as their tools did.
  ghost predicate ExecutedSlots(attempts: map<AttemptId, Attempt>, slots: seq<Slot>, count: nat,
                                succeeds: AttemptId -> bool)
  {
    && count <= |slots| && Distinct(Done(slots[..count]))
    && forall i | 0 <= i < count && slots[i].attempt.Some? :: EndedAs(attempts, slots[i].attempt.value, succeeds)
  }

  predicate EndedAs(attempts: map<AttemptId, Attempt>, id: AttemptId, succeeds: AttemptId -> bool) {
    id in attempts && attempts[id].state == if succeeds(id) then Succeeded else FailedKnown
  }

  lemma OneMoreExecuted(attempts: map<AttemptId, Attempt>, attempts': map<AttemptId, Attempt>, slots: seq<Slot>,
                        count: nat, succeeds: AttemptId -> bool)
    requires count < |slots| && ExecutedSlots(attempts, slots, count, succeeds)
    requires slots[count].attempt.None? ==> attempts' == attempts
    requires slots[count].attempt.Some? ==>
               var id := slots[count].attempt.value;
               && id in attempts && attempts[id].state == Prepared
               && SameButFor(attempts, attempts', id) && EndedAs(attempts', id, succeeds)
    ensures ExecutedSlots(attempts', slots, count + 1, succeeds)
    ensures Done(slots[..count + 1]) == Done(slots[..count]) + Done([slots[count]])
  {
    assert slots[..count + 1] == slots[..count] + [slots[count]];
    DoneOfOneMore(slots[..count], slots[count]);
    DoneOfOne(slots[count]);
    if slots[count].attempt.Some? {
      var id := slots[count].attempt.value;
      DoneComesFromSlots(slots[..count], id);
      forall i | 0 <= i < count && slots[i].attempt.Some? ensures slots[i].attempt.value != id {
        assert EndedAs(attempts, slots[i].attempt.value, succeeds);
      }
      assert forall i | 0 <= i < count :: slots[..count][i].attempt != Some(id);
    }
    forall i | 0 <= i <= count && slots[i].attempt.Some? ensures EndedAs(attempts', slots[i].attempt.value, succeeds) {
      if i < count { assert EndedAs(attempts, slots[i].attempt.value, succeeds); }
    }
  }

  lemma CheckpointKeepsStates(attempts: map<AttemptId, Attempt>, ids: seq<AttemptId>, slots: seq<Slot>, count: nat,
                              succeeds: AttemptId -> bool)
    requires ExecutedSlots(attempts, slots, count, succeeds)
    ensures ExecutedSlots(Checkpoint(attempts, ids), slots, count, succeeds)
  {
    forall i | 0 <= i < count && slots[i].attempt.Some?
      ensures EndedAs(Checkpoint(attempts, ids), slots[i].attempt.value, succeeds)
    {
      assert EndedAs(attempts, slots[i].attempt.value, succeeds);
    }
  }

  lemma AllResolved(attempts: map<AttemptId, Attempt>, run: RunId, slots: seq<Slot>, count: nat)
    requires count <= |slots| && AllSettled(attempts, run, slots[..count])
    ensures forall i | 0 <= i < count && slots[i].attempt.Some? ::
              Resolved(Checkpoint(attempts, Done(slots[..count])), slots[i].attempt.value)
  {
    forall i | 0 <= i < count && slots[i].attempt.Some?
      ensures Resolved(Checkpoint(attempts, Done(slots[..count])), slots[i].attempt.value)
    {
      assert slots[..count][i] == slots[i];
      DoneComesFromSlots(slots[..count], slots[i].attempt.value);
    }
  }

  // How one round ends: an attempt with an unknown outcome waits, a prepared one beyond the budget yields.
  function RoundEnd(state: AttemptState, allowed: bool, mayRun: bool): Recovery {
    if state == Prepared then if allowed && !mayRun then Yielded else Recovered
    else if Terminal(state) then Recovered
    else Recovery.WaitingForDecision
  }

  lemma LeadsKeeps(s: State, trace: seq<Action>, s': State)
    requires Inv(s) && Leads(Stepper(), s, trace, s')
    ensures Inv(s')
  {
    RunKeepsInv(s, trace);
  }

  lemma LoopGoesOn(s: State, s': State, t: QuantumId, fence: Fence, run: RunId, id: AttemptId, rest: seq<AttemptId>,
                   seen: set<CallId>)
    requires LoopOk(s, t, fence, run, [id] + rest, seen) && Inv(s')
    requires IsAttached(s', t) && s'.quanta[t] == Attached(fence, run, seen + {s.attempts[id].call}, Recovering(rest))
    requires SameButFor(s.attempts, s'.attempts, id)
    ensures LoopOk(s', t, fence, run, rest, seen + {s.attempts[id].call})
  {
    var todo := [id] + rest;
    assert todo[0] == id && forall i | 0 <= i < |rest| :: todo[i + 1] == rest[i];
  }
}
