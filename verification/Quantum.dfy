// The actor quantum: any number of quanta over one actor's durable store, each interrupted at any step.
// One action is one store transaction, one tool execution or one decision of the runner between them.
// Expiry of the lease, crashes, cancellation and yields are steps that can happen at any time.

module Quantum {
  import opened Common
  import opened Runs

  type QuantumId = nat
  type RunId = nat
  type AttemptId = nat
  type CallId = string

  // An actor lease as the store compares it: owner and generation.
  datatype Fence = Fence(owner: nat, generation: nat)

  datatype AttemptState =
    | Prepared
    | Running
    | Succeeded
    | FailedKnown
    | CancelledKnown
    | OutcomeUnknown
    | WaitingForDecision

  datatype Attempt = Attempt(run: RunId, call: CallId, state: AttemptState, checkpointed: bool)

  // A message of the durable transcript; a result remembers which attempt it observes, if any.
  datatype Entry =
    | User
    | Assistant(calls: seq<CallId>)
    | Result(call: CallId, attempt: Option<AttemptId>)

  datatype Slot = Slot(call: CallId, attempt: Option<AttemptId>)

  // Where the runner goes on after a tool: the recovery loop or the tool loop.
  datatype After =
    | InRecovery(rest: seq<AttemptId>)
    | InTools(call: CallId, left: seq<Slot>, results: seq<Slot>)

  datatype Phase =
    | Loading(first: bool)
    | Incorporating(first: bool)
    | Starting
    | Recovering(todo: seq<AttemptId>)
    | MayInvoke(id: AttemptId, rest: seq<AttemptId>)
    | Unknown(id: AttemptId)
    | Settled(id: AttemptId, rest: seq<AttemptId>)
    | Modelling
    | Preparing(calls: seq<CallId>, ready: seq<Slot>)
    | Tools(left: seq<Slot>, results: seq<Slot>)
    | Executing(id: AttemptId, after: After)
    | Executed(id: AttemptId, after: After)
    | Preempted
    | Leaving

  // seen holds the call identifiers that the runner's own message list names.
  datatype Quantum =
    | Acquired(fence: Fence)
    | Attached(fence: Fence, run: RunId, seen: set<CallId>, phase: Phase)

  datatype Event =
    | Marked(quantum: QuantumId, id: AttemptId)
    | Ran(quantum: QuantumId, id: AttemptId)

  // born and log are history: quanta that ever started, and every start and execution of an attempt.
  datatype State = State(
    lease: Option<Fence>,
    ended: set<RunId>,
    attempts: map<AttemptId, Attempt>,
    transcript: seq<Entry>,
    quanta: map<QuantumId, Quantum>,
    born: set<QuantumId>,
    log: seq<Event>)

  datatype Action =
    | Acquire(t: QuantumId, fence: Fence)
    | Attach(t: QuantumId, run: RunId)
    | LoadContext(t: QuantumId, seen: set<CallId>)
    | Incorporate(t: QuantumId, count: nat)
    | LoadUnresolved(t: QuantumId, todo: seq<AttemptId>)
    | Recover(t: QuantumId)
    | RejectPrepared(t: QuantumId)
    | Block(t: QuantumId)
    | CheckpointRecovered(t: QuantumId)
    | FinishRecovery(t: QuantumId)
    | AnswerCalls(t: QuantumId, calls: seq<CallId>)
    | PrepareRefused(t: QuantumId)
    | PrepareAttempt(t: QuantumId, id: AttemptId)
    | CheckpointAssistant(t: QuantumId)
    | RefuseCall(t: QuantumId)
    | MarkRunning(t: QuantumId)
    | RunTool(t: QuantumId)
    | FinishAttempt(t: QuantumId, succeeded: bool)
    | CheckpointResults(t: QuantumId)
    | Finalize(t: QuantumId)
    | Preempt(t: QuantumId)
    | CancelRun(t: QuantumId)
    | FailRun(t: QuantumId)
    | Release(t: QuantumId)
    | Crash(t: QuantumId)
    | ExpireLease
    | RecoverStartup(ids: set<AttemptId>)

  // ---------------------------------------------------------------- the store

  predicate Terminal(state: AttemptState) {
    state == Succeeded || state == FailedKnown || state == CancelledKnown
  }

  // Every fenced transaction first checks the lease row and that the run is active.
  predicate Authorized(s: State, t: QuantumId) {
    t in s.quanta && s.quanta[t].Attached? && s.lease == Some(s.quanta[t].fence) && s.quanta[t].run !in s.ended
  }

  predicate InState(s: State, t: QuantumId, id: AttemptId, state: AttemptState)
    requires t in s.quanta && s.quanta[t].Attached?
  {
    id in s.attempts && s.attempts[id].run == s.quanta[t].run && s.attempts[id].state == state
  }

  predicate Unresolved(s: State, run: RunId, id: AttemptId) {
    id in s.attempts && s.attempts[id].run == run && (!Terminal(s.attempts[id].state) || !s.attempts[id].checkpointed)
  }

  ghost predicate Distinct<T(!new)>(ids: seq<T>) {
    forall i, j | 0 <= i < j < |ids| :: ids[i] != ids[j]
  }

  function WithState(attempts: map<AttemptId, Attempt>, id: AttemptId, state: AttemptState): map<AttemptId, Attempt>
    requires id in attempts
  {
    attempts[id := attempts[id].(state := state)]
  }

  function Checkpoint(attempts: map<AttemptId, Attempt>, ids: seq<AttemptId>): map<AttemptId, Attempt> {
    map id | id in attempts :: if id in ids then attempts[id].(checkpointed := true) else attempts[id]
  }

  // Running attempts of a run that ends lose their outcome; prepared ones are cancelled where the source does so.
  function EndRun(attempts: map<AttemptId, Attempt>, run: RunId, cancelPrepared: bool): map<AttemptId, Attempt> {
    map id | id in attempts ::
      if attempts[id].run == run && attempts[id].state == Running then attempts[id].(state := OutcomeUnknown)
      else if cancelPrepared && attempts[id].run == run && attempts[id].state == Prepared
      then attempts[id].(state := CancelledKnown)
      else attempts[id]
  }

  function LoseOutcomes(attempts: map<AttemptId, Attempt>, ids: set<AttemptId>): map<AttemptId, Attempt> {
    map id | id in attempts ::
      if id in ids && attempts[id].state == Running then attempts[id].(state := OutcomeUnknown) else attempts[id]
  }

  predicate Names(transcript: seq<Entry>, call: CallId) {
    exists i | 0 <= i < |transcript| :: transcript[i].Assistant? && call in transcript[i].calls
  }

  function Done(results: seq<Slot>): seq<AttemptId> {
    if results == [] then []
    else
      Done(results[..|results| - 1])
      + if results[|results| - 1].attempt.Some? then [results[|results| - 1].attempt.value] else []
  }

  function Results(slots: seq<Slot>): seq<Entry> {
    seq(|slots|, i requires 0 <= i < |slots| => Result(slots[i].call, slots[i].attempt))
  }

  // ---------------------------------------------------------------- the steps of a quantum

  predicate IsAttached(s: State, t: QuantumId) {
    t in s.quanta && s.quanta[t].Attached?
  }

  function At(s: State, t: QuantumId, phase: Phase): State
    requires IsAttached(s, t)
  {
    s.(quanta := s.quanta[t := s.quanta[t].(phase := phase)])
  }

  /** Acquiring the lease, attaching a run, loading its context; and every way to leave. */
  ghost function LifeStep(s: State, a: Action): Option<State> {
    match a
    case Acquire(t, fence) =>
      // An owner runs one quantum at a time, so nobody alive holds the same owner and generation.
      if t !in s.born && forall u | u in s.quanta :: s.quanta[u].fence != fence
      then Some(s.(lease := Some(fence), born := s.born + {t}, quanta := s.quanta[t := Acquired(fence)]))
      else None
    case Attach(t, run) =>
      if t in s.quanta && s.lease == Some(s.quanta[t].fence) && run !in s.ended then
        if s.quanta[t].Acquired?
        then Some(s.(quanta := s.quanta[t := Attached(s.quanta[t].fence, run, {}, Loading(true))]))
        else if s.quanta[t].phase.Preempted?
        then Some(s.(quanta := s.quanta[t := Attached(s.quanta[t].fence, run, {}, Loading(false))]))
        else None
      else None
    case LoadContext(t, seen) =>
      if IsAttached(s, t) && s.quanta[t].phase.Loading? && forall call | call in seen :: Names(s.transcript, call)
      then Some(s.(quanta := s.quanta[t := s.quanta[t].(seen := seen, phase := Incorporating(s.quanta[t].phase.first))]))
      else None
    case Incorporate(t, count) =>
      if Authorized(s, t) && s.quanta[t].phase.Incorporating? then
        var s' := s.(transcript := s.transcript + seq(count, i => User));
        Some(At(s', t, if s.quanta[t].phase.first then Starting else Modelling))
      else None
    case CancelRun(t) =>
      if Authorized(s, t)
      then Some(s.(attempts := EndRun(s.attempts, s.quanta[t].run, false), ended := s.ended + {s.quanta[t].run},
                   quanta := s.quanta[t := s.quanta[t].(phase := Leaving)]))
      else None
    case FailRun(t) =>
      if Authorized(s, t)
      then Some(s.(attempts := EndRun(s.attempts, s.quanta[t].run, true), ended := s.ended + {s.quanta[t].run},
                   quanta := s.quanta[t := s.quanta[t].(phase := Leaving)]))
      else None
    case Finalize(t) =>
      if Authorized(s, t) && s.quanta[t].phase.Modelling?
      then Some(s.(transcript := s.transcript + [Assistant([])], ended := s.ended + {s.quanta[t].run},
                   quanta := s.quanta[t := s.quanta[t].(phase := Leaving)]))
      else None
    case Preempt(t) =>
      if Authorized(s, t) && s.quanta[t].phase.Modelling? then Some(At(s, t, Preempted)) else None
    case Release(t) =>
      if t in s.quanta
      then Some(s.(lease := if s.lease == Some(s.quanta[t].fence) then None else s.lease, quanta := s.quanta - {t}))
      else None
    case Crash(t) => if t in s.quanta then Some(s.(quanta := s.quanta - {t})) else None
    case ExpireLease => Some(s.(lease := None))
    case RecoverStartup(ids) =>
      if s.lease.None? then Some(s.(attempts := LoseOutcomes(s.attempts, ids))) else None
    case _ => None
  }

  // A recovered result, after an assistant message that names its call unless the runner has seen one.
  function RecoveredEntries(call: CallId, id: AttemptId, named: bool): seq<Entry> {
    if named then [Result(call, Some(id))] else [Assistant([call]), Result(call, Some(id))]
  }

  /** The recovery loop over the attempts that earlier quanta left. */
  ghost function RecoveryStep(s: State, a: Action): Option<State> {
    match a
    case LoadUnresolved(t, todo) =>
      if IsAttached(s, t) && s.quanta[t].phase.Starting? && Distinct(todo)
         && forall id :: id in todo <==> Unresolved(s, s.quanta[t].run, id)
      then Some(At(s, t, Recovering(todo))) else None
    case Recover(t) =>
      if IsAttached(s, t) && s.quanta[t].phase.Recovering? && s.quanta[t].phase.todo != [] then
        var (id, rest) := (s.quanta[t].phase.todo[0], s.quanta[t].phase.todo[1..]);
        if id !in s.attempts then None
        else if s.attempts[id].state == Prepared then Some(At(s, t, MayInvoke(id, rest)))
        else if s.attempts[id].state == Running
        then Some(At(s.(attempts := WithState(s.attempts, id, OutcomeUnknown)), t, Unknown(id)))
        else if Terminal(s.attempts[id].state) then Some(At(s, t, Settled(id, rest)))
        else Some(At(s, t, Unknown(id)))
      else None
    case RejectPrepared(t) =>
      if Authorized(s, t) && s.quanta[t].phase.MayInvoke? && InState(s, t, s.quanta[t].phase.id, Prepared) then
        var (id, rest) := (s.quanta[t].phase.id, s.quanta[t].phase.rest);
        Some(At(s.(attempts := WithState(s.attempts, id, FailedKnown)), t, Settled(id, rest)))
      else None
    case Block(t) =>
      if Authorized(s, t) && s.quanta[t].phase.Unknown? && InState(s, t, s.quanta[t].phase.id, OutcomeUnknown)
      then Some(At(s.(attempts := WithState(s.attempts, s.quanta[t].phase.id, WaitingForDecision)), t, Leaving))
      else None
    case CheckpointRecovered(t) =>
      if Authorized(s, t) && s.quanta[t].phase.Settled? then
        var (id, rest, seen) := (s.quanta[t].phase.id, s.quanta[t].phase.rest, s.quanta[t].seen);
        if !(id in s.attempts && s.attempts[id].run == s.quanta[t].run && Terminal(s.attempts[id].state)) then None
        else
          var call := s.attempts[id].call;
          var s' := s.(attempts := Checkpoint(s.attempts, [id]),
                       transcript := s.transcript + RecoveredEntries(call, id, call in seen));
          Some(s'.(quanta := s.quanta[t := s.quanta[t].(seen := seen + {call}, phase := Recovering(rest))]))
      else None
    case FinishRecovery(t) =>
      if IsAttached(s, t) && s.quanta[t].phase.Recovering? && s.quanta[t].phase.todo == []
      then Some(At(s, t, Modelling)) else None
    case _ => None
  }

  /** A model step: prepare an attempt for each allowed call, then make the assistant message durable. */
  ghost function ModelStep(s: State, a: Action): Option<State> {
    match a
    case AnswerCalls(t, calls) =>
      if IsAttached(s, t) && s.quanta[t].phase.Modelling? && calls != []
      then Some(At(s, t, Preparing(calls, []))) else None
    case PrepareRefused(t) =>
      if IsAttached(s, t) && s.quanta[t].phase.Preparing? && |s.quanta[t].phase.ready| < |s.quanta[t].phase.calls| then
        var (calls, ready) := (s.quanta[t].phase.calls, s.quanta[t].phase.ready);
        Some(At(s, t, Preparing(calls, ready + [Slot(calls[|ready|], None)])))
      else None
    case PrepareAttempt(t, id) =>
      if Authorized(s, t) && s.quanta[t].phase.Preparing? && |s.quanta[t].phase.ready| < |s.quanta[t].phase.calls| then
        var (calls, ready, run) := (s.quanta[t].phase.calls, s.quanta[t].phase.ready, s.quanta[t].run);
        var call := calls[|ready|];
        var s' := At(s, t, Preparing(calls, ready + [Slot(call, Some(id))]));
        if id in s.attempts then
          if s.attempts[id].run == run && s.attempts[id].call == call then Some(s') else None
        else if exists o :: o in s.attempts && s.attempts[o].run == run && s.attempts[o].call == call then None
        else Some(s'.(attempts := s.attempts[id := Attempt(run, call, Prepared, false)]))
      else None
    case CheckpointAssistant(t) =>
      if Authorized(s, t) && s.quanta[t].phase.Preparing? && |s.quanta[t].phase.ready| == |s.quanta[t].phase.calls| then
        var (calls, ready, seen) := (s.quanta[t].phase.calls, s.quanta[t].phase.ready, s.quanta[t].seen);
        var q := s.quanta[t].(seen := seen + (set call | call in calls), phase := Tools(ready, []));
        Some(s.(transcript := s.transcript + [Assistant(calls)], quanta := s.quanta[t := q]))
      else None
    case _ => None
  }

  /** Running a tool, in the recovery loop or in the tool loop, and making the results durable. */
  ghost function ToolStep(s: State, a: Action): Option<State> {
    match a
    case RefuseCall(t) =>
      if IsAttached(s, t) && s.quanta[t].phase.Tools? && s.quanta[t].phase.left != []
         && s.quanta[t].phase.left[0].attempt.None? then
        var (left, results) := (s.quanta[t].phase.left, s.quanta[t].phase.results);
        Some(At(s, t, Tools(left[1..], results + [left[0]])))
      else None
    case MarkRunning(t) =>
      if Authorized(s, t) && NextToRun(s.quanta[t].phase).Some? then
        var (id, after) := NextToRun(s.quanta[t].phase).value;
        if InState(s, t, id, Prepared)
        then Some(At(s.(attempts := WithState(s.attempts, id, Running), log := s.log + [Marked(t, id)]), t,
                     Executing(id, after)))
        else None
      else None
    case RunTool(t) =>
      if IsAttached(s, t) && s.quanta[t].phase.Executing? then
        var (id, after) := (s.quanta[t].phase.id, s.quanta[t].phase.after);
        Some(At(s.(log := s.log + [Ran(t, id)]), t, Executed(id, after)))
      else None
    case FinishAttempt(t, succeeded) =>
      if Authorized(s, t) && s.quanta[t].phase.Executed? && InState(s, t, s.quanta[t].phase.id, Running) then
        var (id, after) := (s.quanta[t].phase.id, s.quanta[t].phase.after);
        var s' := s.(attempts := WithState(s.attempts, id, if succeeded then Succeeded else FailedKnown));
        Some(At(s', t, Continue(id, after)))
      else None
    case CheckpointResults(t) =>
      // The loop ends when no call is left, or at an attempt when the tool budget is exhausted.
      if Authorized(s, t) && s.quanta[t].phase.Tools? && s.quanta[t].phase.results != []
         && (s.quanta[t].phase.left == [] || s.quanta[t].phase.left[0].attempt.Some?) then
        var (left, results) := (s.quanta[t].phase.left, s.quanta[t].phase.results);
        if exists id :: id in Done(results) && !(id in s.attempts && s.attempts[id].run == s.quanta[t].run
                                                 && Terminal(s.attempts[id].state)) then None
        else
          Some(At(s.(attempts := Checkpoint(s.attempts, Done(results)), transcript := s.transcript + Results(results)),
                  t, if left == [] then Modelling else Leaving))
      else None
    case _ => None
  }

  function NextToRun(phase: Phase): Option<(AttemptId, After)> {
    match phase
    case MayInvoke(id, rest) => Some((id, InRecovery(rest)))
    case Tools(left, results) =>
      if left != [] && left[0].attempt.Some?
      then Some((left[0].attempt.value, InTools(left[0].call, left[1..], results)))
      else None
    case _ => None
  }

  function Continue(id: AttemptId, after: After): Phase {
    match after
    case InRecovery(rest) => Settled(id, rest)
    case InTools(call, left, results) => Tools(left, results + [Slot(call, Some(id))])
  }

  ghost function Next(s: State, a: Action): Option<State> {
    match a
    case Acquire(_, _) => LifeStep(s, a)
    case Attach(_, _) => LifeStep(s, a)
    case LoadContext(_, _) => LifeStep(s, a)
    case Incorporate(_, _) => LifeStep(s, a)
    case CancelRun(_) => LifeStep(s, a)
    case FailRun(_) => LifeStep(s, a)
    case Finalize(_) => LifeStep(s, a)
    case Preempt(_) => LifeStep(s, a)
    case Release(_) => LifeStep(s, a)
    case Crash(_) => LifeStep(s, a)
    case ExpireLease => LifeStep(s, a)
    case RecoverStartup(_) => LifeStep(s, a)
    case LoadUnresolved(_, _) => RecoveryStep(s, a)
    case Recover(_) => RecoveryStep(s, a)
    case RejectPrepared(_) => RecoveryStep(s, a)
    case Block(_) => RecoveryStep(s, a)
    case CheckpointRecovered(_) => RecoveryStep(s, a)
    case FinishRecovery(_) => RecoveryStep(s, a)
    case AnswerCalls(_, _) => ModelStep(s, a)
    case PrepareRefused(_) => ModelStep(s, a)
    case PrepareAttempt(_, _) => ModelStep(s, a)
    case CheckpointAssistant(_) => ModelStep(s, a)
    case _ => ToolStep(s, a)
  }

  ghost function Stepper(): (State, Action) -> Option<State> {
    (s: State, a: Action) => Next(s, a)
  }

  // ---------------------------------------------------------------- the invariant

  // What a quantum is about to checkpoint.
  function Pending(phase: Phase): seq<AttemptId> {
    match phase
    case Recovering(todo) => todo
    case MayInvoke(id, rest) => [id] + rest
    case Settled(id, rest) => [id] + rest
    case Tools(_, results) => Done(results)
    case Executing(id, after) => PendingAfter(id, after)
    case Executed(id, after) => PendingAfter(id, after)
    case _ => []
  }

  function PendingAfter(id: AttemptId, after: After): seq<AttemptId> {
    match after
    case InRecovery(rest) => [id] + rest
    case InTools(_, _, results) => Done(results) + [id]
  }

  ghost predicate RanIn(log: seq<Event>, id: AttemptId) {
    exists u :: Ran(u, id) in log
  }

  ghost predicate SlotsNamed(transcript: seq<Entry>, slots: seq<Slot>) {
    forall i | 0 <= i < |slots| :: Names(transcript, slots[i].call)
  }

  ghost predicate AfterOk(transcript: seq<Entry>, attempts: map<AttemptId, Attempt>, after: After) {
    match after
    case InRecovery(_) => true
    case InTools(call, left, results) =>
      Names(transcript, call) && SlotsNamed(transcript, left) && SlotsNamed(transcript, results)
      && AllStarted(attempts, Done(results))
  }

  ghost predicate AllStarted(attempts: map<AttemptId, Attempt>, ids: seq<AttemptId>) {
    forall id | id in ids :: id in attempts && attempts[id].state != Prepared
  }

  ghost predicate PhaseOk(transcript: seq<Entry>, attempts: map<AttemptId, Attempt>, log: seq<Event>, t: QuantumId,
                          phase: Phase)
  {
    match phase
    case Preparing(calls, ready) => |ready| <= |calls| && forall i | 0 <= i < |ready| :: ready[i].call == calls[i]
    case Tools(left, results) =>
      SlotsNamed(transcript, left) && SlotsNamed(transcript, results) && AllStarted(attempts, Done(results))
    case Executing(id, after) =>
      Marked(t, id) in log && !RanIn(log, id) && AfterOk(transcript, attempts, after)
    case Executed(id, after) =>
      Marked(t, id) in log && RanIn(log, id) && AfterOk(transcript, attempts, after)
    case _ => true
  }

  ghost predicate SeenOk(transcript: seq<Entry>, seen: set<CallId>) {
    forall call | call in seen :: Names(transcript, call)
  }

  ghost predicate Uncheckpointed(attempts: map<AttemptId, Attempt>, ids: seq<AttemptId>) {
    Distinct(ids) && forall id | id in ids :: id in attempts && !attempts[id].checkpointed
  }

  ghost predicate QuantumOk(s: State, t: QuantumId)
    requires t in s.quanta
  {
    s.quanta[t].Attached? ==>
      && SeenOk(s.transcript, s.quanta[t].seen)
      && PhaseOk(s.transcript, s.attempts, s.log, t, s.quanta[t].phase)
      && (s.lease == Some(s.quanta[t].fence) ==> Uncheckpointed(s.attempts, Pending(s.quanta[t].phase)))
  }

  ghost predicate AttemptsOk(attempts: map<AttemptId, Attempt>) {
    forall id | id in attempts && attempts[id].checkpointed :: Terminal(attempts[id].state)
  }

  // An attempt is started once, then at most executed once, by the quantum that started it.
  ghost predicate LogOk(log: seq<Event>, attempts: map<AttemptId, Attempt>) {
    && (forall i | 0 <= i < |log| :: log[i].id in attempts && attempts[log[i].id].state != Prepared)
    && (forall i, j | 0 <= i < j < |log| && log[i].id == log[j].id ::
          log[i].Marked? && log[j] == Ran(log[i].quantum, log[i].id))
    && (forall j | 0 <= j < |log| && log[j].Ran? :: Marked(log[j].quantum, log[j].id) in log[..j])
  }

  ghost predicate SucceededOk(attempts: map<AttemptId, Attempt>, log: seq<Event>) {
    forall id | id in attempts && attempts[id].state == Succeeded :: RanIn(log, id)
  }

  ghost predicate TranscriptOk(transcript: seq<Entry>) {
    forall i | 0 <= i < |transcript| && transcript[i].Result? :: Names(transcript[..i], transcript[i].call)
  }

  function Count(transcript: seq<Entry>, id: AttemptId): nat {
    if transcript == [] then 0
    else
      var last := transcript[|transcript| - 1];
      Count(transcript[..|transcript| - 1], id) + if last.Result? && last.attempt == Some(id) then 1 else 0
  }

  ghost predicate CountOk(transcript: seq<Entry>, attempts: map<AttemptId, Attempt>) {
    forall id :: Count(transcript, id) == if id in attempts && attempts[id].checkpointed then 1 else 0
  }

  ghost predicate FencesOk(quanta: map<QuantumId, Quantum>) {
    forall t, u | t in quanta && u in quanta && t != u :: quanta[t].fence != quanta[u].fence
  }

  ghost predicate StoreOk(s: State) {
    && AttemptsOk(s.attempts)
    && LogOk(s.log, s.attempts)
    && SucceededOk(s.attempts, s.log)
    && TranscriptOk(s.transcript)
    && CountOk(s.transcript, s.attempts)
  }

  ghost predicate Inv(s: State) {
    && StoreOk(s)
    && FencesOk(s.quanta)
    && s.quanta.Keys <= s.born
    && forall t | t in s.quanta :: QuantumOk(s, t)
  }

  // ---------------------------------------------------------------- what one step may do to the others

  ghost predicate Evolves(s: State, s': State) {
    && s.transcript <= s'.transcript
    && s.log <= s'.log
    && (forall id | id in s.attempts ::
          id in s'.attempts && (s.attempts[id].state != Prepared ==> s'.attempts[id].state != Prepared))
  }

  ghost predicate SameCheckpoints(attempts: map<AttemptId, Attempt>, attempts': map<AttemptId, Attempt>) {
    forall id | id in attempts && id in attempts' :: attempts[id].checkpointed == attempts'[id].checkpointed
  }

  lemma NamesGrow(transcript: seq<Entry>, transcript': seq<Entry>, call: CallId)
    requires transcript <= transcript' && Names(transcript, call)
    ensures Names(transcript', call)
  {
    var i :| 0 <= i < |transcript| && transcript[i].Assistant? && call in transcript[i].calls;
    assert transcript'[i] == transcript[i];
  }

  lemma SlotsStayNamed(transcript: seq<Entry>, transcript': seq<Entry>, slots: seq<Slot>)
    requires transcript <= transcript' && SlotsNamed(transcript, slots)
    ensures SlotsNamed(transcript', slots)
  {
    forall i | 0 <= i < |slots| ensures Names(transcript', slots[i].call) {
      NamesGrow(transcript, transcript', slots[i].call);
    }
  }

  lemma SeenStaysOk(transcript: seq<Entry>, transcript': seq<Entry>, seen: set<CallId>)
    requires transcript <= transcript' && SeenOk(transcript, seen)
    ensures SeenOk(transcript', seen)
  {
    forall call | call in seen ensures Names(transcript', call) { NamesGrow(transcript, transcript', call); }
  }

  lemma AfterStaysOk(s: State, s': State, after: After)
    requires Evolves(s, s') && AfterOk(s.transcript, s.attempts, after)
    ensures AfterOk(s'.transcript, s'.attempts, after)
  {
    match after
    case InRecovery(_) =>
    case InTools(call, left, results) =>
      NamesGrow(s.transcript, s'.transcript, call);
      SlotsStayNamed(s.transcript, s'.transcript, left);
      SlotsStayNamed(s.transcript, s'.transcript, results);
  }

  lemma PhaseStaysOk(s: State, s': State, t: QuantumId, phase: Phase)
    requires Evolves(s, s') && PhaseOk(s.transcript, s.attempts, s.log, t, phase)
    requires phase.Executing? ==> RanIn(s.log, phase.id) == RanIn(s'.log, phase.id)
    ensures PhaseOk(s'.transcript, s'.attempts, s'.log, t, phase)
  {
    match phase
    case Tools(left, results) =>
      SlotsStayNamed(s.transcript, s'.transcript, left);
      SlotsStayNamed(s.transcript, s'.transcript, results);
    case Executing(id, after) => AfterStaysOk(s, s', after);
    case Executed(id, after) =>
      AfterStaysOk(s, s', after);
      var u :| Ran(u, id) in s.log;
      assert Ran(u, id) in s'.log;
    case _ =>
  }

  lemma OthersStayOk(s: State, s': State, u: QuantumId)
    requires u in s.quanta && u in s'.quanta && s.quanta[u] == s'.quanta[u] && QuantumOk(s, u) && Evolves(s, s')
    requires s'.lease == s.lease || s'.lease != Some(s.quanta[u].fence)
    requires s.lease == Some(s.quanta[u].fence) ==> SameCheckpoints(s.attempts, s'.attempts)
    requires s.quanta[u].Attached? && s.quanta[u].phase.Executing? ==>
               RanIn(s.log, s.quanta[u].phase.id) == RanIn(s'.log, s.quanta[u].phase.id)
    ensures QuantumOk(s', u)
  {
    if s.quanta[u].Attached? {
      SeenStaysOk(s.transcript, s'.transcript, s.quanta[u].seen);
      PhaseStaysOk(s, s', u, s.quanta[u].phase);
    }
  }

  // Whatever one quantum does to itself and the store, the others keep their part of the invariant.
  lemma StepKeeps(s: State, s': State, t: QuantumId)
    requires Inv(s) && StoreOk(s') && Evolves(s, s') && t in s.quanta
    requires s'.quanta.Keys <= s.quanta.Keys && s'.born == s.born
    requires forall u | u in s'.quanta && u != t :: s'.quanta[u] == s.quanta[u]
    requires t in s'.quanta ==> s'.quanta[t].fence == s.quanta[t].fence && QuantumOk(s', t)
    requires s'.lease == s.lease
    requires s.lease == Some(s.quanta[t].fence) || SameCheckpoints(s.attempts, s'.attempts)
    requires OthersUnaffected(s, s'.log, t)
    ensures Inv(s')
  {
    forall u | u in s'.quanta ensures QuantumOk(s', u) {
      if u != t { OthersStayOk(s, s', u); }
    }
  }

  // No other quantum that is about to execute a tool finds it executed.
  ghost predicate OthersUnaffected(s: State, log: seq<Event>, t: QuantumId) {
    forall u | u in s.quanta && u != t && s.quanta[u].Attached? && s.quanta[u].phase.Executing? ::
      RanIn(s.log, s.quanta[u].phase.id) == RanIn(log, s.quanta[u].phase.id)
  }

  // One attempt changes state without being checkpointed, and the quantum changes its phase.
  lemma StateStepKeeps(s: State, t: QuantumId, id: AttemptId, state: AttemptState, phase: Phase)
    requires Inv(s) && IsAttached(s, t) && id in s.attempts && state != Prepared
    requires s.attempts[id].checkpointed ==> Terminal(state)
    requires state == Succeeded ==> RanIn(s.log, id)
    requires QuantumOk(At(s.(attempts := WithState(s.attempts, id, state)), t, phase), t)
    ensures Inv(At(s.(attempts := WithState(s.attempts, id, state)), t, phase))
  {
    StateChange(s, id, state);
    var s' := At(s.(attempts := WithState(s.attempts, id, state)), t, phase);
    assert Evolves(s, s');
    StepKeeps(s, s', t);
  }

  lemma PhaseOnly(s: State, s': State, t: QuantumId)
    requires Inv(s) && t in s.quanta
    requires t in s'.quanta ==> s'.quanta[t].fence == s.quanta[t].fence && QuantumOk(s', t)
    requires s'.quanta.Keys <= s.quanta.Keys && forall u | u in s'.quanta && u != t :: s'.quanta[u] == s.quanta[u]
    requires s' == s.(quanta := s'.quanta, ended := s'.ended)
    ensures Inv(s')
  {
    StepKeeps(s, s', t);
  }

  // ---------------------------------------------------------------- the transcript

  lemma {:induction false} CountAppend(transcript: seq<Entry>, more: seq<Entry>, id: AttemptId)
    ensures Count(transcript + more, id) == Count(transcript, id) + Count(more, id)
    decreases |more|
  {
    if more == [] {
      assert transcript + more == transcript;
    } else {
      assert (transcript + more)[..|transcript + more| - 1] == transcript + more[..|more| - 1];
      CountAppend(transcript, more[..|more| - 1], id);
    }
  }

  lemma {:induction false} NoResultsCountNothing(entries: seq<Entry>, id: AttemptId)
    requires forall i | 0 <= i < |entries| :: !entries[i].Result?
    ensures Count(entries, id) == 0
    decreases |entries|
  {
    if entries != [] { NoResultsCountNothing(entries[..|entries| - 1], id); }
  }

  lemma {:induction false} ResultsCountOnce(slots: seq<Slot>, id: AttemptId)
    requires Distinct(Done(slots))
    ensures Count(Results(slots), id) == if id in Done(slots) then 1 else 0
    decreases |slots|
  {
    if slots != [] {
      var init, last := slots[..|slots| - 1], slots[|slots| - 1];
      assert Results(slots)[..|slots| - 1] == Results(init);
      var (done, before) := (Done(slots), Done(init));
      assert done == before + if last.attempt.Some? then [last.attempt.value] else [];
      assert forall i | 0 <= i < |before| :: done[i] == before[i];
      ResultsCountOnce(init, id);
      if last.attempt == Some(id) { assert done[|before|] == id; }
    }
  }

  lemma TranscriptAppend(transcript: seq<Entry>, more: seq<Entry>)
    requires TranscriptOk(transcript)
    requires forall i | 0 <= i < |more| && more[i].Result? :: Names(transcript + more[..i], more[i].call)
    ensures TranscriptOk(transcript + more)
  {
    var all := transcript + more;
    forall i | 0 <= i < |all| && all[i].Result? ensures Names(all[..i], all[i].call) {
      if i < |transcript| {
        assert all[..i] == transcript[..i];
      } else {
        assert all[..i] == transcript + more[..i - |transcript|];
      }
    }
  }

  // Messages without results, and results of attempts that were not checkpointed before.
  lemma PlainMessages(s: State, more: seq<Entry>)
    requires StoreOk(s) && forall i | 0 <= i < |more| :: !more[i].Result?
    ensures TranscriptOk(s.transcript + more) && CountOk(s.transcript + more, s.attempts)
  {
    TranscriptAppend(s.transcript, more);
    forall id ensures Count(s.transcript + more, id) == Count(s.transcript, id) {
      CountAppend(s.transcript, more, id);
      NoResultsCountNothing(more, id);
    }
  }

  lemma CheckpointKeepsAttempts(attempts: map<AttemptId, Attempt>, log: seq<Event>, ids: seq<AttemptId>)
    requires AttemptsOk(attempts) && LogOk(log, attempts) && SucceededOk(attempts, log)
    requires forall id | id in ids :: id in attempts && Terminal(attempts[id].state)
    ensures var after := Checkpoint(attempts, ids); AttemptsOk(after) && LogOk(log, after) && SucceededOk(after, log)
  {}

  lemma CheckpointCounts(transcript: seq<Entry>, attempts: map<AttemptId, Attempt>, ids: seq<AttemptId>, more: seq<Entry>)
    requires CountOk(transcript, attempts) && Uncheckpointed(attempts, ids)
    requires forall id :: Count(more, id) == if id in ids then 1 else 0
    ensures CountOk(transcript + more, Checkpoint(attempts, ids))
  {
    var after := Checkpoint(attempts, ids);
    forall id ensures Count(transcript + more, id) == if id in after && after[id].checkpointed then 1 else 0 {
      CountAppend(transcript, more, id);
    }
  }

  lemma CheckpointedMessages(s: State, ids: seq<AttemptId>, more: seq<Entry>)
    requires StoreOk(s) && Uncheckpointed(s.attempts, ids)
    requires forall id | id in ids :: Terminal(s.attempts[id].state)
    requires forall id :: Count(more, id) == if id in ids then 1 else 0
    requires forall i | 0 <= i < |more| && more[i].Result? :: Names(s.transcript + more[..i], more[i].call)
    ensures StoreOk(s.(attempts := Checkpoint(s.attempts, ids), transcript := s.transcript + more))
  {
    TranscriptAppend(s.transcript, more);
    CheckpointKeepsAttempts(s.attempts, s.log, ids);
    CheckpointCounts(s.transcript, s.attempts, ids, more);
  }

  // ---------------------------------------------------------------- one attempt changes state

  lemma StateChange(s: State, id: AttemptId, state: AttemptState)
    requires StoreOk(s) && id in s.attempts && state != Prepared
    requires s.attempts[id].checkpointed ==> Terminal(state)
    requires state == Succeeded ==> RanIn(s.log, id)
    ensures StoreOk(s.(attempts := WithState(s.attempts, id, state)))
    ensures SameCheckpoints(s.attempts, WithState(s.attempts, id, state))
  {}

  lemma EndRunKeeps(s: State, run: RunId, cancelPrepared: bool)
    requires StoreOk(s)
    ensures StoreOk(s.(attempts := EndRun(s.attempts, run, cancelPrepared)))
    ensures SameCheckpoints(s.attempts, EndRun(s.attempts, run, cancelPrepared))
  {}

  // ---------------------------------------------------------------- each action keeps the invariant

  lemma AcquireKeeps(s: State, t: QuantumId, fence: Fence)
    requires Inv(s) && Next(s, Acquire(t, fence)).Some?
    ensures Inv(Next(s, Acquire(t, fence)).value)
  {
    var s' := Next(s, Acquire(t, fence)).value;
    forall u | u in s'.quanta ensures QuantumOk(s', u) {
      if u != t { OthersStayOk(s, s', u); }
    }
  }

  lemma ExpireKeeps(s: State)
    requires Inv(s)
    ensures Inv(s.(lease := None))
  {
    var s' := s.(lease := None);
    forall u | u in s'.quanta ensures QuantumOk(s', u) { OthersStayOk(s, s', u); }
  }

  lemma RemoveKeeps(s: State, t: QuantumId)
    requires Inv(s) && t in s.quanta
    ensures Inv(s.(quanta := s.quanta - {t}))
  {
    PhaseOnly(s, s.(quanta := s.quanta - {t}), t);
  }

  lemma RecoverStartupKeeps(s: State, ids: set<AttemptId>)
    requires Inv(s)
    ensures Inv(s.(attempts := LoseOutcomes(s.attempts, ids)))
  {
    var s' := s.(attempts := LoseOutcomes(s.attempts, ids));
    assert SameCheckpoints(s.attempts, s'.attempts);
    assert StoreOk(s');
    forall u | u in s'.quanta ensures QuantumOk(s', u) { OthersStayOk(s, s', u); }
  }

  lemma AttachKeeps(s: State, t: QuantumId, run: RunId)
    requires Inv(s) && Next(s, Attach(t, run)).Some?
    ensures Inv(Next(s, Attach(t, run)).value)
  {
    PhaseOnly(s, Next(s, Attach(t, run)).value, t);
  }

  lemma LoadContextKeeps(s: State, t: QuantumId, seen: set<CallId>)
    requires Inv(s) && Next(s, LoadContext(t, seen)).Some?
    ensures Inv(Next(s, LoadContext(t, seen)).value)
  {
    PhaseOnly(s, Next(s, LoadContext(t, seen)).value, t);
  }

  lemma IncorporateKeeps(s: State, t: QuantumId, count: nat)
    requires Inv(s) && Next(s, Incorporate(t, count)).Some?
    ensures Inv(Next(s, Incorporate(t, count)).value)
  {
    var s' := Next(s, Incorporate(t, count)).value;
    PlainMessages(s, seq(count, i => User));
    SeenStaysOk(s.transcript, s'.transcript, s.quanta[t].seen);
    StepKeeps(s, s', t);
  }

  lemma LeaveRunKeeps(s: State, t: QuantumId, cancelPrepared: bool)
    requires Inv(s) && IsAttached(s, t)
    ensures Inv(s.(attempts := EndRun(s.attempts, s.quanta[t].run, cancelPrepared), ended := s.ended + {s.quanta[t].run},
                   quanta := s.quanta[t := s.quanta[t].(phase := Leaving)]))
  {
    EndRunKeeps(s, s.quanta[t].run, cancelPrepared);
    var s' := s.(attempts := EndRun(s.attempts, s.quanta[t].run, cancelPrepared), ended := s.ended + {s.quanta[t].run},
                 quanta := s.quanta[t := s.quanta[t].(phase := Leaving)]);
    StepKeeps(s, s', t);
  }

  lemma FinalizeKeeps(s: State, t: QuantumId)
    requires Inv(s) && Next(s, Finalize(t)).Some?
    ensures Inv(Next(s, Finalize(t)).value)
  {
    var s' := Next(s, Finalize(t)).value;
    PlainMessages(s, [Assistant([])]);
    SeenStaysOk(s.transcript, s'.transcript, s.quanta[t].seen);
    StepKeeps(s, s', t);
  }

  lemma LoadUnresolvedKeeps(s: State, t: QuantumId, todo: seq<AttemptId>)
    requires Inv(s) && Next(s, LoadUnresolved(t, todo)).Some?
    ensures Inv(Next(s, LoadUnresolved(t, todo)).value)
  {
    forall id | id in todo ensures id in s.attempts && !s.attempts[id].checkpointed {
      assert Unresolved(s, s.quanta[t].run, id);
    }
    PhaseOnly(s, Next(s, LoadUnresolved(t, todo)).value, t);
  }

  lemma RecoverKeeps(s: State, t: QuantumId)
    requires Inv(s) && Next(s, Recover(t)).Some?
    ensures Inv(Next(s, Recover(t)).value)
  {
    var s' := Next(s, Recover(t)).value;
    var id := s.quanta[t].phase.todo[0];
    assert [id] + s.quanta[t].phase.todo[1..] == s.quanta[t].phase.todo;
    if s.attempts[id].state == Running {
      StateStepKeeps(s, t, id, OutcomeUnknown, Unknown(id));
    } else {
      PhaseOnly(s, s', t);
    }
  }

  lemma RejectPreparedKeeps(s: State, t: QuantumId)
    requires Inv(s) && Next(s, RejectPrepared(t)).Some?
    ensures Inv(Next(s, RejectPrepared(t)).value)
  {
    var (id, rest) := (s.quanta[t].phase.id, s.quanta[t].phase.rest);
    assert QuantumOk(s, t);
    StateStepKeeps(s, t, id, FailedKnown, Settled(id, rest));
  }

  lemma BlockKeeps(s: State, t: QuantumId)
    requires Inv(s) && Next(s, Block(t)).Some?
    ensures Inv(Next(s, Block(t)).value)
  {
    assert QuantumOk(s, t);
    StateStepKeeps(s, t, s.quanta[t].phase.id, WaitingForDecision, Leaving);
  }

  lemma RecoveredMessages(transcript: seq<Entry>, call: CallId, id: AttemptId, known: bool)
    requires known ==> Names(transcript, call)
    ensures var more := RecoveredEntries(call, id, known);
      && (forall i | 0 <= i < |more| && more[i].Result? :: Names(transcript + more[..i], more[i].call))
      && (forall other :: Count(more, other) == if other in [id] then 1 else 0)
      && Names(transcript + more, call)
  {
    var more := RecoveredEntries(call, id, known);
    forall other ensures Count(more, other) == if other in [id] then 1 else 0 {
      NoResultsCountNothing(more[..|more| - 1], other);
    }
    var last := |more| - 1;
    if known {
      NamesGrow(transcript, transcript + more[..0], call);
    } else {
      assert (transcript + more[..1])[|transcript|] == Assistant([call]);
    }
    assert transcript + more[..last] <= transcript + more;
    NamesGrow(transcript + more[..last], transcript + more, call);
  }

  lemma SplitPending(attempts: map<AttemptId, Attempt>, id: AttemptId, rest: seq<AttemptId>)
    requires Uncheckpointed(attempts, [id] + rest)
    ensures Uncheckpointed(attempts, [id]) && Uncheckpointed(Checkpoint(attempts, [id]), rest)
  {
    var pending := [id] + rest;
    assert pending[0] == id && forall i | 0 <= i < |rest| :: pending[i + 1] == rest[i];
  }

  lemma RecoveredStore(s: State, call: CallId, id: AttemptId, known: bool)
    requires StoreOk(s) && Uncheckpointed(s.attempts, [id]) && Terminal(s.attempts[id].state)
    requires known ==> Names(s.transcript, call)
    ensures StoreOk(s.(attempts := Checkpoint(s.attempts, [id]),
                       transcript := s.transcript + RecoveredEntries(call, id, known)))
  {
    RecoveredMessages(s.transcript, call, id, known);
    CheckpointedMessages(s, [id], RecoveredEntries(call, id, known));
  }

  lemma RecoveredSeen(transcript: seq<Entry>, call: CallId, id: AttemptId, seen: set<CallId>)
    requires SeenOk(transcript, seen)
    ensures SeenOk(transcript + RecoveredEntries(call, id, call in seen), seen + {call})
  {
    RecoveredMessages(transcript, call, id, call in seen);
    SeenStaysOk(transcript, transcript + RecoveredEntries(call, id, call in seen), seen);
  }

  lemma CheckpointRecoveredKeeps(s: State, t: QuantumId)
    requires Inv(s) && Next(s, CheckpointRecovered(t)).Some?
    ensures Inv(Next(s, CheckpointRecovered(t)).value)
  {
    var s' := Next(s, CheckpointRecovered(t)).value;
    var (id, rest, seen) := (s.quanta[t].phase.id, s.quanta[t].phase.rest, s.quanta[t].seen);
    var call := s.attempts[id].call;
    assert QuantumOk(s, t);
    SplitPending(s.attempts, id, rest);
    RecoveredStore(s, call, id, call in seen);
    RecoveredSeen(s.transcript, call, id, seen);
    StepKeeps(s, s', t);
  }

  lemma FinishRecoveryKeeps(s: State, t: QuantumId)
    requires Inv(s) && Next(s, FinishRecovery(t)).Some?
    ensures Inv(Next(s, FinishRecovery(t)).value)
  {
    PhaseOnly(s, Next(s, FinishRecovery(t)).value, t);
  }

  lemma ModelPhaseKeeps(s: State, t: QuantumId, phase: Phase)
    requires Inv(s) && IsAttached(s, t)
    requires phase.Preempted? || phase.Preparing?
    requires phase.Preparing? ==>
      |phase.ready| <= |phase.calls| && forall i | 0 <= i < |phase.ready| :: phase.ready[i].call == phase.calls[i]
    ensures Inv(At(s, t, phase))
  {
    PhaseOnly(s, At(s, t, phase), t);
  }

  lemma NewAttempt(s: State, id: AttemptId, attempt: Attempt)
    requires StoreOk(s) && id !in s.attempts && attempt.state == Prepared && !attempt.checkpointed
    ensures StoreOk(s.(attempts := s.attempts[id := attempt]))
  {}

  lemma PrepareAttemptKeeps(s: State, t: QuantumId, id: AttemptId)
    requires Inv(s) && Next(s, PrepareAttempt(t, id)).Some?
    ensures Inv(Next(s, PrepareAttempt(t, id)).value)
  {
    if id !in s.attempts {
      NewPreparedKeeps(s, t, id);
    } else {
      PhaseOnly(s, Next(s, PrepareAttempt(t, id)).value, t);
    }
  }

  lemma NewPreparedKeeps(s: State, t: QuantumId, id: AttemptId)
    requires Inv(s) && Next(s, PrepareAttempt(t, id)).Some? && id !in s.attempts
    ensures Inv(Next(s, PrepareAttempt(t, id)).value)
  {
    var s' := Next(s, PrepareAttempt(t, id)).value;
    assert s'.attempts[id] == Attempt(s.quanta[t].run, s'.attempts[id].call, Prepared, false);
    NewAttempt(s, id, s'.attempts[id]);
    StepKeeps(s, s', t);
  }

  lemma CheckpointAssistantKeeps(s: State, t: QuantumId)
    requires Inv(s) && Next(s, CheckpointAssistant(t)).Some?
    ensures Inv(Next(s, CheckpointAssistant(t)).value)
  {
    var s' := Next(s, CheckpointAssistant(t)).value;
    var (calls, ready, seen) := (s.quanta[t].phase.calls, s.quanta[t].phase.ready, s.quanta[t].seen);
    PlainMessages(s, [Assistant(calls)]);
    SeenStaysOk(s.transcript, s'.transcript, seen);
    assert s'.transcript[|s.transcript|] == Assistant(calls);
    forall call | call in calls ensures Names(s'.transcript, call) {}
    assert SlotsNamed(s'.transcript, ready);
    assert SeenOk(s'.transcript, s'.quanta[t].seen);
    StepKeeps(s, s', t);
  }

  lemma DoneOfOneMore(results: seq<Slot>, slot: Slot)
    ensures Done(results + [slot]) == Done(results) + if slot.attempt.Some? then [slot.attempt.value] else []
  {
    assert (results + [slot])[..|results|] == results;
  }

  lemma SlotsNamedMore(transcript: seq<Entry>, results: seq<Slot>, slot: Slot)
    requires SlotsNamed(transcript, results) && Names(transcript, slot.call)
    ensures SlotsNamed(transcript, results + [slot])
  {}

  lemma RefuseCallKeeps(s: State, t: QuantumId)
    requires Inv(s) && Next(s, RefuseCall(t)).Some?
    ensures Inv(Next(s, RefuseCall(t)).value)
  {
    var s' := Next(s, RefuseCall(t)).value;
    var (left, results) := (s.quanta[t].phase.left, s.quanta[t].phase.results);
    DoneOfOneMore(results, left[0]);
    assert Done(results + [left[0]]) == Done(results);
    SlotsNamedMore(s.transcript, results, left[0]);
    PhaseOnly(s, s', t);
  }

  // ---------------------------------------------------------------- starting, executing and finishing

  lemma LogStart(log: seq<Event>, attempts: map<AttemptId, Attempt>, t: QuantumId, id: AttemptId)
    requires LogOk(log, attempts) && id in attempts && attempts[id].state == Prepared
    ensures LogOk(log + [Marked(t, id)], WithState(attempts, id, Running))
    ensures forall other :: RanIn(log + [Marked(t, id)], other) <==> RanIn(log, other)
    ensures !RanIn(log, id)
  {
    var more := log + [Marked(t, id)];
    assert forall i | 0 <= i < |log| :: more[i] == log[i] && log[i].id != id;
    forall j | 0 <= j < |more| && more[j].Ran? ensures Marked(more[j].quantum, more[j].id) in more[..j] {
      assert more[..j] == log[..j];
    }
    forall other ensures RanIn(more, other) <==> RanIn(log, other) {
      if RanIn(more, other) {
        var u :| Ran(u, other) in more;
        assert Ran(u, other) in log;
      }
      if RanIn(log, other) {
        var u :| Ran(u, other) in log;
        assert Ran(u, other) in more;
      }
    }
    assert forall i | 0 <= i < |log| :: log[i].id != id;
  }

  lemma StartedOnlyByOne(log: seq<Event>, attempts: map<AttemptId, Attempt>, t: QuantumId, u: QuantumId, id: AttemptId)
    requires LogOk(log, attempts) && Marked(t, id) in log && Marked(u, id) in log
    ensures t == u
  {
    var i :| 0 <= i < |log| && log[i] == Marked(t, id);
    var j :| 0 <= j < |log| && log[j] == Marked(u, id);
    assert log[i].id == log[j].id;
  }

  lemma RanAfter(log: seq<Event>, t: QuantumId, id: AttemptId, other: AttemptId)
    ensures RanIn(log + [Ran(t, id)], other) <==> RanIn(log, other) || other == id
  {
    var more := log + [Ran(t, id)];
    assert more[|log|] == Ran(t, id);
    if RanIn(more, other) {
      var u :| Ran(u, other) in more;
      assert other == id || Ran(u, other) in log;
    }
    if RanIn(log, other) {
      var u :| Ran(u, other) in log;
      assert Ran(u, other) in more;
    }
  }

  lemma EarlierEventIsStart(log: seq<Event>, attempts: map<AttemptId, Attempt>, t: QuantumId, id: AttemptId, i: nat)
    requires LogOk(log, attempts) && Marked(t, id) in log && !RanIn(log, id) && i < |log| && log[i].id == id
    ensures log[i] == Marked(t, id)
  {
    assert Ran(log[i].quantum, id) !in log;
    assert Marked(log[i].quantum, id) in log;
    StartedOnlyByOne(log, attempts, log[i].quantum, t, id);
  }

  lemma LogRun(log: seq<Event>, attempts: map<AttemptId, Attempt>, t: QuantumId, id: AttemptId)
    requires LogOk(log, attempts) && Marked(t, id) in log && !RanIn(log, id)
    ensures LogOk(log + [Ran(t, id)], attempts)
  {
    var more := log + [Ran(t, id)];
    var n := |log|;
    var m :| 0 <= m < n && log[m] == Marked(t, id);
    forall i | 0 <= i < n && log[i].id == id ensures log[i] == Marked(t, id) {
      EarlierEventIsStart(log, attempts, t, id, i);
    }
    assert forall i | 0 <= i < n :: more[i] == log[i];
    assert more[n] == Ran(t, id);
    forall j | 0 <= j < |more| && more[j].Ran? ensures Marked(more[j].quantum, more[j].id) in more[..j] {
      assert more[..j] == log[..j];
      if j == n { assert log[..n][m] == Marked(t, id); }
    }
  }

  lemma MarkInTools(s: State, t: QuantumId)
    requires QuantumHasTools(s, t) && s.quanta[t].phase.left != [] && s.quanta[t].phase.left[0].attempt.Some?
    requires QuantumOk(s, t) && InState(s, t, s.quanta[t].phase.left[0].attempt.value, Prepared)
    requires AttemptsOk(s.attempts)
    ensures var (left, results, id) :=
        (s.quanta[t].phase.left, s.quanta[t].phase.results, s.quanta[t].phase.left[0].attempt.value);
      && AfterOk(s.transcript, WithState(s.attempts, id, Running), InTools(left[0].call, left[1..], results))
      && (s.lease == Some(s.quanta[t].fence)
          ==> Uncheckpointed(WithState(s.attempts, id, Running), Done(results) + [id]))
  {
    var (left, results, id) :=
      (s.quanta[t].phase.left, s.quanta[t].phase.results, s.quanta[t].phase.left[0].attempt.value);
    assert Names(s.transcript, left[0].call);
    forall i | 0 <= i < |left[1..]| ensures Names(s.transcript, left[1..][i].call) { assert left[1..][i] == left[i + 1]; }
    assert id !in Done(results);
  }

  ghost predicate QuantumHasTools(s: State, t: QuantumId) {
    IsAttached(s, t) && s.quanta[t].phase.Tools?
  }

  lemma MarkStore(s: State, t: QuantumId, id: AttemptId)
    requires StoreOk(s) && id in s.attempts && s.attempts[id].state == Prepared
    ensures StoreOk(s.(attempts := WithState(s.attempts, id, Running), log := s.log + [Marked(t, id)]))
    ensures SameCheckpoints(s.attempts, WithState(s.attempts, id, Running))
    ensures OthersUnaffected(s, s.log + [Marked(t, id)], t) && !RanIn(s.log + [Marked(t, id)], id)
  {
    LogStart(s.log, s.attempts, t, id);
  }

  lemma MarkPhase(s: State, t: QuantumId, id: AttemptId, after: After)
    requires IsAttached(s, t) && QuantumOk(s, t) && AttemptsOk(s.attempts)
    requires NextToRun(s.quanta[t].phase) == Some((id, after)) && InState(s, t, id, Prepared)
    ensures AfterOk(s.transcript, WithState(s.attempts, id, Running), after)
    ensures s.lease == Some(s.quanta[t].fence)
            ==> Uncheckpointed(WithState(s.attempts, id, Running), PendingAfter(id, after))
  {
    if s.quanta[t].phase.Tools? { MarkInTools(s, t); }
  }

  lemma MarkRunningKeeps(s: State, t: QuantumId)
    requires Inv(s) && Next(s, MarkRunning(t)).Some?
    ensures Inv(Next(s, MarkRunning(t)).value)
  {
    var s' := Next(s, MarkRunning(t)).value;
    var (id, after) := NextToRun(s.quanta[t].phase).value;
    assert QuantumOk(s, t);
    MarkPhase(s, t, id, after);
    MarkStore(s, t, id);
    MarkOwn(s, s', t, id, after);
    StepKeeps(s, s', t);
  }

  lemma MarkOwn(s: State, s': State, t: QuantumId, id: AttemptId, after: After)
    requires IsAttached(s, t) && QuantumOk(s, t) && id in s.attempts && !RanIn(s.log + [Marked(t, id)], id)
    requires s' == At(s.(attempts := WithState(s.attempts, id, Running), log := s.log + [Marked(t, id)]), t,
                      Executing(id, after))
    requires AfterOk(s.transcript, s'.attempts, after)
    requires s.lease == Some(s.quanta[t].fence) ==> Uncheckpointed(s'.attempts, PendingAfter(id, after))
    ensures QuantumOk(s', t)
  {
    assert s'.log[|s.log|] == Marked(t, id);
  }

  lemma RunStore(s: State, t: QuantumId, id: AttemptId)
    requires StoreOk(s) && Marked(t, id) in s.log && !RanIn(s.log, id)
    ensures StoreOk(s.(log := s.log + [Ran(t, id)]))
  {
    LogRun(s.log, s.attempts, t, id);
    forall other | other in s.attempts && s.attempts[other].state == Succeeded
      ensures RanIn(s.log + [Ran(t, id)], other)
    {
      RanAfter(s.log, t, id, other);
    }
  }

  lemma RunOthers(s: State, t: QuantumId, id: AttemptId)
    requires Inv(s) && Marked(t, id) in s.log
    ensures OthersUnaffected(s, s.log + [Ran(t, id)], t)
  {
    forall u | u in s.quanta && u != t && s.quanta[u].Attached? && s.quanta[u].phase.Executing?
      ensures RanIn(s.log, s.quanta[u].phase.id) == RanIn(s.log + [Ran(t, id)], s.quanta[u].phase.id)
    {
      assert QuantumOk(s, u);
      RanAfter(s.log, t, id, s.quanta[u].phase.id);
      if s.quanta[u].phase.id == id { StartedOnlyByOne(s.log, s.attempts, t, u, id); }
    }
  }

  lemma RunOwn(s: State, t: QuantumId, id: AttemptId, after: After)
    requires IsAttached(s, t) && QuantumOk(s, t) && s.quanta[t].phase == Executing(id, after)
    ensures QuantumOk(At(s.(log := s.log + [Ran(t, id)]), t, Executed(id, after)), t)
  {
    RanAfter(s.log, t, id, id);
    assert Marked(t, id) in s.log + [Ran(t, id)];
  }

  lemma RunToolKeeps(s: State, t: QuantumId)
    requires Inv(s) && Next(s, RunTool(t)).Some?
    ensures Inv(Next(s, RunTool(t)).value)
  {
    var s' := Next(s, RunTool(t)).value;
    var (id, after) := (s.quanta[t].phase.id, s.quanta[t].phase.after);
    assert QuantumOk(s, t);
    RunStore(s, t, id);
    RunOthers(s, t, id);
    RunOwn(s, t, id, after);
    StepKeeps(s, s', t);
  }

  lemma FinishAttemptKeeps(s: State, t: QuantumId, succeeded: bool)
    requires Inv(s) && Next(s, FinishAttempt(t, succeeded)).Some?
    ensures Inv(Next(s, FinishAttempt(t, succeeded)).value)
  {
    var s' := Next(s, FinishAttempt(t, succeeded)).value;
    var (id, after) := (s.quanta[t].phase.id, s.quanta[t].phase.after);
    assert QuantumOk(s, t);
    FinishOwn(s, s', t, id, after);
    StateStepKeeps(s, t, id, if succeeded then Succeeded else FailedKnown, Continue(id, after));
  }

  lemma FinishOwn(s: State, s': State, t: QuantumId, id: AttemptId, after: After)
    requires IsAttached(s, t) && QuantumOk(s, t) && s.quanta[t].phase == Executed(id, after)
    requires id in s.attempts && s'.attempts.Keys == s.attempts.Keys && SameCheckpoints(s.attempts, s'.attempts)
    requires s'.transcript == s.transcript && s'.log == s.log && s'.lease == s.lease
    requires forall other | other in s.attempts && s.attempts[other].state != Prepared :: s'.attempts[other].state != Prepared
    requires s'.attempts[id].state != Prepared
    requires s'.quanta == s.quanta[t := s.quanta[t].(phase := Continue(id, after))]
    ensures QuantumOk(s', t)
  {
    if after.InTools? {
      var slot := Slot(after.call, Some(id));
      DoneOfOneMore(after.results, slot);
      SlotsNamedMore(s.transcript, after.results, slot);
    }
  }

  lemma NamedResults(transcript: seq<Entry>, slots: seq<Slot>)
    requires SlotsNamed(transcript, slots)
    ensures forall i | 0 <= i < |Results(slots)| :: Names(transcript + Results(slots)[..i], Results(slots)[i].call)
  {
    forall i | 0 <= i < |Results(slots)| ensures Names(transcript + Results(slots)[..i], Results(slots)[i].call) {
      NamesGrow(transcript, transcript + Results(slots)[..i], slots[i].call);
    }
  }

  lemma CheckpointResultsKeeps(s: State, t: QuantumId)
    requires Inv(s) && Next(s, CheckpointResults(t)).Some?
    ensures Inv(Next(s, CheckpointResults(t)).value)
  {
    var s' := Next(s, CheckpointResults(t)).value;
    var results := s.quanta[t].phase.results;
    forall id ensures Count(Results(results), id) == if id in Done(results) then 1 else 0 {
      ResultsCountOnce(results, id);
    }
    NamedResults(s.transcript, results);
    CheckpointedMessages(s, Done(results), Results(results));
    SeenStaysOk(s.transcript, s'.transcript, s.quanta[t].seen);
    StepKeeps(s, s', t);
  }

  // ---------------------------------------------------------------- every run

  lemma LifeStepKeeps(s: State, a: Action)
    requires Inv(s) && LifeStep(s, a).Some?
    ensures Inv(LifeStep(s, a).value)
  {
    match a
    case Acquire(t, fence) => AcquireKeeps(s, t, fence);
    case Attach(t, run) => AttachKeeps(s, t, run);
    case LoadContext(t, seen) => LoadContextKeeps(s, t, seen);
    case Incorporate(t, count) => IncorporateKeeps(s, t, count);
    case CancelRun(t) => LeaveRunKeeps(s, t, false);
    case FailRun(t) => LeaveRunKeeps(s, t, true);
    case Finalize(t) => FinalizeKeeps(s, t);
    case Preempt(t) => ModelPhaseKeeps(s, t, Preempted);
    case Release(t) =>
      RemoveKeeps(s, t);
      ExpireKeeps(s.(quanta := s.quanta - {t}));
    case Crash(t) => RemoveKeeps(s, t);
    case ExpireLease => ExpireKeeps(s);
    case RecoverStartup(ids) => RecoverStartupKeeps(s, ids);
    case _ =>
  }

  lemma RecoveryStepKeeps(s: State, a: Action)
    requires Inv(s) && RecoveryStep(s, a).Some?
    ensures Inv(RecoveryStep(s, a).value)
  {
    match a
    case LoadUnresolved(t, todo) => LoadUnresolvedKeeps(s, t, todo);
    case Recover(t) => RecoverKeeps(s, t);
    case RejectPrepared(t) => RejectPreparedKeeps(s, t);
    case Block(t) => BlockKeeps(s, t);
    case CheckpointRecovered(t) => CheckpointRecoveredKeeps(s, t);
    case FinishRecovery(t) => FinishRecoveryKeeps(s, t);
    case _ =>
  }

  lemma ModelStepKeeps(s: State, a: Action)
    requires Inv(s) && ModelStep(s, a).Some?
    ensures Inv(ModelStep(s, a).value)
  {
    match a
    case AnswerCalls(t, calls) => ModelPhaseKeeps(s, t, Preparing(calls, []));
    case PrepareRefused(t) =>
      var (calls, ready) := (s.quanta[t].phase.calls, s.quanta[t].phase.ready);
      assert QuantumOk(s, t);
      ModelPhaseKeeps(s, t, Preparing(calls, ready + [Slot(calls[|ready|], None)]));
    case PrepareAttempt(t, id) => PrepareAttemptKeeps(s, t, id);
    case CheckpointAssistant(t) => CheckpointAssistantKeeps(s, t);
    case _ =>
  }

  lemma ToolStepKeeps(s: State, a: Action)
    requires Inv(s) && ToolStep(s, a).Some?
    ensures Inv(ToolStep(s, a).value)
  {
    match a
    case RefuseCall(t) => RefuseCallKeeps(s, t);
    case MarkRunning(t) => MarkRunningKeeps(s, t);
    case RunTool(t) => RunToolKeeps(s, t);
    case FinishAttempt(t, succeeded) => FinishAttemptKeeps(s, t, succeeded);
    case CheckpointResults(t) => CheckpointResultsKeeps(s, t);
    case _ =>
  }

  lemma NextKeepsInv(s: State, a: Action)
    requires Inv(s) && Next(s, a).Some?
    ensures Inv(Next(s, a).value)
  {
    if Next(s, a) == LifeStep(s, a) {
      LifeStepKeeps(s, a);
    } else if Next(s, a) == RecoveryStep(s, a) {
      RecoveryStepKeeps(s, a);
    } else if Next(s, a) == ModelStep(s, a) {
      ModelStepKeeps(s, a);
    } else {
      ToolStepKeeps(s, a);
    }
  }

  const EMPTY: State := State(None, {}, map[], [], map[], {}, [])

  lemma {:induction false} EmptyStateIsSound()
    ensures Inv(EMPTY)
  {
    assert forall id :: Count([], id) == 0;
  }

  lemma ReachableInv(actions: seq<Action>)
    requires Execute(Stepper(), EMPTY, actions).Some?
    ensures Inv(Execute(Stepper(), EMPTY, actions).value)
  {
    EmptyStateIsSound();
    RunKeepsInv(EMPTY, actions);
  }

  lemma RunKeepsInv(s: State, actions: seq<Action>)
    requires Inv(s) && Execute(Stepper(), s, actions).Some?
    ensures Inv(Execute(Stepper(), s, actions).value)
  {
    forall s, a {:trigger Stepper()(s, a)} | Inv(s) && Stepper()(s, a).Some? ensures Inv(Stepper()(s, a).value) {
      NextKeepsInv(s, a);
    }
    InvariantOverRun(Stepper(), Inv, s, actions);
  }

  /** However quanta are interrupted, no attempt is executed twice, and the quantum that executes one has
      itself committed the step from prepared to running before. */
  lemma AttemptsRunAtMostOnce(actions: seq<Action>)
    requires Execute(Stepper(), EMPTY, actions).Some?
    ensures var log := Execute(Stepper(), EMPTY, actions).value.log;
      && (forall i, j | 0 <= i < j < |log| && log[i].Ran? && log[j].Ran? :: log[i].id != log[j].id)
      && (forall j | 0 <= j < |log| && log[j].Ran? :: Marked(log[j].quantum, log[j].id) in log[..j])
  {
    ReachableInv(actions);
  }

  /** An attempt that is recorded as succeeded was executed. */
  lemma SucceededAttemptsRan(actions: seq<Action>, id: AttemptId)
    requires Execute(Stepper(), EMPTY, actions).Some?
    requires var s := Execute(Stepper(), EMPTY, actions).value; id in s.attempts && s.attempts[id].state == Succeeded
    ensures RanIn(Execute(Stepper(), EMPTY, actions).value.log, id)
  {
    ReachableInv(actions);
  }

  /** Every tool result of the durable transcript follows an assistant message that names its call. */
  lemma ResultsFollowTheirCalls(actions: seq<Action>, i: nat)
    requires Execute(Stepper(), EMPTY, actions).Some?
    requires var transcript := Execute(Stepper(), EMPTY, actions).value.transcript;
      i < |transcript| && transcript[i].Result?
    ensures var transcript := Execute(Stepper(), EMPTY, actions).value.transcript;
      exists j | 0 <= j < i :: transcript[j].Assistant? && transcript[i].call in transcript[j].calls
  {
    ReachableInv(actions);
    var transcript := Execute(Stepper(), EMPTY, actions).value.transcript;
    assert Names(transcript[..i], transcript[i].call);
    var j :| 0 <= j < i && transcript[..i][j].Assistant? && transcript[i].call in transcript[..i][j].calls;
    assert transcript[j] == transcript[..i][j];
  }

  /** The result of an attempt is in the transcript once if it is checkpointed, and not at all otherwise. */
  lemma ResultsAppendedOnce(actions: seq<Action>, id: AttemptId)
    requires Execute(Stepper(), EMPTY, actions).Some?
    ensures var s := Execute(Stepper(), EMPTY, actions).value;
      Count(s.transcript, id) == if id in s.attempts && s.attempts[id].checkpointed then 1 else 0
  {
    ReachableInv(actions);
  }

  // ---------------------------------------------------------------- what a recorded outcome means

  ghost predicate Started(log: seq<Event>, id: AttemptId) {
    exists u :: Marked(u, id) in log
  }

  // The states that an attempt may be in, by whether its tool was ever started and executed.
  predicate Truthful(state: AttemptState, started: bool, ran: bool) {
    match state
    case Prepared => !started
    case CancelledKnown => !started
    case FailedKnown => started ==> ran
    case Succeeded => started && ran
    case _ => started
  }

  ghost predicate AllTruthful(s: State) {
    forall id | id in s.attempts :: Truthful(s.attempts[id].state, Started(s.log, id), RanIn(s.log, id))
  }

  // How a state may move without the history growing.
  predicate Moves(state: AttemptState, state': AttemptState) {
    || state' == state
    || (state == Running && state' == OutcomeUnknown)
    || (state == OutcomeUnknown && state' == AttemptState.WaitingForDecision)
    || (state == Prepared && (state' == CancelledKnown || state' == FailedKnown))
  }

  ghost predicate QuietMoves(s: State, s': State) {
    && s'.log == s.log
    && forall id | id in s'.attempts ::
         if id in s.attempts then Moves(s.attempts[id].state, s'.attempts[id].state)
         else s'.attempts[id].state == Prepared
  }

  lemma LifeStepMoves(s: State, a: Action)
    ensures LifeStep(s, a).Some? ==> QuietMoves(s, LifeStep(s, a).value)
  {}

  lemma RecoveryStepMoves(s: State, a: Action)
    ensures RecoveryStep(s, a).Some? ==> QuietMoves(s, RecoveryStep(s, a).value)
  {}

  lemma ModelStepMoves(s: State, a: Action)
    ensures ModelStep(s, a).Some? ==> QuietMoves(s, ModelStep(s, a).value)
  {}

  lemma ToolStepMoves(s: State, a: Action)
    requires !a.MarkRunning? && !a.RunTool? && !a.FinishAttempt?
    ensures ToolStep(s, a).Some? ==> QuietMoves(s, ToolStep(s, a).value)
  {}

  lemma UnknownIsUnstarted(s: State, id: AttemptId)
    requires LogOk(s.log, s.attempts) && id !in s.attempts
    ensures !Started(s.log, id) && !RanIn(s.log, id)
  {
    forall i | 0 <= i < |s.log| ensures s.log[i].id != id {}
  }

  lemma QuietStepIsTruthful(s: State, s': State)
    requires Inv(s) && AllTruthful(s) && QuietMoves(s, s')
    ensures AllTruthful(s')
  {
    forall id | id in s'.attempts ensures Truthful(s'.attempts[id].state, Started(s'.log, id), RanIn(s'.log, id)) {
      if id !in s.attempts { UnknownIsUnstarted(s, id); }
    }
  }

  lemma MarkingIsTruthful(s: State, t: QuantumId)
    requires Inv(s) && AllTruthful(s) && Next(s, MarkRunning(t)).Some?
    ensures AllTruthful(Next(s, MarkRunning(t)).value)
  {
    var s' := Next(s, MarkRunning(t)).value;
    var id := NextToRun(s.quanta[t].phase).value.0;
    assert s'.log[|s.log|] == Marked(t, id);
    forall other | other in s'.attempts
      ensures Truthful(s'.attempts[other].state, Started(s'.log, other), RanIn(s'.log, other))
    {
      LogGrows(s.log, Marked(t, id), other);
    }
  }

  lemma RunningIsTruthful(s: State, t: QuantumId)
    requires Inv(s) && AllTruthful(s) && Next(s, RunTool(t)).Some?
    ensures AllTruthful(Next(s, RunTool(t)).value)
  {
    var s' := Next(s, RunTool(t)).value;
    var id := s.quanta[t].phase.id;
    assert QuantumOk(s, t);
    forall other | other in s'.attempts
      ensures Truthful(s'.attempts[other].state, Started(s'.log, other), RanIn(s'.log, other))
    {
      LogGrows(s.log, Ran(t, id), other);
    }
  }

  lemma FinishingIsTruthful(s: State, t: QuantumId, succeeded: bool)
    requires Inv(s) && AllTruthful(s) && Next(s, FinishAttempt(t, succeeded)).Some?
    ensures AllTruthful(Next(s, FinishAttempt(t, succeeded)).value)
  {
    assert QuantumOk(s, t);
  }

  lemma LogGrows(log: seq<Event>, e: Event, id: AttemptId)
    ensures Started(log + [e], id) <==> Started(log, id) || (e.Marked? && e.id == id)
    ensures RanIn(log + [e], id) <==> RanIn(log, id) || (e.Ran? && e.id == id)
  {
    if e.id == id { assert e in log + [e]; }
    forall u | Marked(u, id) in log ensures Marked(u, id) in log + [e] {}
    forall u | Ran(u, id) in log ensures Ran(u, id) in log + [e] {}
  }

  ghost predicate TruthInv(s: State) { Inv(s) && AllTruthful(s) }

  lemma NextKeepsTruth(s: State, a: Action)
    requires TruthInv(s) && Next(s, a).Some?
    ensures TruthInv(Next(s, a).value)
  {
    NextKeepsInv(s, a);
    match a
    case MarkRunning(t) => MarkingIsTruthful(s, t);
    case RunTool(t) => RunningIsTruthful(s, t);
    case FinishAttempt(t, succeeded) => FinishingIsTruthful(s, t, succeeded);
    case _ =>
      LifeStepMoves(s, a);
      RecoveryStepMoves(s, a);
      ModelStepMoves(s, a);
      ToolStepMoves(s, a);
      QuietStepIsTruthful(s, Next(s, a).value);
  }

  /** A recorded outcome tells the truth about the tool, however quanta are interrupted: a success was executed, a
      cancelled attempt was never started, a failure was executed unless it was never started, and what was started
      without being seen to end has no known outcome. */
  lemma OutcomesAreTrue(actions: seq<Action>, id: AttemptId)
    requires Execute(Stepper(), EMPTY, actions).Some? && id in Execute(Stepper(), EMPTY, actions).value.attempts
    ensures var s := Execute(Stepper(), EMPTY, actions).value;
      var (state, started, ran) := (s.attempts[id].state, Started(s.log, id), RanIn(s.log, id));
      && (state == Succeeded ==> started && ran)
      && (state == CancelledKnown || state == Prepared ==> !started)
      && (state == FailedKnown && started ==> ran)
      && (started && !ran ==> state in {Running, OutcomeUnknown, AttemptState.WaitingForDecision})
      && (state in {Running, OutcomeUnknown, AttemptState.WaitingForDecision} ==> started)
  {
    EmptyStateIsSound();
    forall s, a {:trigger Stepper()(s, a)} | TruthInv(s) && Stepper()(s, a).Some? ensures TruthInv(Stepper()(s, a).value) {
      NextKeepsTruth(s, a);
    }
    InvariantOverRun(Stepper(), TruthInv, EMPTY, actions);
  }

  ghost predicate LeftPrepared(s: State, id: AttemptId) {
    id in s.attempts && s.attempts[id].state != Prepared
  }

  // No new start of this attempt, which stays out of the prepared state.
  ghost predicate NotRestarted(s: State, s': State, id: AttemptId) {
    LeftPrepared(s', id) && forall u :: Marked(u, id) in s'.log ==> Marked(u, id) in s.log
  }

  lemma QuietStepNeverRestarts(s: State, a: Action, id: AttemptId)
    requires LeftPrepared(s, id)
    ensures LifeStep(s, a).Some? ==> NotRestarted(s, LifeStep(s, a).value, id)
    ensures ModelStep(s, a).Some? ==> NotRestarted(s, ModelStep(s, a).value, id)
  {}

  lemma RecoveryStepNeverRestarts(s: State, a: Action, id: AttemptId)
    requires LeftPrepared(s, id)
    ensures RecoveryStep(s, a).Some? ==> NotRestarted(s, RecoveryStep(s, a).value, id)
  {}

  lemma ToolStepNeverRestarts(s: State, a: Action, id: AttemptId)
    requires LeftPrepared(s, id)
    ensures ToolStep(s, a).Some? ==> NotRestarted(s, ToolStep(s, a).value, id)
  {}

  lemma StepNeverRestarts(s: State, a: Action, id: AttemptId)
    requires Next(s, a).Some? && LeftPrepared(s, id)
    ensures NotRestarted(s, Next(s, a).value, id)
  {
    QuietStepNeverRestarts(s, a, id);
    RecoveryStepNeverRestarts(s, a, id);
    ToolStepNeverRestarts(s, a, id);
  }

  /** Recovery never starts an attempt again: once an attempt is running, or later, no run adds a start. */
  lemma {:induction false} NeverRestarted(s: State, actions: seq<Action>, id: AttemptId)
    requires LeftPrepared(s, id) && Execute(Stepper(), s, actions).Some?
    ensures NotRestarted(s, Execute(Stepper(), s, actions).value, id)
    decreases |actions|
  {
    if actions != [] {
      StepNeverRestarts(s, actions[0], id);
      NeverRestarted(Next(s, actions[0]).value, actions[1..], id);
    }
  }

  // The quantum has started the attempt, still lives, and has not executed it yet.
  ghost predicate ExecutingNow(s: State, u: QuantumId, id: AttemptId) {
    IsAttached(s, u) && s.quanta[u].phase.Executing? && s.quanta[u].phase.id == id
  }

  // Whoever executes the attempt, or still may, was about to do so before.
  ghost predicate OnlyExecutors(s: State, s': State, id: AttemptId) {
    && LeftPrepared(s', id) && s.log <= s'.log
    && (forall u | ExecutingNow(s', u, id) :: ExecutingNow(s, u, id))
    && forall i | |s.log| <= i < |s'.log| && s'.log[i].id == id ::
         s'.log[i].Ran? && ExecutingNow(s, s'.log[i].quantum, id)
  }

  lemma QuietStepAddsNoExecutor(s: State, a: Action, id: AttemptId)
    requires LeftPrepared(s, id)
    ensures LifeStep(s, a).Some? ==> OnlyExecutors(s, LifeStep(s, a).value, id)
    ensures ModelStep(s, a).Some? ==> OnlyExecutors(s, ModelStep(s, a).value, id)
  {}

  lemma RecoveryStepAddsNoExecutor(s: State, a: Action, id: AttemptId)
    requires LeftPrepared(s, id)
    ensures RecoveryStep(s, a).Some? ==> OnlyExecutors(s, RecoveryStep(s, a).value, id)
  {}

  lemma ToolStepAddsNoExecutor(s: State, a: Action, id: AttemptId)
    requires LeftPrepared(s, id)
    ensures ToolStep(s, a).Some? ==> OnlyExecutors(s, ToolStep(s, a).value, id)
  {}

  lemma StepAddsNoExecutor(s: State, a: Action, id: AttemptId)
    requires Next(s, a).Some? && LeftPrepared(s, id)
    ensures OnlyExecutors(s, Next(s, a).value, id)
  {
    QuietStepAddsNoExecutor(s, a, id);
    RecoveryStepAddsNoExecutor(s, a, id);
    ToolStepAddsNoExecutor(s, a, id);
  }

  lemma OnlyExecutorsFurther(s: State, m: State, s': State, id: AttemptId)
    requires OnlyExecutors(s, m, id) && OnlyExecutors(m, s', id)
    ensures OnlyExecutors(s, s', id)
  {}

  lemma {:induction false} RunAddsNoExecutor(s: State, actions: seq<Action>, id: AttemptId)
    requires LeftPrepared(s, id) && Execute(Stepper(), s, actions).Some?
    ensures OnlyExecutors(s, Execute(Stepper(), s, actions).value, id)
    decreases |actions|
  {
    if actions != [] {
      StepAddsNoExecutor(s, actions[0], id);
      var m := Next(s, actions[0]).value;
      RunAddsNoExecutor(m, actions[1..], id);
      OnlyExecutorsFurther(s, m, Execute(Stepper(), s, actions).value, id);
    }
  }

  // A continuation in which the quantum executes the attempt.
  ghost predicate ExecutedIn(s: State, actions: seq<Action>, u: QuantumId, id: AttemptId) {
    && Execute(Stepper(), s, actions).Some?
    && var log := Execute(Stepper(), s, actions).value.log;
    exists i :: |s.log| <= i < |log| && log[i] == Ran(u, id)
  }

  lemma ExecutorCanRun(s: State, u: QuantumId, id: AttemptId)
    requires ExecutingNow(s, u, id)
    ensures ExecutedIn(s, [RunTool(u)], u, id)
  {
    assert [RunTool(u)] == [RunTool(u)] + [];
    ExecuteStep(Stepper(), s, RunTool(u), []);
    assert Next(s, RunTool(u)).value.log[|s.log|] == Ran(u, id);
  }

  /** What has once been started is executed later exactly by a quantum that is alive and about to execute it. */
  lemma ExecutedLaterExactlyByItsExecutor(s: State, u: QuantumId, id: AttemptId)
    requires LeftPrepared(s, id)
    ensures (exists actions :: ExecutedIn(s, actions, u, id)) <==> ExecutingNow(s, u, id)
  {
    if ExecutingNow(s, u, id) {
      ExecutorCanRun(s, u, id);
    } else {
      forall actions ensures !ExecutedIn(s, actions, u, id) {
        if Execute(Stepper(), s, actions).Some? { RunAddsNoExecutor(s, actions, id); }
      }
    }
  }

  /** Recovery never executes an attempt that an earlier quantum left running: once its starter is gone, whatever
      happens, no start and no execution of it is ever added, and it never becomes a recorded success. */
  lemma LeftRunningStaysUnexecuted(s: State, actions: seq<Action>, id: AttemptId)
    requires Inv(s) && LeftPrepared(s, id) && Execute(Stepper(), s, actions).Some?
    requires forall u :: !ExecutingNow(s, u, id)
    ensures var s' := Execute(Stepper(), s, actions).value;
      && s.log <= s'.log && (forall i | |s.log| <= i < |s'.log| :: s'.log[i].id != id)
      && (RanIn(s'.log, id) ==> RanIn(s.log, id))
      && (!RanIn(s.log, id) ==> id in s'.attempts && s'.attempts[id].state != Succeeded)
  {
    RunAddsNoExecutor(s, actions, id);
    RunKeepsInv(s, actions);
    var s' := Execute(Stepper(), s, actions).value;
    if RanIn(s'.log, id) {
      var u :| Ran(u, id) in s'.log;
      var i :| 0 <= i < |s'.log| && s'.log[i] == Ran(u, id);
      assert s.log[i] == Ran(u, id);
    }
  }

  // ---------------------------------------------------------------- one attempt for a call

  ghost predicate OnePerCall(attempts: map<AttemptId, Attempt>) {
    forall a, b | a in attempts && b in attempts && a != b ::
      attempts[a].run != attempts[b].run || attempts[a].call != attempts[b].call
  }

  // No attempt is new, and none changes its run or its call.
  ghost predicate SameCalls(attempts: map<AttemptId, Attempt>, attempts': map<AttemptId, Attempt>) {
    forall id | id in attempts' ::
      id in attempts && attempts'[id].run == attempts[id].run && attempts'[id].call == attempts[id].call
  }

  lemma SameCallsKeepOnePerCall(attempts: map<AttemptId, Attempt>, attempts': map<AttemptId, Attempt>)
    requires OnePerCall(attempts) && SameCalls(attempts, attempts')
    ensures OnePerCall(attempts')
  {}

  lemma LifePreparesNothing(s: State, a: Action)
    requires LifeStep(s, a).Some?
    ensures SameCalls(s.attempts, LifeStep(s, a).value.attempts)
  {}

  lemma RecoveryPreparesNothing(s: State, a: Action)
    requires RecoveryStep(s, a).Some?
    ensures SameCalls(s.attempts, RecoveryStep(s, a).value.attempts)
  {}

  lemma ToolsPrepareNothing(s: State, a: Action)
    requires ToolStep(s, a).Some?
    ensures SameCalls(s.attempts, ToolStep(s, a).value.attempts)
  {}

  lemma ModelKeepsOnePerCall(s: State, a: Action)
    requires OnePerCall(s.attempts) && ModelStep(s, a).Some?
    ensures OnePerCall(ModelStep(s, a).value.attempts)
  {}

  lemma StepKeepsOnePerCall(s: State, a: Action)
    requires OnePerCall(s.attempts) && Next(s, a).Some?
    ensures OnePerCall(Next(s, a).value.attempts)
  {
    if Next(s, a) == ModelStep(s, a) {
      ModelKeepsOnePerCall(s, a);
    } else {
      if Next(s, a) == LifeStep(s, a) {
        LifePreparesNothing(s, a);
      } else if Next(s, a) == RecoveryStep(s, a) {
        RecoveryPreparesNothing(s, a);
      } else {
        ToolsPrepareNothing(s, a);
      }
      SameCallsKeepOnePerCall(s.attempts, Next(s, a).value.attempts);
    }
  }

  /** However quanta are interrupted, no call of a run is executed twice. */
  lemma CallsRunAtMostOnce(actions: seq<Action>, i: nat, j: nat)
    requires Execute(Stepper(), EMPTY, actions).Some?
    requires var log := Execute(Stepper(), EMPTY, actions).value.log; i < j < |log| && log[i].Ran? && log[j].Ran?
    ensures var s := Execute(Stepper(), EMPTY, actions).value;
      && s.log[i].id in s.attempts && s.log[j].id in s.attempts
      && var (a, b) := (s.attempts[s.log[i].id], s.attempts[s.log[j].id]);
      a.run != b.run || a.call != b.call
  {
    AttemptsRunAtMostOnce(actions);
    ReachableInv(actions);
    forall s: State, a {:trigger Stepper()(s, a)} | OnePerCall(s.attempts) && Stepper()(s, a).Some?
      ensures OnePerCall(Stepper()(s, a).value.attempts)
    {
      StepKeepsOnePerCall(s, a);
    }
    InvariantOverRun(Stepper(), (s: State) => OnePerCall(s.attempts), EMPTY, actions);
  }

  // ---------------------------------------------------------------- runs that have ended

  // The run has ended and no attempt of it is running, nor prepared if those were cancelled.
  ghost predicate AtRest(s: State, run: RunId, cancelled: bool) {
    && run in s.ended
    && forall id | id in s.attempts && s.attempts[id].run == run ::
         s.attempts[id].state != Running && (cancelled ==> s.attempts[id].state != Prepared)
  }

  // No new start of an attempt of the run.
  ghost predicate NoNewStart(s: State, s': State, run: RunId) {
    && s.log <= s'.log
    && (forall id | id in s.attempts :: id in s'.attempts && s'.attempts[id].run == s.attempts[id].run)
    && forall i | |s.log| <= i < |s'.log| && s'.log[i].Marked? ::
         s'.log[i].id in s'.attempts && s'.attempts[s'.log[i].id].run != run
  }

  ghost predicate RestsOn(s: State, s': State, run: RunId, cancelled: bool) {
    AtRest(s', run, cancelled) && NoNewStart(s, s', run)
  }

  lemma LifeStepRests(s: State, a: Action, run: RunId, cancelled: bool)
    requires AtRest(s, run, cancelled) && LifeStep(s, a).Some?
    ensures RestsOn(s, LifeStep(s, a).value, run, cancelled)
  {}

  lemma RecoveryStepRests(s: State, a: Action, run: RunId, cancelled: bool)
    requires AtRest(s, run, cancelled) && RecoveryStep(s, a).Some?
    ensures RestsOn(s, RecoveryStep(s, a).value, run, cancelled)
  {}

  lemma ModelStepRests(s: State, a: Action, run: RunId, cancelled: bool)
    requires AtRest(s, run, cancelled) && ModelStep(s, a).Some?
    ensures RestsOn(s, ModelStep(s, a).value, run, cancelled)
  {}

  lemma ToolStepRests(s: State, a: Action, run: RunId, cancelled: bool)
    requires AtRest(s, run, cancelled) && ToolStep(s, a).Some?
    ensures RestsOn(s, ToolStep(s, a).value, run, cancelled)
  {}

  lemma StepRests(s: State, a: Action, run: RunId, cancelled: bool)
    requires AtRest(s, run, cancelled) && Next(s, a).Some?
    ensures RestsOn(s, Next(s, a).value, run, cancelled)
  {
    if Next(s, a) == LifeStep(s, a) {
      LifeStepRests(s, a, run, cancelled);
    } else if Next(s, a) == RecoveryStep(s, a) {
      RecoveryStepRests(s, a, run, cancelled);
    } else if Next(s, a) == ModelStep(s, a) {
      ModelStepRests(s, a, run, cancelled);
    } else {
      ToolStepRests(s, a, run, cancelled);
    }
  }

  lemma {:induction false} RunRests(s: State, actions: seq<Action>, run: RunId, cancelled: bool)
    requires AtRest(s, run, cancelled) && Execute(Stepper(), s, actions).Some?
    ensures RestsOn(s, Execute(Stepper(), s, actions).value, run, cancelled)
    decreases |actions|
  {
    if actions != [] {
      StepRests(s, actions[0], run, cancelled);
      RunRests(Next(s, actions[0]).value, actions[1..], run, cancelled);
    }
  }

  /** A run that was cancelled or has failed is over for good: in every continuation it has no running attempt and none
      of its attempts is started; after a failure none is prepared either. The others keep the state they had. */
  lemma EndedRunsRest(s: State, a: Action, t: QuantumId, actions: seq<Action>)
    requires a == CancelRun(t) || a == FailRun(t)
    requires Next(s, a).Some? && Execute(Stepper(), Next(s, a).value, actions).Some?
    ensures RestsOn(s, Execute(Stepper(), Next(s, a).value, actions).value, s.quanta[t].run, a.FailRun?)
    ensures forall id | id in s.attempts ::
              && id in Next(s, a).value.attempts
              && var (state, state') := (s.attempts[id].state, Next(s, a).value.attempts[id].state);
              if s.attempts[id].run != s.quanta[t].run then state' == state
              else if state == Running then state' == OutcomeUnknown
              else if state == Prepared && a.FailRun? then state' == CancelledKnown
              else state' == state
  {
    RunRests(Next(s, a).value, actions, s.quanta[t].run, a.FailRun?);
  }

  /** The checkpoint of a recovered attempt appends its result, after a message that names its call exactly if the
      quantum has not seen one; it has seen one then, and no other attempt changes. */
  lemma RecoveredResultsAreNamedOnce(s: State, t: QuantumId)
    requires Next(s, CheckpointRecovered(t)).Some?
    ensures var (s', id, seen) := (Next(s, CheckpointRecovered(t)).value, s.quanta[t].phase.id, s.quanta[t].seen);
      var call := s.attempts[id].call;
      && s'.transcript == s.transcript + (if call in seen then [] else [Assistant([call])]) + [Result(call, Some(id))]
      && IsAttached(s', t) && s'.quanta[t].seen == seen + {call} && s'.log == s.log
      && s'.attempts == s.attempts[id := s.attempts[id].(checkpointed := true)]
  {
    var (s', id, seen) := (Next(s, CheckpointRecovered(t)).value, s.quanta[t].phase.id, s.quanta[t].seen);
    var call := s.attempts[id].call;
    assert RecoveredEntries(call, id, call in seen) == (if call in seen then [] else [Assistant([call])]) + [Result(call, Some(id))];
  }

  /** While nobody holds the lease, a startup recovery can make exactly the running attempts that it names unknown. */
  lemma StartupLosesOutcomes(s: State, ids: set<AttemptId>)
    ensures var r := Next(s, RecoverStartup(ids));
      && (r.Some? <==> s.lease.None?)
      && (r.Some? ==>
            && r.value == s.(attempts := r.value.attempts) && r.value.attempts.Keys == s.attempts.Keys
            && forall id | id in s.attempts ::
                 r.value.attempts[id] == if id in ids && s.attempts[id].state == Running
                                         then s.attempts[id].(state := OutcomeUnknown) else s.attempts[id])
  {}

  // ---------------------------------------------------------------- a quantum that answers

  // A state that differs from another only in the lease, this quantum and the messages.
  ghost predicate QuantumAt(s: State, s': State, t: QuantumId, fence: Fence, run: RunId, added: seq<Entry>, phase: Phase) {
    && t in s'.quanta && s'.quanta[t] == Attached(fence, run, {}, phase) && s'.quanta - {t} == s.quanta - {t}
    && s' == s.(lease := Some(fence), born := s.born + {t}, quanta := s'.quanta, transcript := s.transcript + added)
  }

  function Users(count: nat): seq<Entry> { seq(count, i => User) }

  lemma QuantumAttaches(s: State, t: QuantumId, fence: Fence, run: RunId) returns (actions: seq<Action>, s': State)
    requires t !in s.born && t !in s.quanta && run !in s.ended && forall u | u in s.quanta :: s.quanta[u].fence != fence
    ensures Leads(Stepper(), s, actions, s') && QuantumAt(s, s', t, fence, run, [], Incorporating(true))
  {
    var s1 := Next(s, Acquire(t, fence)).value;
    LeadsOn(Stepper(), s, [], s, Acquire(t, fence), s1);
    var s2 := Next(s1, Attach(t, run)).value;
    LeadsOn(Stepper(), s, [] + [Acquire(t, fence)], s1, Attach(t, run), s2);
    actions := [] + [Acquire(t, fence)] + [Attach(t, run)];
    s' := Next(s2, LoadContext(t, {})).value;
    LeadsOn(Stepper(), s, actions, s2, LoadContext(t, {}), s');
    actions := actions + [LoadContext(t, {})];
    assert s.transcript + [] == s.transcript;
  }

  lemma QuantumIncorporates(s: State, m: State, t: QuantumId, fence: Fence, run: RunId, count: nat)
    returns (actions: seq<Action>, s': State)
    requires QuantumAt(s, m, t, fence, run, [], Incorporating(true)) && run !in s.ended
    requires forall id :: !Unresolved(s, run, id)
    ensures Leads(Stepper(), m, actions, s') && QuantumAt(s, s', t, fence, run, Users(count), Modelling)
  {
    var s1 := Next(m, Incorporate(t, count)).value;
    LeadsOn(Stepper(), m, [], m, Incorporate(t, count), s1);
    assert s.transcript + [] + Users(count) == s.transcript + Users(count);
    forall id ensures id in [] <==> Unresolved(s1, run, id) { assert Unresolved(s1, run, id) == Unresolved(s, run, id); }
    var s2 := Next(s1, LoadUnresolved(t, [])).value;
    LeadsOn(Stepper(), m, [] + [Incorporate(t, count)], s1, LoadUnresolved(t, []), s2);
    actions := [] + [Incorporate(t, count)] + [LoadUnresolved(t, [])];
    s' := Next(s2, FinishRecovery(t)).value;
    LeadsOn(Stepper(), m, actions, s2, FinishRecovery(t), s');
    actions := actions + [FinishRecovery(t)];
  }

  lemma QuantumFinishes(s: State, m: State, t: QuantumId, fence: Fence, run: RunId, added: seq<Entry>)
    returns (actions: seq<Action>)
    requires QuantumAt(s, m, t, fence, run, added, Modelling) && run !in s.ended && t !in s.quanta
    ensures Leads(Stepper(), m, actions,
                  s.(lease := None, born := s.born + {t}, ended := s.ended + {run},
                     transcript := s.transcript + added + [Assistant([])]))
  {
    var s1 := Next(m, Finalize(t)).value;
    LeadsOn(Stepper(), m, [], m, Finalize(t), s1);
    actions := [] + [Finalize(t)];
    assert s1.quanta - {t} == m.quanta - {t} && s.quanta - {t} == s.quanta;
    LeadsOn(Stepper(), m, actions, s1, Release(t), Next(s1, Release(t)).value);
    actions := actions + [Release(t)];
  }

  /** From any state a fresh quantum can take up any messages and answer them: the transcript gets exactly those messages
      and the answer, the run ends, and the quantum and its lease are gone. */
  lemma AQuantumCanAnswer(s: State, t: QuantumId, fence: Fence, run: RunId, count: nat) returns (actions: seq<Action>)
    requires t !in s.born && t !in s.quanta && run !in s.ended && forall u | u in s.quanta :: s.quanta[u].fence != fence
    requires forall id :: !Unresolved(s, run, id)
    ensures Leads(Stepper(), s, actions,
                  s.(lease := None, born := s.born + {t}, ended := s.ended + {run},
                     transcript := s.transcript + Users(count) + [Assistant([])]))
  {
    var first, m := QuantumAttaches(s, t, fence, run);
    var second, m' := QuantumIncorporates(s, m, t, fence, run, count);
    LeadsFurther(Stepper(), s, first, m, second, m');
    var third := QuantumFinishes(s, m', t, fence, run, Users(count));
    LeadsFurther(Stepper(), s, first + second, m', third,
                 s.(lease := None, born := s.born + {t}, ended := s.ended + {run},
                    transcript := s.transcript + Users(count) + [Assistant([])]));
    actions := first + second + third;
  }

  /** Wherever a quantum crashes, once its lease has run out another one can take up the run, and finds the attempts and
      the transcript as they were. */
  lemma ACrashedQuantumIsReplaced(s: State, t: QuantumId, u: QuantumId, fence: Fence, run: RunId)
    returns (actions: seq<Action>, s': State)
    requires t in s.quanta && u !in s.born && u !in s.quanta && run !in s.ended
    requires forall v | v in s.quanta && v != t :: s.quanta[v].fence != fence
    ensures Leads(Stepper(), s, [] + [Crash(t)] + [ExpireLease] + actions, s')
    ensures QuantumAt(s.(lease := None, quanta := s.quanta - {t}), s', u, fence, run, [], Incorporating(true))
  {
    var crashed := s.(quanta := s.quanta - {t});
    LeadsOn(Stepper(), s, [], s, Crash(t), crashed);
    var free := crashed.(lease := None);
    LeadsOn(Stepper(), s, [] + [Crash(t)], crashed, ExpireLease, free);
    actions, s' := QuantumAttaches(free, u, fence, run);
    LeadsFurther(Stepper(), s, [] + [Crash(t)] + [ExpireLease], free, actions, s');
  }

  /** A preempted quantum goes on in another run of its actor with the messages that came meanwhile, without looking for
      unresolved attempts again. */
  lemma APreemptedQuantumGoesOn(s: State, t: QuantumId, next: RunId, count: nat) returns (actions: seq<Action>)
    requires Authorized(s, t) && s.quanta[t].phase.Modelling? && next !in s.ended
    ensures Leads(Stepper(), s, actions,
                  s.(quanta := s.quanta[t := Attached(s.quanta[t].fence, next, {}, Modelling)],
                     transcript := s.transcript + Users(count)))
  {
    var s1 := Next(s, Preempt(t)).value;
    LeadsOn(Stepper(), s, [], s, Preempt(t), s1);
    var s2 := Next(s1, Attach(t, next)).value;
    LeadsOn(Stepper(), s, [] + [Preempt(t)], s1, Attach(t, next), s2);
    actions := [] + [Preempt(t)] + [Attach(t, next)];
    var s3 := Next(s2, LoadContext(t, {})).value;
    LeadsOn(Stepper(), s, actions, s2, LoadContext(t, {}), s3);
    actions := actions + [LoadContext(t, {})];
    var s4 := Next(s3, Incorporate(t, count)).value;
    LeadsOn(Stepper(), s, actions, s3, Incorporate(t, count), s4);
    actions := actions + [Incorporate(t, count)];
    assert s4.quanta == s.quanta[t := Attached(s.quanta[t].fence, next, {}, Modelling)];
  }
}
