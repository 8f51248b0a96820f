// Delivering result bundles under claims: any number of workers and delivery tasks, each reading the clock
// in one step and running a store transaction with that reading in a later one, while acknowledgements,
// expiry, startup recovery and shutdown happen in between.

module OutboxClaims {
  import opened Common
  import opened Runs

  type BundleId = nat
  type TaskId = nat
  type Owner = nat

  const CLAIM_MILLIS := 30_000
  const CLAIM_BATCH := 32

  datatype BundleState =
    | Pending
    | Delivering(owner: Owner, expires: int)
    | FailedRetryable(next: int)
    | Delivered
    | FailedTerminal

  datatype Claim = Claim(bundle: BundleId, owner: Owner, expires: int)

  // A claim and the task it was given to, when the bundle was claimed or the claim renewed.
  datatype Grant = Grant(task: TaskId, claim: Claim)

  // attempts is the stored counter; the rest is history: how attempts ended, and all grants.
  datatype Bundle = Bundle(state: BundleState, attempts: nat, retried: nat, expired: nat, failed: nat, acked: nat,
                           grants: seq<Grant>)

  datatype Phase =
    | Waiting
    | Holding
    | Preparing
    | Recipients
    | Sending
    | SendingFenced
    | AwaitingAck
    | Retrying

  // now is the last clock reading that has not been used yet.
  datatype Task = Task(claim: Claim, attempts: nat, phase: Phase, now: Option<int>)

  datatype State = State(
    clock: int,
    bundles: map<BundleId, Bundle>,
    tasks: map<TaskId, Task>,
    workers: map<Owner, Option<int>>)

  datatype Action =
    | Tick(millis: nat)
    | Create(b: BundleId)
    | StartWorker(w: Owner)
    | ReadWorkerClock(w: Owner)
    | ReadClock(t: TaskId)
    | ClaimReady(w: Owner, picks: map<BundleId, TaskId>)
    | Renew(t: TaskId, granted: bool)
    | Load(t: TaskId, wellFormed: bool)
    | Prepare(t: TaskId, fits: bool)
    | Snapshot(t: TaskId, anyone: bool)
    | FinishSends(t: TaskId, anyOk: bool)
    | Observe(t: TaskId)
    | GiveUpWaiting(t: TaskId)
    | Retry(t: TaskId)
    | Drop(t: TaskId)
    | Acknowledge(b: BundleId)
    | RecoverStartup
    | Shutdown(w: Owner)

  // ---------------------------------------------------------------- the store

  predicate Active(bundle: Bundle, claim: Claim) {
    bundle.state == Delivering(claim.owner, claim.expires)
  }

  // The guard of every claimed transaction: the same owner and expiry, and not expired at the reading.
  predicate HoldsAt(bundles: map<BundleId, Bundle>, claim: Claim, now: int) {
    claim.bundle in bundles && Active(bundles[claim.bundle], claim) && claim.expires > now
  }

  predicate Claimable(bundle: Bundle, now: int) {
    bundle.state.Pending? || (bundle.state.FailedRetryable? && bundle.state.next <= now)
  }

  function Expire(bundle: Bundle, now: int): Bundle {
    if bundle.state.Delivering? && bundle.state.expires <= now
    then bundle.(state := FailedRetryable(now), expired := bundle.expired + 1)
    else bundle
  }

  function ClaimBundle(bundle: Bundle, claim: Claim, t: TaskId): Bundle {
    bundle.(state := Delivering(claim.owner, claim.expires), attempts := bundle.attempts + 1,
            grants := bundle.grants + [Grant(t, claim)])
  }

  function RenewBundle(bundle: Bundle, claim: Claim, t: TaskId): Bundle {
    bundle.(state := Delivering(claim.owner, claim.expires), grants := bundle.grants + [Grant(t, claim)])
  }

  function RetryDelaySeconds(attempts: nat): int {
    if attempts <= 1 then 1 else if attempts == 2 then 2 else if attempts == 3 then 4 else if attempts == 4 then 8 else 30
  }

  function FailRetryable(bundle: Bundle, next: int): Bundle {
    bundle.(state := FailedRetryable(next), retried := bundle.retried + 1)
  }

  function FailTerminal(bundle: Bundle): Bundle {
    bundle.(state := FailedTerminal, failed := bundle.failed + 1)
  }

  // ---------------------------------------------------------------- transitions

  predicate Ready(s: State, t: TaskId, phase: Phase) {
    t in s.tasks && s.tasks[t].phase == phase && s.tasks[t].now.Some?
  }

  predicate AtPhase(s: State, t: TaskId, phase: Phase) {
    t in s.tasks && s.tasks[t].phase == phase
  }

  function Enter(s: State, t: TaskId, phase: Phase): State
    requires t in s.tasks
  {
    s.(tasks := s.tasks[t := s.tasks[t].(phase := phase, now := None)])
  }

  function End(s: State, t: TaskId): State {
    s.(tasks := s.tasks - {t})
  }

  function WithBundle(s: State, b: BundleId, bundle: Bundle): State {
    s.(bundles := s.bundles[b := bundle])
  }

  // Where a task goes when its renewal finds the claim gone.
  function Fenced(s: State, t: TaskId): State
    requires t in s.tasks
  {
    if s.tasks[t].phase.Sending? then Enter(s, t, SendingFenced) else End(s, t)
  }

  ghost function WorkerStep(s: State, a: Action): Option<State> {
    match a
    case Tick(millis) => Some(s.(clock := s.clock + millis))
    case Create(b) =>
      if b !in s.bundles then Some(WithBundle(s, b, Bundle(Pending, 0, 0, 0, 0, 0, []))) else None
    case StartWorker(w) => if w !in s.workers then Some(s.(workers := s.workers[w := None])) else None
    case ReadWorkerClock(w) => if w in s.workers then Some(s.(workers := s.workers[w := Some(s.clock)])) else None
    case ClaimReady(w, picks) =>
      if w in s.workers && s.workers[w].Some? && |picks| <= CLAIM_BATCH && FreshTasks(s, picks)
         && forall b | b in picks :: b in s.bundles && Claimable(Expire(s.bundles[b], s.workers[w].value), s.workers[w].value)
      then
        var now := s.workers[w].value;
        var bundles := ClaimBundles(s.bundles, picks, w, now);
        Some(s.(bundles := bundles, tasks := s.tasks + ClaimTasks(bundles, picks, w, now), workers := s.workers[w := None]))
      else None
    case Acknowledge(b) =>
      if b in s.bundles && s.bundles[b].state.Delivering?
      then Some(WithBundle(s, b, s.bundles[b].(state := Delivered, acked := s.bundles[b].acked + 1)))
      else if b in s.bundles && s.bundles[b].state.FailedRetryable?
      then Some(WithBundle(s, b, s.bundles[b].(state := Delivered)))
      else None
    case RecoverStartup => Some(s.(bundles := map b | b in s.bundles :: Expire(s.bundles[b], s.clock)))
    case Shutdown(w) =>
      // The tasks of the worker are gone before its claims are given back.
      Some(s.(bundles := map b | b in s.bundles ::
                if s.bundles[b].state.Delivering? && s.bundles[b].state.owner == w
                then s.bundles[b].(state := FailedRetryable(s.clock), expired := s.bundles[b].expired + 1)
                else s.bundles[b],
              tasks := map t | t in s.tasks && s.tasks[t].claim.owner != w :: s.tasks[t],
              workers := s.workers - {w}))
    case _ => None
  }

  ghost predicate FreshTasks(s: State, picks: map<BundleId, TaskId>) {
    && (forall b | b in picks :: picks[b] !in s.tasks)
    && forall b, c | b in picks && c in picks && b != c :: picks[b] != picks[c]
  }

  ghost function Picked(picks: map<BundleId, TaskId>, t: TaskId): (b: BundleId)
    requires t in picks.Values
    ensures b in picks && picks[b] == t
  {
    var b :| b in picks && picks[b] == t;
    b
  }

  function ClaimBundles(bundles: map<BundleId, Bundle>, picks: map<BundleId, TaskId>, w: Owner, now: int)
    : map<BundleId, Bundle>
  {
    map b | b in bundles ::
      if b in picks then ClaimBundle(Expire(bundles[b], now), Claim(b, w, now + CLAIM_MILLIS), picks[b])
      else Expire(bundles[b], now)
  }

  ghost function ClaimTasks(bundles: map<BundleId, Bundle>, picks: map<BundleId, TaskId>, w: Owner, now: int)
    : map<TaskId, Task>
    requires picks.Keys <= bundles.Keys
  {
    map t | t in picks.Values ::
      Task(Claim(Picked(picks, t), w, now + CLAIM_MILLIS), bundles[Picked(picks, t)].attempts, Waiting, None)
  }

  // The bundle after a retry that is not fenced.
  function Retried(s: State, t: TaskId): Bundle
    requires t in s.tasks && s.tasks[t].now.Some? && s.tasks[t].claim.bundle in s.bundles
  {
    FailRetryable(s.bundles[s.tasks[t].claim.bundle],
                  s.tasks[t].now.value + RetryDelaySeconds(s.tasks[t].attempts) * 1_000)
  }

  ghost function TaskStep(s: State, a: Action): Option<State> {
    match a
    case ReadClock(t) =>
      if t in s.tasks then Some(s.(tasks := s.tasks[t := s.tasks[t].(now := Some(s.clock))])) else None
    case Renew(t, granted) =>
      // The renewal that follows the slot and the memory reservation is the last one before loading.
      if Ready(s, t, Waiting) || Ready(s, t, Sending) || Ready(s, t, AwaitingAck) then
        var (claim, now) := (s.tasks[t].claim, s.tasks[t].now.value);
        if HoldsAt(s.bundles, claim, now) then
          var claim' := claim.(expires := now + CLAIM_MILLIS);
          var renewed := s.tasks[t].(claim := claim', now := None,
                                     phase := if s.tasks[t].phase.Waiting? && granted then Holding else s.tasks[t].phase);
          var bundle := RenewBundle(s.bundles[claim.bundle], claim', t);
          Some(WithBundle(s, claim.bundle, bundle).(tasks := s.tasks[t := renewed]))
        else Some(Fenced(s, t))
      else None
    case Load(t, wellFormed) =>
      if Ready(s, t, Holding) then
        var (claim, now) := (s.tasks[t].claim, s.tasks[t].now.value);
        if !HoldsAt(s.bundles, claim, now) then Some(End(s, t))
        else if wellFormed then Some(Enter(s, t, Preparing))
        else Some(End(WithBundle(s, claim.bundle, FailTerminal(s.bundles[claim.bundle])), t))
      else None
    case Prepare(t, fits) =>
      if fits then if AtPhase(s, t, Preparing) then Some(Enter(s, t, Recipients)) else None
      else if Ready(s, t, Preparing) then
        var (claim, now) := (s.tasks[t].claim, s.tasks[t].now.value);
        if !HoldsAt(s.bundles, claim, now) then Some(End(s, t))
        else Some(End(WithBundle(s, claim.bundle, FailTerminal(s.bundles[claim.bundle])), t))
      else None
    case Snapshot(t, anyone) =>
      if AtPhase(s, t, Recipients) then Some(Enter(s, t, if anyone then Sending else Retrying)) else None
    case FinishSends(t, anyOk) =>
      if AtPhase(s, t, Sending) then Some(Enter(s, t, if anyOk then AwaitingAck else Retrying)) else None
    case Observe(t) =>
      if AtPhase(s, t, SendingFenced) && s.tasks[t].claim.bundle in s.bundles then
        // A fenced sender goes on only when the bundle has been delivered.
        Some(if s.bundles[s.tasks[t].claim.bundle].state.Delivered? then Enter(s, t, Sending) else End(s, t))
      else if AtPhase(s, t, AwaitingAck) && s.tasks[t].claim.bundle in s.bundles
              && s.bundles[s.tasks[t].claim.bundle].state.Delivered?
      then Some(End(s, t))
      else None
    case GiveUpWaiting(t) => if AtPhase(s, t, AwaitingAck) then Some(Enter(s, t, Retrying)) else None
    case Retry(t) =>
      if Ready(s, t, Retrying) then
        var (claim, now) := (s.tasks[t].claim, s.tasks[t].now.value);
        if HoldsAt(s.bundles, claim, now) then Some(End(WithBundle(s, claim.bundle, Retried(s, t)), t))
        else Some(End(s, t))
      else None
    case Drop(t) => if t in s.tasks then Some(End(s, t)) else None
    case _ => None
  }

  ghost function Next(s: State, a: Action): Option<State> {
    match a
    case Tick(_) => WorkerStep(s, a)
    case Create(_) => WorkerStep(s, a)
    case StartWorker(_) => WorkerStep(s, a)
    case ReadWorkerClock(_) => WorkerStep(s, a)
    case ClaimReady(_, _) => WorkerStep(s, a)
    case Acknowledge(_) => WorkerStep(s, a)
    case RecoverStartup => WorkerStep(s, a)
    case Shutdown(_) => WorkerStep(s, a)
    case _ => TaskStep(s, a)
  }

  ghost function Stepper(): (State, Action) -> Option<State> {
    (s: State, a: Action) => Next(s, a)
  }

  // ---------------------------------------------------------------- the invariant

  predicate On(s: State, t: TaskId, b: BundleId) {
    t in s.tasks && s.tasks[t].claim.bundle == b
  }

  predicate Holder(s: State, t: TaskId) {
    t in s.tasks && s.tasks[t].claim.bundle in s.bundles && Active(s.bundles[s.tasks[t].claim.bundle], s.tasks[t].claim)
  }

  // A claim was taken or renewed no later than the task's reading and the clock.
  ghost predicate TaskOk(s: State, t: TaskId)
    requires t in s.tasks
  {
    var task := s.tasks[t];
    && task.claim.bundle in s.bundles
    && task.claim.expires <= s.clock + CLAIM_MILLIS
    && (task.now.Some? ==> task.claim.expires <= task.now.value + CLAIM_MILLIS && task.now.value <= s.clock)
  }

  // Everybody but the holder has a claim that ended before the active one began.
  ghost predicate BundleOk(s: State, b: BundleId)
    requires b in s.bundles
  {
    match s.bundles[b].state
    case Pending => forall t :: !On(s, t, b)
    case Delivering(owner, expires) =>
      && expires <= s.clock + CLAIM_MILLIS
      && (forall t | On(s, t, b) :: Holder(s, t) || s.tasks[t].claim.expires + CLAIM_MILLIS <= expires)
      && LastGrant(s.bundles[b]).Some? && LastGrant(s.bundles[b]).value.claim == Claim(b, owner, expires)
      && (forall t | On(s, t, b) && Holder(s, t) :: LastGrant(s.bundles[b]).value.task == t)
      && (forall t | On(s, t, b) && Holder(s, t) :: s.tasks[t].attempts == s.bundles[b].attempts)
    case FailedRetryable(next) => forall t | On(s, t, b) :: s.tasks[t].claim.expires <= next
    case _ => true
  }

  function LastGrant(bundle: Bundle): Option<Grant> {
    if bundle.grants == [] then None else Some(bundle.grants[|bundle.grants| - 1])
  }

  predicate Balanced(bundle: Bundle) {
    bundle.attempts == bundle.retried + bundle.expired + bundle.failed + bundle.acked
                       + if bundle.state.Delivering? then 1 else 0
  }

  ghost predicate Inv(s: State) {
    && (forall t | t in s.tasks :: TaskOk(s, t))
    && (forall b | b in s.bundles :: BundleOk(s, b) && Balanced(s.bundles[b]))
    && (forall w | w in s.workers && s.workers[w].Some? :: s.workers[w].value <= s.clock)
  }

  // ---------------------------------------------------------------- each step keeps it

  // Nothing about a bundle depends on the phase and the reading of a task.
  ghost predicate SameClaims(s: State, s': State, b: BundleId) {
    forall t :: On(s', t, b) ==> On(s, t, b) && s'.tasks[t].claim == s.tasks[t].claim && s'.tasks[t].attempts == s.tasks[t].attempts
  }

  lemma BundleStaysOk(s: State, s': State, b: BundleId)
    requires b in s.bundles && b in s'.bundles && s'.bundles[b] == s.bundles[b]
    requires BundleOk(s, b) && SameClaims(s, s', b) && s.clock <= s'.clock
    ensures BundleOk(s', b)
  {
    forall t | On(s', t, b) ensures Holder(s', t) == Holder(s, t) {}
  }

  // A task changes its phase or ends; nothing else happens.
  lemma TaskOnly(s: State, s': State, t: TaskId)
    requires Inv(s) && t in s.tasks
    requires s' == s.(tasks := s'.tasks)
    requires s'.tasks.Keys <= s.tasks.Keys && forall u | u in s'.tasks && u != t :: s'.tasks[u] == s.tasks[u]
    requires t in s'.tasks ==> s'.tasks[t].claim == s.tasks[t].claim && s'.tasks[t].attempts == s.tasks[t].attempts
                               && (s'.tasks[t].now.None? || s'.tasks[t].now == Some(s.clock))
    ensures Inv(s')
  {
    forall b | b in s'.bundles ensures BundleOk(s', b) { BundleStaysOk(s, s', b); }
  }

  // The holder ends the claim of its bundle and is gone.
  lemma HolderEnds(s: State, t: TaskId, bundle: Bundle)
    requires Inv(s) && t in s.tasks && s.tasks[t].now.Some?
    requires HoldsAt(s.bundles, s.tasks[t].claim, s.tasks[t].now.value)
    requires Balanced(bundle)
    requires bundle.state.FailedTerminal? || (bundle.state.FailedRetryable? && bundle.state.next >= s.tasks[t].now.value)
    ensures Inv(End(WithBundle(s, s.tasks[t].claim.bundle, bundle), t))
  {
    var own := s.tasks[t].claim.bundle;
    var s' := End(WithBundle(s, own, bundle), t);
    assert BundleOk(s, own);
    forall b | b in s'.bundles ensures BundleOk(s', b) && Balanced(s'.bundles[b]) {
      if b != own {
        BundleStaysOk(s, s', b);
      } else if bundle.state.FailedRetryable? {
        forall u | On(s', u, own) ensures s'.tasks[u].claim.expires <= bundle.state.next {
          assert On(s, u, own) && On(s, t, own) && u != t;
        }
      }
    }
  }

  lemma RenewKeeps(s: State, t: TaskId, granted: bool)
    requires Inv(s) && Next(s, Renew(t, granted)).Some?
    ensures Inv(Next(s, Renew(t, granted)).value)
  {
    var s' := Next(s, Renew(t, granted)).value;
    var (claim, now) := (s.tasks[t].claim, s.tasks[t].now.value);
    if HoldsAt(s.bundles, claim, now) {
      assert BundleOk(s, claim.bundle);
      forall b | b in s'.bundles ensures BundleOk(s', b) && Balanced(s'.bundles[b]) {
        if b != claim.bundle {
          BundleStaysOk(s, s', b);
        } else {
          RenewedBundleOk(s, s', t);
        }
      }
    } else {
      TaskOnly(s, s', t);
    }
  }

  lemma RenewedBundleOk(s: State, s': State, t: TaskId)
    requires Inv(s) && t in s.tasks && s.tasks[t].now.Some?
    requires HoldsAt(s.bundles, s.tasks[t].claim, s.tasks[t].now.value)
    requires t in s'.tasks && s'.tasks == s.tasks[t := s'.tasks[t]] && s'.tasks[t].attempts == s.tasks[t].attempts
    requires var (claim, until) := (s.tasks[t].claim, s.tasks[t].now.value + CLAIM_MILLIS);
      && s'.tasks[t].claim == claim.(expires := until) && s'.clock == s.clock
      && s'.bundles == s.bundles[claim.bundle := RenewBundle(s.bundles[claim.bundle], s'.tasks[t].claim, t)]
    ensures BundleOk(s', s.tasks[t].claim.bundle)
  {
    var b := s.tasks[t].claim.bundle;
    assert BundleOk(s, b) && TaskOk(s, t) && On(s, t, b);
    forall u | On(s', u, b) && u != t
      ensures !Holder(s', u) && s'.tasks[u].claim.expires + CLAIM_MILLIS <= s'.bundles[b].state.expires
    {
      assert On(s, u, b);
    }
  }

  lemma LoadKeeps(s: State, t: TaskId, wellFormed: bool)
    requires Inv(s) && Next(s, Load(t, wellFormed)).Some?
    ensures Inv(Next(s, Load(t, wellFormed)).value)
  {
    if HoldsAt(s.bundles, s.tasks[t].claim, s.tasks[t].now.value) && !wellFormed {
      HolderEnds(s, t, FailTerminal(s.bundles[s.tasks[t].claim.bundle]));
    } else {
      TaskOnly(s, Next(s, Load(t, wellFormed)).value, t);
    }
  }

  lemma PrepareKeeps(s: State, t: TaskId, fits: bool)
    requires Inv(s) && Next(s, Prepare(t, fits)).Some?
    ensures Inv(Next(s, Prepare(t, fits)).value)
  {
    if !fits && HoldsAt(s.bundles, s.tasks[t].claim, s.tasks[t].now.value) {
      HolderEnds(s, t, FailTerminal(s.bundles[s.tasks[t].claim.bundle]));
    } else {
      TaskOnly(s, Next(s, Prepare(t, fits)).value, t);
    }
  }

  lemma FailedIsBalanced(bundle: Bundle, next: int)
    requires Balanced(bundle) && bundle.state.Delivering?
    ensures Balanced(FailRetryable(bundle, next)) && Balanced(FailTerminal(bundle))
  {}

  lemma RetryStep(s: State, t: TaskId)
    requires Next(s, Retry(t)).Some?
    ensures t in s.tasks && s.tasks[t].now.Some?
    ensures Next(s, Retry(t)).value
         == if HoldsAt(s.bundles, s.tasks[t].claim, s.tasks[t].now.value)
            then End(WithBundle(s, s.tasks[t].claim.bundle, Retried(s, t)), t) else End(s, t)
  {}

  lemma EndKeeps(s: State, t: TaskId)
    requires Inv(s) && t in s.tasks
    ensures Inv(End(s, t))
  {
    TaskOnly(s, End(s, t), t);
  }

  lemma RetryKeeps(s: State, t: TaskId)
    requires Inv(s) && Next(s, Retry(t)).Some?
    ensures Inv(Next(s, Retry(t)).value)
  {
    RetryStep(s, t);
    if HoldsAt(s.bundles, s.tasks[t].claim, s.tasks[t].now.value) {
      var bundle := s.bundles[s.tasks[t].claim.bundle];
      FailedIsBalanced(bundle, Retried(s, t).state.next);
      HolderEnds(s, t, Retried(s, t));
    } else {
      EndKeeps(s, t);
    }
  }

  lemma TaskStepKeeps(s: State, a: Action)
    requires Inv(s) && TaskStep(s, a).Some? && TaskStep(s, a) == Next(s, a)
    ensures Inv(TaskStep(s, a).value)
  {
    match a
    case Renew(t, granted) => RenewKeeps(s, t, granted);
    case Load(t, wellFormed) => LoadKeeps(s, t, wellFormed);
    case Prepare(t, fits) => PrepareKeeps(s, t, fits);
    case Retry(t) => RetryKeeps(s, t);
    case _ => PrivateStepKeeps(s, a);
  }

  lemma PrivateStepKeeps(s: State, a: Action)
    requires Inv(s) && TaskStep(s, a).Some? && !a.Renew? && !a.Load? && !a.Prepare? && !a.Retry?
    ensures Inv(TaskStep(s, a).value)
  {
    TaskOnly(s, TaskStep(s, a).value, a.t);
  }

  lemma TickKeeps(s: State, millis: nat)
    requires Inv(s)
    ensures Inv(s.(clock := s.clock + millis))
  {
    var s' := s.(clock := s.clock + millis);
    forall b | b in s'.bundles ensures BundleOk(s', b) { BundleStaysOk(s, s', b); }
  }

  lemma CreateKeeps(s: State, b: BundleId)
    requires Inv(s) && b !in s.bundles
    ensures Inv(WithBundle(s, b, Bundle(Pending, 0, 0, 0, 0, 0, [])))
  {
    var s' := WithBundle(s, b, Bundle(Pending, 0, 0, 0, 0, 0, []));
    forall t ensures !On(s, t, b) { if t in s.tasks { assert TaskOk(s, t); } }
    forall c | c in s'.bundles ensures BundleOk(s', c) {
      if c != b { BundleStaysOk(s, s', c); }
    }
  }

  lemma WorkersOnly(s: State, workers: map<Owner, Option<int>>)
    requires Inv(s) && forall w | w in workers && workers[w].Some? :: workers[w].value <= s.clock
    ensures Inv(s.(workers := workers))
  {
    var s' := s.(workers := workers);
    forall b | b in s'.bundles ensures BundleOk(s', b) { BundleStaysOk(s, s', b); }
  }

  lemma AcknowledgeKeeps(s: State, b: BundleId)
    requires Inv(s) && Next(s, Acknowledge(b)).Some?
    ensures Inv(Next(s, Acknowledge(b)).value)
  {
    var s' := Next(s, Acknowledge(b)).value;
    forall c | c in s'.bundles ensures BundleOk(s', c) && Balanced(s'.bundles[c]) {
      if c != b { BundleStaysOk(s, s', c); }
    }
  }

  lemma ExpiredBundleOk(s: State, s': State, b: BundleId, now: int)
    requires Inv(s) && b in s.bundles && now <= s.clock
    requires b in s'.bundles && s'.bundles[b] == Expire(s.bundles[b], now)
    requires SameClaims(s, s', b) && s.clock == s'.clock
    ensures BundleOk(s', b) && Balanced(s'.bundles[b])
  {
    if Expire(s.bundles[b], now) == s.bundles[b] { BundleStaysOk(s, s', b); }
  }

  lemma RecoverStartupKeeps(s: State)
    requires Inv(s)
    ensures Inv(Next(s, RecoverStartup).value)
  {
    var s' := Next(s, RecoverStartup).value;
    forall b | b in s'.bundles ensures BundleOk(s', b) && Balanced(s'.bundles[b]) {
      ExpiredBundleOk(s, s', b, s.clock);
    }
  }

  lemma ShutdownKeeps(s: State, w: Owner)
    requires Inv(s)
    ensures Inv(Next(s, Shutdown(w)).value)
  {
    var s' := Next(s, Shutdown(w)).value;
    forall b | b in s'.bundles ensures BundleOk(s', b) && Balanced(s'.bundles[b]) {
      assert BundleOk(s, b);
      if s'.bundles[b] == s.bundles[b] {
        BundleStaysOk(s, s', b);
      } else {
        forall t | On(s', t, b) ensures s'.tasks[t].claim.expires <= s.clock { assert On(s, t, b) && !Holder(s, t); }
      }
    }
  }

  // A claimed bundle: its new task holds it, and every older one had its time before.
  lemma ClaimedBundleOk(s: State, s': State, b: BundleId, t: TaskId, owner: Owner, now: int)
    requires Inv(s) && b in s.bundles && now <= s.clock && s.clock == s'.clock
    requires Claimable(Expire(s.bundles[b], now), now)
    requires b in s'.bundles
    requires s'.bundles[b] == ClaimBundle(Expire(s.bundles[b], now), Claim(b, owner, now + CLAIM_MILLIS), t)
    requires t !in s.tasks && t in s'.tasks && s'.tasks[t].claim == Claim(b, owner, now + CLAIM_MILLIS)
    requires s'.tasks[t].attempts == s'.bundles[b].attempts
    requires forall u | On(s', u, b) && u != t :: On(s, u, b) && s'.tasks[u] == s.tasks[u]
    ensures BundleOk(s', b) && Balanced(s'.bundles[b])
  {
    assert BundleOk(s, b);
    forall u | On(s', u, b) && u != t ensures s'.tasks[u].claim.expires <= now { assert On(s, u, b); }
  }

  lemma PickedTask(bundles: map<BundleId, Bundle>, picks: map<BundleId, TaskId>, w: Owner, now: int, b: BundleId)
    requires picks.Keys <= bundles.Keys && b in picks
    requires forall c, d | c in picks && d in picks && c != d :: picks[c] != picks[d]
    ensures var tasks := ClaimTasks(bundles, picks, w, now);
      && picks[b] in tasks
      && tasks[picks[b]] == Task(Claim(b, w, now + CLAIM_MILLIS), bundles[b].attempts, Waiting, None)
  {
    assert picks[b] in picks.Values;
    assert Picked(picks, picks[b]) == b;
  }

  lemma NewTasksOn(bundles: map<BundleId, Bundle>, picks: map<BundleId, TaskId>, w: Owner, now: int, t: TaskId)
    requires picks.Keys <= bundles.Keys && t in ClaimTasks(bundles, picks, w, now)
    ensures var b := ClaimTasks(bundles, picks, w, now)[t].claim.bundle; b in picks && picks[b] == t
  {}

  lemma ClaimBundlesOk(s: State, s': State, w: Owner, picks: map<BundleId, TaskId>, now: int, b: BundleId)
    requires Inv(s) && now <= s.clock && s'.clock == s.clock && FreshTasks(s, picks)
    requires forall c | c in picks :: c in s.bundles && Claimable(Expire(s.bundles[c], now), now)
    requires s'.bundles == ClaimBundles(s.bundles, picks, w, now)
    requires s'.tasks == s.tasks + ClaimTasks(s'.bundles, picks, w, now)
    requires b in s.bundles
    ensures BundleOk(s', b) && Balanced(s'.bundles[b])
  {
    var fresh' := ClaimTasks(s'.bundles, picks, w, now);
    forall t | On(s', t, b) && t !in s.tasks ensures b in picks && picks[b] == t {
      NewTasksOn(s'.bundles, picks, w, now, t);
    }
    forall t | t in s.tasks ensures t !in fresh' {
      if t in fresh' { NewTasksOn(s'.bundles, picks, w, now, t); }
    }
    if b in picks {
      PickedTask(s'.bundles, picks, w, now, b);
      ClaimedBundleOk(s, s', b, picks[b], w, now);
    } else {
      ExpiredBundleOk(s, s', b, now);
    }
  }

  lemma ClaimReadyKeeps(s: State, w: Owner, picks: map<BundleId, TaskId>)
    requires Inv(s) && Next(s, ClaimReady(w, picks)).Some?
    ensures Inv(Next(s, ClaimReady(w, picks)).value)
  {
    var s' := Next(s, ClaimReady(w, picks)).value;
    var now := s.workers[w].value;
    forall b | b in s'.bundles ensures BundleOk(s', b) && Balanced(s'.bundles[b]) {
      ClaimBundlesOk(s, s', w, picks, now, b);
    }
    ClaimTasksOk(s, s', w, picks, now);
  }

  lemma ClaimTasksOk(s: State, s': State, w: Owner, picks: map<BundleId, TaskId>, now: int)
    requires Inv(s) && now <= s.clock && s'.clock == s.clock
    requires picks.Keys <= s.bundles.Keys && s'.bundles == ClaimBundles(s.bundles, picks, w, now)
    requires s'.tasks == s.tasks + ClaimTasks(s'.bundles, picks, w, now)
    ensures forall t | t in s'.tasks :: TaskOk(s', t)
  {
    forall t | t in s'.tasks ensures TaskOk(s', t) {
      if t in ClaimTasks(s'.bundles, picks, w, now) {
        NewTasksOn(s'.bundles, picks, w, now, t);
      } else {
        assert TaskOk(s, t);
      }
    }
  }

  lemma WorkerStepKeeps(s: State, a: Action)
    requires Inv(s) && WorkerStep(s, a).Some? && WorkerStep(s, a) == Next(s, a)
    ensures Inv(WorkerStep(s, a).value)
  {
    match a
    case Tick(millis) => TickKeeps(s, millis);
    case Create(b) => CreateKeeps(s, b);
    case StartWorker(w) => WorkersOnly(s, s.workers[w := None]);
    case ReadWorkerClock(w) => WorkersOnly(s, s.workers[w := Some(s.clock)]);
    case ClaimReady(w, picks) => ClaimReadyKeeps(s, w, picks);
    case Acknowledge(b) => AcknowledgeKeeps(s, b);
    case RecoverStartup => RecoverStartupKeeps(s);
    case Shutdown(w) => ShutdownKeeps(s, w);
    case _ =>
  }

  lemma NextKeepsInv(s: State, a: Action)
    requires Inv(s) && Next(s, a).Some?
    ensures Inv(Next(s, a).value)
  {
    if Next(s, a) == WorkerStep(s, a) { WorkerStepKeeps(s, a); } else { TaskStepKeeps(s, a); }
  }

  // ---------------------------------------------------------------- every run

  const START: State := State(0, map[], map[], map[])

  lemma ReachableInv(actions: seq<Action>)
    requires Execute(Stepper(), START, actions).Some?
    ensures Inv(Execute(Stepper(), START, actions).value)
  {
    forall s, a {:trigger Stepper()(s, a)} | Inv(s) && Stepper()(s, a).Some? ensures Inv(Stepper()(s, a).value) {
      NextKeepsInv(s, a);
    }
    InvariantOverRun(Stepper(), Inv, START, actions);
  }

  /** In every run at most one living task holds the active claim of a bundle, whatever the others believe. */
  lemma AtMostOneActiveClaim(actions: seq<Action>, t: TaskId, u: TaskId)
    requires Execute(Stepper(), START, actions).Some?
    requires var s := Execute(Stepper(), START, actions).value;
      Holder(s, t) && Holder(s, u) && s.tasks[t].claim.bundle == s.tasks[u].claim.bundle
    ensures t == u
  {
    ReachableInv(actions);
    var s := Execute(Stepper(), START, actions).value;
    var b := s.tasks[t].claim.bundle;
    assert BundleOk(s, b) && On(s, t, b) && On(s, u, b);
  }

  predicate IsDelivered(s: State, b: BundleId) {
    b in s.bundles && s.bundles[b].state.Delivered?
  }

  lemma DeliveredStays(s: State, a: Action, b: BundleId)
    requires Next(s, a).Some? && IsDelivered(s, b)
    ensures IsDelivered(Next(s, a).value, b) && Next(s, a).value.bundles[b] == s.bundles[b]
  {
    if Next(s, a) == TaskStep(s, a) { TaskTouchesOwnBundle(s, a, b); } else { WorkersKeepDelivered(s, a, b); }
  }

  lemma WorkersKeepDelivered(s: State, a: Action, b: BundleId)
    requires WorkerStep(s, a).Some? && IsDelivered(s, b)
    ensures IsDelivered(WorkerStep(s, a).value, b) && WorkerStep(s, a).value.bundles[b] == s.bundles[b]
  {}

  /** Delivered is never left, from any state and in any run. */
  lemma {:induction false} DeliveredIsFinal(s: State, actions: seq<Action>, b: BundleId)
    requires IsDelivered(s, b) && Execute(Stepper(), s, actions).Some?
    ensures var s' := Execute(Stepper(), s, actions).value; IsDelivered(s', b) && s'.bundles[b] == s.bundles[b]
    decreases |actions|
  {
    if actions != [] {
      DeliveredStays(s, actions[0], b);
      DeliveredIsFinal(Next(s, actions[0]).value, actions[1..], b);
    }
  }

  // One, two, four and eight seconds after the first four attempts, thirty after each later one.
  predicate IsRetryDelay(attempts: nat, millis: int) {
    && (attempts <= 1 ==> millis == 1_000) && (attempts == 2 ==> millis == 2_000) && (attempts == 3 ==> millis == 4_000)
    && (attempts == 4 ==> millis == 8_000) && (attempts >= 5 ==> millis == 30_000)
  }

  /** A retry changes its bundle exactly when the attempt is still under way, the last claim that was ever granted on
      the bundle is the one the task has and was granted to this very task, and the task read the clock before that
      claim ended; then the next attempt is due after the delay of the attempt that failed. */
  lemma RetryNeedsActiveClaim(actions: seq<Action>, t: TaskId)
    requires Execute(Stepper(), START, actions).Some?
    requires Next(Execute(Stepper(), START, actions).value, Retry(t)).Some?
    ensures var s := Execute(Stepper(), START, actions).value;
      var (s', b, now) := (Next(s, Retry(t)).value, s.tasks[t].claim.bundle, s.tasks[t].now.value);
      && b in s.bundles && b in s'.bundles
      && (s'.bundles[b] != s.bundles[b] <==>
            && s.bundles[b].state.Delivering? && LastGrant(s.bundles[b]) == Some(Grant(t, s.tasks[t].claim))
            && s.tasks[t].claim.expires > now)
      && (s'.bundles[b] != s.bundles[b] ==>
            && s'.bundles[b].state.FailedRetryable?
            && IsRetryDelay(s.bundles[b].attempts, s'.bundles[b].state.next - now)
            && s'.bundles[b].retried == s.bundles[b].retried + 1)
  {
    ReachableInv(actions);
    var s := Execute(Stepper(), START, actions).value;
    var b := s.tasks[t].claim.bundle;
    assert TaskOk(s, t) && BundleOk(s, b) && On(s, t, b);
  }

  // Nobody holds the bundle; it is due at this time, and the attempt counts as expired.
  predicate GivenBack(bundle: Bundle, bundle': Bundle, due: int) {
    bundle' == bundle.(state := FailedRetryable(due), expired := bundle.expired + 1)
  }

  /** A claim whose end has passed is not lost: a worker whose reading is past it takes the bundle over with a new claim
      for a new task, and a startup recovery gives it back; so does the shutdown of its owner at any time. */
  lemma ClaimsComeBack(s: State, b: BundleId, w: Owner, t: TaskId)
    requires b in s.bundles && s.bundles[b].state.Delivering? && t !in s.tasks
    ensures w in s.workers && s.workers[w].Some? && s.bundles[b].state.expires <= s.workers[w].value ==>
              var r := Next(s, ClaimReady(w, map[b := t]));
              && r.Some? && t in r.value.tasks && Holder(r.value, t)
              && r.value.tasks[t].claim == Claim(b, w, s.workers[w].value + 30_000)
              && r.value.bundles[b].expired == s.bundles[b].expired + 1
    ensures s.bundles[b].state.expires <= s.clock ==>
              var r := Next(s, RecoverStartup);
              r.Some? && b in r.value.bundles && GivenBack(s.bundles[b], r.value.bundles[b], s.clock)
    ensures var (o, r) := (s.bundles[b].state.owner, Next(s, Shutdown(s.bundles[b].state.owner)));
      && r.Some? && b in r.value.bundles && GivenBack(s.bundles[b], r.value.bundles[b], s.clock)
      && forall u | u in r.value.tasks :: r.value.tasks[u].claim.owner != o
  {
    if w in s.workers && s.workers[w].Some? && s.bundles[b].state.expires <= s.workers[w].value {
      TakenOver(s, b, w, t);
    }
  }

  lemma TakenOver(s: State, b: BundleId, w: Owner, t: TaskId)
    requires b in s.bundles && s.bundles[b].state.Delivering? && t !in s.tasks
    requires w in s.workers && s.workers[w].Some? && s.bundles[b].state.expires <= s.workers[w].value
    ensures var r := Next(s, ClaimReady(w, map[b := t]));
      && r.Some? && t in r.value.tasks && Holder(r.value, t)
      && r.value.tasks[t].claim == Claim(b, w, s.workers[w].value + 30_000)
      && r.value.bundles[b].expired == s.bundles[b].expired + 1
  {
    var (now, picks) := (s.workers[w].value, map[b := t]);
    assert |picks| == 1;
    PickedTask(ClaimBundles(s.bundles, picks, w, now), picks, w, now, b);
  }

  // The bundle is new, due for its next attempt, or under a claim that has ended.
  predicate DueAt(bundle: Bundle, now: int) {
    match bundle.state
    case Pending => true
    case FailedRetryable(next) => next <= now
    case Delivering(_, expires) => expires <= now
    case _ => false
  }

  /** A worker gets a bundle exactly when the bundle is due at its reading; the claim is for thirty seconds from the
      reading and counts as one more attempt. */
  lemma ClaimTakesWhatIsDue(s: State, b: BundleId, w: Owner, t: TaskId)
    requires w in s.workers && s.workers[w].Some? && t !in s.tasks
    ensures var (now, r) := (s.workers[w].value, Next(s, ClaimReady(w, map[b := t])));
      && (r.Some? <==> b in s.bundles && DueAt(s.bundles[b], now))
      && (r.Some? ==>
            && t in r.value.tasks && r.value.tasks == s.tasks[t := r.value.tasks[t]]
            && r.value.tasks[t] == Task(Claim(b, w, now + 30_000), s.bundles[b].attempts + 1, Waiting, None)
            && b in r.value.bundles && r.value.bundles[b].state == Delivering(w, now + 30_000)
            && r.value.bundles[b].attempts == s.bundles[b].attempts + 1
            && r.value.workers == s.workers[w := None])
  {
    var (now, picks) := (s.workers[w].value, map[b := t]);
    MayClaim(s, b, w, t);
    if Next(s, ClaimReady(w, picks)).Some? { OneClaimed(s.bundles, b, w, t, now); }
  }

  lemma MayClaim(s: State, b: BundleId, w: Owner, t: TaskId)
    requires w in s.workers && s.workers[w].Some? && t !in s.tasks
    ensures var (now, picks) := (s.workers[w].value, map[b := t]);
      var (r, bundles) := (Next(s, ClaimReady(w, picks)), ClaimBundles(s.bundles, picks, w, now));
      && (r.Some? <==> b in s.bundles && DueAt(s.bundles[b], now))
      && (r.Some? ==>
            r.value == s.(bundles := bundles, tasks := s.tasks + ClaimTasks(bundles, picks, w, now),
                          workers := s.workers[w := None]))
  {
    var picks := map[b := t];
    assert |picks| == 1 && FreshTasks(s, picks);
    assert b in picks && forall c :: c in picks <==> c == b;
  }

  lemma OneClaimed(bundles: map<BundleId, Bundle>, b: BundleId, w: Owner, t: TaskId, now: int)
    requires b in bundles
    ensures var picks := map[b := t];
      var bundles' := ClaimBundles(bundles, picks, w, now);
      && ClaimTasks(bundles', picks, w, now)
         == map[t := Task(Claim(b, w, now + 30_000), bundles[b].attempts + 1, Waiting, None)]
      && b in bundles' && bundles'[b].state == Delivering(w, now + 30_000)
      && bundles'[b].attempts == bundles[b].attempts + 1
  {
    var picks := map[b := t];
    PickedTask(ClaimBundles(bundles, picks, w, now), picks, w, now, b);
    assert picks.Values == {t};
  }

  // The claim the task has is the one on its bundle and has not ended at the task's reading.
  predicate ClaimStands(s: State, t: TaskId) {
    && t in s.tasks && s.tasks[t].now.Some? && s.tasks[t].claim.bundle in s.bundles
    && s.bundles[s.tasks[t].claim.bundle].state == Delivering(s.tasks[t].claim.owner, s.tasks[t].claim.expires)
    && s.tasks[t].now.value < s.tasks[t].claim.expires
  }

  /** A renewal is granted exactly while the claim stands, and then the task and the bundle have it for thirty seconds
      from the reading; otherwise no bundle changes and the task is gone, unless it was sending and looks first. */
  lemma RenewalKeepsStandingClaims(s: State, t: TaskId, granted: bool)
    requires Next(s, Renew(t, granted)).Some?
    ensures var s' := Next(s, Renew(t, granted)).value;
      var (claim, phase, until) := (s.tasks[t].claim, s.tasks[t].phase, s.tasks[t].now.value + 30_000);
      && (ClaimStands(s, t) ==>
            && t in s'.tasks && s'.tasks == s.tasks[t := s'.tasks[t]] && s'.tasks[t].claim == claim.(expires := until)
            && s'.tasks[t].phase == (if phase.Waiting? && granted then Holding else phase)
            && claim.bundle in s'.bundles && s'.bundles == s.bundles[claim.bundle := s'.bundles[claim.bundle]]
            && s'.bundles[claim.bundle].state == Delivering(claim.owner, until)
            && s'.bundles[claim.bundle].attempts == s.bundles[claim.bundle].attempts)
      && (!ClaimStands(s, t) ==>
            && s'.bundles == s.bundles
            && if phase.Sending? then t in s'.tasks && s'.tasks[t] == s.tasks[t].(phase := SendingFenced, now := None)
               else s'.tasks == s.tasks - {t})
  {}

  /** A bundle that cannot be loaded, or does not fit, fails for good exactly while the claim of its task stands, and
      the task is gone in any case; with a good bundle the task goes on exactly while its claim stands. */
  lemma BadBundlesFailForGood(s: State, t: TaskId, good: bool)
    requires t in s.tasks && s.tasks[t].now.Some? && (s.tasks[t].phase.Holding? || (s.tasks[t].phase.Preparing? && !good))
    ensures var (b, r) := (s.tasks[t].claim.bundle, Next(s, if s.tasks[t].phase.Holding? then Load(t, good) else Prepare(t, good)));
      && r.Some?
      && (!good ==>
            && r.value.tasks == s.tasks - {t}
            && if ClaimStands(s, t) then b in r.value.bundles && r.value.bundles == s.bundles[b := r.value.bundles[b]]
                                         && r.value.bundles[b].state.FailedTerminal?
               else r.value.bundles == s.bundles)
      && (good ==>
            && r.value.bundles == s.bundles
            && if ClaimStands(s, t) then t in r.value.tasks && r.value.tasks[t].phase.Preparing?
               else r.value.tasks == s.tasks - {t})
  {}

  // One bundle, one worker and its task, at the start of the clock.
  function Alone(b: BundleId, w: Owner, bundle: Bundle, tasks: map<TaskId, Task>): State {
    State(0, map[b := bundle], tasks, map[w := None])
  }

  function OneTask(b: BundleId, w: Owner, t: TaskId, phase: Phase): map<TaskId, Task> {
    map[t := Task(Claim(b, w, 30_000), 1, phase, None)]
  }

  function UnderWay(b: BundleId, w: Owner, grants: seq<Grant>): Bundle {
    Bundle(Delivering(w, 30_000), 1, 0, 0, 0, 0, grants)
  }

  lemma Overwritten<K, V(!new)>(k: K)
    ensures forall a: V, b: V :: map[k := a][k := b] == map[k := b]
  {}

  /** A bundle can be created, claimed, renewed, loaded, sent and acknowledged, after which no task is left. */
  lemma ABundleCanBeDelivered(b: BundleId, w: Owner, t: TaskId) returns (actions: seq<Action>)
    ensures Execute(Stepper(), START, actions).Some?
    ensures var s := Execute(Stepper(), START, actions).value; IsDelivered(s, b) && s.tasks == map[]
  {
    Overwritten<BundleId, Bundle>(b);
    var claimed, grants := BundleIsClaimed(b, w, t);
    var acked, grants' := ClaimedIsSent(b, w, t, grants);
    var s := Alone(b, w, UnderWay(b, w, grants'), OneTask(b, w, t, AwaitingAck));
    LeadsFurther(Stepper(), START, claimed, Alone(b, w, UnderWay(b, w, grants), OneTask(b, w, t, Waiting)), acked, s);
    actions := claimed + acked;
    var delivered := s.(bundles := map[b := UnderWay(b, w, grants').(state := Delivered, acked := 1)]);
    LeadsOn(Stepper(), START, actions, s, Acknowledge(b), delivered);
    actions := actions + [Acknowledge(b)];
    LeadsOn(Stepper(), START, actions, delivered, Observe(t), End(delivered, t));
    actions := actions + [Observe(t)];
  }

  lemma BundleIsDue(b: BundleId, w: Owner) returns (actions: seq<Action>)
    ensures Leads(Stepper(), START, actions, State(0, map[b := Bundle(Pending, 0, 0, 0, 0, 0, [])], map[], map[w := Some(0)]))
  {
    Overwritten<Owner, Option<int>>(w);
    var created := START.(bundles := map[b := Bundle(Pending, 0, 0, 0, 0, 0, [])]);
    LeadsOn(Stepper(), START, [], START, Create(b), created);
    actions := [] + [Create(b)];
    var started := created.(workers := map[w := None]);
    LeadsOn(Stepper(), START, actions, created, StartWorker(w), started);
    actions := actions + [StartWorker(w)];
    LeadsOn(Stepper(), START, actions, started, ReadWorkerClock(w), started.(workers := map[w := Some(0)]));
    actions := actions + [ReadWorkerClock(w)];
  }

  lemma BundleIsClaimed(b: BundleId, w: Owner, t: TaskId) returns (actions: seq<Action>, grants: seq<Grant>)
    ensures Leads(Stepper(), START, actions, Alone(b, w, UnderWay(b, w, grants), OneTask(b, w, t, Waiting)))
  {
    actions := BundleIsDue(b, w);
    grants := [Grant(t, Claim(b, w, 30_000))];
    var due := State(0, map[b := Bundle(Pending, 0, 0, 0, 0, 0, [])], map[], map[w := Some(0)]);
    DueIsClaimed(due, b, w, t, grants);
    LeadsOn(Stepper(), START, actions, due, ClaimReady(w, map[b := t]),
            Alone(b, w, UnderWay(b, w, grants), OneTask(b, w, t, Waiting)));
    actions := actions + [ClaimReady(w, map[b := t])];
  }

  lemma DueIsClaimed(due: State, b: BundleId, w: Owner, t: TaskId, grants: seq<Grant>)
    requires due == State(0, map[b := Bundle(Pending, 0, 0, 0, 0, 0, [])], map[], map[w := Some(0)])
    requires grants == [Grant(t, Claim(b, w, 30_000))]
    ensures Next(due, ClaimReady(w, map[b := t])) == Some(Alone(b, w, UnderWay(b, w, grants), OneTask(b, w, t, Waiting)))
  {
    MayClaim(due, b, w, t);
    OneClaimed(due.bundles, b, w, t, 0);
    PendingIsClaimed(b, w, t);
    Overwritten<Owner, Option<int>>(w);
    var tasks := OneTask(b, w, t, Waiting);
    assert map[] + tasks == tasks;
  }

  lemma PendingIsClaimed(b: BundleId, w: Owner, t: TaskId)
    ensures ClaimBundles(map[b := Bundle(Pending, 0, 0, 0, 0, 0, [])], map[b := t], w, 0)
         == map[b := UnderWay(b, w, [Grant(t, Claim(b, w, 30_000))])]
  {
    var grants := [Grant(t, Claim(b, w, 30_000))];
    assert [] + grants == grants;
  }

  lemma ClaimedIsSent(b: BundleId, w: Owner, t: TaskId, grants: seq<Grant>)
    returns (actions: seq<Action>, grants': seq<Grant>)
    ensures Leads(Stepper(), Alone(b, w, UnderWay(b, w, grants), OneTask(b, w, t, Waiting)), actions,
                  Alone(b, w, UnderWay(b, w, grants'), OneTask(b, w, t, AwaitingAck)))
  {
    var claimed := Alone(b, w, UnderWay(b, w, grants), OneTask(b, w, t, Waiting));
    grants' := grants + [Grant(t, Claim(b, w, 30_000))];
    var held := Alone(b, w, UnderWay(b, w, grants'), OneTask(b, w, t, Holding));
    actions := HeldIsSent(b, w, t, UnderWay(b, w, grants'));
    ClaimedIsHeld(b, w, t, grants);
    LeadsFurther(Stepper(), claimed, [] + [ReadClock(t)] + [Renew(t, true)], held, actions,
                 held.(tasks := OneTask(b, w, t, AwaitingAck)));
    actions := [] + [ReadClock(t)] + [Renew(t, true)] + actions;
  }

  lemma ClaimedIsHeld(b: BundleId, w: Owner, t: TaskId, grants: seq<Grant>)
    ensures Leads(Stepper(), Alone(b, w, UnderWay(b, w, grants), OneTask(b, w, t, Waiting)),
                  [] + [ReadClock(t)] + [Renew(t, true)],
                  Alone(b, w, UnderWay(b, w, grants + [Grant(t, Claim(b, w, 30_000))]), OneTask(b, w, t, Holding)))
  {
    Overwritten<TaskId, Task>(t);
    Overwritten<BundleId, Bundle>(b);
    var s := Alone(b, w, UnderWay(b, w, grants), OneTask(b, w, t, Waiting));
    var read := s.(tasks := map[t := OneTask(b, w, t, Waiting)[t].(now := Some(0))]);
    LeadsOn(Stepper(), s, [], s, ReadClock(t), read);
    LeadsOn(Stepper(), s, [] + [ReadClock(t)], read, Renew(t, true),
            Alone(b, w, UnderWay(b, w, grants + [Grant(t, Claim(b, w, 30_000))]), OneTask(b, w, t, Holding)));
  }

  lemma HeldIsSent(b: BundleId, w: Owner, t: TaskId, bundle: Bundle) returns (actions: seq<Action>)
    requires bundle.state == Delivering(w, 30_000)
    ensures Leads(Stepper(), Alone(b, w, bundle, OneTask(b, w, t, Holding)), actions,
                  Alone(b, w, bundle, OneTask(b, w, t, AwaitingAck)))
  {
    Overwritten<TaskId, Task>(t);
    var s := Alone(b, w, bundle, OneTask(b, w, t, Holding));
    var read := s.(tasks := map[t := OneTask(b, w, t, Holding)[t].(now := Some(0))]);
    LeadsOn(Stepper(), s, [], s, ReadClock(t), read);
    var loaded := Alone(b, w, bundle, OneTask(b, w, t, Preparing));
    LeadsOn(Stepper(), s, [] + [ReadClock(t)], read, Load(t, true), loaded);
    var more := LoadedIsSent(b, w, t, bundle);
    actions := [] + [ReadClock(t)] + [Load(t, true)];
    LeadsFurther(Stepper(), s, actions, loaded, more, Alone(b, w, bundle, OneTask(b, w, t, AwaitingAck)));
    actions := actions + more;
  }

  lemma LoadedIsSent(b: BundleId, w: Owner, t: TaskId, bundle: Bundle) returns (actions: seq<Action>)
    ensures Leads(Stepper(), Alone(b, w, bundle, OneTask(b, w, t, Preparing)), actions,
                  Alone(b, w, bundle, OneTask(b, w, t, AwaitingAck)))
  {
    Overwritten<TaskId, Task>(t);
    var loaded := Alone(b, w, bundle, OneTask(b, w, t, Preparing));
    var fits := Alone(b, w, bundle, OneTask(b, w, t, Recipients));
    LeadsOn(Stepper(), loaded, [], loaded, Prepare(t, true), fits);
    actions := [] + [Prepare(t, true)];
    var sending := Alone(b, w, bundle, OneTask(b, w, t, Sending));
    LeadsOn(Stepper(), loaded, actions, fits, Snapshot(t, true), sending);
    actions := actions + [Snapshot(t, true)];
    LeadsOn(Stepper(), loaded, actions, sending, FinishSends(t, true),
            Alone(b, w, bundle, OneTask(b, w, t, AwaitingAck)));
    actions := actions + [FinishSends(t, true)];
  }

  // How far a task is from its end.
  function Distance(phase: Phase): nat {
    match phase
    case Waiting => 7
    case Holding => 6
    case Preparing => 5
    case Recipients => 4
    case SendingFenced => 3
    case Sending => 2
    case AwaitingAck => 1
    case Retrying => 0
  }

  // The steps that bring a task on, whatever its bundle is: a store transaction follows a reading of the clock.
  function StepsOn(t: TaskId, phase: Phase): seq<Action> {
    match phase
    case Waiting => [ReadClock(t), Renew(t, true)]
    case Holding => [ReadClock(t), Load(t, true)]
    case Preparing => [Prepare(t, true)]
    case Recipients => [Snapshot(t, true)]
    case SendingFenced => [Observe(t)]
    case Sending => [FinishSends(t, true)]
    case AwaitingAck => [GiveUpWaiting(t)]
    case Retrying => [ReadClock(t), Retry(t)]
  }

  // The task is gone or nearer to its end, with the same bundle.
  ghost predicate Nearer(s: State, s': State, t: TaskId)
    requires t in s.tasks
  {
    t in s'.tasks ==>
      && Distance(s'.tasks[t].phase) < Distance(s.tasks[t].phase)
      && s'.tasks[t].claim.bundle == s.tasks[t].claim.bundle && s.tasks[t].claim.bundle in s'.bundles
  }

  lemma OneStepNearer(s: State, t: TaskId)
    requires t in s.tasks && s.tasks[t].claim.bundle in s.bundles && |StepsOn(t, s.tasks[t].phase)| == 1
    ensures var r := Next(s, StepsOn(t, s.tasks[t].phase)[0]); r.Some? && Nearer(s, r.value, t)
  {}

  lemma TwoStepsNearer(s: State, t: TaskId)
    requires t in s.tasks && s.tasks[t].claim.bundle in s.bundles && |StepsOn(t, s.tasks[t].phase)| == 2
    ensures var m := s.(tasks := s.tasks[t := s.tasks[t].(now := Some(s.clock))]);
      && Next(s, ReadClock(t)) == Some(m)
      && var r := Next(m, StepsOn(t, s.tasks[t].phase)[1]); r.Some? && Nearer(s, r.value, t)
  {}

  /** No task is ever stuck: from any state and whatever became of its claim, it can come to its end without being
      dropped or shut down. */
  lemma {:induction false} EveryTaskCanEnd(s: State, t: TaskId) returns (actions: seq<Action>)
    requires t in s.tasks && s.tasks[t].claim.bundle in s.bundles
    ensures Execute(Stepper(), s, actions).Some? && t !in Execute(Stepper(), s, actions).value.tasks
    ensures Drop(t) !in actions && forall w :: Shutdown(w) !in actions
    decreases Distance(s.tasks[t].phase)
  {
    var steps := StepsOn(t, s.tasks[t].phase);
    var s';
    if |steps| == 1 {
      OneStepNearer(s, t);
      s' := Next(s, steps[0]).value;
      actions := [] + [steps[0]];
      LeadsOn(Stepper(), s, [], s, steps[0], s');
    } else {
      TwoStepsNearer(s, t);
      var m := Next(s, steps[0]).value;
      s' := Next(m, steps[1]).value;
      LeadsOn(Stepper(), s, [], s, steps[0], m);
      LeadsOn(Stepper(), s, [] + [steps[0]], m, steps[1], s');
      actions := [] + [steps[0]] + [steps[1]];
    }
    if t in s'.tasks {
      var more := EveryTaskCanEnd(s', t);
      LeadsFurther(Stepper(), s, actions, s', more, Execute(Stepper(), s', more).value);
      actions := actions + more;
    }
  }

  /** An acknowledgement delivers a bundle that is on its way or waits for its next attempt, and no other. */
  lemma AcknowledgementDelivers(s: State, b: BundleId)
    ensures Next(s, Acknowledge(b)).Some?
            <==> b in s.bundles && (s.bundles[b].state.Delivering? || s.bundles[b].state.FailedRetryable?)
    ensures Next(s, Acknowledge(b)).Some? ==> IsDelivered(Next(s, Acknowledge(b)).value, b)
  {}

  /** Every counted attempt ended in a retry, an expiry, a terminal failure or an acknowledgement, or is under way. */
  lemma AttemptsAreAccountedFor(actions: seq<Action>, b: BundleId)
    requires Execute(Stepper(), START, actions).Some? && b in Execute(Stepper(), START, actions).value.bundles
    ensures Balanced(Execute(Stepper(), START, actions).value.bundles[b])
  {
    ReachableInv(actions);
  }

  // Who may end or move the claim of a task that has not expired.
  ghost predicate MayTouch(s: State, a: Action, t: TaskId)
    requires t in s.tasks
  {
    match a
    case Acknowledge(b) => b == s.tasks[t].claim.bundle
    case Shutdown(w) => w == s.tasks[t].claim.owner
    case ClaimReady(w, _) => w in s.workers && s.workers[w].Some? && s.tasks[t].claim.expires <= s.workers[w].value
    case RecoverStartup => s.tasks[t].claim.expires <= s.clock
    case Renew(u, _) => u == t
    case Load(u, _) => u == t
    case Prepare(u, _) => u == t
    case Retry(u) => u == t
    case _ => false
  }

  /** The bundle under an active claim changes only by its holder, an acknowledgement, the shutdown of its
      owner, or a transaction whose clock reading is past the end of the claim. */
  lemma ClaimsAreRespected(actions: seq<Action>, a: Action, t: TaskId)
    requires Execute(Stepper(), START, actions).Some?
    requires var s := Execute(Stepper(), START, actions).value; Next(s, a).Some? && Holder(s, t) && !MayTouch(s, a, t)
    ensures var s := Execute(Stepper(), START, actions).value;
      var b := s.tasks[t].claim.bundle;
      b in Next(s, a).value.bundles && Next(s, a).value.bundles[b] == s.bundles[b]
  {
    ReachableInv(actions);
    var s := Execute(Stepper(), START, actions).value;
    OnlyTheHolder(s, a, t);
  }

  lemma OnlyTheHolder(s: State, a: Action, t: TaskId)
    requires Inv(s) && Next(s, a).Some? && Holder(s, t) && !MayTouch(s, a, t)
    ensures var b := s.tasks[t].claim.bundle;
      b in Next(s, a).value.bundles && Next(s, a).value.bundles[b] == s.bundles[b]
  {
    if Next(s, a) == WorkerStep(s, a) { WorkersRespect(s, a, t); } else { TasksRespect(s, a, t); }
  }

  lemma WorkersRespect(s: State, a: Action, t: TaskId)
    requires WorkerStep(s, a).Some? && Holder(s, t) && !MayTouch(s, a, t)
    ensures var b := s.tasks[t].claim.bundle;
      b in WorkerStep(s, a).value.bundles && WorkerStep(s, a).value.bundles[b] == s.bundles[b]
  {
    match a
    case ClaimReady(w, picks) => ClaimingRespects(s, w, picks, t);
    case _ =>
  }

  lemma ClaimingRespects(s: State, w: Owner, picks: map<BundleId, TaskId>, t: TaskId)
    requires WorkerStep(s, ClaimReady(w, picks)).Some? && Holder(s, t) && s.workers[w].value < s.tasks[t].claim.expires
    ensures var (b, s') := (s.tasks[t].claim.bundle, WorkerStep(s, ClaimReady(w, picks)).value);
      b in s'.bundles && s'.bundles[b] == s.bundles[b]
  {
    var b := s.tasks[t].claim.bundle;
    assert Expire(s.bundles[b], s.workers[w].value) == s.bundles[b];
  }

  // A task changes no bundle but the one whose active claim it holds.
  lemma TaskTouchesOwnBundle(s: State, a: Action, b: BundleId)
    requires TaskStep(s, a).Some? && b in s.bundles
    ensures b in TaskStep(s, a).value.bundles
    ensures TaskStep(s, a).value.bundles[b] != s.bundles[b] ==>
              (a.Renew? || a.Load? || a.Prepare? || a.Retry?) && On(s, a.t, b) && Holder(s, a.t)
  {}

  lemma TasksRespect(s: State, a: Action, t: TaskId)
    requires Inv(s) && TaskStep(s, a).Some? && Holder(s, t) && !MayTouch(s, a, t)
    ensures var b := s.tasks[t].claim.bundle;
      b in TaskStep(s, a).value.bundles && TaskStep(s, a).value.bundles[b] == s.bundles[b]
  {
    TaskTouchesOwnBundle(s, a, s.tasks[t].claim.bundle);
    if a.Renew? || a.Load? || a.Prepare? || a.Retry? {
      if a.t in s.tasks && a.t != t { OtherTask(s, a.t, t); }
    }
  }

  lemma OtherTask(s: State, u: TaskId, t: TaskId)
    requires Inv(s) && Holder(s, t) && u in s.tasks && u != t
    ensures s.tasks[u].claim.bundle == s.tasks[t].claim.bundle ==> !Holder(s, u)
  {
    var b := s.tasks[t].claim.bundle;
    assert BundleOk(s, b) && On(s, t, b);
    if s.tasks[u].claim.bundle == b { assert On(s, u, b); }
  }
}
