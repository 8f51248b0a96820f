// The two nested semaphores that bound final transmissions: a slot, then a memory reservation with a counter
// and its peak beside it. One action is one operation on a semaphore or an atomic counter.

module OutboxBudget {
  import opened Common
  import opened Runs

  type TaskId = nat

  const MAX_BUNDLE_BYTES := 16 * 1024 * 1024
  const TRANSMISSION_CONCURRENCY := 4
  const GLOBAL_CANONICAL_MEMORY_BYTES := 64 * 1024 * 1024
  const MAX_TRANSMISSION_RESERVATION_BYTES := 2 * MAX_BUNDLE_BYTES

  // Raised carries what the counter showed just after the task added its reservation.
  datatype Phase =
    | WaitingForSlot
    | WaitingForMemory
    | Permitted
    | Raised(current: nat)
    | Transmitting
    | Lowered
    | Finishing

  // last is history: what the counter showed after the latest addition.
  datatype State = State(
    slots: int,
    permits: int,
    reserved: int,
    peak: nat,
    last: nat,
    tasks: map<TaskId, Phase>)

  datatype Action =
    | Start(t: TaskId)
    | TakeSlot(t: TaskId)
    | TakeMemory(t: TaskId)
    | RaiseCounter(t: TaskId)
    | RecordPeak(t: TaskId)
    | LowerCounter(t: TaskId)
    | FreeMemory(t: TaskId)
    | FreeSlot(t: TaskId)
    | GiveUp(t: TaskId)

  predicate At(s: State, t: TaskId, phase: Phase) {
    t in s.tasks && s.tasks[t] == phase
  }

  function Enter(s: State, t: TaskId, phase: Phase): State {
    s.(tasks := s.tasks[t := phase])
  }

  function Next(s: State, a: Action): Option<State> {
    match a
    case Start(t) => if t !in s.tasks then Some(Enter(s, t, WaitingForSlot)) else None
    case TakeSlot(t) =>
      if At(s, t, WaitingForSlot) && s.slots >= 1
      then Some(Enter(s.(slots := s.slots - 1), t, WaitingForMemory)) else None
    case TakeMemory(t) =>
      if At(s, t, WaitingForMemory) && s.permits >= MAX_TRANSMISSION_RESERVATION_BYTES
      then Some(Enter(s.(permits := s.permits - MAX_TRANSMISSION_RESERVATION_BYTES), t, Permitted)) else None
    case RaiseCounter(t) =>
      var current := s.reserved + MAX_TRANSMISSION_RESERVATION_BYTES;
      if At(s, t, Permitted) && current >= 0
      then Some(Enter(s.(reserved := current, last := current), t, Raised(current))) else None
    case RecordPeak(t) =>
      if t in s.tasks && s.tasks[t].Raised?
      then Some(Enter(s.(peak := if s.tasks[t].current > s.peak then s.tasks[t].current else s.peak), t, Transmitting))
      else None
    case LowerCounter(t) =>
      if At(s, t, Transmitting)
      then Some(Enter(s.(reserved := s.reserved - MAX_TRANSMISSION_RESERVATION_BYTES), t, Lowered)) else None
    case FreeMemory(t) =>
      if At(s, t, Lowered)
      then Some(Enter(s.(permits := s.permits + MAX_TRANSMISSION_RESERVATION_BYTES), t, Finishing)) else None
    case FreeSlot(t) =>
      if At(s, t, Finishing) then Some(s.(slots := s.slots + 1, tasks := s.tasks - {t})) else None
    case GiveUp(t) =>
      // A fenced or failed task that still waits.
      if At(s, t, WaitingForSlot) then Some(s.(tasks := s.tasks - {t}))
      else if At(s, t, WaitingForMemory) then Some(s.(slots := s.slots + 1, tasks := s.tasks - {t}))
      else None
  }

  ghost function Stepper(): (State, Action) -> Option<State> {
    (s: State, a: Action) => Next(s, a)
  }

  const FULL: State := State(TRANSMISSION_CONCURRENCY, GLOBAL_CANONICAL_MEMORY_BYTES, 0, 0, 0, map[])

  // ---------------------------------------------------------------- who holds what

  predicate HasSlot(phase: Phase) { !phase.WaitingForSlot? }

  predicate HasPermit(phase: Phase) { phase.Permitted? || phase.Raised? || phase.Transmitting? || phase.Lowered? }

  predicate IsCounted(phase: Phase) { phase.Raised? || phase.Transmitting? }

  function SlotHolders(s: State): set<TaskId> { set t | t in s.tasks && HasSlot(s.tasks[t]) }

  function MemoryHolders(s: State): set<TaskId> { set t | t in s.tasks && HasPermit(s.tasks[t]) }

  function Reservations(s: State): set<TaskId> { set t | t in s.tasks && IsCounted(s.tasks[t]) }

  ghost predicate SomeRaised(s: State, current: nat) {
    exists t :: At(s, t, Raised(current))
  }

  ghost predicate Inv(s: State) {
    && Counts(s)
    && s.reserved <= s.last
    && s.last <= GLOBAL_CANONICAL_MEMORY_BYTES && s.peak <= GLOBAL_CANONICAL_MEMORY_BYTES
    && (forall t | t in s.tasks && s.tasks[t].Raised? :: s.tasks[t].current <= GLOBAL_CANONICAL_MEMORY_BYTES)
    && (s.last <= s.peak || SomeRaised(s, s.last))
  }

  // ---------------------------------------------------------------- each step keeps it

  ghost predicate OthersSame(s: State, s': State, t: TaskId) {
    forall u | u != t :: (u in s.tasks <==> u in s'.tasks) && (u in s.tasks ==> s'.tasks[u] == s.tasks[u])
  }

  // One task changes its phase, so at most its own membership changes.
  function Slots(s: State, t: TaskId): int { if t in s.tasks && HasSlot(s.tasks[t]) then 1 else 0 }

  function Permits(s: State, t: TaskId): int { if t in s.tasks && HasPermit(s.tasks[t]) then 1 else 0 }

  function Counted(s: State, t: TaskId): int { if t in s.tasks && IsCounted(s.tasks[t]) then 1 else 0 }

  lemma HoldersChange(s: State, s': State, t: TaskId)
    requires OthersSame(s, s', t)
    ensures |SlotHolders(s')| == |SlotHolders(s)| + Slots(s', t) - Slots(s, t)
    ensures |MemoryHolders(s')| == |MemoryHolders(s)| + Permits(s', t) - Permits(s, t)
    ensures |Reservations(s')| == |Reservations(s)| + Counted(s', t) - Counted(s, t)
  {
    SizeChange(SlotHolders(s), SlotHolders(s'), t);
    SizeChange(MemoryHolders(s), MemoryHolders(s'), t);
    SizeChange(Reservations(s), Reservations(s'), t);
  }

  lemma SizeChange(a: set<TaskId>, b: set<TaskId>, t: TaskId)
    requires forall u | u != t :: u in a <==> u in b
    ensures |b| == |a| + (if t in b then 1 else 0) - (if t in a then 1 else 0)
  {
    assert a - {t} == b - {t};
    assert |a| == |a - {t}| + if t in a then 1 else 0 by { if t !in a { assert a - {t} == a; } }
    assert |b| == |b - {t}| + if t in b then 1 else 0 by { if t !in b { assert b - {t} == b; } }
  }

  // A counted task holds its permit, and a permit holder holds a slot.
  lemma HoldersNest(s: State)
    ensures Reservations(s) <= MemoryHolders(s) <= SlotHolders(s)
    ensures |Reservations(s)| <= |MemoryHolders(s)| <= |SlotHolders(s)|
  {
    Fewer(Reservations(s), MemoryHolders(s));
    Fewer(MemoryHolders(s), SlotHolders(s));
  }

  lemma Fewer(a: set<TaskId>, b: set<TaskId>)
    requires a <= b
    ensures |a| <= |b|
  {
    assert b == a + (b - a);
  }

  lemma PeakEvidence(s: State, s': State, t: TaskId)
    requires s.last <= s.peak || SomeRaised(s, s.last)
    requires OthersSame(s, s', t)
    requires s.peak <= s'.peak && s'.last == s.last
    requires t in s.tasks && s.tasks[t].Raised? ==> s.tasks[t].current <= s'.peak
    ensures s'.last <= s'.peak || SomeRaised(s', s'.last)
  {
    if s.last > s.peak {
      var u :| At(s, u, Raised(s.last));
      if u != t { assert At(s', u, Raised(s.last)); }
    }
  }

  ghost predicate Counts(s: State) {
    && s.slots == TRANSMISSION_CONCURRENCY - |SlotHolders(s)| && s.slots >= 0
    && s.permits == GLOBAL_CANONICAL_MEMORY_BYTES - MAX_TRANSMISSION_RESERVATION_BYTES * |MemoryHolders(s)|
    && s.permits >= 0
    && s.reserved == MAX_TRANSMISSION_RESERVATION_BYTES * |Reservations(s)|
  }

  lemma NextIsOwn(s: State, a: Action)
    requires Next(s, a).Some?
    ensures OthersSame(s, Next(s, a).value, a.t)
  {}

  // Each semaphore and the counter move by what the acting task gains or gives back.
  lemma NextBalances(s: State, a: Action)
    requires Next(s, a).Some?
    ensures var (s', t) := (Next(s, a).value, a.t);
      && s'.slots - s.slots == Slots(s, t) - Slots(s', t)
      && s'.permits - s.permits == MAX_TRANSMISSION_RESERVATION_BYTES * (Permits(s, t) - Permits(s', t))
      && s'.reserved - s.reserved == MAX_TRANSMISSION_RESERVATION_BYTES * (Counted(s', t) - Counted(s, t))
      && (s'.slots >= 0 || s'.slots >= s.slots) && (s'.permits >= 0 || s'.permits >= s.permits)
  {}

  lemma NextKeepsCounts(s: State, a: Action)
    requires Counts(s) && Next(s, a).Some?
    ensures Counts(Next(s, a).value) && OthersSame(s, Next(s, a).value, a.t)
  {
    NextIsOwn(s, a);
    NextBalances(s, a);
    HoldersChange(s, Next(s, a).value, a.t);
  }

  lemma NextKeepsInv(s: State, a: Action)
    requires Inv(s) && Next(s, a).Some?
    ensures Inv(Next(s, a).value)
  {
    var s' := Next(s, a).value;
    NextKeepsCounts(s, a);
    if a.RaiseCounter? {
      HoldersNest(s');
      assert At(s', a.t, Raised(s'.last));
    } else {
      PeakEvidence(s, s', a.t);
    }
  }

  lemma ReachableInv(actions: seq<Action>)
    requires Execute(Stepper(), FULL, actions).Some?
    ensures Inv(Execute(Stepper(), FULL, actions).value)
  {
    assert SlotHolders(FULL) == {} && MemoryHolders(FULL) == {} && Reservations(FULL) == {};
    forall s, a {:trigger Stepper()(s, a)} | Inv(s) && Stepper()(s, a).Some? ensures Inv(Stepper()(s, a).value) {
      NextKeepsInv(s, a);
    }
    InvariantOverRun(Stepper(), Inv, FULL, actions);
  }

  // ---------------------------------------------------------------- every run

  /** In every interleaving the counter and its peak stay within 64 MiB and the counter never goes below what
      the tasks reserved; there are at most four slots and two reservations, and whoever holds memory holds a slot. */
  lemma BudgetHolds(actions: seq<Action>)
    requires Execute(Stepper(), FULL, actions).Some?
    ensures var s := Execute(Stepper(), FULL, actions).value;
      && 0 <= s.reserved <= GLOBAL_CANONICAL_MEMORY_BYTES && s.peak <= GLOBAL_CANONICAL_MEMORY_BYTES
      && s.reserved == MAX_TRANSMISSION_RESERVATION_BYTES * |Reservations(s)|
      && |SlotHolders(s)| <= 4 && |MemoryHolders(s)| <= 2
      && Reservations(s) <= MemoryHolders(s) <= SlotHolders(s)
  {
    ReachableInv(actions);
    HoldersNest(Execute(Stepper(), FULL, actions).value);
  }

  /** Once every task that raised the counter has recorded the peak, the peak covers all that is reserved. */
  lemma PeakCoversReservations(actions: seq<Action>)
    requires Execute(Stepper(), FULL, actions).Some?
    requires var s := Execute(Stepper(), FULL, actions).value; forall t | t in s.tasks :: !s.tasks[t].Raised?
    ensures var s := Execute(Stepper(), FULL, actions).value; s.reserved <= s.peak
  {
    ReachableInv(actions);
  }

  // The step a task takes next when nobody is in its way.
  function Onward(t: TaskId, phase: Phase): Action {
    match phase
    case WaitingForSlot => TakeSlot(t)
    case WaitingForMemory => TakeMemory(t)
    case Permitted => RaiseCounter(t)
    case Raised(_) => RecordPeak(t)
    case Transmitting => LowerCounter(t)
    case Lowered => FreeMemory(t)
    case Finishing => FreeSlot(t)
  }

  /** While a task is unfinished, some task can go on: the nested semaphores do not deadlock. */
  lemma SomeTaskCanGoOn(actions: seq<Action>) returns (t: TaskId)
    requires Execute(Stepper(), FULL, actions).Some? && Execute(Stepper(), FULL, actions).value.tasks != map[]
    ensures var s := Execute(Stepper(), FULL, actions).value; t in s.tasks && Next(s, Onward(t, s.tasks[t])).Some?
  {
    ReachableInv(actions);
    var s := Execute(Stepper(), FULL, actions).value;
    if u :| u in s.tasks && HasSlot(s.tasks[u]) && !s.tasks[u].WaitingForMemory? {
      t := u;
    } else if u :| u in s.tasks && s.tasks[u].WaitingForMemory? {
      t := u;
      assert MemoryHolders(s) == {};
    } else {
      t :| t in s.tasks;
      assert SlotHolders(s) == {};
    }
  }

  // The task stands at this phase, and what it holds is taken from what is free.
  function Beside(s: State, t: TaskId, phase: Phase): State {
    s.(tasks := s.tasks[t := phase],
       slots := s.slots - (if HasSlot(phase) then 1 else 0),
       permits := s.permits - (if HasPermit(phase) then MAX_TRANSMISSION_RESERVATION_BYTES else 0),
       reserved := s.reserved + if IsCounted(phase) then MAX_TRANSMISSION_RESERVATION_BYTES else 0)
  }

  /** From any state with a free slot and free memory a transmission can go through; it gives everything back and leaves
      only its trace in the peak. */
  lemma ATransmissionCanFinish(s: State, t: TaskId) returns (actions: seq<Action>)
    requires t !in s.tasks && s.slots >= 1 && s.permits >= MAX_TRANSMISSION_RESERVATION_BYTES && s.reserved >= 0
    ensures var counter := s.reserved + MAX_TRANSMISSION_RESERVATION_BYTES;
      Leads(Stepper(), s, actions, s.(last := counter, peak := if counter > s.peak then counter else s.peak))
  {
    var counter := s.reserved + MAX_TRANSMISSION_RESERVATION_BYTES;
    var s' := s.(last := counter, peak := if counter > s.peak then counter else s.peak);
    var reserve := MemoryCanBeReserved(s, t);
    var free := MemoryCanBeFreed(s', t);
    LeadsFurther(Stepper(), s, reserve, Beside(s', t, Transmitting), free, s');
    actions := reserve + free;
  }

  lemma MemoryCanBeReserved(s: State, t: TaskId) returns (actions: seq<Action>)
    requires t !in s.tasks && s.slots >= 1 && s.permits >= MAX_TRANSMISSION_RESERVATION_BYTES && s.reserved >= 0
    ensures var counter := s.reserved + MAX_TRANSMISSION_RESERVATION_BYTES;
      Leads(Stepper(), s, actions,
            Beside(s.(last := counter, peak := if counter > s.peak then counter else s.peak), t, Transmitting))
  {
    var counter := s.reserved + MAX_TRANSMISSION_RESERVATION_BYTES;
    actions := MemoryCanBeTaken(s, t);
    var raised := Beside(s.(last := counter), t, Raised(counter));
    PhaseMoves(s, t, Permitted, Raised(counter));
    LeadsOn(Stepper(), s, actions, Beside(s, t, Permitted), RaiseCounter(t), raised);
    actions := actions + [RaiseCounter(t)];
    PhaseMoves(s, t, Raised(counter), Transmitting);
    LeadsOn(Stepper(), s, actions, raised, RecordPeak(t),
            Beside(s.(last := counter, peak := if counter > s.peak then counter else s.peak), t, Transmitting));
    actions := actions + [RecordPeak(t)];
  }

  lemma MemoryCanBeTaken(s: State, t: TaskId) returns (actions: seq<Action>)
    requires t !in s.tasks && s.slots >= 1 && s.permits >= MAX_TRANSMISSION_RESERVATION_BYTES
    ensures Leads(Stepper(), s, actions, Beside(s, t, Permitted))
  {
    LeadsOn(Stepper(), s, [], s, Start(t), Beside(s, t, WaitingForSlot));
    PhaseMoves(s, t, WaitingForSlot, WaitingForMemory);
    PhaseMoves(s, t, WaitingForMemory, Permitted);
    actions := [] + [Start(t)];
    LeadsOn(Stepper(), s, actions, Beside(s, t, WaitingForSlot), TakeSlot(t), Beside(s, t, WaitingForMemory));
    actions := actions + [TakeSlot(t)];
    LeadsOn(Stepper(), s, actions, Beside(s, t, WaitingForMemory), TakeMemory(t), Beside(s, t, Permitted));
    actions := actions + [TakeMemory(t)];
  }

  lemma MemoryCanBeFreed(s: State, t: TaskId) returns (actions: seq<Action>)
    requires t !in s.tasks
    ensures Leads(Stepper(), Beside(s, t, Transmitting), actions, s)
  {
    var first := Beside(s, t, Transmitting);
    PhaseMoves(s, t, Transmitting, Lowered);
    LeadsOn(Stepper(), first, [], first, LowerCounter(t), Beside(s, t, Lowered));
    actions := [] + [LowerCounter(t)];
    PhaseMoves(s, t, Lowered, Finishing);
    LeadsOn(Stepper(), first, actions, Beside(s, t, Lowered), FreeMemory(t), Beside(s, t, Finishing));
    actions := actions + [FreeMemory(t)];
    SlotCanBeFreed(s, t);
    LeadsOn(Stepper(), first, actions, Beside(s, t, Finishing), FreeSlot(t), s);
    actions := actions + [FreeSlot(t)];
  }

  lemma SlotCanBeFreed(s: State, t: TaskId)
    requires t !in s.tasks
    ensures Next(Beside(s, t, Finishing), FreeSlot(t)) == Some(s)
  {
    assert Beside(s, t, Finishing).tasks - {t} == s.tasks;
  }

  lemma PhaseMoves(s: State, t: TaskId, a: Phase, b: Phase)
    ensures Beside(s, t, a).tasks[t := b] == Beside(s, t, b).tasks
  {}

  /** A task that gives up waiting gives back what it holds, a slot or nothing. */
  lemma GivingUpReturnsTheSlot(s: State, t: TaskId)
    requires t !in s.tasks
    ensures Next(Beside(s, t, WaitingForSlot), GiveUp(t)) == Some(s)
    ensures Next(Beside(s, t, WaitingForMemory), GiveUp(t)) == Some(s)
  {
    assert Beside(s, t, WaitingForSlot).tasks - {t} == s.tasks;
    assert Beside(s, t, WaitingForMemory).tasks - {t} == s.tasks;
  }

  // ---------------------------------------------------------------- the budget object

  class TransmissionMemoryBudget {
    var permits: nat
    var reserved: nat
    var peak: nat

    ghost predicate Valid()
      reads this
    {
      && permits + reserved == GLOBAL_CANONICAL_MEMORY_BYTES
      && reserved % MAX_TRANSMISSION_RESERVATION_BYTES == 0
      && reserved <= peak <= GLOBAL_CANONICAL_MEMORY_BYTES
    }

    constructor ()
      ensures Valid() && reserved == 0 && peak == 0
    {
      permits, reserved, peak := GLOBAL_CANONICAL_MEMORY_BYTES, 0, 0;
    }

    /** What one uninterrupted reservation does; granted is false where the source would go on waiting. */
    method ReserveMaxBundle() returns (granted: bool)
      requires Valid()
      modifies this
      ensures Valid()
      ensures granted <==> old(reserved) <= MAX_TRANSMISSION_RESERVATION_BYTES
      ensures reserved == old(reserved) + if granted then MAX_TRANSMISSION_RESERVATION_BYTES else 0
      ensures peak == if reserved > old(peak) then reserved else old(peak)
    {
      if permits < MAX_TRANSMISSION_RESERVATION_BYTES { return false; }
      permits := permits - MAX_TRANSMISSION_RESERVATION_BYTES;
      var current := reserved + MAX_TRANSMISSION_RESERVATION_BYTES;
      reserved := current;
      if current > peak { peak := current; }
      return true;
    }

    /** Dropping a reservation lowers the counter, then gives the permit back; the peak stays. */
    method DropReservation()
      requires Valid() && reserved > 0
      modifies this
      ensures Valid()
      ensures reserved == old(reserved) - MAX_TRANSMISSION_RESERVATION_BYTES && peak == old(peak)
    {
      reserved := reserved - MAX_TRANSMISSION_RESERVATION_BYTES;
      permits := permits + MAX_TRANSMISSION_RESERVATION_BYTES;
    }
  }
}
