// The recovery metadata of one request: any number of processes locking, loading, writing a temporary file
// and renaming it, each of which may stop at any step, and power losses that may undo unsynced renames.

module RequestMetadata {
  import opened Common
  import opened Runs

  type ProcessId = nat
  type TempId = nat

  datatype Level = Created | SentUnconfirmed | Accepted | Terminal

  datatype Metadata = Metadata(createdAt: int, promptSha256: string, level: Level)

  datatype Operation =
    | Create(createdAt: int, promptSha256: string)
    | SetState(level: Level)
    | SetStateIfPresent(level: Level)

  datatype Phase =
    | Waiting(op: Operation)
    | Locked(op: Operation)
    | Deciding(op: Operation, metadata: Metadata)
    | Temping(op: Operation, metadata: Metadata, temp: TempId)
    | Renamed(op: Operation, metadata: Metadata)

  // A temporary file is torn (None) until it has been written and synced. disk is what the name is sure to
  // mean after a power loss, unsynced what it was renamed to since. The rest is history: what loads returned,
  // what synced writes stored, and the records that calls of create found and acknowledged without writing.
  datatype State = State(
    file: Option<Metadata>,
    disk: Option<Metadata>,
    unsynced: seq<Option<Metadata>>,
    temps: map<TempId, Option<Metadata>>,
    lock: Option<ProcessId>,
    processes: map<ProcessId, Phase>,
    seen: seq<Option<Metadata>>,
    written: seq<Metadata>,
    acknowledged: seq<Metadata>)

  datatype Action =
    | Load
    | Begin(p: ProcessId, op: Operation)
    | Lock(p: ProcessId)
    | LoadLocked(p: ProcessId)
    | OpenTemp(p: ProcessId, temp: TempId)
    | SyncTemp(p: ProcessId)
    | Rename(p: ProcessId)
    | SyncRoot(p: ProcessId)
    | Fail(p: ProcessId)
    | Crash(p: ProcessId)
    | PowerLoss(left: Option<Metadata>)

  function Rank(level: Level): nat {
    match level
    case Created => 0
    case SentUnconfirmed => 1
    case Accepted => 2
    case Terminal => 3
  }

  // ---------------------------------------------------------------- what an operation means

  datatype Effect = Unchanged | Rejected | Write(metadata: Metadata)

  /** The operation as one atomic step on the stored metadata. */
  function Specification(file: Option<Metadata>, op: Operation): Effect {
    match op
    case Create(createdAt, hash) =>
      if file.None? then Write(Metadata(createdAt, hash, Created))
      else if file.value.promptSha256 != hash then Rejected
      else Unchanged
    case SetState(level) =>
      if file.None? || Rank(level) < Rank(file.value.level) then Rejected else Write(file.value.(level := level))
    case SetStateIfPresent(level) =>
      if file.None? then Unchanged
      else if Rank(level) < Rank(file.value.level) then Rejected
      else Write(file.value.(level := level))
  }

  // The order of the states: created, sent unconfirmed, accepted, terminal.
  predicate Precedes(a: Level, b: Level) {
    || (a.Created? && !b.Created?)
    || (a.SentUnconfirmed? && (b.Accepted? || b.Terminal?))
    || (a.Accepted? && b.Terminal?)
  }

  /** What each call does to the stored record: create writes a new record exactly when there is none and refuses
      exactly a record of another prompt; a state change stores exactly that state and keeps the rest, unless there is
      no record or it would move back. */
  lemma OperationsMeanWhatTheySay(file: Option<Metadata>, createdAt: int, hash: string, level: Level)
    ensures var effect := Specification(file, Create(createdAt, hash));
      && (file.None? ==> effect == Write(Metadata(createdAt, hash, Created)))
      && (file.Some? && file.value.promptSha256 == hash ==> effect == Unchanged)
      && (file.Some? && file.value.promptSha256 != hash ==> effect == Rejected)
    ensures var effect := Specification(file, SetState(level));
      && (effect.Rejected? <==> file.None? || Precedes(level, file.value.level))
      && (!effect.Rejected? ==>
            effect == Write(Metadata(file.value.createdAt, file.value.promptSha256, level)))
    ensures Specification(file, SetStateIfPresent(level))
         == if file.None? then Unchanged else Specification(file, SetState(level))
  {}

  // ---------------------------------------------------------------- transitions

  function Enter(s: State, p: ProcessId, phase: Phase): State {
    s.(processes := s.processes[p := phase])
  }

  // A process returns or dies; its lock is free again.
  function Leave(s: State, p: ProcessId): State {
    s.(processes := s.processes - {p}, lock := if s.lock == Some(p) then None else s.lock)
  }

  function Next(s: State, a: Action): Option<State> {
    match a
    case Load => Some(s.(seen := s.seen + [s.file]))
    case Begin(p, op) => if p !in s.processes then Some(Enter(s, p, Waiting(op))) else None
    case Lock(p) =>
      if p in s.processes && s.processes[p].Waiting? && s.lock.None?
      then Some(Enter(s.(lock := Some(p)), p, Locked(s.processes[p].op))) else None
    case LoadLocked(p) =>
      if p in s.processes && s.processes[p].Locked? then
        var op := s.processes[p].op;
        match Specification(s.file, op)
        case Write(metadata) => Some(Enter(s, p, Deciding(op, metadata)))
        case Rejected => Some(Leave(s, p))
        case Unchanged =>
          Some(Leave(if op.Create? then s.(acknowledged := s.acknowledged + [s.file.value]) else s, p))
      else None
    case OpenTemp(p, temp) =>
      if p in s.processes && s.processes[p].Deciding? && temp !in s.temps then
        var s' := s.(temps := s.temps[temp := None]);
        Some(Enter(s', p, Temping(s.processes[p].op, s.processes[p].metadata, temp)))
      else None
    case SyncTemp(p) =>
      if p in s.processes && s.processes[p].Temping?
      then Some(s.(temps := s.temps[s.processes[p].temp := Some(s.processes[p].metadata)])) else None
    case Rename(p) =>
      if p in s.processes && s.processes[p].Temping? && s.processes[p].temp in s.temps
         && s.temps[s.processes[p].temp].Some?
      then
        var temp := s.processes[p].temp;
        var s' := s.(file := s.temps[temp], unsynced := s.unsynced + [s.temps[temp]], temps := s.temps - {temp});
        Some(Enter(s', p, Renamed(s.processes[p].op, s.processes[p].metadata)))
      else None
    case SyncRoot(p) =>
      if p in s.processes && s.processes[p].Renamed?
      then Some(Leave(s.(disk := s.file, unsynced := [], written := s.written + [s.processes[p].metadata]), p)) else None
    case Fail(p) =>
      if p in s.processes then
        var temps := if s.processes[p].Temping? then s.temps - {s.processes[p].temp} else s.temps;
        Some(Leave(s.(temps := temps), p))
      else None
    case Crash(p) => if p in s.processes then Some(Leave(s, p)) else None
    case PowerLoss(left) =>
      if left == s.disk || left in s.unsynced
      then Some(s.(file := left, disk := left, unsynced := [], lock := None, processes := map[])) else None
  }

  ghost function Stepper(): (State, Action) -> Option<State> {
    (s: State, a: Action) => Next(s, a)
  }

  const EMPTY: State := State(None, None, [], map[], None, map[], [], [], [])

  // ---------------------------------------------------------------- the order of stored metadata

  // b is what a may have become: present, the same identity, and not moved back.
  predicate Later(a: Option<Metadata>, b: Option<Metadata>) {
    a.Some? ==>
      && b.Some? && a.value.createdAt == b.value.createdAt && a.value.promptSha256 == b.value.promptSha256
      && Rank(a.value.level) <= Rank(b.value.level)
  }

  lemma SpecificationMovesForward(file: Option<Metadata>, op: Operation)
    ensures Specification(file, op).Write? ==> Later(file, Some(Specification(file, op).metadata))
  {}

  // ---------------------------------------------------------------- the invariant

  ghost predicate ProcessOk(s: State, p: ProcessId)
    requires p in s.processes
  {
    match s.processes[p]
    case Waiting(_) => s.lock != Some(p)
    case Locked(_) => s.lock == Some(p)
    case Deciding(op, metadata) => s.lock == Some(p) && Specification(s.file, op) == Write(metadata)
    case Temping(op, metadata, temp) =>
      && s.lock == Some(p) && Specification(s.file, op) == Write(metadata)
      && temp in s.temps && (s.temps[temp].Some? ==> s.temps[temp] == Some(metadata))
    case Renamed(op, metadata) => s.lock == Some(p) && s.file == Some(metadata)
  }

  ghost predicate Inv(s: State) {
    && (forall p | p in s.processes :: ProcessOk(s, p))
    && (s.lock.Some? ==> s.lock.value in s.processes)
    && Later(s.disk, s.file)
    && (forall m | m in s.unsynced :: Later(s.disk, m) && Later(m, s.file))
    && (forall i | 0 <= i < |s.written| :: Later(Some(s.written[i]), s.disk))
  }

  lemma NextKeepsInv(s: State, a: Action)
    requires Inv(s) && Next(s, a).Some?
    ensures Inv(Next(s, a).value)
  {
    var s' := Next(s, a).value;
    match a
    case Load => SameProcesses(s, s');
    case Rename(p) => RenameKeepsInv(s, p);
    case SyncRoot(p) => SyncRootKeepsInv(s, p);
    case PowerLoss(_) =>
    case _ => OthersStay(s, s', a.p);
  }

  lemma SyncRootKeepsInv(s: State, p: ProcessId)
    requires Inv(s) && Next(s, SyncRoot(p)).Some?
    ensures Inv(Next(s, SyncRoot(p)).value)
  {
    assert ProcessOk(s, p);
    OthersStay(s, Next(s, SyncRoot(p)).value, p);
  }

  lemma RenameKeepsInv(s: State, p: ProcessId)
    requires Inv(s) && Next(s, Rename(p)).Some?
    ensures Inv(Next(s, Rename(p)).value)
  {
    var s' := Next(s, Rename(p)).value;
    assert ProcessOk(s, p);
    SpecificationMovesForward(s.file, s.processes[p].op);
    OthersStay(s, s', p);
    forall m | m in s'.unsynced ensures Later(s'.disk, m) && Later(m, s'.file) {
      if m in s.unsynced { LaterTwice(m, s.file, s'.file); }
    }
  }

  lemma SameProcesses(s: State, s': State)
    requires Inv(s) && s' == s.(seen := s'.seen)
    ensures Inv(s')
  {
    forall p | p in s'.processes ensures ProcessOk(s', p) { assert ProcessOk(s, p); }
  }

  // Only the lock holder depends on the file, so the others do not notice what it does.
  lemma OthersStay(s: State, s': State, p: ProcessId)
    requires Inv(s)
    requires forall q | q in s'.processes && q != p :: q in s.processes && s'.processes[q] == s.processes[q]
    requires s'.lock == s.lock || (s.lock.None? && s'.lock == Some(p)) || (s.lock == Some(p) && s'.lock.None?)
    requires s.lock != Some(p) ==> s'.file == s.file && forall t | t in s.temps :: t in s'.temps && s'.temps[t] == s.temps[t]
    ensures forall q | q in s'.processes && q != p :: ProcessOk(s', q)
  {
    forall q | q in s'.processes && q != p ensures ProcessOk(s', q) { assert ProcessOk(s, q); }
  }

  lemma ReachableInv(actions: seq<Action>)
    requires Execute(Stepper(), EMPTY, actions).Some?
    ensures Inv(Execute(Stepper(), EMPTY, actions).value)
  {
    forall s, a {:trigger Stepper()(s, a)} | Inv(s) && Stepper()(s, a).Some? ensures Inv(Stepper()(s, a).value) {
      NextKeepsInv(s, a);
    }
    InvariantOverRun(Stepper(), Inv, EMPTY, actions);
  }

  // ---------------------------------------------------------------- every run

  /** The file refines the atomic operations: but for a power loss it changes only by a rename, and a rename
      stores exactly what the operation of its process makes of the current file. */
  lemma FileRefinesOperations(actions: seq<Action>, a: Action)
    requires Execute(Stepper(), EMPTY, actions).Some? && !a.PowerLoss?
    requires Next(Execute(Stepper(), EMPTY, actions).value, a).Some?
    ensures var s := Execute(Stepper(), EMPTY, actions).value;
      var s' := Next(s, a).value;
      && (!a.Rename? ==> s'.file == s.file)
      && (a.Rename? ==> var effect := Specification(s.file, s.processes[a.p].op);
            effect.Write? && s'.file == Some(effect.metadata))
  {
    ReachableInv(actions);
    var s := Execute(Stepper(), EMPTY, actions).value;
    if a.Rename? { assert ProcessOk(s, a.p); }
  }

  ghost function ProcessCrashes(): (State, Action) -> Option<State> {
    (s: State, a: Action) => if a.PowerLoss? then None else Next(s, a)
  }

  ghost predicate SeenForward(s: State) {
    && Inv(s)
    && (forall i | 0 <= i < |s.seen| :: Later(s.seen[i], s.file))
    && (forall i, j | 0 <= i < j < |s.seen| :: Later(s.seen[i], s.seen[j]))
  }

  lemma LaterTwice(a: Option<Metadata>, b: Option<Metadata>, c: Option<Metadata>)
    requires Later(a, b) && Later(b, c)
    ensures Later(a, c)
  {}

  lemma FileMovesForward(s: State, a: Action)
    requires Inv(s) && ProcessCrashes()(s, a).Some?
    ensures Later(s.file, Next(s, a).value.file)
  {
    if a.Rename? {
      assert ProcessOk(s, a.p);
      SpecificationMovesForward(s.file, s.processes[a.p].op);
    }
  }

  lemma NextKeepsSeenForward(s: State, a: Action)
    requires SeenForward(s) && ProcessCrashes()(s, a).Some?
    ensures SeenForward(Next(s, a).value)
  {
    var s' := Next(s, a).value;
    NextKeepsInv(s, a);
    FileMovesForward(s, a);
    forall i | 0 <= i < |s'.seen| ensures Later(s'.seen[i], s'.file) {
      if i < |s.seen| { LaterTwice(s.seen[i], s.file, s'.file); }
    }
  }

  /** While the machine stays up, whichever processes die wherever, loads never see the state go back, and the
      creation time and the prompt hash never change once a load has seen them. */
  lemma LoadsNeverGoBack(actions: seq<Action>, i: nat, j: nat)
    requires Execute(ProcessCrashes(), EMPTY, actions).Some?
    requires i <= j < |Execute(ProcessCrashes(), EMPTY, actions).value.seen|
    ensures var seen := Execute(ProcessCrashes(), EMPTY, actions).value.seen; Later(seen[i], seen[j])
  {
    forall s, a {:trigger ProcessCrashes()(s, a)} | SeenForward(s) && ProcessCrashes()(s, a).Some?
      ensures SeenForward(ProcessCrashes()(s, a).value)
    {
      NextKeepsSeenForward(s, a);
    }
    InvariantOverRun(ProcessCrashes(), SeenForward, EMPTY, actions);
  }

  ghost predicate KeptOnDisk(m: Option<Metadata>, s: State) {
    Inv(s) && Later(m, s.disk)
  }

  lemma NextKeepsDisk(m: Option<Metadata>, s: State, a: Action)
    requires KeptOnDisk(m, s) && Next(s, a).Some?
    ensures KeptOnDisk(m, Next(s, a).value)
  {
    NextKeepsInv(s, a);
    LaterTwice(m, s.disk, s.file);
  }

  lemma KeptOverRun(m: Option<Metadata>, s: State, actions: seq<Action>)
    requires KeptOnDisk(m, s) && Execute(Stepper(), s, actions).Some?
    ensures Later(m, Execute(Stepper(), s, actions).value.file)
  {
    forall s, a {:trigger Stepper()(s, a)} | KeptOnDisk(m, s) && Stepper()(s, a).Some?
      ensures KeptOnDisk(m, Stepper()(s, a).value)
    {
      NextKeepsDisk(m, s, a);
    }
    var kept := (s: State) => KeptOnDisk(m, s);
    InvariantOverRun(Stepper(), kept, s, actions);
    var s' := Execute(Stepper(), s, actions).value;
    LaterTwice(m, s'.disk, s'.file);
  }

  lemma OnePowerLoss(s: State)
    ensures Execute(Stepper(), s, [PowerLoss(s.disk)]) == Next(s, PowerLoss(s.disk))
  {
    assert Execute(Stepper(), Next(s, PowerLoss(s.disk)).value, []) == Next(s, PowerLoss(s.disk));
  }

  /** With power losses the same promise holds of what a load sees exactly when the directory entry it was read
      through is already on disk, that is, when the writer has synced the directory. */
  lemma SeenIsKeptExactlyWhenSynced(actions: seq<Action>)
    requires Execute(Stepper(), EMPTY, actions).Some?
    ensures var s := Execute(Stepper(), EMPTY, actions).value;
      Later(s.file, s.disk)
      <==> forall more :: Execute(Stepper(), s, more).Some? ==> Later(s.file, Execute(Stepper(), s, more).value.file)
  {
    ReachableInv(actions);
    var s := Execute(Stepper(), EMPTY, actions).value;
    if Later(s.file, s.disk) {
      forall more | Execute(Stepper(), s, more).Some? ensures Later(s.file, Execute(Stepper(), s, more).value.file) {
        KeptOverRun(s.file, s, more);
      }
    } else {
      OnePowerLoss(s);
      assert !Later(s.file, Execute(Stepper(), s, [PowerLoss(s.disk)]).value.file);
    }
  }

  /** Whatever a call has written and synced stays in the file or has moved forward, through power losses too. */
  lemma WrittenIsKept(actions: seq<Action>, i: nat)
    requires Execute(Stepper(), EMPTY, actions).Some? && i < |Execute(Stepper(), EMPTY, actions).value.written|
    ensures var s := Execute(Stepper(), EMPTY, actions).value; Later(Some(s.written[i]), s.file)
  {
    ReachableInv(actions);
    var s := Execute(Stepper(), EMPTY, actions).value;
    LaterTwice(Some(s.written[i]), s.disk, s.file);
  }

  ghost predicate Recorded(hash: string, file: Option<Metadata>) {
    file.Some? && file.value.promptSha256 == hash
  }

  /** A call of create that finds a record acknowledges it without a sync of its own. The record is there in every
      continuation, power losses included, exactly when its name had been synced before. */
  lemma AcknowledgedIsKeptExactlyWhenSynced(actions: seq<Action>, p: ProcessId)
    requires Execute(Stepper(), EMPTY, actions).Some?
    requires var s := Execute(Stepper(), EMPTY, actions).value;
             && Next(s, LoadLocked(p)).Some?
             && |Next(s, LoadLocked(p)).value.acknowledged| > |s.acknowledged|
    ensures var s := Execute(Stepper(), EMPTY, actions).value;
      var (s', hash) := (Next(s, LoadLocked(p)).value, s.processes[p].op.promptSha256);
      && s.processes[p].op.Create? && Recorded(hash, s'.file)
      && (s.disk.Some? <==> forall more ::
            Execute(Stepper(), s', more).Some? ==> Recorded(hash, Execute(Stepper(), s', more).value.file))
  {
    ReachableInv(actions);
    var s := Execute(Stepper(), EMPTY, actions).value;
    var s' := Next(s, LoadLocked(p)).value;
    var hash := s.processes[p].op.promptSha256;
    NextKeepsInv(s, LoadLocked(p));
    if s.disk.Some? {
      forall more | Execute(Stepper(), s', more).Some? ensures Recorded(hash, Execute(Stepper(), s', more).value.file) {
        KeptOverRun(s.disk, s', more);
      }
    } else {
      OnePowerLoss(s');
      assert !Recorded(hash, Execute(Stepper(), s', [PowerLoss(s'.disk)]).value.file);
    }
  }

  // A record whose name is not yet on disk: created, renamed, and seen by a load.
  lemma UnsyncedRecord(m: Metadata) returns (actions: seq<Action>)
    requires m.level == Created
    ensures var r := Execute(Stepper(), EMPTY, actions);
      && r.Some? && r.value.seen == [] && r.value.acknowledged == [] && r.value.file == Some(m) && r.value.disk.None?
      && r.value.processes.Keys == {0} && r.value.lock == Some(0)
  {
    var op := Create(m.createdAt, m.promptSha256);
    var s1 := Next(EMPTY, Begin(0, op)).value;
    var s2 := Next(s1, Lock(0)).value;
    assert s2.processes[0] == Locked(op) && s2.file == None && s2.disk == None && s2.temps == map[] && s2.seen == []
        && s2.processes.Keys == {0};
    var s3 := Next(s2, LoadLocked(0)).value;
    assert s3.processes[0] == Deciding(op, m) && s3.processes.Keys == {0} && s3.disk == None && s3.temps == map[]
        && s3.seen == [];
    var s4 := Next(s3, OpenTemp(0, 0)).value;
    assert s4.processes[0] == Temping(op, m, 0) && s4.processes.Keys == {0} && s4.disk == None && s4.seen == [];
    var s5 := Next(s4, SyncTemp(0)).value;
    assert s5.processes[0] == Temping(op, m, 0) && s5.processes.Keys == {0} && s5.disk == None
        && s5.temps[0] == Some(m) && s5.seen == [];
    var s6 := Next(s5, Rename(0)).value;
    assert s6.file == Some(m) && s6.processes.Keys == {0} && s6.disk == None && s6.seen == [];
    var a6: seq<Action> := [];
    var a5 := [Rename(0)] + a6;
    var a4 := [SyncTemp(0)] + a5;
    var a3 := [OpenTemp(0, 0)] + a4;
    var a2 := [LoadLocked(0)] + a3;
    var a1 := [Lock(0)] + a2;
    actions := [Begin(0, op)] + a1;
    ExecuteStep(Stepper(), EMPTY, Begin(0, op), a1);
    ExecuteStep(Stepper(), s1, Lock(0), a2);
    ExecuteStep(Stepper(), s2, LoadLocked(0), a3);
    ExecuteStep(Stepper(), s3, OpenTemp(0, 0), a4);
    ExecuteStep(Stepper(), s4, SyncTemp(0), a5);
    ExecuteStep(Stepper(), s5, Rename(0), a6);
  }

  lemma ThreeSteps(s: State, a: Action, b: Action, c: Action)
    requires Next(s, a).Some? && Next(Next(s, a).value, b).Some? && Next(Next(Next(s, a).value, b).value, c).Some?
    ensures Execute(Stepper(), s, [a, b, c]) == Next(Next(Next(s, a).value, b).value, c)
  {
    assert [a, b, c] == [a] + ([b] + ([c] + []));
    ExecuteStep(Stepper(), s, a, [b] + ([c] + []));
    ExecuteStep(Stepper(), Next(s, a).value, b, [c] + []);
    ExecuteStep(Stepper(), Next(Next(s, a).value, b).value, c, []);
  }

  /** A run with a power loss in which a later load no longer finds what an earlier one saw. */
  lemma LoadsMayGoBackAfterPowerLoss() returns (actions: seq<Action>)
    ensures Execute(Stepper(), EMPTY, actions).Some?
    ensures var seen := Execute(Stepper(), EMPTY, actions).value.seen; |seen| == 2 && !Later(seen[0], seen[1])
  {
    var prefix := UnsyncedRecord(Metadata(0, "", Created));
    var s := Execute(Stepper(), EMPTY, prefix).value;
    actions := prefix + [Load, PowerLoss(None), Load];
    ExecuteAppend(Stepper(), EMPTY, prefix, [Load, PowerLoss(None), Load]);
    ThreeSteps(s, Load, PowerLoss(None), Load);
  }

  // After a crash before the sync, a second create finds the record and acknowledges it.
  lemma AcknowledgedUnsynced(m: Metadata) returns (actions: seq<Action>)
    requires m.level == Created
    ensures var r := Execute(Stepper(), EMPTY, actions); r.Some? && r.value.acknowledged == [m] && r.value.disk.None?
  {
    var prefix := UnsyncedRecord(m);
    var op := Create(m.createdAt, m.promptSha256);
    var s := Execute(Stepper(), EMPTY, prefix).value;
    var s1 := Next(s, Crash(0)).value;
    assert s1.processes == map[] && s1.lock.None? && s1.file == Some(m) && s1.disk.None? && s1.acknowledged == [];
    var s2 := Next(s1, Begin(1, op)).value;
    assert s2.processes[1] == Waiting(op);
    var s3 := Next(s2, Lock(1)).value;
    assert s3.processes[1] == Locked(op) && s3.file == Some(m) && s3.disk.None? && s3.acknowledged == [];
    var s4 := Next(s3, LoadLocked(1)).value;
    ThreeSteps(s1, Begin(1, op), Lock(1), LoadLocked(1));
    ExecuteStep(Stepper(), s, Crash(0), [Begin(1, op), Lock(1), LoadLocked(1)]);
    var more := [Crash(0)] + [Begin(1, op), Lock(1), LoadLocked(1)];
    actions := prefix + more;
    ExecuteAppend(Stepper(), EMPTY, prefix, more);
  }

  /** A run in which a power loss takes away a record that a call of create has acknowledged. */
  lemma AcknowledgedRecordMayVanish(m: Metadata) returns (actions: seq<Action>)
    requires m.level == Created
    ensures var r := Execute(Stepper(), EMPTY, actions); r.Some? && r.value.acknowledged == [m] && r.value.file.None?
  {
    var prefix := AcknowledgedUnsynced(m);
    var s := Execute(Stepper(), EMPTY, prefix).value;
    actions := prefix + [PowerLoss(None)];
    OnePowerLoss(s);
    ExecuteAppend(Stepper(), EMPTY, prefix, [PowerLoss(None)]);
  }

  // ---------------------------------------------------------------- calls that finish

  // The call has decided to write and holds the lock.
  function Decided(s: State, p: ProcessId, op: Operation, metadata: Metadata): State {
    s.(lock := Some(p), processes := s.processes[p := Deciding(op, metadata)])
  }

  lemma CallCanDecide(s: State, p: ProcessId, op: Operation)
    requires p !in s.processes && s.lock.None?
    ensures var actions := [] + [Begin(p, op)] + [Lock(p)] + [LoadLocked(p)];
      match Specification(s.file, op)
      case Write(metadata) => Leads(Stepper(), s, actions, Decided(s, p, op, metadata))
      case Rejected => Leads(Stepper(), s, actions, s)
      case Unchanged =>
        Leads(Stepper(), s, actions,
              if op.Create? then s.(acknowledged := s.acknowledged + [s.file.value]) else s)
  {
    var s1 := Next(s, Begin(p, op)).value;
    LeadsOn(Stepper(), s, [], s, Begin(p, op), s1);
    var s2 := Next(s1, Lock(p)).value;
    LeadsOn(Stepper(), s, [] + [Begin(p, op)], s1, Lock(p), s2);
    var s3 := Next(s2, LoadLocked(p)).value;
    LeadsOn(Stepper(), s, [] + [Begin(p, op)] + [Lock(p)], s2, LoadLocked(p), s3);
    assert s2.processes - {p} == s.processes;
    assert forall metadata :: s2.processes[p := Deciding(op, metadata)] == s.processes[p := Deciding(op, metadata)];
  }

  lemma DecidedCanWrite(s: State, p: ProcessId, op: Operation, metadata: Metadata, temp: TempId)
    requires p !in s.processes && s.lock.None? && temp !in s.temps
    ensures Leads(Stepper(), Decided(s, p, op, metadata),
                  [] + [OpenTemp(p, temp)] + [SyncTemp(p)] + [Rename(p)] + [SyncRoot(p)],
                  s.(file := Some(metadata), disk := Some(metadata), unsynced := [], written := s.written + [metadata]))
  {
    var s0 := Decided(s, p, op, metadata);
    var s1 := Next(s0, OpenTemp(p, temp)).value;
    LeadsOn(Stepper(), s0, [], s0, OpenTemp(p, temp), s1);
    var s2 := Next(s1, SyncTemp(p)).value;
    LeadsOn(Stepper(), s0, [] + [OpenTemp(p, temp)], s1, SyncTemp(p), s2);
    var s3 := Next(s2, Rename(p)).value;
    LeadsOn(Stepper(), s0, [] + [OpenTemp(p, temp)] + [SyncTemp(p)], s2, Rename(p), s3);
    var s4 := Next(s3, SyncRoot(p)).value;
    LeadsOn(Stepper(), s0, [] + [OpenTemp(p, temp)] + [SyncTemp(p)] + [Rename(p)], s3, SyncRoot(p), s4);
    assert s4.processes == s.processes && s4.temps == s.temps;
  }

  /** From any state with a free lock a call can finish: what it writes is then in the file and on disk, and whatever it
      decides, no lock, no temporary file and no other change is left. */
  lemma ACallCanFinish(s: State, p: ProcessId, op: Operation, temp: TempId) returns (actions: seq<Action>)
    requires p !in s.processes && s.lock.None? && temp !in s.temps
    ensures match Specification(s.file, op)
            case Write(metadata) =>
              Leads(Stepper(), s, actions,
                    s.(file := Some(metadata), disk := Some(metadata), unsynced := [], written := s.written + [metadata]))
            case Rejected => Leads(Stepper(), s, actions, s)
            case Unchanged =>
              Leads(Stepper(), s, actions,
                    if op.Create? then s.(acknowledged := s.acknowledged + [s.file.value]) else s)
  {
    CallCanDecide(s, p, op);
    actions := [] + [Begin(p, op)] + [Lock(p)] + [LoadLocked(p)];
    match Specification(s.file, op) {
      case Write(metadata) =>
        var more := [] + [OpenTemp(p, temp)] + [SyncTemp(p)] + [Rename(p)] + [SyncRoot(p)];
        DecidedCanWrite(s, p, op, metadata, temp);
        LeadsFurther(Stepper(), s, actions, Decided(s, p, op, metadata), more,
                     s.(file := Some(metadata), disk := Some(metadata), unsynced := [], written := s.written + [metadata]));
        actions := actions + more;
      case _ =>
    }
  }

  /** A write that fails before its rename removes its temporary file and leaves everything as it was. */
  lemma AFailedWriteLeavesNothing(s: State, p: ProcessId, op: Operation, metadata: Metadata, temp: TempId)
    requires p !in s.processes && s.lock.None? && temp !in s.temps
    ensures Leads(Stepper(), Decided(s, p, op, metadata), [] + [OpenTemp(p, temp)] + [SyncTemp(p)] + [Fail(p)], s)
  {
    var s0 := Decided(s, p, op, metadata);
    var s1 := Next(s0, OpenTemp(p, temp)).value;
    LeadsOn(Stepper(), s0, [], s0, OpenTemp(p, temp), s1);
    var s2 := Next(s1, SyncTemp(p)).value;
    LeadsOn(Stepper(), s0, [] + [OpenTemp(p, temp)], s1, SyncTemp(p), s2);
    var s3 := Next(s2, Fail(p)).value;
    LeadsOn(Stepper(), s0, [] + [OpenTemp(p, temp)] + [SyncTemp(p)], s2, Fail(p), s3);
    assert s3.processes == s.processes && s3.temps == s.temps;
  }

  // ---------------------------------------------------------------- one call under the lock

  /** The store as the holder of the request's lock uses it, without interruption. */
  class RequestMetadataStore {
    var file: Option<Metadata>

    constructor ()
      ensures file == None
    {
      file := None;
    }

    method WriteAtomic(metadata: Metadata)
      modifies this
      ensures file == Some(metadata)
    {
      var temporary := Some(metadata);
      file := temporary;
    }

    method CreateRecord(createdAt: int, promptSha256: string) returns (ok: bool)
      modifies this
      ensures ok == !Specification(old(file), Create(createdAt, promptSha256)).Rejected?
      ensures file == match Specification(old(file), Create(createdAt, promptSha256))
                      case Write(metadata) => Some(metadata)
                      case _ => old(file)
      ensures Later(old(file), file)
    {
      var metadata := Metadata(createdAt, promptSha256, Created);
      if file.Some? {
        return file.value.promptSha256 == metadata.promptSha256;
      }
      WriteAtomic(metadata);
      return true;
    }

    method SetStateOf(level: Level, mayBeMissing: bool) returns (ok: bool)
      modifies this
      ensures var op := if mayBeMissing then SetStateIfPresent(level) else SetState(level);
        && ok == !Specification(old(file), op).Rejected?
        && file == match Specification(old(file), op) case Write(metadata) => Some(metadata) case _ => old(file)
      ensures Later(old(file), file)
    {
      if file.None? { return mayBeMissing; }
      var metadata := file.value;
      if Rank(level) < Rank(metadata.level) { return false; }
      metadata := metadata.(level := level);
      WriteAtomic(metadata);
      return true;
    }
  }
}
