// File memory: messages appended by rewriting a file through a temporary one and a rename, with a migration
// from a legacy file, under crashes at any step; loads that run beside it; what a power loss leaves of files that
// are never synced; and the stored form of a message.

module FileMemory {
  import opened Common
  import opened Messages
  import opened Runs

  // ---------------------------------------------------------------- messages and their stored form

  datatype SessionRole = StoredUser | StoredAssistant | StoredSystem | StoredTool

  datatype SessionAttachment = SessionAttachment(id: string, relativePath: string, displayName: string,
                                                 mediaType: string, sizeBytes: nat, sha256: string)

  datatype SessionPart = StoredText(text: string) | StoredAttachment(attachment: SessionAttachment)

  datatype SessionContent = LegacyText(text: string) | Parts(parts: seq<SessionPart>)

  datatype SessionMessage = SessionMessage(role: SessionRole, content: SessionContent, toolCalls: seq<ToolCall>,
                                           toolCallId: Option<string>)

  function ToSessionRole(role: Role): SessionRole {
    match role
    case User => StoredUser
    case Assistant => StoredAssistant
    case System => StoredSystem
    case Tool => StoredTool
  }

  function FromSessionRole(role: SessionRole): Role {
    match role
    case StoredUser => User
    case StoredAssistant => Assistant
    case StoredSystem => System
    case StoredTool => Tool
  }

  function ToSessionPart(part: MessagePart): SessionPart {
    match part
    case Text(text) => StoredText(text)
    case Attached(a) =>
      StoredAttachment(SessionAttachment(a.id, a.relativePath, a.displayName, a.mediaType, a.sizeBytes, a.sha256))
  }

  function FromSessionPart(part: SessionPart): MessagePart {
    match part
    case StoredText(text) => Text(text)
    case StoredAttachment(a) =>
      Attached(Attachment(a.id, a.relativePath, a.displayName, a.mediaType, a.sizeBytes, a.sha256))
  }

  function ToSession(m: Message): SessionMessage {
    SessionMessage(ToSessionRole(m.role), Parts(seq(|m.content|, i requires 0 <= i < |m.content| => ToSessionPart(m.content[i]))),
                   m.toolCalls, m.toolCallId)
  }

  function FromSession(m: SessionMessage): Message {
    var content := match m.content
      case LegacyText(text) => if text == "" then [] else [Text(text)]
      case Parts(parts) => seq(|parts|, i requires 0 <= i < |parts| => FromSessionPart(parts[i]));
    Message(FromSessionRole(m.role), content, m.toolCalls, m.toolCallId)
  }

  /** What is stored reads back as the same message. */
  lemma StoredMessageReadsBack(m: Message)
    ensures FromSession(ToSession(m)) == m
  {
    assert FromSession(ToSession(m)).content == m.content;
  }

  /** A stored message is written back as it was exactly when it is in the form with parts. */
  lemma OnlyLegacyTextIsRewritten(m: SessionMessage)
    ensures ToSession(FromSession(m)) == m <==> m.content.Parts?
  {
    if m.content.Parts? { assert ToSession(FromSession(m)).content.parts == m.content.parts; }
  }

  function ToSessions(messages: seq<Message>): seq<SessionMessage> {
    seq(|messages|, i requires 0 <= i < |messages| => ToSession(messages[i]))
  }

  function FromSessions(stored: seq<SessionMessage>): seq<Message> {
    seq(|stored|, i requires 0 <= i < |stored| => FromSession(stored[i]))
  }

  lemma SessionsReadBack(messages: seq<Message>)
    ensures FromSessions(ToSessions(messages)) == messages
  {
    forall i | 0 <= i < |messages| ensures FromSessions(ToSessions(messages))[i] == messages[i] {
      StoredMessageReadsBack(messages[i]);
    }
  }

  // ---------------------------------------------------------------- files, one append and many loads

  type LoadId = nat

  // A file that was not written to its end does not parse.
  datatype FileContent = Torn | Whole(stored: seq<SessionMessage>)

  // Where the append that holds the write lock is.
  datatype AppendPhase =
    | Free
    | Started(message: Message)
    | NoMain(message: Message)
    | Reading(message: Message, legacy: bool)
    | Writing(messages: seq<Message>, message: Message)
    | TempOpen(messages: seq<Message>, message: Message)
    | TempWritten(messages: seq<Message>, message: Message)
    | Renamed
    | Removing

  // start is history: what the memory held when the load looked for the main file.
  datatype LoadPhase =
    | MainFound(start: Option<seq<Message>>)
    | MainMissing(start: Option<seq<Message>>, migrating: bool)
    | LegacyFound(start: Option<seq<Message>>, migrating: bool)

  // One finished load: what the memory held when it began and when it ended, and what it returned.
  datatype Loaded = Loaded(start: Option<seq<Message>>, end: Option<seq<Message>>, migrating: bool, foundFile: bool,
                           result: Option<seq<Message>>)

  // initial and renamed are history: the contents at first, and the messages whose rename happened.
  datatype State = State(
    main: Option<FileContent>,
    legacy: Option<FileContent>,
    temp: Option<FileContent>,
    append: AppendPhase,
    loads: map<LoadId, LoadPhase>,
    initial: Option<seq<Message>>,
    renamed: seq<Message>,
    finished: seq<Loaded>)

  datatype Action =
    | BeginAppend(message: Message)
    | FindMain
    | FindLegacy
    | ReadFile
    | OpenTemp
    | WriteTemp
    | RenameTemp
    | FindOldLegacy
    | RemoveLegacy
    | CrashAppend
    | LoadFindMain(l: LoadId)
    | LoadFindLegacy(l: LoadId)
    | LoadRead(l: LoadId)
    | DropLoad(l: LoadId)

  /** What a file holds; None when it does not parse. */
  function Decode(file: FileContent): Option<seq<Message>> {
    if file.Whole? then Some(FromSessions(file.stored)) else None
  }

  /** What the memory holds: the main file, else the legacy file, else nothing. */
  function Contents(s: State): Option<seq<Message>> {
    if s.main.Some? then Decode(s.main.value)
    else if s.legacy.Some? then Decode(s.legacy.value)
    else Some([])
  }

  function AppendStep(s: State, a: Action): Option<State> {
    match a
    case BeginAppend(message) => if s.append.Free? then Some(s.(append := Started(message))) else None
    case FindMain =>
      if !s.append.Started? then None
      else Some(s.(append := if s.main.Some? then Reading(s.append.message, false) else NoMain(s.append.message)))
    case FindLegacy =>
      if !s.append.NoMain? then None
      else Some(s.(append := if s.legacy.Some? then Reading(s.append.message, true) else Writing([], s.append.message)))
    case ReadFile =>
      if !s.append.Reading? then None
      else
        var file := if s.append.legacy then s.legacy else s.main;
        // A file that does not parse makes the append fail.
        if file.None? || Decode(file.value).None? then Some(s.(append := Free))
        else Some(s.(append := Writing(Decode(file.value).value, s.append.message)))
    case OpenTemp =>
      if !s.append.Writing? then None
      else Some(s.(temp := Some(Torn), append := TempOpen(s.append.messages, s.append.message)))
    case WriteTemp =>
      if !s.append.TempOpen? then None
      else
        var stored := ToSessions(s.append.messages + [s.append.message]);
        Some(s.(temp := Some(Whole(stored)), append := TempWritten(s.append.messages, s.append.message)))
    case RenameTemp =>
      if !s.append.TempWritten? then None
      else Some(s.(main := s.temp, temp := None, renamed := s.renamed + [s.append.message], append := Renamed))
    case FindOldLegacy =>
      if !s.append.Renamed? then None
      else Some(s.(append := if s.legacy.Some? then Removing else Free))
    case RemoveLegacy => if !s.append.Removing? then None else Some(s.(legacy := None, append := Free))
    case CrashAppend => Some(s.(append := Free))
    case _ => None
  }

  function Finish(s: State, l: LoadId, foundFile: bool, result: Option<seq<Message>>): State
    requires l in s.loads
  {
    var migrating := !s.loads[l].MainFound? && s.loads[l].migrating;
    s.(loads := s.loads - {l},
       finished := s.finished + [Loaded(s.loads[l].start, Contents(s), migrating, foundFile, result)])
  }

  function LoadStep(s: State, a: Action): Option<State> {
    match a
    case LoadFindMain(l) =>
      if l in s.loads then None
      else if s.main.Some? then Some(s.(loads := s.loads[l := MainFound(Contents(s))]))
      else
        var migrating := Contents(s).Some? && Contents(s) != Some([]);
        Some(s.(loads := s.loads[l := MainMissing(Contents(s), migrating)]))
    case LoadFindLegacy(l) =>
      if l !in s.loads || !s.loads[l].MainMissing? then None
      else if s.legacy.Some? then Some(s.(loads := s.loads[l := LegacyFound(s.loads[l].start, s.loads[l].migrating)]))
      else Some(Finish(s, l, false, Some([])))
    case LoadRead(l) =>
      if l !in s.loads || s.loads[l].MainMissing? then None
      else
        var file := if s.loads[l].MainFound? then s.main else s.legacy;
        Some(Finish(s, l, true, if file.None? then None else Decode(file.value)))
    case DropLoad(l) => Some(s.(loads := s.loads - {l}))
    case _ => None
  }

  function Next(s: State, a: Action): Option<State> {
    match a
    case LoadFindMain(_) => LoadStep(s, a)
    case LoadFindLegacy(_) => LoadStep(s, a)
    case LoadRead(_) => LoadStep(s, a)
    case DropLoad(_) => LoadStep(s, a)
    case _ => AppendStep(s, a)
  }

  ghost function Stepper(): (State, Action) -> Option<State> {
    (s: State, a: Action) => Next(s, a)
  }

  /** A process start with whatever files there are, a leftover torn temporary file too. */
  function Fresh(main: Option<FileContent>, legacy: Option<FileContent>, temp: Option<FileContent>): State {
    var s := State(main, legacy, temp, Free, map[], None, [], []);
    s.(initial := Contents(s))
  }

  // ---------------------------------------------------------------- the invariant

  predicate AppendOk(s: State) {
    match s.append
    case NoMain(_) => s.main.None?
    case Reading(_, legacy) => if legacy then s.main.None? && s.legacy.Some? else s.main.Some?
    case Writing(messages, _) => Contents(s) == Some(messages)
    case TempOpen(messages, _) => Contents(s) == Some(messages)
    case TempWritten(messages, message) =>
      Contents(s) == Some(messages) && s.temp == Some(Whole(ToSessions(messages + [message])))
    case Renamed => s.main.Some?
    case Removing => s.main.Some?
    case _ => true
  }

  predicate LoadOk(s: State, l: LoadId)
    requires l in s.loads
  {
    match s.loads[l]
    case MainFound(_) => s.main.Some?
    case MainMissing(start, migrating) =>
      && (s.legacy.Some? ==> start == Decode(s.legacy.value)) && (start.None? ==> Unreadable(s))
      && (migrating <==> start.Some? && start != Some([]))
    case LegacyFound(start, migrating) =>
      && (s.legacy.Some? ==> start == Decode(s.legacy.value)) && (start.None? ==> Unreadable(s))
      && (migrating <==> start.Some? && start != Some([]))
  }

  // Only a legacy file is there and it does not parse; then every append fails, and it stays that way.
  predicate Unreadable(s: State) {
    s.main.None? && s.legacy.Some? && Decode(s.legacy.value).None?
  }

  // What a finished load promises; result None is the error of a file that is gone or does not parse.
  predicate LoadedOk(r: Loaded) {
    && (r.foundFile && r.result.Some? ==> r.result == r.start || r.result == r.end)
    && (!r.foundFile ==> r.result == Some([]) && (r.result == r.start <==> !r.migrating))
  }

  ghost predicate Inv(s: State) {
    && (if s.initial.Some? then Contents(s) == Some(s.initial.value + s.renamed) else Contents(s).None? && s.renamed == [])
    && AppendOk(s)
    && (forall l | l in s.loads :: LoadOk(s, l))
    && (forall i | 0 <= i < |s.finished| :: LoadedOk(s.finished[i]))
  }

  lemma AppendStepKeepsInv(s: State, a: Action)
    requires Inv(s) && AppendStep(s, a).Some?
    ensures Inv(AppendStep(s, a).value)
  {
    var s' := AppendStep(s, a).value;
    if a.RenameTemp? {
      SessionsReadBack(s.append.messages + [s.append.message]);
      assert s.initial.value + s.renamed + [s.append.message] == s.initial.value + s'.renamed;
    }
    forall l | l in s'.loads ensures LoadOk(s', l) { assert LoadOk(s, l); }
  }

  lemma LoadStepKeepsInv(s: State, a: Action)
    requires Inv(s) && LoadStep(s, a).Some?
    ensures Inv(LoadStep(s, a).value)
  {
    var s' := LoadStep(s, a).value;
    if !a.LoadFindMain? && a.l in s.loads { assert LoadOk(s, a.l); }
    forall l | l in s'.loads ensures LoadOk(s', l) {
      if l != a.l { assert LoadOk(s, l); }
    }
  }

  lemma NextKeepsInv(s: State, a: Action)
    requires Inv(s) && Next(s, a).Some?
    ensures Inv(Next(s, a).value)
  {
    if Next(s, a) == AppendStep(s, a) { AppendStepKeepsInv(s, a); } else { LoadStepKeepsInv(s, a); }
  }

  // ---------------------------------------------------------------- power loss

  // Nothing is ever synced: what the names are sure to mean after a power loss is what the system has written back
  // by itself. unsynced holds what the main file was renamed to since its last write-back.
  datatype Machine = Machine(s: State, mainOnDisk: Option<FileContent>, legacyOnDisk: Option<FileContent>,
                             unsynced: seq<Option<FileContent>>)

  datatype Event =
    | Step(a: Action)
    | FlushMain
    | FlushLegacy
    | PowerLoss(main: Option<FileContent>, legacy: Option<FileContent>)

  // A renamed file may be found torn, since its name may reach the disk before its contents.
  predicate MayRemain(m: Machine, main: Option<FileContent>, legacy: Option<FileContent>) {
    && (main == m.mainOnDisk || main in m.unsynced || (m.unsynced != [] && main == Some(Torn)))
    && (legacy == m.s.legacy || legacy == m.legacyOnDisk)
  }

  function MachineStep(m: Machine, e: Event): Option<Machine> {
    match e
    case Step(a) =>
      var s' := Next(m.s, a);
      if s'.None? then None
      else Some(m.(s := s'.value, unsynced := if a.RenameTemp? then m.unsynced + [s'.value.main] else m.unsynced))
    case FlushMain => Some(m.(mainOnDisk := m.s.main, unsynced := []))
    case FlushLegacy => Some(m.(legacyOnDisk := m.s.legacy))
    case PowerLoss(main, legacy) =>
      if MayRemain(m, main, legacy)
      then
        var s' := m.s.(main := main, legacy := legacy, temp := None, append := Free, loads := map[]);
        Some(Machine(s', main, legacy, []))
      else None
  }

  ghost function MachineStepper(): (Machine, Event) -> Option<Machine> {
    (m: Machine, e: Event) => MachineStep(m, e)
  }

  predicate Flushed(m: Machine) {
    m.unsynced == []
  }

  // The runs in which the power fails only while the main file is written back.
  ghost function SafeStepper(): (Machine, Event) -> Option<Machine> {
    (m: Machine, e: Event) => if e.PowerLoss? && !Flushed(m) then None else MachineStep(m, e)
  }

  function Boot(main: Option<FileContent>, legacy: Option<FileContent>, temp: Option<FileContent>): Machine {
    Machine(Fresh(main, legacy, temp), main, legacy, [])
  }

  ghost predicate MachineInv(m: Machine) {
    && Inv(m.s)
    && (Flushed(m) ==> m.s.main == m.mainOnDisk)
    && (!Flushed(m) ==> m.s.main == m.unsynced[|m.unsynced| - 1] && m.s.main.Some? && m.s.main.value.Whole?)
    && (m.s.main.None? ==> m.s.legacy == m.legacyOnDisk)
  }

  lemma ProcessStepKeeps(m: Machine, a: Action)
    requires MachineInv(m) && MachineStep(m, Step(a)).Some?
    ensures MachineInv(MachineStep(m, Step(a)).value)
  {
    NextKeepsInv(m.s, a);
  }

  lemma SafeStepKeeps(m: Machine, e: Event)
    requires MachineInv(m) && SafeStepper()(m, e).Some?
    ensures MachineInv(SafeStepper()(m, e).value)
  {
    match e
    case Step(a) => ProcessStepKeeps(m, a);
    case _ =>
  }

  lemma BootInv(main: Option<FileContent>, legacy: Option<FileContent>, temp: Option<FileContent>)
    ensures MachineInv(Boot(main, legacy, temp))
  {
    var first := Fresh(main, legacy, temp);
    if Contents(first).Some? { assert Contents(first).value + [] == Contents(first).value; }
  }

  lemma ReachableInv(main: Option<FileContent>, legacy: Option<FileContent>, temp: Option<FileContent>,
                     events: seq<Event>)
    requires Execute(SafeStepper(), Boot(main, legacy, temp), events).Some?
    ensures MachineInv(Execute(SafeStepper(), Boot(main, legacy, temp), events).value)
  {
    BootInv(main, legacy, temp);
    forall m, e {:trigger SafeStepper()(m, e)} | MachineInv(m) && SafeStepper()(m, e).Some?
      ensures MachineInv(SafeStepper()(m, e).value)
    {
      SafeStepKeeps(m, e);
    }
    InvariantOverRun(SafeStepper(), MachineInv, Boot(main, legacy, temp), events);
  }

  // ---------------------------------------------------------------- every run

  /** Through any appends, loads, crashes, and power losses while the main file is written back, the memory holds the
      initial messages, from the main or the legacy file, followed by exactly the appends whose rename happened, in
      order. */
  lemma MemoryIsAppendOnly(main: Option<FileContent>, legacy: Option<FileContent>, temp: Option<FileContent>,
                           events: seq<Event>)
    requires Execute(SafeStepper(), Boot(main, legacy, temp), events).Some?
    ensures
      var (first, s) := (Fresh(main, legacy, temp), Execute(SafeStepper(), Boot(main, legacy, temp), events).value.s);
      && (Contents(first).Some? ==> Contents(s) == Some(Contents(first).value + s.renamed))
      && (Contents(first).None? ==> Contents(s).None? && s.renamed == [])
  {
    ReachableInv(main, legacy, temp, events);
    InitialIsConstant(Boot(main, legacy, temp), events);
  }

  lemma {:induction false} InitialIsConstant(m: Machine, events: seq<Event>)
    requires Execute(SafeStepper(), m, events).Some?
    ensures Execute(SafeStepper(), m, events).value.s.initial == m.s.initial
    decreases |events|
  {
    if events != [] { InitialIsConstant(MachineStep(m, events[0]).value, events[1..]); }
  }

  /** A load returns what the memory held when it began or when it ended, or fails. The one exception is a load
      that began while only a legacy file with messages was there and that finds no file at all. */
  lemma LoadsReturnTheContents(main: Option<FileContent>, legacy: Option<FileContent>, temp: Option<FileContent>,
                               events: seq<Event>, i: nat)
    requires Execute(SafeStepper(), Boot(main, legacy, temp), events).Some?
    requires i < |Execute(SafeStepper(), Boot(main, legacy, temp), events).value.s.finished|
    ensures var r := Execute(SafeStepper(), Boot(main, legacy, temp), events).value.s.finished[i];
      && (r.result.Some? && (r.foundFile || !r.migrating) ==> r.result == r.start || r.result == r.end)
      && (!r.foundFile && r.migrating ==> r.result == Some([]) && r.result != r.start)
  {
    ReachableInv(main, legacy, temp, events);
  }

  /** A power loss keeps what the memory holds, whatever it leaves of the files, exactly when the main file is written
      back at that moment. No call ever makes sure of that. */
  lemma PowerLossKeepsExactlyWhenFlushed(main: Option<FileContent>, legacy: Option<FileContent>,
                                         temp: Option<FileContent>, events: seq<Event>)
    requires Execute(SafeStepper(), Boot(main, legacy, temp), events).Some?
    ensures var m := Execute(SafeStepper(), Boot(main, legacy, temp), events).value;
      Flushed(m) <==> forall x, y | MayRemain(m, x, y) ::
                        Contents(MachineStep(m, PowerLoss(x, y)).value.s) == Contents(m.s)
  {
    ReachableInv(main, legacy, temp, events);
    var m := Execute(SafeStepper(), Boot(main, legacy, temp), events).value;
    if !Flushed(m) {
      assert MayRemain(m, Some(Torn), m.s.legacy);
      assert Contents(MachineStep(m, PowerLoss(Some(Torn), m.s.legacy)).value.s).None?;
    }
  }

  // ---------------------------------------------------------------- the load that a migration overtakes

  // An append over a legacy file, up to its rename.
  lemma AppendRenames(s: State, stored: seq<SessionMessage>, message: Message) returns (actions: seq<Action>)
    requires s.append == Started(message) && s.main.None? && s.legacy == Some(Whole(stored))
    ensures var r := Execute(Stepper(), s, actions);
      && r.Some? && r.value.append.Renamed? && r.value.main.Some? && r.value.legacy == s.legacy
      && r.value.loads == s.loads && r.value.finished == s.finished && r.value.renamed == s.renamed + [message]
  {
    var s1 := Next(s, FindMain).value;
    var s2 := Next(s1, FindLegacy).value;
    var s3 := Next(s2, ReadFile).value;
    assert s3.append == Writing(FromSessions(stored), message);
    var s4 := Next(s3, OpenTemp).value;
    var s5 := Next(s4, WriteTemp).value;
    assert s5.append.TempWritten? && s5.temp.Some?;
    var a5 := [RenameTemp] + [];
    var a4 := [WriteTemp] + a5;
    var a3 := [OpenTemp] + a4;
    var a2 := [ReadFile] + a3;
    var a1 := [FindLegacy] + a2;
    actions := [FindMain] + a1;
    ExecuteStep(Stepper(), s, FindMain, a1);
    ExecuteStep(Stepper(), s1, FindLegacy, a2);
    ExecuteStep(Stepper(), s2, ReadFile, a3);
    ExecuteStep(Stepper(), s3, OpenTemp, a4);
    ExecuteStep(Stepper(), s4, WriteTemp, a5);
    ExecuteStep(Stepper(), s5, RenameTemp, []);
  }

  // The first append over a legacy file, to its end.
  lemma AppendMigrates(s: State, stored: seq<SessionMessage>, message: Message) returns (actions: seq<Action>)
    requires s.append.Free? && s.main.None? && s.legacy == Some(Whole(stored))
    ensures var r := Execute(Stepper(), s, actions);
      && r.Some? && r.value.append.Free? && r.value.renamed == s.renamed + [message] && r.value.legacy.None?
      && r.value.loads == s.loads && r.value.finished == s.finished
  {
    var s1 := Next(s, BeginAppend(message)).value;
    var middle := AppendRenames(s1, stored, message);
    var s2 := Execute(Stepper(), s1, middle).value;
    var s3 := Next(s2, FindOldLegacy).value;
    var tail := [FindOldLegacy] + ([RemoveLegacy] + []);
    actions := [BeginAppend(message)] + (middle + tail);
    ExecuteStep(Stepper(), s, BeginAppend(message), middle + tail);
    ExecuteAppend(Stepper(), s1, middle, tail);
    ExecuteStep(Stepper(), s2, FindOldLegacy, [RemoveLegacy] + []);
    ExecuteStep(Stepper(), s3, RemoveLegacy, []);
  }

  /** While only a legacy file with messages is there, a load can miss all of them: the first append removes the
      legacy file after the load has not found the main file and before it looks for the legacy one. */
  lemma LoadMayMissTheMigration(s: State, l: LoadId, stored: seq<SessionMessage>, message: Message)
    returns (actions: seq<Action>)
    requires s.main.None? && s.legacy == Some(Whole(stored)) && stored != [] && l !in s.loads
    ensures var r := Execute(Stepper(), s, actions);
      && r.Some? && |r.value.finished| == |s.finished| + 1
      && r.value.finished[|s.finished|].start == Some(FromSessions(stored))
      && r.value.finished[|s.finished|].result == Some([])
  {
    var s1 := Next(s, LoadFindMain(l)).value;
    var s2 := Next(s1, CrashAppend).value;
    assert s2.loads[l] == MainMissing(Some(FromSessions(stored)), true) && s2.finished == s.finished;
    var middle := AppendMigrates(s2, stored, message);
    var s3 := Execute(Stepper(), s2, middle).value;
    var tail := [LoadFindLegacy(l)] + [];
    actions := [LoadFindMain(l)] + ([CrashAppend] + (middle + tail));
    ExecuteStep(Stepper(), s, LoadFindMain(l), [CrashAppend] + (middle + tail));
    ExecuteStep(Stepper(), s1, CrashAppend, middle + tail);
    ExecuteAppend(Stepper(), s2, middle, tail);
    ExecuteStep(Stepper(), s3, LoadFindLegacy(l), []);
  }

  // ---------------------------------------------------------------- the power loss that a migration does not survive

  function Steps(actions: seq<Action>): seq<Event> {
    seq(|actions|, i requires 0 <= i < |actions| => Step(actions[i]))
  }

  lemma {:induction false} StepsOfAMachine(m: Machine, actions: seq<Action>)
    requires Execute(Stepper(), m.s, actions).Some?
    ensures var r := Execute(MachineStepper(), m, Steps(actions));
      && r.Some? && r.value.s == Execute(Stepper(), m.s, actions).value
      && r.value.mainOnDisk == m.mainOnDisk && r.value.legacyOnDisk == m.legacyOnDisk
    decreases |actions|
  {
    if actions != [] {
      assert Steps(actions)[1..] == Steps(actions[1..]);
      StepsOfAMachine(MachineStep(m, Step(actions[0])).value, actions[1..]);
    }
  }

  /** The first append over a legacy file can cost all messages: if the removal of the legacy file reaches the disk and
      the rename does not, a power loss after the append leaves an empty memory. */
  lemma MigrationMayLoseEverything(stored: seq<SessionMessage>, message: Message) returns (events: seq<Event>)
    ensures var r := Execute(MachineStepper(), Boot(None, Some(Whole(stored)), None), events);
      r.Some? && r.value.s.renamed == [message] && Contents(r.value.s) == Some([])
  {
    var m := Boot(None, Some(Whole(stored)), None);
    var actions := AppendMigrates(m.s, stored, message);
    StepsOfAMachine(m, actions);
    var m1 := Execute(MachineStepper(), m, Steps(actions)).value;
    var tail := [PowerLoss(None, None)] + [];
    events := Steps(actions) + tail;
    ExecuteAppend(MachineStepper(), m, Steps(actions), tail);
    ExecuteStep(MachineStepper(), m1, PowerLoss(None, None), []);
  }

  // ---------------------------------------------------------------- one append, stopped after any number of steps

  class FileMemoryStore {
    var main: Option<FileContent>
    var legacy: Option<FileContent>
    var temp: Option<FileContent>

    constructor (main: Option<FileContent>, legacy: Option<FileContent>, temp: Option<FileContent>)
      ensures this.main == main && this.legacy == legacy && this.temp == temp
    {
      this.main, this.legacy, this.temp := main, legacy, temp;
    }

    function Held(): Option<seq<Message>>
      reads this
    {
      if main.Some? then Decode(main.value) else if legacy.Some? then Decode(legacy.value) else Some([])
    }

    method ReadMessages() returns (r: Option<seq<Message>>)
      ensures r == Held()
    {
      var path;
      if main.Some? {
        path := main.value;
      } else if legacy.Some? {
        path := legacy.value;
      } else {
        return Some([]);
      }
      r := Decode(path);
    }

    /** Stops after `steps` of: truncate the temporary file, fill it, rename it, remove the legacy file. */
    method WriteMessages(messages: seq<Message>, steps: nat)
      modifies this
      ensures Held() == if steps >= 3 then Some(messages) else old(Held())
      ensures steps >= 4 ==> legacy.None?
      ensures steps < 4 ==> legacy == old(legacy)
    {
      SessionsReadBack(messages);
      if steps == 0 { return; }
      temp := Some(Torn);
      if steps == 1 { return; }
      temp := Some(Whole(ToSessions(messages)));
      if steps == 2 { return; }
      main := temp;
      temp := None;
      if steps == 3 { return; }
      if legacy.Some? { legacy := None; }
    }

    /** An append that is stopped anywhere leaves the old messages, or the old messages and the new one. */
    method Append(message: Message, steps: nat)
      modifies this
      ensures Held() == if old(Held()).Some? && steps >= 3 then Some(old(Held()).value + [message]) else old(Held())
    {
      var r := ReadMessages();
      if r.None? { return; }
      var messages := r.value + [message];
      WriteMessages(messages, steps);
    }
  }
}
