// Artifact staging against garbage collection, as one transition system: any number of stagers and
// collectors over the artifact root, the row table and the path locks. One action is one await
// point of the source: one file operation, one transaction or one lock acquisition.

module ArtifactProtocol {
  import opened Common
  import opened Runs

  type Digest = string
  type ActorId = string
  type ArtifactId = nat
  type TaskId = nat

  // Where the content with a digest lives for an actor, and where one artifact is copied to first.
  datatype Path = Canonical(dir: Digest, sha: Digest) | Partial(dir: Digest, id: ArtifactId)

  datatype Lease = Lease(owner: nat, expires: int)

  datatype Row =
    | Staging(path: Path, lease: Lease)
    | Referenced(actor: ActorId, path: Path, sha: Digest, size: nat)

  // A copied and hashed file; size is the length found before the copy.
  datatype Item = Item(id: ArtifactId, size: nat, sha: Digest, lease: Lease)

  datatype StagePhase =
    | Preparing
    | Opening(id: ArtifactId, size: nat, lease: Lease)
    | Copying(id: ArtifactId, size: nat, lease: Lease, copied: Bytes)
    | Locking(todo: seq<Path>)
    | Checking(next: nat)
    | Placing(next: nat, found: bool)
    | Renaming(next: nat)
    | Discarding(next: nat)
    | Synced
    | Inspected
    | Releasing

  datatype Expired = Expired(id: ArtifactId, path: Path, owner: nat)

  datatype CollectPhase =
    | Scanning
    | AwaitExpired(e: Expired)
    | HoldExpired(e: Expired)
    | RemoveExpired(e: Expired)
    | CompleteExpired(e: Expired)
    | AwaitOrphan(path: Path)
    | HoldOrphan(path: Path)
    | RemoveOrphan(path: Path)
    | Leaving(path: Path)

  datatype Task =
    | Stager(actor: ActorId, items: seq<Item>, held: set<Path>, stage: StagePhase)
    | Collector(claimed: set<Expired>, collect: CollectPhase)

  // The digest, the directory name of an actor and the order of paths are uninterpreted.
  datatype Config = Config(hash: Bytes -> Digest, dirOf: ActorId -> Digest, before: (Path, Path) -> bool)

  // files is what the running process sees, disk what a power loss is sure to leave of it.
  // used records which task drew a random artifact identifier.
  datatype State = State(
    files: map<Path, Bytes>,
    disk: map<Path, Bytes>,
    rows: map<ArtifactId, Row>,
    locks: map<Path, TaskId>,
    tasks: map<TaskId, Task>,
    used: map<ArtifactId, TaskId>)

  datatype Action =
    | StartStager(t: TaskId, actor: ActorId)
    | StartCollector(t: TaskId)
    | BeginStaging(t: TaskId, id: ArtifactId, size: nat, lease: Lease)
    | OpenPartial(t: TaskId)
    | CopyChunk(t: TaskId, chunk: Bytes)
    | RenewStaging(t: TaskId, until: int)
    | FinishCopy(t: TaskId)
    | BeginLocking(t: TaskId, order: seq<Path>)
    | LockPath(t: TaskId)
    | BeginChecks(t: TaskId)
    | QueryReferenced(t: TaskId)
    | ValidateCanonical(t: TaskId)
    | FindFree(t: TaskId)
    | RenamePartial(t: TaskId)
    | DiscardPartial(t: TaskId)
    | SyncDirectory(t: TaskId)
    | InspectSizes(t: TaskId)
    | Commit(t: TaskId)
    | ClaimExpired(t: TaskId, ids: set<ArtifactId>, owner: nat, now: int)
    | PickExpired(t: TaskId, e: Expired)
    | RenewClaim(t: TaskId, now: int)
    | RemoveClaimed(t: TaskId)
    | CompleteClaim(t: TaskId)
    | PickOrphan(t: TaskId, path: Path)
    | RecheckOrphan(t: TaskId)
    | RemoveOrphanFile(t: TaskId)
    | Fail(t: TaskId)
    | Release(t: TaskId, path: Path)
    | Finish(t: TaskId)
    | ProcessCrash
    | PowerLoss(left: map<Path, Bytes>)

  // ---------------------------------------------------------------- transitions

  function Canon(cfg: Config, actor: ActorId, item: Item): Path {
    Canonical(cfg.dirOf(actor), item.sha)
  }

  function PartialOf(cfg: Config, actor: ActorId, id: ArtifactId): Path {
    Partial(cfg.dirOf(actor), id)
  }

  ghost function Canons(cfg: Config, actor: ActorId, items: seq<Item>): set<Path> {
    set i | 0 <= i < |items| :: Canon(cfg, actor, items[i])
  }

  function Held(task: Task): set<Path> {
    match task
    case Stager(_, _, held, _) => held
    case Collector(_, phase) =>
      match phase
      case HoldExpired(e) => {e.path}
      case RemoveExpired(e) => {e.path}
      case CompleteExpired(e) => {e.path}
      case HoldOrphan(p) => {p}
      case RemoveOrphan(p) => {p}
      case Leaving(p) => {p}
      case _ => {}
  }

  ghost predicate StrictlySorted(cfg: Config, order: seq<Path>) {
    forall i, j | 0 <= i < j < |order| :: cfg.before(order[i], order[j])
  }

  ghost predicate HasReferenced(rows: map<ArtifactId, Row>, actor: ActorId, sha: Digest, size: nat) {
    exists id :: id in rows && IsReferenced(rows[id], actor, sha, size)
  }

  predicate IsReferenced(row: Row, actor: ActorId, sha: Digest, size: nat) {
    row.Referenced? && row.actor == actor && row.sha == sha && row.size == size
  }

  ghost predicate PathTaken(rows: map<ArtifactId, Row>, path: Path) {
    exists id :: id in rows && rows[id].path == path
  }

  /** The row changes of one commit transaction; None rolls all of them back. */
  ghost function CommitItems(cfg: Config, actor: ActorId, rows: map<ArtifactId, Row>, items: seq<Item>)
    : Option<map<ArtifactId, Row>>
    decreases |items|
  {
    if items == [] then Some(rows)
    else
      var item := items[0];
      var canon := Canon(cfg, actor, item);
      if !(item.id in rows && rows[item.id].Staging? && rows[item.id].lease == item.lease) then None
      else if HasReferenced(rows, actor, item.sha, item.size) then
        if exists id :: id in rows && IsReferenced(rows[id], actor, item.sha, item.size) && rows[id].path != canon then None
        else CommitItems(cfg, actor, rows - {item.id}, items[1..])
      else if PathTaken(rows, canon) then None
      else
        CommitItems(cfg, actor, rows[item.id := Referenced(actor, canon, item.sha, item.size)], items[1..])
  }

  /** Everything in one directory that the running process sees becomes durable. */
  function SyncDir(files: map<Path, Bytes>, disk: map<Path, Bytes>, dir: Digest): map<Path, Bytes> {
    map p | p in files.Keys + disk.Keys &&
            if p.Canonical? && p.dir == dir then p in files else p in disk
          :: if p.Canonical? && p.dir == dir then files[p] else disk[p]
  }

  // A power loss keeps what was synced and may keep or lose any later change of a name.
  ghost predicate Survives(files: map<Path, Bytes>, disk: map<Path, Bytes>, left: map<Path, Bytes>) {
    && (forall p | p in left && p.Canonical? ::
          (p in files && left[p] == files[p]) || (p in disk && left[p] == disk[p]))
    && (forall p: Path | p.Canonical? && p in files && p in disk :: p in left)
  }

  ghost predicate IsStager(s: State, t: TaskId) {
    t in s.tasks && s.tasks[t].Stager?
  }

  ghost predicate IsCollector(s: State, t: TaskId) {
    t in s.tasks && s.tasks[t].Collector?
  }

  ghost function AtStage(s: State, t: TaskId, stage: StagePhase): State
    requires IsStager(s, t)
  {
    s.(tasks := s.tasks[t := s.tasks[t].(stage := stage)])
  }

  ghost function AtCollect(s: State, t: TaskId, phase: CollectPhase): State
    requires IsCollector(s, t)
  {
    s.(tasks := s.tasks[t := s.tasks[t].(collect := phase)])
  }

  /** Copying: a staging row, then the partial file, then its bytes, then its digest. */
  ghost function CopyStep(cfg: Config, s: State, a: Action): Option<State> {
    match a
    case BeginStaging(t, id, size, lease) =>
      if IsStager(s, t) && s.tasks[t].stage.Preparing? && id !in s.used && id !in s.rows then
        Some(AtStage(s, t, Opening(id, size, lease)).(
          rows := s.rows[id := Staging(PartialOf(cfg, s.tasks[t].actor, id), lease)],
          used := s.used[id := t]))
      else None
    case OpenPartial(t) =>
      if IsStager(s, t) && s.tasks[t].stage.Opening? then
        var stage := s.tasks[t].stage;
        var p := PartialOf(cfg, s.tasks[t].actor, stage.id);
        if p in s.files then None
        else Some(AtStage(s, t, Copying(stage.id, stage.size, stage.lease, [])).(files := s.files[p := []]))
      else None
    case CopyChunk(t, chunk) =>
      if IsStager(s, t) && s.tasks[t].stage.Copying? then
        var stage := s.tasks[t].stage;
        var p := PartialOf(cfg, s.tasks[t].actor, stage.id);
        var bytes := stage.copied + chunk;
        Some(AtStage(s, t, stage.(copied := bytes)).(
          files := if p in s.files then s.files[p := bytes] else s.files))
      else None
    case RenewStaging(t, until) =>
      if IsStager(s, t) && s.tasks[t].stage.Copying? then
        var stage := s.tasks[t].stage;
        if stage.id in s.rows && s.rows[stage.id].Staging? && s.rows[stage.id].lease == stage.lease then
          var renewed := stage.lease.(expires := until);
          Some(AtStage(s, t, stage.(lease := renewed)).(
            rows := s.rows[stage.id := s.rows[stage.id].(lease := renewed)]))
        else None
      else None
    case FinishCopy(t) =>
      if IsStager(s, t) && s.tasks[t].stage.Copying? then
        var stage := s.tasks[t].stage;
        var item := Item(stage.id, stage.size, cfg.hash(stage.copied), stage.lease);
        Some(s.(tasks := s.tasks[t := s.tasks[t].(items := s.tasks[t].items + [item], stage := Preparing)]))
      else None
    case _ => None
  }

  /** Locks in path order, then reuse or rename under them, then sync and commit. */
  ghost function PlaceStep(cfg: Config, s: State, a: Action): Option<State> {
    match a
    case BeginLocking(t, order) =>
      if IsStager(s, t) && s.tasks[t].stage.Preparing? && StrictlySorted(cfg, order)
         && (set p | p in order) == Canons(cfg, s.tasks[t].actor, s.tasks[t].items)
      then Some(AtStage(s, t, Locking(order)))
      else None
    case BeginChecks(t) =>
      if IsStager(s, t) && s.tasks[t].stage == Locking([]) then Some(AtStage(s, t, Checking(0))) else None
    case QueryReferenced(t) =>
      if IsStager(s, t) && s.tasks[t].stage.Checking? && s.tasks[t].stage.next < |s.tasks[t].items| then
        var i := s.tasks[t].stage.next;
        var item := s.tasks[t].items[i];
        Some(AtStage(s, t, Placing(i, HasReferenced(s.rows, s.tasks[t].actor, item.sha, item.size))))
      else None
    case ValidateCanonical(t) =>
      if IsStager(s, t) && s.tasks[t].stage.Placing? && s.tasks[t].stage.next < |s.tasks[t].items| then
        var i := s.tasks[t].stage.next;
        var item := s.tasks[t].items[i];
        var canon := Canon(cfg, s.tasks[t].actor, item);
        if canon in s.files && |s.files[canon]| == item.size && cfg.hash(s.files[canon]) == item.sha then
          Some(AtStage(s, t, Discarding(i)))
        else None
      else None
    case FindFree(t) =>
      if IsStager(s, t) && s.tasks[t].stage.Placing? && !s.tasks[t].stage.found
         && s.tasks[t].stage.next < |s.tasks[t].items|
         && Canon(cfg, s.tasks[t].actor, s.tasks[t].items[s.tasks[t].stage.next]) !in s.files
      then Some(AtStage(s, t, Renaming(s.tasks[t].stage.next)))
      else None
    case RenamePartial(t) =>
      if IsStager(s, t) && s.tasks[t].stage.Renaming? && s.tasks[t].stage.next < |s.tasks[t].items| then
        var i := s.tasks[t].stage.next;
        var item := s.tasks[t].items[i];
        var partial := PartialOf(cfg, s.tasks[t].actor, item.id);
        if partial !in s.files then None
        else Some(AtStage(s, t, Checking(i + 1)).(
          files := (s.files - {partial})[Canon(cfg, s.tasks[t].actor, item) := s.files[partial]]))
      else None
    case DiscardPartial(t) =>
      if IsStager(s, t) && s.tasks[t].stage.Discarding? && s.tasks[t].stage.next < |s.tasks[t].items| then
        var i := s.tasks[t].stage.next;
        var partial := PartialOf(cfg, s.tasks[t].actor, s.tasks[t].items[i].id);
        if partial !in s.files then None
        else Some(AtStage(s, t, Checking(i + 1)).(files := s.files - {partial}))
      else None
    case SyncDirectory(t) =>
      if IsStager(s, t) && s.tasks[t].stage == Checking(|s.tasks[t].items|) then
        Some(AtStage(s, t, Synced).(disk := SyncDir(s.files, s.disk, cfg.dirOf(s.tasks[t].actor))))
      else None
    case InspectSizes(t) =>
      if IsStager(s, t) && s.tasks[t].stage.Synced?
         && (forall i | 0 <= i < |s.tasks[t].items| ::
               var canon := Canon(cfg, s.tasks[t].actor, s.tasks[t].items[i]);
               canon in s.files && |s.files[canon]| == s.tasks[t].items[i].size)
      then Some(AtStage(s, t, Inspected))
      else None
    case Commit(t) =>
      if IsStager(s, t) && s.tasks[t].stage.Inspected? then
        var committed := CommitItems(cfg, s.tasks[t].actor, s.rows, s.tasks[t].items);
        if committed.None? then None else Some(AtStage(s, t, Releasing).(rows := committed.value))
      else None
    case _ => None
  }

  /** Expired staging rows, then files that no row names. */
  ghost function CollectStep(cfg: Config, s: State, a: Action): Option<State> {
    match a
    case ClaimExpired(t, ids, owner, now) =>
      if IsCollector(s, t) && s.tasks[t].collect.Scanning?
         && forall id | id in ids :: id in s.rows && s.rows[id].Staging? && s.rows[id].lease.expires < now
      then
        Some(s.(
          rows := map id | id in s.rows ::
                    if id in ids then Staging(s.rows[id].path, Lease(owner, now + 30_000)) else s.rows[id],
          tasks := s.tasks[t := s.tasks[t].(
                     claimed := set id | id in ids :: Expired(id, s.rows[id].path, owner))]))
      else None
    case PickExpired(t, e) =>
      if IsCollector(s, t) && s.tasks[t].collect.Scanning? && e in s.tasks[t].claimed then
        Some(s.(tasks := s.tasks[t := Collector(s.tasks[t].claimed - {e}, AwaitExpired(e))]))
      else None
    case RenewClaim(t, now) =>
      if IsCollector(s, t) && s.tasks[t].collect.HoldExpired? then
        var e := s.tasks[t].collect.e;
        if e.id in s.rows && s.rows[e.id].Staging? && s.rows[e.id].lease.owner == e.owner
           && s.rows[e.id].lease.expires >= now
        then Some(AtCollect(s, t, RemoveExpired(e)).(
               rows := s.rows[e.id := s.rows[e.id].(lease := Lease(e.owner, now + 30_000))]))
        else Some(AtCollect(s, t, Leaving(e.path)))
      else None
    case RemoveClaimed(t) =>
      if IsCollector(s, t) && s.tasks[t].collect.RemoveExpired? then
        var e := s.tasks[t].collect.e;
        Some(AtCollect(s, t, CompleteExpired(e)).(files := s.files - {e.path}, disk := s.disk - {e.path}))
      else None
    case CompleteClaim(t) =>
      if IsCollector(s, t) && s.tasks[t].collect.CompleteExpired? then
        var e := s.tasks[t].collect.e;
        var owned := e.id in s.rows && s.rows[e.id].Staging? && s.rows[e.id].lease.owner == e.owner;
        Some(AtCollect(s, t, Leaving(e.path)).(rows := if owned then s.rows - {e.id} else s.rows))
      else None
    case PickOrphan(t, path) =>
      if IsCollector(s, t) && s.tasks[t].collect.Scanning? && !PathTaken(s.rows, path) then
        Some(AtCollect(s, t, AwaitOrphan(path)))
      else None
    case RecheckOrphan(t) =>
      if IsCollector(s, t) && s.tasks[t].collect.HoldOrphan? then
        var p := s.tasks[t].collect.path;
        Some(AtCollect(s, t, if PathTaken(s.rows, p) then Leaving(p) else RemoveOrphan(p)))
      else None
    case RemoveOrphanFile(t) =>
      if IsCollector(s, t) && s.tasks[t].collect.RemoveOrphan? then
        var p := s.tasks[t].collect.path;
        Some(AtCollect(s, t, Leaving(p)).(files := s.files - {p}))
      else None
    case _ => None
  }

  /** The path a task asks for next, if it is at a lock acquisition. */
  function Wants(task: Task): Option<Path> {
    match task
    case Stager(_, _, _, stage) => if stage.Locking? && stage.todo != [] then Some(stage.todo[0]) else None
    case Collector(_, AwaitExpired(e)) => Some(e.path)
    case Collector(_, AwaitOrphan(p)) => Some(p)
    case Collector(_, _) => None
  }

  function Locked(task: Task): Task
    requires Wants(task).Some?
  {
    match task
    case Stager(actor, items, held, stage) =>
      Stager(actor, items, held + {stage.todo[0]}, Locking(stage.todo[1..]))
    case Collector(claimed, AwaitExpired(e)) => Collector(claimed, HoldExpired(e))
    case Collector(claimed, AwaitOrphan(p)) => Collector(claimed, HoldOrphan(p))
  }

  // An error return of the collector drops the guard it holds, if any.
  function Abandoned(phase: CollectPhase): Option<CollectPhase> {
    match phase
    case HoldExpired(e) => Some(Leaving(e.path))
    case RemoveExpired(e) => Some(Leaving(e.path))
    case CompleteExpired(e) => Some(Leaving(e.path))
    case HoldOrphan(p) => Some(Leaving(p))
    case RemoveOrphan(p) => Some(Leaving(p))
    case Leaving(p) => None
    case _ => Some(Scanning)
  }

  /** Starting, locking, failing, releasing and crashing. */
  ghost function LifeStep(s: State, a: Action): Option<State> {
    match a
    case StartStager(t, actor) =>
      if t in s.tasks then None else Some(s.(tasks := s.tasks[t := Stager(actor, [], {}, Preparing)]))
    case StartCollector(t) =>
      if t in s.tasks then None else Some(s.(tasks := s.tasks[t := Collector({}, Scanning)]))
    case LockPath(t) =>
      if t in s.tasks && Wants(s.tasks[t]).Some? && Wants(s.tasks[t]).value !in s.locks then
        Some(s.(locks := s.locks[Wants(s.tasks[t]).value := t], tasks := s.tasks[t := Locked(s.tasks[t])]))
      else None
    case Fail(t) =>
      if t !in s.tasks then None
      else if s.tasks[t].Stager? then Some(AtStage(s, t, Releasing))
      else match Abandoned(s.tasks[t].collect) {
        case None => None
        case Some(phase) => Some(AtCollect(s, t, phase))
      }
    case Release(t, path) =>
      if IsStager(s, t) && s.tasks[t].stage.Releasing? && path in s.tasks[t].held then
        Some(s.(locks := s.locks - {path}, tasks := s.tasks[t := s.tasks[t].(held := s.tasks[t].held - {path})]))
      else if IsCollector(s, t) && s.tasks[t].collect == Leaving(path) then
        Some(AtCollect(s, t, Scanning).(locks := s.locks - {path}))
      else None
    case Finish(t) =>
      if t in s.tasks && (if s.tasks[t].Stager? then s.tasks[t].stage.Releasing? && s.tasks[t].held == {}
                          else s.tasks[t].collect.Scanning?)
      then Some(s.(tasks := s.tasks - {t}))
      else None
    case ProcessCrash => Some(s.(tasks := map[], locks := map[]))
    case PowerLoss(left) =>
      if Survives(s.files, s.disk, left) then
        Some(s.(files := left, disk := left, tasks := map[], locks := map[]))
      else None
    case _ => None
  }

  ghost function Next(cfg: Config, s: State, a: Action): Option<State> {
    var copy := CopyStep(cfg, s, a);
    var place := PlaceStep(cfg, s, a);
    var collect := CollectStep(cfg, s, a);
    if copy.Some? then copy else if place.Some? then place else if collect.Some? then collect else LifeStep(s, a)
  }

  ghost function Stepper(cfg: Config): (State, Action) -> Option<State> {
    (s, a) => Next(cfg, s, a)
  }

  const INITIAL := State(map[], map[], map[], map[], map[], map[])

  // ---------------------------------------------------------------- the invariant

  ghost predicate Good(cfg: Config, files: map<Path, Bytes>) {
    forall p | p in files && p.Canonical? :: cfg.hash(files[p]) == p.sha
  }

  // The file a path names is the same for the running process and after a power loss.
  ghost predicate Durable(s: State, p: Path) {
    p in s.files && p in s.disk && s.files[p] == s.disk[p]
  }

  ghost predicate RowOk(cfg: Config, s: State, row: Row) {
    match row
    case Staging(path, _) => path.Partial?
    case Referenced(actor, path, sha, size) =>
      path == Canonical(cfg.dirOf(actor), sha) && Durable(s, path) && |s.files[path]| == size
  }

  ghost predicate RowsOk(cfg: Config, s: State) {
    forall id | id in s.rows :: RowOk(cfg, s, s.rows[id])
  }

  ghost predicate LocksOk(s: State) {
    && (forall p | p in s.locks :: s.locks[p] in s.tasks && p in Held(s.tasks[s.locks[p]]))
    && (forall t, p | t in s.tasks && p in Held(s.tasks[t]) :: p in s.locks && s.locks[p] == t)
  }

  ghost predicate Owns(s: State, t: TaskId, id: ArtifactId) {
    id in s.used && s.used[id] == t
  }

  ghost predicate ItemOk(cfg: Config, s: State, t: TaskId, actor: ActorId, item: Item) {
    && Owns(s, t, item.id)
    && var p := PartialOf(cfg, actor, item.id); p in s.files ==> cfg.hash(s.files[p]) == item.sha
  }

  ghost predicate ItemsOk(cfg: Config, s: State, t: TaskId) requires IsStager(s, t) {
    var Stager(actor, items, _, _) := s.tasks[t];
    && (forall i | 0 <= i < |items| :: ItemOk(cfg, s, t, actor, items[i]))
    && (forall i, j | 0 <= i < j < |items| :: items[i].id != items[j].id)
  }

  ghost predicate Fresh(items: seq<Item>, id: ArtifactId) {
    forall i | 0 <= i < |items| :: items[i].id != id
  }

  ghost predicate PlacedUpTo(cfg: Config, s: State, t: TaskId, n: nat) requires IsStager(s, t) {
    var Stager(actor, items, held, _) := s.tasks[t];
    && n <= |items|
    && held == Canons(cfg, actor, items)
    && forall i | 0 <= i < n :: Canon(cfg, actor, items[i]) in s.files
  }

  ghost predicate SyncedItems(cfg: Config, s: State, t: TaskId) requires IsStager(s, t) {
    var Stager(actor, items, held, _) := s.tasks[t];
    && held == Canons(cfg, actor, items)
    && forall i | 0 <= i < |items| :: Durable(s, Canon(cfg, actor, items[i]))
  }

  // Between the first check and the commit.
  predicate UnderLocks(stage: StagePhase) {
    !stage.Preparing? && !stage.Opening? && !stage.Copying? && !stage.Locking? && !stage.Releasing?
  }

  ghost predicate StageOk(cfg: Config, s: State, t: TaskId) requires IsStager(s, t) {
    var Stager(actor, items, held, stage) := s.tasks[t];
    match stage
    case Preparing => held == {}
    case Opening(id, _, _) => held == {} && Owns(s, t, id) && Fresh(items, id)
    case Copying(id, _, _, copied) =>
      && held == {} && Owns(s, t, id) && Fresh(items, id)
      && var p := PartialOf(cfg, actor, id); p in s.files ==> s.files[p] == copied
    case Locking(todo) =>
      && StrictlySorted(cfg, todo)
      && held + (set p | p in todo) == Canons(cfg, actor, items)
      && (forall h, q | h in held && q in todo :: cfg.before(h, q))
    case Checking(n) => PlacedUpTo(cfg, s, t, n)
    case Placing(n, _) => n < |items| && PlacedUpTo(cfg, s, t, n)
    case Renaming(n) => n < |items| && PlacedUpTo(cfg, s, t, n) && Canon(cfg, actor, items[n]) !in s.files
    case Discarding(n) => n < |items| && PlacedUpTo(cfg, s, t, n) && Canon(cfg, actor, items[n]) in s.files
    case Synced => SyncedItems(cfg, s, t)
    case Inspected =>
      && SyncedItems(cfg, s, t)
      && forall i | 0 <= i < |items| :: |s.files[Canon(cfg, actor, items[i])]| == items[i].size
    case Releasing => true
  }

  ghost predicate Unreferenced(s: State, p: Path) {
    forall id | id in s.rows && s.rows[id].path == p :: s.rows[id].Staging?
  }

  ghost predicate CollectOk(s: State, t: TaskId) requires IsCollector(s, t) {
    && (forall e | e in s.tasks[t].claimed :: e.path.Partial?)
    && match s.tasks[t].collect
       case AwaitExpired(e) => e.path.Partial?
       case HoldExpired(e) => e.path.Partial?
       case RemoveExpired(e) => e.path.Partial?
       case CompleteExpired(e) => e.path.Partial?
       case RemoveOrphan(p) => Unreferenced(s, p)
       case _ => true
  }

  ghost predicate TaskOk(cfg: Config, s: State, t: TaskId) requires t in s.tasks {
    if s.tasks[t].Stager? then ItemsOk(cfg, s, t) && StageOk(cfg, s, t) else CollectOk(s, t)
  }

  ghost predicate Inv(cfg: Config, s: State) {
    && Good(cfg, s.files) && Good(cfg, s.disk)
    && RowsOk(cfg, s)
    && LocksOk(s)
    && (forall t | t in s.tasks :: TaskOk(cfg, s, t))
  }

  ghost predicate IsOrder(before: (Path, Path) -> bool) {
    && (forall p :: !before(p, p))
    && (forall p, q, r | before(p, q) && before(q, r) :: before(p, r))
  }

  // ---------------------------------------------------------------- framing

  // What a step of task t may do to the state the other tasks rely on.
  ghost predicate Disturbs(s: State, s': State, t: TaskId) {
    && (forall p: Path | p.Canonical? && p in s.locks && s.locks[p] != t ::
          && (p in s'.files <==> p in s.files)
          && (p in s.files ==> s'.files[p] == s.files[p])
          && (Durable(s, p) ==> Durable(s', p)))
    && (forall p: Path | p.Partial? && p in s'.files ::
          (p in s.files && s'.files[p] == s.files[p]) || Owns(s', t, p.id))
    && (forall id | id in s.used :: id in s'.used && s'.used[id] == s.used[id])
    && (forall id | id in s'.rows && s'.rows[id].Referenced? ::
          (id in s.rows && s.rows[id] == s'.rows[id])
          || (s'.rows[id].path in s.locks && s.locks[s'.rows[id].path] == t))
  }

  lemma OtherItemsUndisturbed(cfg: Config, s: State, s': State, t: TaskId, u: TaskId)
    requires Disturbs(s, s', t)
    requires u != t && IsStager(s, u) && IsStager(s', u) && s'.tasks[u] == s.tasks[u] && ItemsOk(cfg, s, u)
    ensures ItemsOk(cfg, s', u)
  {
    var Stager(actor, items, _, _) := s.tasks[u];
    forall i | 0 <= i < |items|
      ensures ItemOk(cfg, s', u, actor, items[i])
    {
      assert ItemOk(cfg, s, u, actor, items[i]);
    }
  }

  lemma OtherStageUndisturbed(cfg: Config, s: State, s': State, t: TaskId, u: TaskId)
    requires Disturbs(s, s', t) && LocksOk(s)
    requires u != t && IsStager(s, u) && IsStager(s', u) && s'.tasks[u] == s.tasks[u] && StageOk(cfg, s, u)
    ensures StageOk(cfg, s', u)
  {
    var Stager(actor, items, held, stage) := s.tasks[u];
    if UnderLocks(stage) {
      forall i | 0 <= i < |items|
        ensures var p := Canon(cfg, actor, items[i]); p in s.locks && s.locks[p] != t
      {
        assert Canon(cfg, actor, items[i]) in Canons(cfg, actor, items);
        assert Canon(cfg, actor, items[i]) in Held(s.tasks[u]);
      }
    }
  }

  lemma OthersUndisturbed(cfg: Config, s: State, s': State, t: TaskId, u: TaskId)
    requires Inv(cfg, s) && Disturbs(s, s', t)
    requires u != t && u in s.tasks && u in s'.tasks && s'.tasks[u] == s.tasks[u]
    ensures TaskOk(cfg, s', u)
  {
    assert TaskOk(cfg, s, u);
    if s.tasks[u].Stager? {
      OtherItemsUndisturbed(cfg, s, s', t, u);
      OtherStageUndisturbed(cfg, s, s', t, u);
    } else if s.tasks[u].collect.RemoveOrphan? {
      assert s.tasks[u].collect.path in Held(s.tasks[u]);
    }
  }

  lemma Settle(cfg: Config, s: State, s': State, t: TaskId)
    requires Inv(cfg, s) && Disturbs(s, s', t)
    requires forall u | u in s'.tasks && u != t :: u in s.tasks && s'.tasks[u] == s.tasks[u]
    requires Good(cfg, s'.files) && Good(cfg, s'.disk) && RowsOk(cfg, s') && LocksOk(s')
    requires t in s'.tasks ==> TaskOk(cfg, s', t)
    ensures Inv(cfg, s')
  {
    forall u | u in s'.tasks
      ensures TaskOk(cfg, s', u)
    {
      if u != t { OthersUndisturbed(cfg, s, s', t, u); }
    }
  }

  // ---------------------------------------------------------------- every step keeps the invariant

  // Files whose rows stay and that stay durable keep the rows right.
  lemma RowsKept(cfg: Config, s: State, s': State)
    requires RowsOk(cfg, s)
    requires forall id | id in s'.rows :: id in s.rows &&
               (s'.rows[id] == s.rows[id] || (s.rows[id].Staging? && s'.rows[id].Staging? && s'.rows[id].path == s.rows[id].path))
    requires forall p: Path | p.Canonical? && Durable(s, p) :: Durable(s', p) && s'.files[p] == s.files[p]
    ensures RowsOk(cfg, s')
  {
    forall id | id in s'.rows ensures RowOk(cfg, s', s'.rows[id]) { assert RowOk(cfg, s, s.rows[id]); }
  }

  // A step of t that leaves its locks alone.
  ghost predicate Keeps(s: State, s': State, t: TaskId) {
    && t in s.tasks && t in s'.tasks
    && s'.tasks == s.tasks[t := s'.tasks[t]]
    && Held(s'.tasks[t]) == Held(s.tasks[t])
    && s'.locks == s.locks
  }

  lemma SettleSameLocks(cfg: Config, s: State, s': State, t: TaskId)
    requires Inv(cfg, s) && Disturbs(s, s', t) && Keeps(s, s', t)
    requires Good(cfg, s'.files) && Good(cfg, s'.disk) && RowsOk(cfg, s')
    requires TaskOk(cfg, s', t)
    ensures Inv(cfg, s')
  {
    LocksKept(s, s', t);
    Settle(cfg, s, s', t);
  }

  lemma LocksKept(s: State, s': State, t: TaskId)
    requires LocksOk(s) && Keeps(s, s', t)
    ensures LocksOk(s')
  {
    assert forall u | u in s'.tasks :: Held(s'.tasks[u]) == Held(s.tasks[u]);
  }

  // A step of t that changes nothing but its own phase.
  lemma SettleQuiet(cfg: Config, s: State, s': State, t: TaskId)
    requires Inv(cfg, s) && Keeps(s, s', t)
    requires s'.files == s.files && s'.disk == s.disk && s'.rows == s.rows && s'.used == s.used
    requires TaskOk(cfg, s', t)
    ensures Inv(cfg, s')
  {
    RowsKept(cfg, s, s');
    SettleSameLocks(cfg, s, s', t);
  }

  lemma BeginStagingKeeps(cfg: Config, s: State, a: Action)
    requires Inv(cfg, s) && a.BeginStaging? && CopyStep(cfg, s, a).Some?
    ensures Inv(cfg, CopyStep(cfg, s, a).value)
  {
    var s' := CopyStep(cfg, s, a).value;
    assert TaskOk(cfg, s, a.t);
    assert TaskOk(cfg, s', a.t) by {
      forall i | 0 <= i < |s.tasks[a.t].items|
        ensures ItemOk(cfg, s', a.t, s.tasks[a.t].actor, s.tasks[a.t].items[i])
      {
        assert ItemOk(cfg, s, a.t, s.tasks[a.t].actor, s.tasks[a.t].items[i]);
      }
    }
    assert RowsOk(cfg, s') by {
      forall id | id in s'.rows ensures RowOk(cfg, s', s'.rows[id]) {
        if id != a.id { assert RowOk(cfg, s, s.rows[id]); }
      }
    }
    SettleSameLocks(cfg, s, s', a.t);
  }

  // Writing the partial file of t disturbs neither canonical files nor other partial files.
  lemma PartialWriteKeeps(cfg: Config, s: State, a: Action)
    requires Inv(cfg, s) && (a.OpenPartial? || a.CopyChunk?) && CopyStep(cfg, s, a).Some?
    ensures Inv(cfg, CopyStep(cfg, s, a).value)
  {
    var s' := CopyStep(cfg, s, a).value;
    var Stager(actor, items, held, stage) := s.tasks[a.t];
    var p := PartialOf(cfg, actor, stage.id);
    assert TaskOk(cfg, s, a.t);
    assert forall q: Path | q != p :: (q in s'.files <==> q in s.files) && (q in s.files ==> s'.files[q] == s.files[q]);
    FinishedItemsKept(cfg, s, s', a.t, actor, items, p);
    PartialSettles(cfg, s, s', a.t, p);
  }

  // Nobody but the owner looks at a partial file.
  lemma PartialSettles(cfg: Config, s: State, s': State, t: TaskId, p: Path)
    requires Inv(cfg, s) && Keeps(s, s', t) && TaskOk(cfg, s', t) && p.Partial? && Owns(s, t, p.id)
    requires forall q: Path | q != p :: (q in s'.files <==> q in s.files) && (q in s.files ==> s'.files[q] == s.files[q])
    requires s'.disk == s.disk && s'.rows == s.rows && s'.used == s.used
    ensures Inv(cfg, s')
  {
    RowsKept(cfg, s, s');
    SettleSameLocks(cfg, s, s', t);
  }

  // Writing the partial file of another identifier leaves the finished items alone.
  lemma FinishedItemsKept(cfg: Config, s: State, s': State, t: TaskId, actor: ActorId, items: seq<Item>, p: Path)
    requires forall i | 0 <= i < |items| :: ItemOk(cfg, s, t, actor, items[i]) && PartialOf(cfg, actor, items[i].id) != p
    requires forall q: Path | q != p :: (q in s'.files <==> q in s.files) && (q in s.files ==> s'.files[q] == s.files[q])
    requires s'.used == s.used
    ensures forall i | 0 <= i < |items| :: ItemOk(cfg, s', t, actor, items[i])
  {}

  lemma RenewStagingKeeps(cfg: Config, s: State, a: Action)
    requires Inv(cfg, s) && a.RenewStaging? && CopyStep(cfg, s, a).Some?
    ensures Inv(cfg, CopyStep(cfg, s, a).value)
  {
    var s' := CopyStep(cfg, s, a).value;
    assert TaskOk(cfg, s, a.t);
    assert TaskOk(cfg, s', a.t) by {
      var Stager(actor, items, _, _) := s.tasks[a.t];
      forall i | 0 <= i < |items| ensures ItemOk(cfg, s', a.t, actor, items[i]) {
        assert ItemOk(cfg, s, a.t, actor, items[i]);
      }
    }
    RowsKept(cfg, s, s');
    SettleSameLocks(cfg, s, s', a.t);
  }

  lemma FinishCopyKeeps(cfg: Config, s: State, a: Action)
    requires Inv(cfg, s) && a.FinishCopy? && CopyStep(cfg, s, a).Some?
    ensures Inv(cfg, CopyStep(cfg, s, a).value)
  {
    var s' := CopyStep(cfg, s, a).value;
    assert TaskOk(cfg, s, a.t);
    assert TaskOk(cfg, s', a.t) by {
      var Stager(actor, items, _, _) := s'.tasks[a.t];
      forall i | 0 <= i < |items| ensures ItemOk(cfg, s', a.t, actor, items[i]) {
        if i < |s.tasks[a.t].items| { assert ItemOk(cfg, s, a.t, actor, s.tasks[a.t].items[i]); }
      }
    }
    SettleQuiet(cfg, s, s', a.t);
  }

  lemma CopyStepKeeps(cfg: Config, s: State, a: Action)
    requires Inv(cfg, s) && CopyStep(cfg, s, a).Some?
    ensures Inv(cfg, CopyStep(cfg, s, a).value)
  {
    match a {
      case BeginStaging(_, _, _, _) => BeginStagingKeeps(cfg, s, a);
      case RenewStaging(_, _) => RenewStagingKeeps(cfg, s, a);
      case FinishCopy(_) => FinishCopyKeeps(cfg, s, a);
      case _ => PartialWriteKeeps(cfg, s, a);
    }
  }

  lemma ItemsKept(cfg: Config, s: State, s': State, t: TaskId)
    requires IsStager(s, t) && IsStager(s', t) && ItemsOk(cfg, s, t)
    requires s'.tasks[t].items == s.tasks[t].items && s'.tasks[t].actor == s.tasks[t].actor
    requires s'.used == s.used
    requires forall p: Path | p.Partial? && p in s'.files :: p in s.files && s'.files[p] == s.files[p]
    ensures ItemsOk(cfg, s', t)
  {
    var Stager(actor, items, _, _) := s.tasks[t];
    forall i | 0 <= i < |items| ensures ItemOk(cfg, s', t, actor, items[i]) {
      assert ItemOk(cfg, s, t, actor, items[i]);
    }
  }

  lemma QuietPlaceKeeps(cfg: Config, s: State, a: Action)
    requires Inv(cfg, s) && PlaceStep(cfg, s, a).Some?
    requires !a.RenamePartial? && !a.DiscardPartial? && !a.SyncDirectory? && !a.Commit?
    ensures Inv(cfg, PlaceStep(cfg, s, a).value)
  {
    var s' := PlaceStep(cfg, s, a).value;
    assert TaskOk(cfg, s, a.t);
    ItemsKept(cfg, s, s', a.t);
    QuietStageOk(cfg, s, a);
    SettleQuiet(cfg, s, s', a.t);
  }

  lemma QuietStageOk(cfg: Config, s: State, a: Action)
    requires PlaceStep(cfg, s, a).Some? && StageOk(cfg, s, a.t)
    requires !a.RenamePartial? && !a.DiscardPartial? && !a.SyncDirectory? && !a.Commit?
    ensures StageOk(cfg, PlaceStep(cfg, s, a).value, a.t)
  {}

  // Removing a partial file disturbs no task and no row.
  lemma PartialRemovalDisturbsNothing(s: State, s': State, t: TaskId, p: Path)
    requires p.Partial? && s'.files == s.files - {p}
    requires s'.disk == s.disk && s'.rows == s.rows && s'.used == s.used
    ensures Disturbs(s, s', t)
    ensures forall q: Path | q.Canonical? && Durable(s, q) :: Durable(s', q)
  {}

  lemma OneMorePlaced(cfg: Config, s: State, s': State, t: TaskId, n: nat)
    requires IsStager(s, t) && IsStager(s', t) && n < |s.tasks[t].items| && PlacedUpTo(cfg, s, t, n)
    requires s'.tasks[t] == s.tasks[t].(stage := s'.tasks[t].stage)
    requires forall p: Path | p.Canonical? && p in s.files :: p in s'.files
    requires Canon(cfg, s.tasks[t].actor, s.tasks[t].items[n]) in s'.files
    ensures PlacedUpTo(cfg, s', t, n + 1)
  {}

  lemma DiscardPartialKeeps(cfg: Config, s: State, a: Action)
    requires Inv(cfg, s) && a.DiscardPartial? && PlaceStep(cfg, s, a).Some?
    ensures Inv(cfg, PlaceStep(cfg, s, a).value)
  {
    var s' := PlaceStep(cfg, s, a).value;
    var Stager(actor, items, held, stage) := s.tasks[a.t];
    assert TaskOk(cfg, s, a.t);
    PartialRemovalDisturbsNothing(s, s', a.t, PartialOf(cfg, actor, items[stage.next].id));
    ItemsKept(cfg, s, s', a.t);
    OneMorePlaced(cfg, s, s', a.t, stage.next);
    RowsKept(cfg, s, s');
    SettleSameLocks(cfg, s, s', a.t);
  }

  // A rename to a path that t has locked and that is free disturbs nobody else.
  lemma RenameDisturbsNothing(s: State, s': State, t: TaskId, partial: Path, canon: Path)
    requires partial.Partial? && partial in s.files && canon.Canonical? && canon !in s.files
    requires canon in s.locks && s.locks[canon] == t
    requires s'.files == (s.files - {partial})[canon := s.files[partial]]
    requires s'.disk == s.disk && s'.rows == s.rows && s'.used == s.used
    ensures Disturbs(s, s', t)
    ensures forall q: Path | q.Canonical? && Durable(s, q) :: Durable(s', q) && s'.files[q] == s.files[q]
  {}

  lemma RenameKeepsGood(cfg: Config, files: map<Path, Bytes>, partial: Path, canon: Path)
    requires Good(cfg, files) && partial.Partial? && partial in files && canon.Canonical?
    requires cfg.hash(files[partial]) == canon.sha
    ensures Good(cfg, (files - {partial})[canon := files[partial]])
  {}

  lemma RenamePartialKeeps(cfg: Config, s: State, a: Action)
    requires Inv(cfg, s) && a.RenamePartial? && PlaceStep(cfg, s, a).Some?
    ensures Inv(cfg, PlaceStep(cfg, s, a).value)
  {
    var s' := PlaceStep(cfg, s, a).value;
    var Stager(actor, items, held, stage) := s.tasks[a.t];
    var canon := Canon(cfg, actor, items[stage.next]);
    var partial := PartialOf(cfg, actor, items[stage.next].id);
    assert TaskOk(cfg, s, a.t);
    assert ItemOk(cfg, s, a.t, actor, items[stage.next]);
    assert canon in Held(s.tasks[a.t]);
    RenameDisturbsNothing(s, s', a.t, partial, canon);
    RenameKeepsGood(cfg, s.files, partial, canon);
    ItemsKept(cfg, s, s', a.t);
    OneMorePlaced(cfg, s, s', a.t, stage.next);
    RowsKept(cfg, s, s');
    SettleSameLocks(cfg, s, s', a.t);
  }

  lemma SyncDirectoryKeeps(cfg: Config, s: State, a: Action)
    requires Inv(cfg, s) && a.SyncDirectory? && PlaceStep(cfg, s, a).Some?
    ensures Inv(cfg, PlaceStep(cfg, s, a).value)
  {
    var s' := PlaceStep(cfg, s, a).value;
    assert TaskOk(cfg, s, a.t);
    ItemsKept(cfg, s, s', a.t);
    assert forall p: Path | Durable(s, p) :: Durable(s', p);
    RowsKept(cfg, s, s');
    SettleSameLocks(cfg, s, s', a.t);
  }

  // A committed row is an old row, or names the canonical path of one of the items.
  ghost predicate CommittedRow(cfg: Config, actor: ActorId, rows: map<ArtifactId, Row>, items: seq<Item>,
                               id: ArtifactId, row: Row) {
    || (id in rows && rows[id] == row)
    || (exists i | 0 <= i < |items| ::
          row == Referenced(actor, Canon(cfg, actor, items[i]), items[i].sha, items[i].size))
  }

  lemma {:induction false} CommitItemsRows(cfg: Config, actor: ActorId, rows: map<ArtifactId, Row>, items: seq<Item>)
    requires CommitItems(cfg, actor, rows, items).Some?
    ensures forall id | id in CommitItems(cfg, actor, rows, items).value ::
              CommittedRow(cfg, actor, rows, items, id, CommitItems(cfg, actor, rows, items).value[id])
    decreases |items|
  {
    if items != [] {
      var item := items[0];
      var rows1 := if HasReferenced(rows, actor, item.sha, item.size) then rows - {item.id}
                   else rows[item.id := Referenced(actor, Canon(cfg, actor, item), item.sha, item.size)];
      var rows' := CommitItems(cfg, actor, rows1, items[1..]).value;
      CommitItemsRows(cfg, actor, rows1, items[1..]);
      forall id | id in rows' ensures CommittedRow(cfg, actor, rows, items, id, rows'[id]) {
        if !(id in rows1 && rows1[id] == rows'[id]) {
          var i :| 0 <= i < |items[1..]| && rows'[id] ==
            Referenced(actor, Canon(cfg, actor, items[1..][i]), items[1..][i].sha, items[1..][i].size);
          assert items[1..][i] == items[i + 1];
        }
      }
    }
  }

  // An item that still has the staging row it was staged with.
  predicate StillStaged(rows: map<ArtifactId, Row>, item: Item) {
    item.id in rows && rows[item.id].Staging? && rows[item.id].lease == item.lease
  }

  function CanonicalRow(cfg: Config, actor: ActorId, item: Item): Row {
    Referenced(actor, Canon(cfg, actor, item), item.sha, item.size)
  }

  ghost predicate DistinctItems(items: seq<Item>) {
    forall i, j | 0 <= i < j < |items| :: items[i].id != items[j].id
  }

  ghost predicate IsItem(items: seq<Item>, id: ArtifactId) {
    exists i | 0 <= i < |items| :: items[i].id == id
  }

  // The item had its staging row, has none any more, and some committed row names its content at the canonical path.
  ghost predicate ItemCommitted(cfg: Config, actor: ActorId, rows: map<ArtifactId, Row>, item: Item,
                                rows': map<ArtifactId, Row>)
  {
    && StillStaged(rows, item)
    && (item.id in rows' ==> rows'[item.id] == CanonicalRow(cfg, actor, item))
    && exists id :: id in rows' && rows'[id] == CanonicalRow(cfg, actor, item)
  }

  // Every item is committed; no other row changes, nor any row that was committed before.
  ghost predicate AllCommitted(cfg: Config, actor: ActorId, rows: map<ArtifactId, Row>, items: seq<Item>,
                               rows': map<ArtifactId, Row>)
  {
    && (forall i | 0 <= i < |items| :: ItemCommitted(cfg, actor, rows, items[i], rows'))
    && DistinctItems(items)
    && (forall id | !IsItem(items, id) :: (id in rows' <==> id in rows) && (id in rows ==> rows'[id] == rows[id]))
    && (forall id | id in rows && rows[id].Referenced? :: id in rows' && rows'[id] == rows[id])
  }

  // The first item of a commit.
  ghost predicate FirstCommitted(cfg: Config, actor: ActorId, rows: map<ArtifactId, Row>, item: Item,
                                 rows1: map<ArtifactId, Row>)
  {
    && StillStaged(rows, item)
    && (rows1 == rows - {item.id} || rows1 == rows[item.id := CanonicalRow(cfg, actor, item)])
    && exists id :: id in rows1 && rows1[id] == CanonicalRow(cfg, actor, item)
  }

  lemma FirstItemCommitted(cfg: Config, actor: ActorId, rows: map<ArtifactId, Row>, items: seq<Item>)
    returns (rows1: map<ArtifactId, Row>)
    requires items != [] && CommitItems(cfg, actor, rows, items).Some?
    ensures FirstCommitted(cfg, actor, rows, items[0], rows1)
    ensures CommitItems(cfg, actor, rows, items) == CommitItems(cfg, actor, rows1, items[1..])
  {
    var item := items[0];
    if HasReferenced(rows, actor, item.sha, item.size) {
      rows1 := rows - {item.id};
      var id :| id in rows && IsReferenced(rows[id], actor, item.sha, item.size);
      assert id in rows1 && rows1[id] == CanonicalRow(cfg, actor, item);
    } else {
      rows1 := rows[item.id := CanonicalRow(cfg, actor, item)];
      assert rows1[item.id] == CanonicalRow(cfg, actor, item);
    }
  }

  lemma FirstThenAll(cfg: Config, actor: ActorId, rows: map<ArtifactId, Row>, items: seq<Item>,
                     rows1: map<ArtifactId, Row>, rows': map<ArtifactId, Row>)
    requires items != [] && FirstCommitted(cfg, actor, rows, items[0], rows1)
    requires AllCommitted(cfg, actor, rows1, items[1..], rows')
    ensures AllCommitted(cfg, actor, rows, items, rows')
  {
    forall i | 0 < i < |items| ensures ItemCommitted(cfg, actor, rows, items[i], rows') && items[i].id != items[0].id {
      assert items[1..][i - 1] == items[i];
    }
    FirstIsOther(cfg, actor, rows, items, rows1, rows');
    forall i, j | 0 <= i < j < |items| ensures items[i].id != items[j].id {
      if i > 0 { assert items[1..][i - 1] == items[i] && items[1..][j - 1] == items[j]; }
    }
    forall id | !IsItem(items, id) ensures !IsItem(items[1..], id) && id != items[0].id {
      assert items[0].id != id;
      assert forall i | 0 <= i < |items[1..]| :: items[1..][i] == items[i + 1];
    }
  }

  // What later items do leaves the first one committed.
  lemma FirstIsOther(cfg: Config, actor: ActorId, rows: map<ArtifactId, Row>, items: seq<Item>,
                     rows1: map<ArtifactId, Row>, rows': map<ArtifactId, Row>)
    requires items != [] && FirstCommitted(cfg, actor, rows, items[0], rows1)
    requires AllCommitted(cfg, actor, rows1, items[1..], rows')
    ensures ItemCommitted(cfg, actor, rows, items[0], rows')
  {
    var id :| id in rows1 && rows1[id] == CanonicalRow(cfg, actor, items[0]);
    assert id in rows' && rows'[id] == rows1[id];
    assert !IsItem(items[1..], items[0].id);
  }

  /** A commit commits everything: each item gives up its staging row and is named by a committed row. */
  lemma {:induction false} CommitCoversEveryItem(cfg: Config, actor: ActorId, rows: map<ArtifactId, Row>, items: seq<Item>)
    requires CommitItems(cfg, actor, rows, items).Some?
    ensures AllCommitted(cfg, actor, rows, items, CommitItems(cfg, actor, rows, items).value)
    decreases |items|
  {
    if items != [] {
      var rows1 := FirstItemCommitted(cfg, actor, rows, items);
      CommitCoversEveryItem(cfg, actor, rows1, items[1..]);
      FirstThenAll(cfg, actor, rows, items, rows1, CommitItems(cfg, actor, rows, items).value);
    }
  }

  // Nobody else's row is in the way of the item.
  ghost predicate MayCommit(cfg: Config, actor: ActorId, rows: map<ArtifactId, Row>, item: Item) {
    && StillStaged(rows, item)
    && (HasReferenced(rows, actor, item.sha, item.size) || !PathTaken(rows, Canon(cfg, actor, item)))
  }

  // Staging rows name partial files, and the actor's committed rows their canonical path.
  ghost predicate RowsInPlace(cfg: Config, actor: ActorId, rows: map<ArtifactId, Row>) {
    forall id | id in rows ::
      if rows[id].Staging? then rows[id].path.Partial?
      else rows[id].actor == actor ==> rows[id].path == Canonical(cfg.dirOf(actor), rows[id].sha)
  }

  // Items of one digest have one size, as items that were found in one file do.
  ghost predicate SizesAgree(items: seq<Item>) {
    forall i, j | 0 <= i < |items| && 0 <= j < |items| && items[i].sha == items[j].sha :: items[i].size == items[j].size
  }

  // The rows after the first item of a commit that goes on.
  ghost function AfterFirst(cfg: Config, actor: ActorId, rows: map<ArtifactId, Row>, item: Item): map<ArtifactId, Row> {
    if HasReferenced(rows, actor, item.sha, item.size) then rows - {item.id}
    else rows[item.id := CanonicalRow(cfg, actor, item)]
  }

  lemma FirstLeavesTheRest(cfg: Config, actor: ActorId, rows: map<ArtifactId, Row>, item: Item, other: Item)
    requires RowsInPlace(cfg, actor, rows) && MayCommit(cfg, actor, rows, item) && other.id != item.id
    requires item.sha == other.sha ==> item.size == other.size
    ensures RowsInPlace(cfg, actor, AfterFirst(cfg, actor, rows, item))
    ensures MayCommit(cfg, actor, AfterFirst(cfg, actor, rows, item), other) <==> MayCommit(cfg, actor, rows, other)
  {
    var rows1 := AfterFirst(cfg, actor, rows, item);
    var canon := Canon(cfg, actor, other);
    if HasReferenced(rows, actor, other.sha, other.size) {
      var id :| id in rows && IsReferenced(rows[id], actor, other.sha, other.size);
      assert id in rows1 && rows1[id] == rows[id];
    }
    if PathTaken(rows, canon) {
      var id :| id in rows && rows[id].path == canon;
      assert id in rows1 && rows1[id] == rows[id];
    }
    if rows1 != rows - {item.id} { assert rows1[item.id] == CanonicalRow(cfg, actor, item); }
  }

  lemma {:induction false} CommitSucceedsIff(cfg: Config, actor: ActorId, rows: map<ArtifactId, Row>, items: seq<Item>)
    requires RowsInPlace(cfg, actor, rows) && SizesAgree(items) && DistinctItems(items)
    ensures CommitItems(cfg, actor, rows, items).Some?
            <==> forall i | 0 <= i < |items| :: MayCommit(cfg, actor, rows, items[i])
    decreases |items|
  {
    if items != [] && MayCommit(cfg, actor, rows, items[0]) {
      var rows1 := AfterFirst(cfg, actor, rows, items[0]);
      var rest := items[1..];
      assert forall i | 0 <= i < |rest| :: rest[i] == items[i + 1];
      assert RowsInPlace(cfg, actor, rows1);
      CommitSucceedsIff(cfg, actor, rows1, rest);
      assert CommitItems(cfg, actor, rows, items) == CommitItems(cfg, actor, rows1, rest);
      forall i | 0 < i < |items|
        ensures MayCommit(cfg, actor, rows1, rest[i - 1]) <==> MayCommit(cfg, actor, rows, items[i])
      {
        FirstLeavesTheRest(cfg, actor, rows, items[0], items[i]);
      }
    }
  }

  // Every row after a commit is sound, and a new one names a path that t has locked.
  lemma CommittedRowOk(cfg: Config, s: State, s': State, t: TaskId, id: ArtifactId)
    requires Inv(cfg, s) && IsStager(s, t) && s.tasks[t].stage.Inspected?
    requires s'.files == s.files && s'.disk == s.disk && id in s'.rows
    requires CommittedRow(cfg, s.tasks[t].actor, s.rows, s.tasks[t].items, id, s'.rows[id])
    ensures RowOk(cfg, s', s'.rows[id])
    ensures (id in s.rows && s.rows[id] == s'.rows[id]) || (s'.rows[id].path in s.locks && s.locks[s'.rows[id].path] == t)
  {
    assert TaskOk(cfg, s, t);
    if id in s.rows && s.rows[id] == s'.rows[id] {
      assert RowOk(cfg, s, s.rows[id]);
    } else {
      assert s'.rows[id].path in Held(s.tasks[t]);
    }
  }

  lemma CommitKeeps(cfg: Config, s: State, a: Action)
    requires Inv(cfg, s) && a.Commit? && PlaceStep(cfg, s, a).Some?
    ensures Inv(cfg, PlaceStep(cfg, s, a).value)
  {
    var s' := PlaceStep(cfg, s, a).value;
    var Stager(actor, items, held, stage) := s.tasks[a.t];
    assert TaskOk(cfg, s, a.t);
    ItemsKept(cfg, s, s', a.t);
    CommitItemsRows(cfg, actor, s.rows, items);
    forall id | id in s'.rows
      ensures RowOk(cfg, s', s'.rows[id])
      ensures s'.rows[id].Referenced? ==>
        (id in s.rows && s.rows[id] == s'.rows[id]) || (s'.rows[id].path in s.locks && s.locks[s'.rows[id].path] == a.t)
    {
      CommittedRowOk(cfg, s, s', a.t, id);
    }
    SettleSameLocks(cfg, s, s', a.t);
  }

  lemma PlaceStepKeeps(cfg: Config, s: State, a: Action)
    requires Inv(cfg, s) && PlaceStep(cfg, s, a).Some?
    ensures Inv(cfg, PlaceStep(cfg, s, a).value)
  {
    match a {
      case RenamePartial(_) => RenamePartialKeeps(cfg, s, a);
      case DiscardPartial(_) => DiscardPartialKeeps(cfg, s, a);
      case SyncDirectory(_) => SyncDirectoryKeeps(cfg, s, a);
      case Commit(_) => CommitKeeps(cfg, s, a);
      case _ => QuietPlaceKeeps(cfg, s, a);
    }
  }

  // The collector changes or deletes staging rows and no others.
  lemma StagingRowsOnly(cfg: Config, s: State, s': State, t: TaskId)
    requires Inv(cfg, s) && Keeps(s, s', t) && IsCollector(s, t)
    requires s'.files == s.files && s'.disk == s.disk && s'.used == s.used
    requires forall id | id in s'.rows :: id in s.rows &&
               (s'.rows[id] == s.rows[id] || (s.rows[id].Staging? && s'.rows[id].Staging? && s'.rows[id].path == s.rows[id].path))
    requires TaskOk(cfg, s', t)
    ensures Inv(cfg, s')
  {
    RowsKept(cfg, s, s');
    SettleSameLocks(cfg, s, s', t);
  }

  lemma RenewClaimKeeps(cfg: Config, s: State, a: Action)
    requires Inv(cfg, s) && a.RenewClaim? && CollectStep(cfg, s, a).Some?
    ensures Inv(cfg, CollectStep(cfg, s, a).value)
  {
    var s' := CollectStep(cfg, s, a).value;
    var e := s.tasks[a.t].collect.e;
    assert CollectOk(s, a.t) by { assert TaskOk(cfg, s, a.t); }
    if s'.tasks[a.t].collect == Leaving(e.path) {
      SettleQuiet(cfg, s, s', a.t);
    } else {
      var row := s.rows[e.id].(lease := Lease(e.owner, a.now + 30_000));
      assert s' == AtCollect(s, a.t, RemoveExpired(e)).(rows := s.rows[e.id := row]);
      StagingRowsOnly(cfg, s, s', a.t);
    }
  }

  lemma CompleteClaimKeeps(cfg: Config, s: State, a: Action)
    requires Inv(cfg, s) && a.CompleteClaim? && CollectStep(cfg, s, a).Some?
    ensures Inv(cfg, CollectStep(cfg, s, a).value)
  {
    assert TaskOk(cfg, s, a.t);
    StagingRowsOnly(cfg, s, CollectStep(cfg, s, a).value, a.t);
  }

  lemma ClaimExpiredKeeps(cfg: Config, s: State, a: Action)
    requires Inv(cfg, s) && a.ClaimExpired? && CollectStep(cfg, s, a).Some?
    ensures Inv(cfg, CollectStep(cfg, s, a).value)
  {
    var s' := CollectStep(cfg, s, a).value;
    assert TaskOk(cfg, s, a.t);
    forall e | e in s'.tasks[a.t].claimed ensures e.path.Partial? {
      assert RowOk(cfg, s, s.rows[e.id]);
    }
    StagingRowsOnly(cfg, s, s', a.t);
  }

  lemma QuietCollectKeeps(cfg: Config, s: State, a: Action)
    requires Inv(cfg, s) && (a.PickExpired? || a.PickOrphan? || a.RecheckOrphan?) && CollectStep(cfg, s, a).Some?
    ensures Inv(cfg, CollectStep(cfg, s, a).value)
  {
    assert TaskOk(cfg, s, a.t);
    SettleQuiet(cfg, s, CollectStep(cfg, s, a).value, a.t);
  }

  lemma RemoveFileKeeps(cfg: Config, s: State, a: Action)
    requires Inv(cfg, s) && (a.RemoveClaimed? || a.RemoveOrphanFile?) && CollectStep(cfg, s, a).Some?
    ensures Inv(cfg, CollectStep(cfg, s, a).value)
  {
    var s' := CollectStep(cfg, s, a).value;
    var p := if a.RemoveClaimed? then s.tasks[a.t].collect.e.path else s.tasks[a.t].collect.path;
    assert TaskOk(cfg, s, a.t);
    RemovalSettles(cfg, s, s', a.t, p);
  }

  // A file that no committed row names may go, if its path is held.
  lemma RemovalSettles(cfg: Config, s: State, s': State, t: TaskId, p: Path)
    requires Inv(cfg, s) && Keeps(s, s', t) && TaskOk(cfg, s', t) && p in Held(s.tasks[t])
    requires p.Partial? || Unreferenced(s, p)
    requires s'.files == s.files - {p} && (s'.disk == s.disk || s'.disk == s.disk - {p})
    requires s'.rows == s.rows && s'.used == s.used
    ensures Inv(cfg, s')
  {
    forall id | id in s'.rows ensures RowOk(cfg, s', s'.rows[id]) {
      assert RowOk(cfg, s, s.rows[id]);
    }
    SettleSameLocks(cfg, s, s', t);
  }

  lemma CollectStepKeeps(cfg: Config, s: State, a: Action)
    requires Inv(cfg, s) && CollectStep(cfg, s, a).Some?
    ensures Inv(cfg, CollectStep(cfg, s, a).value)
  {
    match a {
      case RemoveClaimed(_) => RemoveFileKeeps(cfg, s, a);
      case RemoveOrphanFile(_) => RemoveFileKeeps(cfg, s, a);
      case ClaimExpired(_, _, _, _) => ClaimExpiredKeeps(cfg, s, a);
      case RenewClaim(_, _) => RenewClaimKeeps(cfg, s, a);
      case CompleteClaim(_) => CompleteClaimKeeps(cfg, s, a);
      case _ => QuietCollectKeeps(cfg, s, a);
    }
  }

  lemma StartKeeps(cfg: Config, s: State, a: Action)
    requires Inv(cfg, s) && (a.StartStager? || a.StartCollector?) && LifeStep(s, a).Some?
    ensures Inv(cfg, LifeStep(s, a).value)
  {
    var s' := LifeStep(s, a).value;
    assert LocksOk(s') by {
      assert forall u | u in s.tasks :: s'.tasks[u] == s.tasks[u];
    }
    RowsKept(cfg, s, s');
    Settle(cfg, s, s', a.t);
  }

  // A step of t takes or drops exactly one lock.
  ghost predicate ChangesLock(s: State, s': State, t: TaskId, p: Path) {
    && t in s.tasks && t in s'.tasks
    && s'.tasks == s.tasks[t := s'.tasks[t]]
    && (|| (p !in s.locks && s'.locks == s.locks[p := t] && Held(s'.tasks[t]) == Held(s.tasks[t]) + {p})
        || (p in Held(s.tasks[t]) && s'.locks == s.locks - {p} && Held(s'.tasks[t]) == Held(s.tasks[t]) - {p}))
  }

  lemma LocksOkAfterChange(s: State, s': State, t: TaskId, p: Path)
    requires LocksOk(s) && ChangesLock(s, s', t, p)
    ensures LocksOk(s')
  {
    forall u, q | u in s'.tasks && q in Held(s'.tasks[u])
      ensures q in s'.locks && s'.locks[q] == u
    {
      if u == t && q == p {} else { assert q in Held(s.tasks[u]); }
    }
    forall q | q in s'.locks
      ensures s'.locks[q] in s'.tasks && q in Held(s'.tasks[s'.locks[q]])
    {
      if q != p { assert q in s.locks && s.locks[q] == s'.locks[q]; }
    }
  }

  lemma SettleLockChange(cfg: Config, s: State, s': State, t: TaskId, p: Path)
    requires Inv(cfg, s) && ChangesLock(s, s', t, p)
    requires s'.files == s.files && s'.disk == s.disk && s'.rows == s.rows && s'.used == s.used
    requires TaskOk(cfg, s', t)
    ensures Inv(cfg, s')
  {
    LocksOkAfterChange(s, s', t, p);
    assert Disturbs(s, s', t);
    RowsKept(cfg, s, s');
    Settle(cfg, s, s', t);
  }

  // After taking the first path of its order a stager still has to lock the rest of it, in order.
  lemma OneMoreLocked(cfg: Config, actor: ActorId, items: seq<Item>, held: set<Path>, todo: seq<Path>)
    requires todo != [] && StrictlySorted(cfg, todo)
    requires held + (set p | p in todo) == Canons(cfg, actor, items)
    requires forall h, q | h in held && q in todo :: cfg.before(h, q)
    ensures StrictlySorted(cfg, todo[1..])
    ensures held + {todo[0]} + (set p | p in todo[1..]) == Canons(cfg, actor, items)
    ensures forall h, q | h in held + {todo[0]} && q in todo[1..] :: cfg.before(h, q)
  {
    assert todo == [todo[0]] + todo[1..];
    assert (set q | q in todo) == {todo[0]} + (set q | q in todo[1..]);
  }

  lemma LockedTaskOk(cfg: Config, s: State, s': State, t: TaskId)
    requires t in s.tasks && TaskOk(cfg, s, t) && Wants(s.tasks[t]).Some?
    requires s'.files == s.files && s'.rows == s.rows && s'.used == s.used
    requires t in s'.tasks && s'.tasks[t] == Locked(s.tasks[t])
    ensures TaskOk(cfg, s', t)
  {
    var task := s.tasks[t];
    if task.Stager? {
      ItemsKept(cfg, s, s', t);
      OneMoreLocked(cfg, task.actor, task.items, task.held, task.stage.todo);
    }
  }

  lemma LockPathKeeps(cfg: Config, s: State, a: Action)
    requires Inv(cfg, s) && a.LockPath? && LifeStep(s, a).Some?
    ensures Inv(cfg, LifeStep(s, a).value)
  {
    var s' := LifeStep(s, a).value;
    LockedTaskOk(cfg, s, s', a.t);
    SettleLockChange(cfg, s, s', a.t, Wants(s.tasks[a.t]).value);
  }

  lemma FailStagerKeeps(cfg: Config, s: State, t: TaskId)
    requires Inv(cfg, s) && IsStager(s, t)
    ensures Inv(cfg, AtStage(s, t, Releasing))
  {
    var s' := AtStage(s, t, Releasing);
    assert TaskOk(cfg, s, t);
    ItemsKept(cfg, s, s', t);
    SettleQuiet(cfg, s, s', t);
  }

  lemma FailCollectorKeeps(cfg: Config, s: State, t: TaskId)
    requires Inv(cfg, s) && IsCollector(s, t) && Abandoned(s.tasks[t].collect).Some?
    ensures Inv(cfg, AtCollect(s, t, Abandoned(s.tasks[t].collect).value))
  {
    assert TaskOk(cfg, s, t);
    SettleQuiet(cfg, s, AtCollect(s, t, Abandoned(s.tasks[t].collect).value), t);
  }

  lemma FailKeeps(cfg: Config, s: State, a: Action)
    requires Inv(cfg, s) && a.Fail? && LifeStep(s, a).Some?
    ensures Inv(cfg, LifeStep(s, a).value)
  {
    if IsStager(s, a.t) { FailStagerKeeps(cfg, s, a.t); } else { FailCollectorKeeps(cfg, s, a.t); }
  }

  lemma ReleaseKeeps(cfg: Config, s: State, a: Action)
    requires Inv(cfg, s) && a.Release? && LifeStep(s, a).Some?
    ensures Inv(cfg, LifeStep(s, a).value)
  {
    var s' := LifeStep(s, a).value;
    assert TaskOk(cfg, s, a.t);
    if s.tasks[a.t].Stager? { ItemsKept(cfg, s, s', a.t); }
    SettleLockChange(cfg, s, s', a.t, a.path);
  }

  lemma FinishKeeps(cfg: Config, s: State, a: Action)
    requires Inv(cfg, s) && a.Finish? && LifeStep(s, a).Some?
    ensures Inv(cfg, LifeStep(s, a).value)
  {
    var s' := LifeStep(s, a).value;
    assert Held(s.tasks[a.t]) == {};
    assert LocksOk(s') by {
      assert forall u | u in s'.tasks :: s'.tasks[u] == s.tasks[u];
    }
    RowsKept(cfg, s, s');
    Settle(cfg, s, s', a.t);
  }

  lemma CrashKeeps(cfg: Config, s: State, a: Action)
    requires Inv(cfg, s) && (a.ProcessCrash? || a.PowerLoss?) && LifeStep(s, a).Some?
    ensures Inv(cfg, LifeStep(s, a).value)
  {
    var s' := LifeStep(s, a).value;
    forall id | id in s'.rows ensures RowOk(cfg, s', s'.rows[id]) { assert RowOk(cfg, s, s.rows[id]); }
  }

  lemma LifeStepKeeps(cfg: Config, s: State, a: Action)
    requires Inv(cfg, s) && LifeStep(s, a).Some?
    ensures Inv(cfg, LifeStep(s, a).value)
  {
    match a {
      case LockPath(_) => LockPathKeeps(cfg, s, a);
      case Fail(_) => FailKeeps(cfg, s, a);
      case Release(_, _) => ReleaseKeeps(cfg, s, a);
      case Finish(_) => FinishKeeps(cfg, s, a);
      case ProcessCrash => CrashKeeps(cfg, s, a);
      case PowerLoss(_) => CrashKeeps(cfg, s, a);
      case _ => StartKeeps(cfg, s, a);
    }
  }

  lemma NextKeeps(cfg: Config, s: State, a: Action)
    requires Inv(cfg, s) && Next(cfg, s, a).Some?
    ensures Inv(cfg, Next(cfg, s, a).value)
  {
    if CopyStep(cfg, s, a).Some? { CopyStepKeeps(cfg, s, a); }
    else if PlaceStep(cfg, s, a).Some? { PlaceStepKeeps(cfg, s, a); }
    else if CollectStep(cfg, s, a).Some? { CollectStepKeeps(cfg, s, a); }
    else { LifeStepKeeps(cfg, s, a); }
  }

  lemma ReachableInv(cfg: Config, actions: seq<Action>)
    ensures var r := Execute(Stepper(cfg), INITIAL, actions); r.Some? ==> Inv(cfg, r.value)
  {
    forall s, a | Inv(cfg, s) && Stepper(cfg)(s, a).Some?
      ensures Inv(cfg, Stepper(cfg)(s, a).value)
    {
      NextKeeps(cfg, s, a);
    }
    InvariantOverRun(Stepper(cfg), s => Inv(cfg, s), INITIAL, actions);
  }

  // ---------------------------------------------------------------- main results

  /** In every interleaving and after every crash, each committed row names a file with its digest and
      its size, and a power loss at this very moment leaves such a file behind. */
  lemma CommittedRowsHaveTheirFile(cfg: Config, actions: seq<Action>, id: ArtifactId)
    requires Execute(Stepper(cfg), INITIAL, actions).Some?
    requires var s := Execute(Stepper(cfg), INITIAL, actions).value; id in s.rows && s.rows[id].Referenced?
    ensures
      var s := Execute(Stepper(cfg), INITIAL, actions).value;
      var Referenced(actor, path, sha, size) := s.rows[id];
      && path == Canonical(cfg.dirOf(actor), sha)
      && path in s.files && cfg.hash(s.files[path]) == sha && |s.files[path]| == size
      && (forall left | Survives(s.files, s.disk, left) ::
            path in left && cfg.hash(left[path]) == sha && |left[path]| == size)
  {
    ReachableInv(cfg, actions);
    var s := Execute(Stepper(cfg), INITIAL, actions).value;
    assert RowOk(cfg, s, s.rows[id]);
  }

  /** From the first check to the commit a stager holds the lock of every path it will commit; and a
      collector about to remove an orphan holds its lock, with no committed row naming it. */
  lemma LocksCoverCheckToCommit(cfg: Config, actions: seq<Action>, t: TaskId)
    requires Execute(Stepper(cfg), INITIAL, actions).Some?
    requires t in Execute(Stepper(cfg), INITIAL, actions).value.tasks
    ensures
      var s := Execute(Stepper(cfg), INITIAL, actions).value;
      match s.tasks[t]
      case Stager(actor, items, _, stage) =>
        UnderLocks(stage) ==>
          forall i | 0 <= i < |items| ::
            Canon(cfg, actor, items[i]) in s.locks && s.locks[Canon(cfg, actor, items[i])] == t
      case Collector(_, phase) =>
        phase.RemoveOrphan? ==>
          && phase.path in s.locks && s.locks[phase.path] == t
          && (forall id | id in s.rows && s.rows[id].Referenced? :: s.rows[id].path != phase.path)
  {
    ReachableInv(cfg, actions);
    var s := Execute(Stepper(cfg), INITIAL, actions).value;
    assert TaskOk(cfg, s, t);
    match s.tasks[t] {
      case Stager(actor, items, held, stage) =>
        if UnderLocks(stage) {
          forall i | 0 <= i < |items|
            ensures Canon(cfg, actor, items[i]) in s.locks && s.locks[Canon(cfg, actor, items[i])] == t
          {
            assert Canon(cfg, actor, items[i]) in Canons(cfg, actor, items);
            assert Canon(cfg, actor, items[i]) in Held(s.tasks[t]);
          }
        }
      case Collector(_, phase) =>
        if phase.RemoveOrphan? { assert phase.path in Held(s.tasks[t]); }
    }
  }

  ghost predicate Waiting(s: State, t: TaskId) requires t in s.tasks {
    Wants(s.tasks[t]).Some? && Wants(s.tasks[t]).value in s.locks
  }

  // Following the holder of the wanted path climbs in the path order, so it ends.
  lemma {:induction false} SomeHolderRuns(cfg: Config, s: State, t: TaskId) returns (h: TaskId)
    requires IsOrder(cfg.before) && Inv(cfg, s)
    requires t in s.tasks && Waiting(s, t)
    ensures h in s.tasks && Held(s.tasks[h]) != {} && !Waiting(s, h)
    decreases |set p | p in s.locks && cfg.before(Wants(s.tasks[t]).value, p)|
  {
    var p := Wants(s.tasks[t]).value;
    h := s.locks[p];
    assert p in Held(s.tasks[h]);
    if Waiting(s, h) {
      var q := Wants(s.tasks[h]).value;
      assert TaskOk(cfg, s, h);
      assert cfg.before(p, q);
      var above := set r | r in s.locks && cfg.before(p, r);
      var higher := set r | r in s.locks && cfg.before(q, r);
      assert higher <= above && q in above && q !in higher;
      assert |higher| < |above| by { SmallerSet(higher, above, q); }
      h := SomeHolderRuns(cfg, s, h);
    }
  }

  lemma SmallerSet<T>(small: set<T>, big: set<T>, x: T)
    requires small <= big && x in big && x !in small
    ensures |small| < |big|
  {
    var rest := big - {x} - small;
    assert big == small + rest + {x};
    assert |small + rest| == |small| + |rest|;
  }

  /** Path locking never deadlocks: while any task waits for a path, some task that holds one does not. */
  lemma NoDeadlock(cfg: Config, actions: seq<Action>, t: TaskId)
    requires IsOrder(cfg.before)
    requires Execute(Stepper(cfg), INITIAL, actions).Some?
    requires var s := Execute(Stepper(cfg), INITIAL, actions).value; t in s.tasks && Waiting(s, t)
    ensures
      var s := Execute(Stepper(cfg), INITIAL, actions).value;
      exists h :: h in s.tasks && Held(s.tasks[h]) != {} && !Waiting(s, h)
  {
    ReachableInv(cfg, actions);
    var h := SomeHolderRuns(cfg, Execute(Stepper(cfg), INITIAL, actions).value, t);
  }

  // ---------------------------------------------------------------- what a commit does

  /** In every run a commit succeeds exactly when each item still has its staging row and no other content is
      recorded at its canonical path. Then every item is committed, none of them is staged any more, and no other row
      changes. */
  lemma CommitsAreWhole(cfg: Config, actions: seq<Action>, t: TaskId)
    requires Execute(Stepper(cfg), INITIAL, actions).Some?
    requires var s := Execute(Stepper(cfg), INITIAL, actions).value; IsStager(s, t) && s.tasks[t].stage.Inspected?
    ensures
      var s := Execute(Stepper(cfg), INITIAL, actions).value;
      var (actor, items) := (s.tasks[t].actor, s.tasks[t].items);
      && (Next(cfg, s, Commit(t)).Some? <==> forall i | 0 <= i < |items| :: MayCommit(cfg, actor, s.rows, items[i]))
      && (Next(cfg, s, Commit(t)).Some? ==>
            AllCommitted(cfg, actor, s.rows, items, Next(cfg, s, Commit(t)).value.rows))
  {
    ReachableInv(cfg, actions);
    var s := Execute(Stepper(cfg), INITIAL, actions).value;
    var (actor, items) := (s.tasks[t].actor, s.tasks[t].items);
    ReadyToCommit(cfg, s, t);
    CommitStep(cfg, s, t);
    CommitSucceedsIff(cfg, actor, s.rows, items);
    if CommitItems(cfg, actor, s.rows, items).Some? { CommitCoversEveryItem(cfg, actor, s.rows, items); }
  }

  lemma ReadyToCommit(cfg: Config, s: State, t: TaskId)
    requires Inv(cfg, s) && IsStager(s, t) && s.tasks[t].stage.Inspected?
    ensures RowsInPlace(cfg, s.tasks[t].actor, s.rows)
    ensures SizesAgree(s.tasks[t].items) && DistinctItems(s.tasks[t].items)
  {
    var (actor, items) := (s.tasks[t].actor, s.tasks[t].items);
    assert TaskOk(cfg, s, t);
    forall id | id in s.rows ensures RowOk(cfg, s, s.rows[id]) {}
    assert forall i | 0 <= i < |items| :: |s.files[Canon(cfg, actor, items[i])]| == items[i].size;
  }

  lemma CommitStep(cfg: Config, s: State, t: TaskId)
    requires IsStager(s, t) && s.tasks[t].stage.Inspected?
    ensures var committed := CommitItems(cfg, s.tasks[t].actor, s.rows, s.tasks[t].items);
      && (Next(cfg, s, Commit(t)).Some? <==> committed.Some?)
      && (committed.Some? ==> Next(cfg, s, Commit(t)).value.rows == committed.value)
  {}

  /** A power loss may happen at any time, and may undo every rename that was not synced or none. */
  lemma PowerLossMayLoseUnsynced(cfg: Config, s: State, left: map<Path, Bytes>)
    requires left == s.disk || left == s.files
    ensures Next(cfg, s, PowerLoss(left)) == Some(s.(files := left, disk := left, tasks := map[], locks := map[]))
  {}

  // ---------------------------------------------------------------- runs that commit

  // A state, and a stager that stages one artifact of its actor beside everything else.
  datatype Setting = Setting(s: State, t: TaskId, id: ArtifactId, actor: ActorId)

  ghost function Staged(cfg: Config, k: Setting, lease: Lease, items: seq<Item>, held: set<Path>, stage: StagePhase,
                        files: map<Path, Bytes>): State
  {
    k.s.(tasks := k.s.tasks[k.t := Stager(k.actor, items, held, stage)],
         rows := k.s.rows[k.id := Staging(PartialOf(cfg, k.actor, k.id), lease)],
         used := k.s.used[k.id := k.t], files := files,
         locks := map p | p in k.s.locks.Keys + held :: if p in held then k.t else k.s.locks[p])
  }

  // A step of the stager that changes only its phase and the files.
  lemma StagerMoves(cfg: Config, k: Setting, lease: Lease, items: seq<Item>, held: set<Path>, stage: StagePhase,
                    files: map<Path, Bytes>, stage': StagePhase, files': map<Path, Bytes>)
    ensures AtStage(Staged(cfg, k, lease, items, held, stage, files), k.t, stage').(files := files')
         == Staged(cfg, k, lease, items, held, stage', files')
  {}

  lemma CopyCanStart(cfg: Config, k: Setting, size: nat, lease: Lease)
    requires k.t !in k.s.tasks && k.id !in k.s.used && k.id !in k.s.rows
    ensures Leads(Stepper(cfg), k.s, [] + [StartStager(k.t, k.actor)] + [BeginStaging(k.t, k.id, size, lease)],
                  Staged(cfg, k, lease, [], {}, Opening(k.id, size, lease), k.s.files))
  {
    var s1 := Next(cfg, k.s, StartStager(k.t, k.actor)).value;
    LeadsOn(Stepper(cfg), k.s, [], k.s, StartStager(k.t, k.actor), s1);
    var s2 := Staged(cfg, k, lease, [], {}, Opening(k.id, size, lease), k.s.files);
    assert s2.locks == k.s.locks && s2.tasks == s1.tasks[k.t := s2.tasks[k.t]];
    LeadsOn(Stepper(cfg), k.s, [] + [StartStager(k.t, k.actor)], s1, BeginStaging(k.t, k.id, size, lease), s2);
  }

  lemma CopyCanWrite(cfg: Config, k: Setting, size: nat, lease: Lease, bytes: Bytes)
    requires PartialOf(cfg, k.actor, k.id) !in k.s.files
    ensures Leads(Stepper(cfg), Staged(cfg, k, lease, [], {}, Opening(k.id, size, lease), k.s.files),
                  [] + [OpenPartial(k.t)] + [CopyChunk(k.t, bytes)],
                  Staged(cfg, k, lease, [], {}, Copying(k.id, size, lease, bytes),
                         k.s.files[PartialOf(cfg, k.actor, k.id) := bytes]))
  {
    var (p, files) := (PartialOf(cfg, k.actor, k.id), k.s.files);
    var (opening, copying) := (Opening(k.id, size, lease), Copying(k.id, size, lease, []));
    var s1 := Staged(cfg, k, lease, [], {}, opening, files);
    var s2 := Staged(cfg, k, lease, [], {}, copying, files[p := []]);
    StagerMoves(cfg, k, lease, [], {}, opening, files, copying, files[p := []]);
    LeadsOn(Stepper(cfg), s1, [], s1, OpenPartial(k.t), s2);
    StagerMoves(cfg, k, lease, [], {}, copying, files[p := []], copying.(copied := bytes), files[p := bytes]);
    assert [] + bytes == bytes && files[p := []][p := bytes] == files[p := bytes];
    LeadsOn(Stepper(cfg), s1, [] + [OpenPartial(k.t)], s2, CopyChunk(k.t, bytes),
            Staged(cfg, k, lease, [], {}, copying.(copied := bytes), files[p := bytes]));
  }

  lemma CopyCanFinish(cfg: Config, k: Setting, size: nat, lease: Lease, until: int, bytes: Bytes, files: map<Path, Bytes>)
    ensures Leads(Stepper(cfg), Staged(cfg, k, lease, [], {}, Copying(k.id, size, lease, bytes), files),
                  [] + [RenewStaging(k.t, until)] + [FinishCopy(k.t)],
                  Staged(cfg, k, lease.(expires := until), [Item(k.id, size, cfg.hash(bytes), lease.(expires := until))], {},
                         Preparing, files))
  {
    var renewed := lease.(expires := until);
    var s1 := Staged(cfg, k, lease, [], {}, Copying(k.id, size, lease, bytes), files);
    var s2 := Staged(cfg, k, renewed, [], {}, Copying(k.id, size, renewed, bytes), files);
    assert s2.tasks == s1.tasks[k.t := s2.tasks[k.t]] && s2.rows == s1.rows[k.id := s2.rows[k.id]];
    LeadsOn(Stepper(cfg), s1, [], s1, RenewStaging(k.t, until), s2);
    var item := Item(k.id, size, cfg.hash(bytes), renewed);
    var s3 := Staged(cfg, k, renewed, [item], {}, Preparing, files);
    assert [] + [item] == [item] && s3.tasks == s2.tasks[k.t := s3.tasks[k.t]];
    LeadsOn(Stepper(cfg), s1, [] + [RenewStaging(k.t, until)], s2, FinishCopy(k.t), s3);
  }

  lemma PlaceCanLock(cfg: Config, k: Setting, item: Item, files: map<Path, Bytes>) returns (actions: seq<Action>)
    requires Canon(cfg, k.actor, item) !in k.s.locks
    ensures Leads(Stepper(cfg), Staged(cfg, k, item.lease, [item], {}, Preparing, files), actions,
                  Staged(cfg, k, item.lease, [item], {Canon(cfg, k.actor, item)}, Checking(0), files))
  {
    var (canon, lease) := (Canon(cfg, k.actor, item), item.lease);
    var s1 := Staged(cfg, k, lease, [item], {}, Preparing, files);
    var s2 := Staged(cfg, k, lease, [item], {}, Locking([canon]), files);
    OrderChosen(cfg, k, item, files);
    LeadsOn(Stepper(cfg), s1, [], s1, BeginLocking(k.t, [canon]), s2);
    var s3 := Staged(cfg, k, lease, [item], {canon}, Locking([]), files);
    LockTaken(cfg, k, item, files);
    LeadsOn(Stepper(cfg), s1, [] + [BeginLocking(k.t, [canon])], s2, LockPath(k.t), s3);
    ChecksBegun(cfg, k, item, files);
    actions := [] + [BeginLocking(k.t, [canon])] + [LockPath(k.t)];
    LeadsOn(Stepper(cfg), s1, actions, s3, BeginChecks(k.t), Staged(cfg, k, lease, [item], {canon}, Checking(0), files));
    actions := actions + [BeginChecks(k.t)];
  }

  lemma OrderChosen(cfg: Config, k: Setting, item: Item, files: map<Path, Bytes>)
    ensures var canon := Canon(cfg, k.actor, item);
      Next(cfg, Staged(cfg, k, item.lease, [item], {}, Preparing, files), BeginLocking(k.t, [canon]))
      == Some(Staged(cfg, k, item.lease, [item], {}, Locking([canon]), files))
  {
    var canon := Canon(cfg, k.actor, item);
    assert (set p | p in [canon]) == {canon};
    assert Canons(cfg, k.actor, [item]) == {canon} by { assert [item][0] == item; }
    StagerMoves(cfg, k, item.lease, [item], {}, Preparing, files, Locking([canon]), files);
  }

  lemma ChecksBegun(cfg: Config, k: Setting, item: Item, files: map<Path, Bytes>)
    ensures var held := {Canon(cfg, k.actor, item)};
      Next(cfg, Staged(cfg, k, item.lease, [item], held, Locking([]), files), BeginChecks(k.t))
      == Some(Staged(cfg, k, item.lease, [item], held, Checking(0), files))
  {
    StagerMoves(cfg, k, item.lease, [item], {Canon(cfg, k.actor, item)}, Locking([]), files, Checking(0), files);
  }

  lemma LockTaken(cfg: Config, k: Setting, item: Item, files: map<Path, Bytes>)
    requires Canon(cfg, k.actor, item) !in k.s.locks
    ensures var canon := Canon(cfg, k.actor, item);
      Next(cfg, Staged(cfg, k, item.lease, [item], {}, Locking([canon]), files), LockPath(k.t))
      == Some(Staged(cfg, k, item.lease, [item], {canon}, Locking([]), files))
  {
    var canon := Canon(cfg, k.actor, item);
    var s2 := Staged(cfg, k, item.lease, [item], {}, Locking([canon]), files);
    var s3 := Staged(cfg, k, item.lease, [item], {canon}, Locking([]), files);
    assert {} + {canon} == {canon} && [canon][1..] == [];
    assert s2.locks == k.s.locks && s2.locks[canon := k.t] == s3.locks;
    assert s2.tasks[k.t := s3.tasks[k.t]] == s3.tasks;
  }

  // The path of the item holds its content.
  ghost predicate Holds(files: map<Path, Bytes>, cfg: Config, canon: Path, item: Item) {
    canon in files && |files[canon]| == item.size && cfg.hash(files[canon]) == item.sha
  }

  // A content that is there is used; else the partial file becomes it.
  lemma PlaceCanStore(cfg: Config, k: Setting, item: Item, bytes: Bytes) returns (actions: seq<Action>)
    requires item.id == k.id && k.id !in k.s.rows && PartialOf(cfg, k.actor, k.id) !in k.s.files
    requires var canon := Canon(cfg, k.actor, item);
      Holds(k.s.files, cfg, canon, item) || (canon !in k.s.files && !HasReferenced(k.s.rows, k.actor, item.sha, item.size))
    ensures var (p, canon) := (PartialOf(cfg, k.actor, k.id), Canon(cfg, k.actor, item));
      Leads(Stepper(cfg), Staged(cfg, k, item.lease, [item], {canon}, Checking(0), k.s.files[p := bytes]), actions,
            Staged(cfg, k, item.lease, [item], {canon}, Checking(1),
                   if canon in k.s.files then k.s.files else k.s.files[canon := bytes]))
  {
    var (p, canon, lease) := (PartialOf(cfg, k.actor, k.id), Canon(cfg, k.actor, item), item.lease);
    var (held, files) := ({canon}, k.s.files[p := bytes]);
    var s1 := Staged(cfg, k, lease, [item], held, Checking(0), files);
    var found := HasReferenced(k.s.rows, k.actor, item.sha, item.size);
    ReferenceLookedUp(cfg, k, item, files);
    var s2 := Staged(cfg, k, lease, [item], held, Placing(0, found), files);
    LeadsOn(Stepper(cfg), s1, [], s1, QueryReferenced(k.t), s2);
    actions := [] + [QueryReferenced(k.t)];
    if canon in k.s.files {
      ContentIsThere(cfg, k, item, found, files);
      CopyDiscarded(cfg, k, item, bytes);
      var s3 := Staged(cfg, k, lease, [item], held, Discarding(0), files);
      LeadsOn(Stepper(cfg), s1, actions, s2, ValidateCanonical(k.t), s3);
      actions := actions + [ValidateCanonical(k.t)];
      LeadsOn(Stepper(cfg), s1, actions, s3, DiscardPartial(k.t), Staged(cfg, k, lease, [item], held, Checking(1), k.s.files));
      actions := actions + [DiscardPartial(k.t)];
    } else {
      PathIsFree(cfg, k, item, files);
      ContentPlaced(cfg, k, item, bytes);
      var s3 := Staged(cfg, k, lease, [item], held, Renaming(0), files);
      LeadsOn(Stepper(cfg), s1, actions, s2, FindFree(k.t), s3);
      actions := actions + [FindFree(k.t)];
      LeadsOn(Stepper(cfg), s1, actions, s3, RenamePartial(k.t),
              Staged(cfg, k, lease, [item], held, Checking(1), k.s.files[canon := bytes]));
      actions := actions + [RenamePartial(k.t)];
    }
  }

  lemma ReferenceLookedUp(cfg: Config, k: Setting, item: Item, files: map<Path, Bytes>)
    requires k.id !in k.s.rows
    ensures var (held, found) :=
        ({Canon(cfg, k.actor, item)}, HasReferenced(k.s.rows, k.actor, item.sha, item.size));
      Next(cfg, Staged(cfg, k, item.lease, [item], held, Checking(0), files), QueryReferenced(k.t))
      == Some(Staged(cfg, k, item.lease, [item], held, Placing(0, found), files))
  {
    var found := HasReferenced(k.s.rows, k.actor, item.sha, item.size);
    StagingIsNotReferenced(cfg, k, item.lease, item);
    StagerMoves(cfg, k, item.lease, [item], {Canon(cfg, k.actor, item)}, Checking(0), files, Placing(0, found), files);
  }

  lemma ContentIsThere(cfg: Config, k: Setting, item: Item, found: bool, files: map<Path, Bytes>)
    requires Holds(files, cfg, Canon(cfg, k.actor, item), item)
    ensures var held := {Canon(cfg, k.actor, item)};
      Next(cfg, Staged(cfg, k, item.lease, [item], held, Placing(0, found), files), ValidateCanonical(k.t))
      == Some(Staged(cfg, k, item.lease, [item], held, Discarding(0), files))
  {
    StagerMoves(cfg, k, item.lease, [item], {Canon(cfg, k.actor, item)}, Placing(0, found), files, Discarding(0), files);
  }

  lemma CopyDiscarded(cfg: Config, k: Setting, item: Item, bytes: Bytes)
    requires item.id == k.id && PartialOf(cfg, k.actor, k.id) !in k.s.files
    ensures var (held, files) := ({Canon(cfg, k.actor, item)}, k.s.files[PartialOf(cfg, k.actor, k.id) := bytes]);
      Next(cfg, Staged(cfg, k, item.lease, [item], held, Discarding(0), files), DiscardPartial(k.t))
      == Some(Staged(cfg, k, item.lease, [item], held, Checking(1), k.s.files))
  {
    var (held, p) := ({Canon(cfg, k.actor, item)}, PartialOf(cfg, k.actor, k.id));
    var files := k.s.files[p := bytes];
    assert files - {p} == k.s.files;
    StagerMoves(cfg, k, item.lease, [item], held, Discarding(0), files, Checking(1), k.s.files);
  }

  lemma PathIsFree(cfg: Config, k: Setting, item: Item, files: map<Path, Bytes>)
    requires Canon(cfg, k.actor, item) !in files
    ensures var held := {Canon(cfg, k.actor, item)};
      Next(cfg, Staged(cfg, k, item.lease, [item], held, Placing(0, false), files), FindFree(k.t))
      == Some(Staged(cfg, k, item.lease, [item], held, Renaming(0), files))
  {
    StagerMoves(cfg, k, item.lease, [item], {Canon(cfg, k.actor, item)}, Placing(0, false), files, Renaming(0), files);
  }

  lemma ContentPlaced(cfg: Config, k: Setting, item: Item, bytes: Bytes)
    requires item.id == k.id && PartialOf(cfg, k.actor, k.id) !in k.s.files
    ensures var (canon, p) := (Canon(cfg, k.actor, item), PartialOf(cfg, k.actor, k.id));
      Next(cfg, Staged(cfg, k, item.lease, [item], {canon}, Renaming(0), k.s.files[p := bytes]), RenamePartial(k.t))
      == Some(Staged(cfg, k, item.lease, [item], {canon}, Checking(1), k.s.files[canon := bytes]))
  {
    var (canon, p) := (Canon(cfg, k.actor, item), PartialOf(cfg, k.actor, k.id));
    var files := k.s.files[p := bytes];
    assert (files - {p})[canon := bytes] == k.s.files[canon := bytes];
    StagerMoves(cfg, k, item.lease, [item], {canon}, Renaming(0), files, Checking(1), k.s.files[canon := bytes]);
  }

  // The stager's own row neither names the content nor its path.
  lemma StagingIsNotReferenced(cfg: Config, k: Setting, lease: Lease, item: Item)
    requires k.id !in k.s.rows
    ensures var rows := k.s.rows[k.id := Staging(PartialOf(cfg, k.actor, k.id), lease)];
      && (HasReferenced(rows, k.actor, item.sha, item.size) <==> HasReferenced(k.s.rows, k.actor, item.sha, item.size))
      && (PathTaken(rows, Canon(cfg, k.actor, item)) ==> PathTaken(k.s.rows, Canon(cfg, k.actor, item)))
  {
    var rows := k.s.rows[k.id := Staging(PartialOf(cfg, k.actor, k.id), lease)];
    if HasReferenced(k.s.rows, k.actor, item.sha, item.size) {
      var id :| id in k.s.rows && IsReferenced(k.s.rows[id], k.actor, item.sha, item.size);
      assert id in rows && IsReferenced(rows[id], k.actor, item.sha, item.size);
    }
    if HasReferenced(rows, k.actor, item.sha, item.size) {
      var id :| id in rows && IsReferenced(rows[id], k.actor, item.sha, item.size);
      assert id in k.s.rows && IsReferenced(k.s.rows[id], k.actor, item.sha, item.size);
    }
    if PathTaken(rows, Canon(cfg, k.actor, item)) {
      var id :| id in rows && rows[id].path == Canon(cfg, k.actor, item);
      assert id in k.s.rows && k.s.rows[id].path == Canon(cfg, k.actor, item);
    }
  }

  // The rows after the commit: a content that is named already gets no second row.
  ghost function RowsAfter(cfg: Config, k: Setting, item: Item): map<ArtifactId, Row> {
    if HasReferenced(k.s.rows, k.actor, item.sha, item.size) then k.s.rows
    else k.s.rows[k.id := Referenced(k.actor, Canon(cfg, k.actor, item), item.sha, item.size)]
  }

  // Committed rows of this content are at its path, and only they.
  ghost predicate RowsAllow(cfg: Config, k: Setting, item: Item) {
    var canon := Canon(cfg, k.actor, item);
    if HasReferenced(k.s.rows, k.actor, item.sha, item.size)
    then forall id | id in k.s.rows && IsReferenced(k.s.rows[id], k.actor, item.sha, item.size) :: k.s.rows[id].path == canon
    else !PathTaken(k.s.rows, canon)
  }

  lemma CommitOne(cfg: Config, k: Setting, item: Item)
    requires item.id == k.id && k.id !in k.s.rows && RowsAllow(cfg, k, item)
    ensures CommitItems(cfg, k.actor, k.s.rows[k.id := Staging(PartialOf(cfg, k.actor, k.id), item.lease)], [item])
         == Some(RowsAfter(cfg, k, item))
  {
    var rows := k.s.rows[k.id := Staging(PartialOf(cfg, k.actor, k.id), item.lease)];
    StagingIsNotReferenced(cfg, k, item.lease, item);
    assert [item][1..] == [];
    if HasReferenced(rows, k.actor, item.sha, item.size) {
      assert rows - {k.id} == k.s.rows;
    } else {
      var row := Referenced(k.actor, Canon(cfg, k.actor, item), item.sha, item.size);
      assert rows[k.id := row] == k.s.rows[k.id := row];
    }
  }

  lemma DirectoryIsSynced(cfg: Config, k: Setting, item: Item, files: map<Path, Bytes>)
    ensures var held := {Canon(cfg, k.actor, item)};
      var k' := k.(s := k.s.(disk := SyncDir(files, k.s.disk, cfg.dirOf(k.actor))));
      Next(cfg, Staged(cfg, k, item.lease, [item], held, Checking(1), files), SyncDirectory(k.t))
      == Some(Staged(cfg, k', item.lease, [item], held, Synced, files))
  {
    StagerMoves(cfg, k, item.lease, [item], {Canon(cfg, k.actor, item)}, Checking(1), files, Synced, files);
  }

  lemma SizeIsInspected(cfg: Config, k: Setting, item: Item, files: map<Path, Bytes>)
    requires var canon := Canon(cfg, k.actor, item); canon in files && |files[canon]| == item.size
    ensures var held := {Canon(cfg, k.actor, item)};
      Next(cfg, Staged(cfg, k, item.lease, [item], held, Synced, files), InspectSizes(k.t))
      == Some(Staged(cfg, k, item.lease, [item], held, Inspected, files))
  {
    StagerMoves(cfg, k, item.lease, [item], {Canon(cfg, k.actor, item)}, Synced, files, Inspected, files);
  }

  // The stager with its item committed.
  ghost function Released(cfg: Config, k: Setting, item: Item, files: map<Path, Bytes>): State {
    Staged(cfg, k, item.lease, [item], {Canon(cfg, k.actor, item)}, Releasing, files).(rows := RowsAfter(cfg, k, item))
  }

  lemma ItemIsCommitted(cfg: Config, k: Setting, item: Item, files: map<Path, Bytes>)
    requires item.id == k.id && k.id !in k.s.rows && RowsAllow(cfg, k, item)
    ensures Next(cfg, Staged(cfg, k, item.lease, [item], {Canon(cfg, k.actor, item)}, Inspected, files), Commit(k.t))
         == Some(Released(cfg, k, item, files))
  {
    StagerMoves(cfg, k, item.lease, [item], {Canon(cfg, k.actor, item)}, Inspected, files, Releasing, files);
    CommitOne(cfg, k, item);
  }

  lemma CommitCanFollow(cfg: Config, k: Setting, item: Item, files: map<Path, Bytes>) returns (actions: seq<Action>)
    requires item.id == k.id && k.t !in k.s.tasks && k.id !in k.s.rows && RowsAllow(cfg, k, item)
    requires var canon := Canon(cfg, k.actor, item);
      canon !in k.s.locks && canon in files && |files[canon]| == item.size
    ensures var disk := SyncDir(files, k.s.disk, cfg.dirOf(k.actor));
      Leads(Stepper(cfg), Staged(cfg, k, item.lease, [item], {Canon(cfg, k.actor, item)}, Checking(1), files), actions,
            k.s.(rows := RowsAfter(cfg, k, item), files := files, disk := disk, used := k.s.used[k.id := k.t]))
  {
    var (canon, lease) := (Canon(cfg, k.actor, item), item.lease);
    var s1 := Staged(cfg, k, lease, [item], {canon}, Checking(1), files);
    var k' := k.(s := k.s.(disk := SyncDir(files, k.s.disk, cfg.dirOf(k.actor))));
    DirectoryIsSynced(cfg, k, item, files);
    SizeIsInspected(cfg, k', item, files);
    var s2 := Staged(cfg, k', lease, [item], {canon}, Synced, files);
    LeadsOn(Stepper(cfg), s1, [], s1, SyncDirectory(k.t), s2);
    var s3 := Staged(cfg, k', lease, [item], {canon}, Inspected, files);
    LeadsOn(Stepper(cfg), s1, [] + [SyncDirectory(k.t)], s2, InspectSizes(k.t), s3);
    ItemIsCommitted(cfg, k', item, files);
    actions := [] + [SyncDirectory(k.t)] + [InspectSizes(k.t)];
    LeadsOn(Stepper(cfg), s1, actions, s3, Commit(k.t), Released(cfg, k', item, files));
    actions := actions + [Commit(k.t)];
    var more := StagerLeaves(cfg, Released(cfg, k', item, files), k.t, k.actor, [item], canon);
    ReleasedIsLeft(cfg, k', item, files);
    LeadsFurther(Stepper(cfg), s1, actions, Released(cfg, k', item, files), more,
                 k'.s.(rows := RowsAfter(cfg, k', item), files := files, used := k.s.used[k.id := k.t]));
    actions := actions + more;
  }

  lemma ReleasedIsLeft(cfg: Config, k: Setting, item: Item, files: map<Path, Bytes>)
    requires k.t !in k.s.tasks && Canon(cfg, k.actor, item) !in k.s.locks
    ensures var (s, canon) := (Released(cfg, k, item, files), Canon(cfg, k.actor, item));
      s.(tasks := s.tasks - {k.t}, locks := s.locks - {canon})
      == k.s.(rows := RowsAfter(cfg, k, item), files := files, used := k.s.used[k.id := k.t])
  {
    var (s, canon) := (Released(cfg, k, item, files), Canon(cfg, k.actor, item));
    assert s.tasks - {k.t} == k.s.tasks;
    assert s.locks - {canon} == k.s.locks;
  }

  lemma StagerLeaves(cfg: Config, s: State, t: TaskId, actor: ActorId, items: seq<Item>, p: Path)
    returns (actions: seq<Action>)
    requires t in s.tasks && s.tasks[t] == Stager(actor, items, {p}, Releasing)
    ensures Leads(Stepper(cfg), s, actions, s.(tasks := s.tasks - {t}, locks := s.locks - {p}))
  {
    var free := Next(cfg, s, Release(t, p)).value;
    LeadsOn(Stepper(cfg), s, [], s, Release(t, p), free);
    assert {p} - {p} == {} && free.tasks - {t} == s.tasks - {t};
    actions := [] + [Release(t, p)];
    LeadsOn(Stepper(cfg), s, actions, free, Finish(t), s.(tasks := s.tasks - {t}, locks := s.locks - {p}));
    actions := actions + [Finish(t)];
  }

  /** From any state any content can be staged to the end while nobody is in its way. A content that has no committed row
      gets one at its canonical path, written or found there; one that has a row gets no second one, and the copy is
      discarded. The partial file, the staging row, the locks and the task are gone. */
  lemma StagingCanCommit(cfg: Config, k: Setting, bytes: Bytes, lease: Lease, until: int) returns (actions: seq<Action>)
    requires k.t !in k.s.tasks && k.id !in k.s.used && k.id !in k.s.rows && PartialOf(cfg, k.actor, k.id) !in k.s.files
    requires var item := Item(k.id, |bytes|, cfg.hash(bytes), lease.(expires := until));
      var canon := Canon(cfg, k.actor, item);
      && canon !in k.s.locks && RowsAllow(cfg, k, item)
      && (Holds(k.s.files, cfg, canon, item)
          || (canon !in k.s.files && !HasReferenced(k.s.rows, k.actor, item.sha, item.size)))
    ensures var item := Item(k.id, |bytes|, cfg.hash(bytes), lease.(expires := until));
      var canon := Canonical(cfg.dirOf(k.actor), cfg.hash(bytes));
      var files := if canon in k.s.files then k.s.files else k.s.files[canon := bytes];
      Leads(Stepper(cfg), k.s, actions,
            k.s.(rows := RowsAfter(cfg, k, item), files := files, disk := SyncDir(files, k.s.disk, cfg.dirOf(k.actor)),
                 used := k.s.used[k.id := k.t]))
  {
    var renewed := lease.(expires := until);
    var item := Item(k.id, |bytes|, cfg.hash(bytes), renewed);
    var (p, canon) := (PartialOf(cfg, k.actor, k.id), Canon(cfg, k.actor, item));
    var copied := CopyCanEnd(cfg, k, bytes, lease, until);
    var files := if canon in k.s.files then k.s.files else k.s.files[canon := bytes];
    var s1 := Staged(cfg, k, renewed, [item], {}, Preparing, k.s.files[p := bytes]);
    var s2 := Staged(cfg, k, renewed, [item], {canon}, Checking(0), k.s.files[p := bytes]);
    var locked := PlaceCanLock(cfg, k, item, k.s.files[p := bytes]);
    LeadsFurther(Stepper(cfg), k.s, copied, s1, locked, s2);
    var s3 := Staged(cfg, k, renewed, [item], {canon}, Checking(1), files);
    var placed := PlaceCanStore(cfg, k, item, bytes);
    LeadsFurther(Stepper(cfg), k.s, copied + locked, s2, placed, s3);
    var done := CommitCanFollow(cfg, k, item, files);
    LeadsFurther(Stepper(cfg), k.s, copied + locked + placed, s3, done,
                 k.s.(rows := RowsAfter(cfg, k, item), files := files,
                      disk := SyncDir(files, k.s.disk, cfg.dirOf(k.actor)), used := k.s.used[k.id := k.t]));
    actions := copied + locked + placed + done;
  }

  lemma CopyCanEnd(cfg: Config, k: Setting, bytes: Bytes, lease: Lease, until: int) returns (actions: seq<Action>)
    requires k.t !in k.s.tasks && k.id !in k.s.used && k.id !in k.s.rows && PartialOf(cfg, k.actor, k.id) !in k.s.files
    ensures var item := Item(k.id, |bytes|, cfg.hash(bytes), lease.(expires := until));
      Leads(Stepper(cfg), k.s, actions,
            Staged(cfg, k, item.lease, [item], {}, Preparing, k.s.files[PartialOf(cfg, k.actor, k.id) := bytes]))
  {
    var (size, files) := (|bytes|, k.s.files[PartialOf(cfg, k.actor, k.id) := bytes]);
    CopyCanStart(cfg, k, size, lease);
    CopyCanWrite(cfg, k, size, lease, bytes);
    CopyCanFinish(cfg, k, size, lease, until, bytes, files);
    var s1 := Staged(cfg, k, lease, [], {}, Opening(k.id, size, lease), k.s.files);
    var s2 := Staged(cfg, k, lease, [], {}, Copying(k.id, size, lease, bytes), files);
    var start := [] + [StartStager(k.t, k.actor)] + [BeginStaging(k.t, k.id, size, lease)];
    var write := [] + [OpenPartial(k.t)] + [CopyChunk(k.t, bytes)];
    var finish := [] + [RenewStaging(k.t, until)] + [FinishCopy(k.t)];
    LeadsFurther(Stepper(cfg), k.s, start, s1, write, s2);
    LeadsFurther(Stepper(cfg), k.s, start + write, s2, finish,
                 Staged(cfg, k, lease.(expires := until), [Item(k.id, size, cfg.hash(bytes), lease.(expires := until))], {},
                        Preparing, files));
    actions := start + write + finish;
  }

  // ---------------------------------------------------------------- runs that collect

  // The state with this collector beside the other tasks, and the lock of this path if it has one.
  ghost function Beside(s: State, t: TaskId, claimed: set<Expired>, phase: CollectPhase, held: set<Path>): State {
    s.(tasks := s.tasks[t := Collector(claimed, phase)], locks := map p | p in s.locks.Keys + held ::
         if p in held then t else s.locks[p])
  }

  lemma CollectorStarts(cfg: Config, s: State, t: TaskId)
    requires t !in s.tasks
    ensures Next(cfg, s, StartCollector(t)) == Some(Beside(s, t, {}, Scanning, {}))
  {
    assert Beside(s, t, {}, Scanning, {}).locks == s.locks;
  }

  // A step of the collector that changes only its phase.
  lemma CollectorMoves(s: State, t: TaskId, claimed: set<Expired>, phase: CollectPhase, held: set<Path>, phase': CollectPhase)
    ensures AtCollect(Beside(s, t, claimed, phase, held), t, phase') == Beside(s, t, claimed, phase', held)
  {}

  lemma BesideLocks(s: State, t: TaskId, phase: CollectPhase, phase': CollectPhase, p: Path)
    requires p !in s.locks
    ensures var (m, after) := (Beside(s, t, {}, phase, {}), Beside(s, t, {}, phase', {p}));
      m.(locks := m.locks[p := t], tasks := m.tasks[t := Collector({}, phase')]) == after && p !in m.locks
  {
    var (m, after) := (Beside(s, t, {}, phase, {}), Beside(s, t, {}, phase', {p}));
    assert m.locks == s.locks && m.locks[p := t] == after.locks;
    assert m.tasks[t := Collector({}, phase')] == after.tasks;
  }

  lemma OrphanLocked(cfg: Config, s: State, t: TaskId, p: Path)
    requires p !in s.locks
    ensures Next(cfg, Beside(s, t, {}, AwaitOrphan(p), {}), LockPath(t)) == Some(Beside(s, t, {}, HoldOrphan(p), {p}))
  {
    BesideLocks(s, t, AwaitOrphan(p), HoldOrphan(p), p);
  }

  lemma ExpiredLocked(cfg: Config, s: State, t: TaskId, e: Expired)
    requires e.path !in s.locks
    ensures Next(cfg, Beside(s, t, {}, AwaitExpired(e), {}), LockPath(t)) == Some(Beside(s, t, {}, HoldExpired(e), {e.path}))
  {
    BesideLocks(s, t, AwaitExpired(e), HoldExpired(e), e.path);
  }

  lemma CollectorReleases(cfg: Config, s: State, t: TaskId, p: Path)
    requires p !in s.locks
    ensures Next(cfg, Beside(s, t, {}, Leaving(p), {p}), Release(t, p)) == Some(Beside(s, t, {}, Scanning, {}))
  {
    CollectorMoves(s, t, {}, Leaving(p), {p}, Scanning);
    assert Beside(s, t, {}, Leaving(p), {p}).locks - {p} == Beside(s, t, {}, Scanning, {}).locks;
  }

  lemma CollectorFinishes(cfg: Config, s: State, t: TaskId)
    requires t !in s.tasks
    ensures Next(cfg, Beside(s, t, {}, Scanning, {}), Finish(t)) == Some(s)
  {
    var m := Beside(s, t, {}, Scanning, {});
    assert m.tasks - {t} == s.tasks && m.locks == s.locks;
  }

  // The collector releases its lock and is gone.
  lemma CollectorLeaves(cfg: Config, s: State, before: seq<Action>, m: State, t: TaskId, p: Path)
    returns (actions: seq<Action>)
    requires t !in m.tasks && p !in m.locks && Leads(Stepper(cfg), s, before, Beside(m, t, {}, Leaving(p), {p}))
    ensures Leads(Stepper(cfg), s, actions, m)
  {
    CollectorReleases(cfg, m, t, p);
    LeadsOn(Stepper(cfg), s, before, Beside(m, t, {}, Leaving(p), {p}), Release(t, p), Beside(m, t, {}, Scanning, {}));
    CollectorFinishes(cfg, m, t);
    LeadsOn(Stepper(cfg), s, before + [Release(t, p)], Beside(m, t, {}, Scanning, {}), Finish(t), m);
    actions := before + [Release(t, p)] + [Finish(t)];
  }

  lemma OrphanPicked(cfg: Config, s: State, t: TaskId, p: Path)
    requires !PathTaken(s.rows, p)
    ensures Next(cfg, Beside(s, t, {}, Scanning, {}), PickOrphan(t, p)) == Some(Beside(s, t, {}, AwaitOrphan(p), {}))
  {
    CollectorMoves(s, t, {}, Scanning, {}, AwaitOrphan(p));
  }

  lemma OrphanRechecked(cfg: Config, s: State, t: TaskId, p: Path)
    requires !PathTaken(s.rows, p)
    ensures Next(cfg, Beside(s, t, {}, HoldOrphan(p), {p}), RecheckOrphan(t)) == Some(Beside(s, t, {}, RemoveOrphan(p), {p}))
  {
    CollectorMoves(s, t, {}, HoldOrphan(p), {p}, RemoveOrphan(p));
  }

  lemma OrphanRemoved(cfg: Config, s: State, t: TaskId, p: Path)
    ensures Next(cfg, Beside(s, t, {}, RemoveOrphan(p), {p}), RemoveOrphanFile(t))
         == Some(Beside(s.(files := s.files - {p}), t, {}, Leaving(p), {p}))
  {
    CollectorMoves(s, t, {}, RemoveOrphan(p), {p}, Leaving(p));
  }

  /** From any state a collector can remove a file that no row names, and change nothing else. */
  lemma OrphanCanBeCollected(cfg: Config, s: State, t: TaskId, p: Path) returns (actions: seq<Action>)
    requires t !in s.tasks && p !in s.locks && !PathTaken(s.rows, p)
    ensures Leads(Stepper(cfg), s, actions, s.(files := s.files - {p}))
  {
    CollectorStarts(cfg, s, t);
    LeadsOn(Stepper(cfg), s, [], s, StartCollector(t), Beside(s, t, {}, Scanning, {}));
    var a1 := [] + [StartCollector(t)];
    OrphanPicked(cfg, s, t, p);
    OrphanRechecked(cfg, s, t, p);
    LeadsOn(Stepper(cfg), s, a1, Beside(s, t, {}, Scanning, {}), PickOrphan(t, p), Beside(s, t, {}, AwaitOrphan(p), {}));
    var a2 := a1 + [PickOrphan(t, p)];
    OrphanLocked(cfg, s, t, p);
    LeadsOn(Stepper(cfg), s, a2, Beside(s, t, {}, AwaitOrphan(p), {}), LockPath(t), Beside(s, t, {}, HoldOrphan(p), {p}));
    var a3 := a2 + [LockPath(t)];
    LeadsOn(Stepper(cfg), s, a3, Beside(s, t, {}, HoldOrphan(p), {p}), RecheckOrphan(t),
            Beside(s, t, {}, RemoveOrphan(p), {p}));
    var a4 := a3 + [RecheckOrphan(t)];
    var after := s.(files := s.files - {p});
    OrphanRemoved(cfg, s, t, p);
    LeadsOn(Stepper(cfg), s, a4, Beside(s, t, {}, RemoveOrphan(p), {p}), RemoveOrphanFile(t),
            Beside(after, t, {}, Leaving(p), {p}));
    actions := CollectorLeaves(cfg, s, a4 + [RemoveOrphanFile(t)], after, t, p);
  }

  // The state with the staging row under a claim of the collector.
  ghost function Claimed(s: State, id: ArtifactId, owner: nat, now: int): State
    requires id in s.rows
  {
    s.(rows := s.rows[id := Staging(s.rows[id].path, Lease(owner, now + 30_000))])
  }

  lemma ExpiredClaimed(cfg: Config, s: State, t: TaskId, id: ArtifactId, owner: nat, now: int)
    requires id in s.rows && s.rows[id].Staging? && s.rows[id].lease.expires < now
    ensures Next(cfg, Beside(s, t, {}, Scanning, {}), ClaimExpired(t, {id}, owner, now))
         == Some(Beside(Claimed(s, id, owner, now), t, {Expired(id, s.rows[id].path, owner)}, Scanning, {}))
  {
    var e := Expired(id, s.rows[id].path, owner);
    var m := Beside(s, t, {}, Scanning, {});
    var after := Beside(Claimed(s, id, owner, now), t, {e}, Scanning, {});
    var m' := Next(cfg, m, ClaimExpired(t, {id}, owner, now)).value;
    assert m'.tasks[t].claimed == {e} && m'.tasks == after.tasks;
    assert m'.rows == after.rows && m'.locks == after.locks;
  }

  lemma ExpiredPicked(cfg: Config, s: State, t: TaskId, e: Expired)
    ensures Next(cfg, Beside(s, t, {e}, Scanning, {}), PickExpired(t, e)) == Some(Beside(s, t, {}, AwaitExpired(e), {}))
  {
    assert {e} - {e} == {};
    var (m, after) := (Beside(s, t, {e}, Scanning, {}), Beside(s, t, {}, AwaitExpired(e), {}));
    assert m.tasks[t := Collector({}, AwaitExpired(e))] == after.tasks && m.locks == after.locks;
  }

  lemma ExpiredRenewed(cfg: Config, s: State, t: TaskId, e: Expired, now: int)
    requires e.id in s.rows && s.rows[e.id] == Staging(e.path, Lease(e.owner, now + 30_000))
    ensures Next(cfg, Beside(s, t, {}, HoldExpired(e), {e.path}), RenewClaim(t, now))
         == Some(Beside(s, t, {}, RemoveExpired(e), {e.path}))
  {
    CollectorMoves(s, t, {}, HoldExpired(e), {e.path}, RemoveExpired(e));
    assert s.rows[e.id := s.rows[e.id]] == s.rows;
  }

  lemma ExpiredRemoved(cfg: Config, s: State, t: TaskId, e: Expired)
    ensures Next(cfg, Beside(s, t, {}, RemoveExpired(e), {e.path}), RemoveClaimed(t))
         == Some(Beside(s.(files := s.files - {e.path}, disk := s.disk - {e.path}), t, {}, CompleteExpired(e), {e.path}))
  {
    CollectorMoves(s, t, {}, RemoveExpired(e), {e.path}, CompleteExpired(e));
  }

  lemma ExpiredCompleted(cfg: Config, s: State, t: TaskId, e: Expired)
    requires e.id in s.rows && s.rows[e.id].Staging? && s.rows[e.id].lease.owner == e.owner
    ensures Next(cfg, Beside(s, t, {}, CompleteExpired(e), {e.path}), CompleteClaim(t))
         == Some(Beside(s.(rows := s.rows - {e.id}), t, {}, Leaving(e.path), {e.path}))
  {
    CollectorMoves(s, t, {}, CompleteExpired(e), {e.path}, Leaving(e.path));
  }

  // The steps up to the lock.
  lemma ExpiredCanBeHeld(cfg: Config, s: State, t: TaskId, id: ArtifactId, owner: nat, now: int)
    returns (actions: seq<Action>)
    requires t !in s.tasks && id in s.rows && s.rows[id].Staging? && s.rows[id].lease.expires < now
    requires s.rows[id].path !in s.locks
    ensures var e := Expired(id, s.rows[id].path, owner);
      Leads(Stepper(cfg), s, actions, Beside(Claimed(s, id, owner, now), t, {}, HoldExpired(e), {e.path}))
  {
    var e := Expired(id, s.rows[id].path, owner);
    var c := Claimed(s, id, owner, now);
    CollectorStarts(cfg, s, t);
    LeadsOn(Stepper(cfg), s, [], s, StartCollector(t), Beside(s, t, {}, Scanning, {}));
    var a1 := [] + [StartCollector(t)];
    ExpiredClaimed(cfg, s, t, id, owner, now);
    LeadsOn(Stepper(cfg), s, a1, Beside(s, t, {}, Scanning, {}), ClaimExpired(t, {id}, owner, now),
            Beside(c, t, {e}, Scanning, {}));
    var a2 := a1 + [ClaimExpired(t, {id}, owner, now)];
    ExpiredPicked(cfg, c, t, e);
    LeadsOn(Stepper(cfg), s, a2, Beside(c, t, {e}, Scanning, {}), PickExpired(t, e), Beside(c, t, {}, AwaitExpired(e), {}));
    var a3 := a2 + [PickExpired(t, e)];
    ExpiredLocked(cfg, c, t, e);
    LeadsOn(Stepper(cfg), s, a3, Beside(c, t, {}, AwaitExpired(e), {}), LockPath(t),
            Beside(c, t, {}, HoldExpired(e), {e.path}));
    actions := a3 + [LockPath(t)];
  }

  /** From any state a collector can remove an expired staging row with its partial file, and change nothing else. */
  lemma ExpiredCanBeCollected(cfg: Config, s: State, t: TaskId, id: ArtifactId, owner: nat, now: int)
    returns (actions: seq<Action>)
    requires t !in s.tasks && id in s.rows && s.rows[id].Staging? && s.rows[id].lease.expires < now
    requires s.rows[id].path !in s.locks
    ensures var p := s.rows[id].path;
      Leads(Stepper(cfg), s, actions, s.(rows := s.rows - {id}, files := s.files - {p}, disk := s.disk - {p}))
  {
    var e := Expired(id, s.rows[id].path, owner);
    var c := Claimed(s, id, owner, now);
    var a1 := ExpiredCanBeHeld(cfg, s, t, id, owner, now);
    var a2 := ClaimedCanBeRemoved(cfg, s, a1, c, t, e, now);
    var after := s.(rows := s.rows - {id}, files := s.files - {e.path}, disk := s.disk - {e.path});
    assert c.rows - {id} == after.rows;
    actions := CollectorLeaves(cfg, s, a2, after, t, e.path);
  }

  // The steps under the lock.
  lemma ClaimedCanBeRemoved(cfg: Config, s: State, before: seq<Action>, c: State, t: TaskId, e: Expired, now: int)
    returns (actions: seq<Action>)
    requires e.id in c.rows && c.rows[e.id] == Staging(e.path, Lease(e.owner, now + 30_000))
    requires Leads(Stepper(cfg), s, before, Beside(c, t, {}, HoldExpired(e), {e.path}))
    ensures Leads(Stepper(cfg), s, actions,
                  Beside(c.(rows := c.rows - {e.id}, files := c.files - {e.path}, disk := c.disk - {e.path}),
                         t, {}, Leaving(e.path), {e.path}))
  {
    ExpiredRenewed(cfg, c, t, e, now);
    LeadsOn(Stepper(cfg), s, before, Beside(c, t, {}, HoldExpired(e), {e.path}), RenewClaim(t, now),
            Beside(c, t, {}, RemoveExpired(e), {e.path}));
    var a1 := before + [RenewClaim(t, now)];
    var m := c.(files := c.files - {e.path}, disk := c.disk - {e.path});
    ExpiredRemoved(cfg, c, t, e);
    LeadsOn(Stepper(cfg), s, a1, Beside(c, t, {}, RemoveExpired(e), {e.path}), RemoveClaimed(t),
            Beside(m, t, {}, CompleteExpired(e), {e.path}));
    var a2 := a1 + [RemoveClaimed(t)];
    ExpiredCompleted(cfg, m, t, e);
    LeadsOn(Stepper(cfg), s, a2, Beside(m, t, {}, CompleteExpired(e), {e.path}), CompleteClaim(t),
            Beside(m.(rows := m.rows - {e.id}), t, {}, Leaving(e.path), {e.path}));
    actions := a2 + [CompleteClaim(t)];
  }
}
