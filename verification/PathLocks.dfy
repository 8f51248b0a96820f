// The registry of path locks: a map of weak references to lock objects, purged on every lookup,
// refines one mutex per path.

module PathLocks {
  import opened Common
  import opened Runs

  type Path(==) = string
  type LockId = nat

  // One call of the locking function; it first waits with a strong reference, then owns a guard.
  type Ticket = nat

  datatype LockObject = LockObject(path: Path, holder: Option<Ticket>)
  datatype Strong = Strong(id: LockId, guard: bool)

  datatype Registry = Registry(
    entries: map<Path, LockId>,
    objects: map<LockId, LockObject>,
    strong: map<Ticket, Strong>,
    nextId: LockId)

  datatype Operation = Lookup(ticket: Ticket, path: Path) | Acquire(ticket: Ticket) | Drop(ticket: Ticket)

  predicate Upgradable(r: Registry, id: LockId) {
    exists ticket | ticket in r.strong.Keys :: r.strong[ticket].id == id
  }

  /** Dead entries are purged; a live entry is upgraded, a missing one is replaced by a new object. */
  function LookupStep(r: Registry, ticket: Ticket, path: Path): Registry {
    var live := map p | p in r.entries && Upgradable(r, r.entries[p]) :: r.entries[p];
    if path in live then r.(entries := live, strong := r.strong[ticket := Strong(live[path], false)])
    else Registry(
           live[path := r.nextId],
           r.objects[r.nextId := LockObject(path, None)],
           r.strong[ticket := Strong(r.nextId, false)],
           r.nextId + 1)
  }

  predicate CanAcquire(r: Registry, ticket: Ticket) {
    && ticket in r.strong && !r.strong[ticket].guard
    && r.strong[ticket].id in r.objects && r.objects[r.strong[ticket].id].holder.None?
  }

  function AcquireStep(r: Registry, ticket: Ticket): Registry
    requires CanAcquire(r, ticket)
  {
    var id := r.strong[ticket].id;
    r.(objects := r.objects[id := r.objects[id].(holder := Some(ticket))],
       strong := r.strong[ticket := Strong(id, true)])
  }

  function DropStep(r: Registry, ticket: Ticket): Registry
    requires ticket in r.strong && r.strong[ticket].id in r.objects
  {
    var Strong(id, guard) := r.strong[ticket];
    r.(objects := if guard then r.objects[id := r.objects[id].(holder := None)] else r.objects,
       strong := r.strong - {ticket})
  }

  function RegistryNext(r: Registry, op: Operation): Option<Registry> {
    match op
    case Lookup(ticket, path) => if ticket in r.strong then None else Some(LookupStep(r, ticket, path))
    case Acquire(ticket) => if CanAcquire(r, ticket) then Some(AcquireStep(r, ticket)) else None
    case Drop(ticket) =>
      if ticket in r.strong && r.strong[ticket].id in r.objects then Some(DropStep(r, ticket)) else None
  }

  const EMPTY := Registry(map[], map[], map[], 0)

  // The specification: one mutex per path.
  datatype Mutexes = Mutexes(waiting: map<Ticket, Path>, guards: map<Ticket, Path>)

  ghost predicate Free(m: Mutexes, path: Path) {
    forall ticket | ticket in m.guards :: m.guards[ticket] != path
  }

  ghost function MutexNext(m: Mutexes, op: Operation): Option<Mutexes> {
    match op
    case Lookup(ticket, path) =>
      if ticket in m.waiting || ticket in m.guards then None else Some(m.(waiting := m.waiting[ticket := path]))
    case Acquire(ticket) =>
      if ticket in m.waiting && Free(m, m.waiting[ticket]) then
        Some(Mutexes(m.waiting - {ticket}, m.guards[ticket := m.waiting[ticket]]))
      else None
    case Drop(ticket) =>
      if ticket in m.waiting || ticket in m.guards then Some(Mutexes(m.waiting - {ticket}, m.guards - {ticket}))
      else None
  }

  // A lock object that is still referenced is the registry's entry for its path.
  ghost predicate StrongOk(r: Registry, t: Ticket) requires t in r.strong {
    var id := r.strong[t].id;
    && id in r.objects
    && r.objects[id].path in r.entries
    && r.entries[r.objects[id].path] == id
    && (r.strong[t].guard <==> r.objects[id].holder == Some(t))
  }

  ghost predicate EntryOk(r: Registry, p: Path) requires p in r.entries {
    r.entries[p] in r.objects && r.objects[r.entries[p]].path == p
  }

  ghost predicate ObjectOk(r: Registry, id: LockId) requires id in r.objects {
    && id < r.nextId
    && (r.objects[id].holder.Some? ==>
          r.objects[id].holder.value in r.strong && r.strong[r.objects[id].holder.value] == Strong(id, true))
  }

  ghost predicate Inv(r: Registry) {
    && (forall t | t in r.strong :: StrongOk(r, t))
    && (forall p | p in r.entries :: EntryOk(r, p))
    && (forall id | id in r.objects :: ObjectOk(r, id))
  }

  ghost predicate Closed(r: Registry) {
    forall t | t in r.strong :: r.strong[t].id in r.objects
  }

  lemma InvCloses(r: Registry)
    requires Inv(r)
    ensures Closed(r)
  {
    forall t | t in r.strong ensures r.strong[t].id in r.objects { assert StrongOk(r, t); }
  }

  ghost function Abstract(r: Registry): Mutexes
    requires Inv(r)
  {
    InvCloses(r);
    Guards(r)
  }

  // Who waits for which path and who has its guard.
  ghost function Guards(r: Registry): Mutexes
    requires Closed(r)
  {
    Mutexes(
      map t | t in r.strong && !r.strong[t].guard :: r.objects[r.strong[t].id].path,
      map t | t in r.strong && r.strong[t].guard :: r.objects[r.strong[t].id].path)
  }

  lemma LookupKeepsStrong(r: Registry, ticket: Ticket, path: Path, t: Ticket)
    requires Inv(r) && ticket !in r.strong
    requires t in r.strong || t == ticket
    ensures StrongOk(LookupStep(r, ticket, path), t)
    ensures t in r.strong ==>
      var r' := LookupStep(r, ticket, path);
      r'.strong[t] == r.strong[t] && r'.objects[r.strong[t].id] == r.objects[r.strong[t].id]
  {
    if t in r.strong {
      assert StrongOk(r, t);
      assert ObjectOk(r, r.strong[t].id);
      assert Upgradable(r, r.strong[t].id);
    } else if path in r.entries {
      assert EntryOk(r, path);
      assert ObjectOk(r, r.entries[path]);
    }
  }

  lemma LookupKeeps(r: Registry, ticket: Ticket, path: Path)
    requires Inv(r) && ticket !in r.strong
    ensures Inv(LookupStep(r, ticket, path))
  {
    var r' := LookupStep(r, ticket, path);
    forall t | t in r'.strong ensures StrongOk(r', t) { LookupKeepsStrong(r, ticket, path, t); }
    forall p | p in r'.entries ensures EntryOk(r', p) {
      if p in r.entries {
        assert EntryOk(r, p);
        assert ObjectOk(r, r.entries[p]);
      }
    }
    forall id | id in r'.objects ensures ObjectOk(r', id) {
      if id in r.objects { assert ObjectOk(r, id); }
    }
  }

  // A new waiter beside unchanged references is a new waiter of the abstract mutexes.
  lemma WaiterAdded(r: Registry, r': Registry, ticket: Ticket, path: Path)
    requires Closed(r) && Closed(r') && ticket !in r.strong
    requires r'.strong.Keys == r.strong.Keys + {ticket}
    requires !r'.strong[ticket].guard && r'.objects[r'.strong[ticket].id].path == path
    requires forall t | t in r.strong ::
               r'.strong[t] == r.strong[t] && r'.objects[r.strong[t].id] == r.objects[r.strong[t].id]
    ensures Guards(r') == Mutexes(Guards(r).waiting[ticket := path], Guards(r).guards)
  {
    assert Guards(r').waiting == Guards(r).waiting[ticket := path];
    assert Guards(r').guards == Guards(r).guards;
  }

  lemma LookupRefines(r: Registry, op: Operation)
    requires Inv(r) && op.Lookup? && op.ticket !in r.strong
    ensures Inv(LookupStep(r, op.ticket, op.path))
    ensures MutexNext(Abstract(r), op) == Some(Abstract(LookupStep(r, op.ticket, op.path)))
  {
    LookupKeeps(r, op.ticket, op.path);
    var r' := LookupStep(r, op.ticket, op.path);
    InvCloses(r);
    InvCloses(r');
    forall t | t in r.strong
      ensures r'.strong[t] == r.strong[t] && r'.objects[r.strong[t].id] == r.objects[r.strong[t].id]
    {
      LookupKeepsStrong(r, op.ticket, op.path, t);
    }
    if op.path in r.entries { assert EntryOk(r, op.path); }
    WaiterAdded(r, r', op.ticket, op.path);
  }

  lemma AcquireEnabled(r: Registry, ticket: Ticket)
    requires Inv(r)
    ensures CanAcquire(r, ticket) <==>
      var m := Abstract(r); ticket in m.waiting && Free(m, m.waiting[ticket])
  {
    if ticket in r.strong && !r.strong[ticket].guard {
      assert StrongOk(r, ticket);
      var m := Abstract(r);
      var id := r.strong[ticket].id;
      if r.objects[id].holder.Some? {
        var u := r.objects[id].holder.value;
        assert ObjectOk(r, id);
        assert u in m.guards && m.guards[u] == m.waiting[ticket];
      } else {
        forall u | u in m.guards ensures m.guards[u] != m.waiting[ticket] {
          assert StrongOk(r, u);
        }
      }
    }
  }

  lemma AcquireKeeps(r: Registry, ticket: Ticket)
    requires Inv(r) && CanAcquire(r, ticket)
    ensures Inv(AcquireStep(r, ticket))
  {
    var r' := AcquireStep(r, ticket);
    assert StrongOk(r, ticket);
    forall t | t in r'.strong ensures StrongOk(r', t) { assert StrongOk(r, t); }
    forall p | p in r'.entries ensures EntryOk(r', p) { assert EntryOk(r, p); }
    forall id | id in r'.objects ensures ObjectOk(r', id) { assert ObjectOk(r, id); }
  }

  lemma AcquireRefines(r: Registry, op: Operation)
    requires Inv(r) && op.Acquire?
    ensures CanAcquire(r, op.ticket) <==> MutexNext(Abstract(r), op).Some?
    ensures CanAcquire(r, op.ticket) ==>
      && Inv(AcquireStep(r, op.ticket))
      && MutexNext(Abstract(r), op) == Some(Abstract(AcquireStep(r, op.ticket)))
  {
    AcquireEnabled(r, op.ticket);
    if CanAcquire(r, op.ticket) {
      var r', m := AcquireStep(r, op.ticket), Abstract(r);
      AcquireKeeps(r, op.ticket);
      forall t | t in r.strong ensures r'.objects[r.strong[t].id].path == r.objects[r.strong[t].id].path {
        assert StrongOk(r, t);
      }
      assert Abstract(r').waiting == m.waiting - {op.ticket};
      assert Abstract(r').guards == m.guards[op.ticket := m.waiting[op.ticket]];
    }
  }

  lemma DropKeeps(r: Registry, ticket: Ticket)
    requires Inv(r) && ticket in r.strong && r.strong[ticket].id in r.objects
    ensures Inv(DropStep(r, ticket))
  {
    var r' := DropStep(r, ticket);
    assert StrongOk(r, ticket);
    forall t | t in r'.strong ensures StrongOk(r', t) { assert StrongOk(r, t); }
    forall p | p in r'.entries ensures EntryOk(r', p) { assert EntryOk(r, p); }
    forall id | id in r'.objects ensures ObjectOk(r', id) { assert ObjectOk(r, id); }
  }

  lemma DropRefines(r: Registry, op: Operation)
    requires Inv(r) && op.Drop? && op.ticket in r.strong
    ensures r.strong[op.ticket].id in r.objects
    ensures Inv(DropStep(r, op.ticket))
    ensures MutexNext(Abstract(r), op) == Some(Abstract(DropStep(r, op.ticket)))
  {
    assert StrongOk(r, op.ticket);
    var r' := DropStep(r, op.ticket);
    DropKeeps(r, op.ticket);
    forall t | t in r.strong ensures r'.objects[r.strong[t].id].path == r.objects[r.strong[t].id].path {
      assert StrongOk(r, t);
    }
    assert Abstract(r').waiting == Abstract(r).waiting - {op.ticket};
    assert Abstract(r').guards == Abstract(r).guards - {op.ticket};
  }

  /** Each registry operation is enabled exactly when the mutex operation is, with the same effect. */
  lemma StepRefinesMutexes(r: Registry, op: Operation)
    requires Inv(r)
    ensures RegistryNext(r, op).Some? <==> MutexNext(Abstract(r), op).Some?
    ensures RegistryNext(r, op).Some? ==>
      && Inv(RegistryNext(r, op).value)
      && MutexNext(Abstract(r), op).value == Abstract(RegistryNext(r, op).value)
  {
    match op {
      case Lookup(ticket, _) => if ticket !in r.strong { LookupRefines(r, op); }
      case Acquire(_) => AcquireRefines(r, op);
      case Drop(ticket) => if ticket in r.strong { DropRefines(r, op); }
    }
  }

  /** Every run of lookups, acquisitions and drops is a run of one mutex per path, and conversely. */
  lemma {:induction false} RegistryRefinesMutexes(r: Registry, ops: seq<Operation>)
    requires Inv(r)
    ensures Execute(RegistryNext, r, ops).Some? <==> Execute(MutexNext, Abstract(r), ops).Some?
    ensures Execute(RegistryNext, r, ops).Some? ==>
      && Inv(Execute(RegistryNext, r, ops).value)
      && Execute(MutexNext, Abstract(r), ops).value == Abstract(Execute(RegistryNext, r, ops).value)
    decreases |ops|
  {
    if ops != [] {
      StepRefinesMutexes(r, ops[0]);
      if RegistryNext(r, ops[0]).Some? { RegistryRefinesMutexes(RegistryNext(r, ops[0]).value, ops[1..]); }
    }
  }

  /** Two guards on one path never coexist, although dead entries are purged and replaced. */
  lemma GuardsExclude(ops: seq<Operation>, t: Ticket, u: Ticket)
    requires Execute(RegistryNext, EMPTY, ops).Some?
    requires
      var r := Execute(RegistryNext, EMPTY, ops).value;
      && t in r.strong && u in r.strong && r.strong[t].guard && r.strong[u].guard
      && r.strong[t].id in r.objects && r.strong[u].id in r.objects
      && r.objects[r.strong[t].id].path == r.objects[r.strong[u].id].path
    ensures t == u
  {
    RegistryRefinesMutexes(EMPTY, ops);
    var r := Execute(RegistryNext, EMPTY, ops).value;
    assert StrongOk(r, t) && StrongOk(r, u);
  }

  class ArtifactLocks {
    var pathLocks: map<Path, LockId>
    var objects: map<LockId, LockObject>
    var strong: map<Ticket, Strong>
    var nextId: LockId

    ghost function State(): Registry reads this { Registry(pathLocks, objects, strong, nextId) }

    constructor ()
      ensures State() == EMPTY && Inv(State())
    {
      pathLocks, objects, strong, nextId := map[], map[], map[], 0;
    }

    /** The part of lock_path under the registry's own mutex. */
    method LockPath(ticket: Ticket, path: Path)
      requires Inv(State()) && ticket !in strong
      modifies this
      ensures State() == LookupStep(old(State()), ticket, path)
      ensures Inv(State()) && Some(Abstract(State())) == MutexNext(old(Abstract(State())), Lookup(ticket, path))
    {
      ghost var before := State();
      LookupRefines(before, Lookup(ticket, path));
      PurgeAndInsert(ticket, path);
    }

    method PurgeAndInsert(ticket: Ticket, path: Path)
      modifies this
      ensures State() == LookupStep(old(State()), ticket, path)
    {
      var r := Registry(pathLocks, objects, strong, nextId);
      pathLocks := map p | p in pathLocks && Upgradable(r, pathLocks[p]) :: pathLocks[p];
      if path in pathLocks {
        strong := strong[ticket := Strong(pathLocks[path], false)];
      } else {
        objects := objects[nextId := LockObject(path, None)];
        pathLocks := pathLocks[path := nextId];
        strong := strong[ticket := Strong(nextId, false)];
        nextId := nextId + 1;
      }
    }

    /** The guard is granted exactly when no other guard has the path. */
    method TryAcquire(ticket: Ticket) returns (granted: bool)
      requires Inv(State()) && ticket in strong && !strong[ticket].guard
      modifies this
      ensures Inv(State())
      ensures granted <==> old(Free(Abstract(State()), Abstract(State()).waiting[ticket]))
      ensures granted ==> Some(Abstract(State())) == MutexNext(old(Abstract(State())), Acquire(ticket))
      ensures !granted ==> State() == old(State())
    {
      AcquireRefines(State(), Acquire(ticket));
      assert StrongOk(State(), ticket);
      var id := strong[ticket].id;
      granted := objects[id].holder.None?;
      if granted {
        objects := objects[id := objects[id].(holder := Some(ticket))];
        strong := strong[ticket := Strong(id, true)];
      }
    }

    method DropReference(ticket: Ticket)
      requires Inv(State()) && ticket in strong
      modifies this
      ensures Inv(State()) && State() == DropStep(old(State()), ticket)
      ensures Some(Abstract(State())) == MutexNext(old(Abstract(State())), Drop(ticket))
    {
      DropRefines(State(), Drop(ticket));
      var Strong(id, guard) := strong[ticket];
      if guard { objects := objects[id := objects[id].(holder := None)]; }
      strong := strong - {ticket};
    }
  }
}
