// One dispatcher task per enabled actor: reconciling the running tasks with the actor directory, and stopping
// them. The directory readings, which may fail, how a task ends and when tasks end by themselves are inputs.

module Dispatcher {
  import opened Common

  type ActorId = string
  type TaskId = nat

  // What the directory says about an actor; a dispatcher runs with one such snapshot.
  datatype RuntimeActor = RuntimeActor(id: ActorId, enabled: bool, tools: set<string>)

  datatype Child = Child(actor: RuntimeActor, task: TaskId)

  // Every task that was ever spawned; told means that it has been asked to shut down, or was aborted.
  datatype Task = Task(owner: ActorId, told: bool, live: bool)

  // A listing of the actor directory; None if the store could not be read.
  type Reading = Option<seq<RuntimeActor>>

  /** The enabled actors of a directory listing by identifier; of two entries the later one counts. */
  function Enabled(listing: seq<RuntimeActor>): map<ActorId, RuntimeActor> {
    if listing == [] then map[]
    else
      var last := listing[|listing| - 1];
      var others := Enabled(listing[..|listing| - 1]);
      if last.enabled then others[last.id := last] else others
  }

  lemma {:induction false} EnabledByIdentifier(listing: seq<RuntimeActor>, id: ActorId)
    ensures id in Enabled(listing) ==>
              Enabled(listing)[id].id == id && Enabled(listing)[id].enabled && Enabled(listing)[id] in listing
    ensures (exists a :: a in listing && a.enabled && a.id == id) ==> id in Enabled(listing)
    decreases |listing|
  {
    if listing != [] {
      EnabledByIdentifier(listing[..|listing| - 1], id);
      if a :| a in listing && a.enabled && a.id == id {
        assert a in listing[..|listing| - 1] || a == listing[|listing| - 1];
      }
    }
  }

  lemma EnabledIdentifiers(listing: seq<RuntimeActor>)
    ensures forall id | id in Enabled(listing) :: Enabled(listing)[id].id == id
  {
    forall id | id in Enabled(listing) ensures Enabled(listing)[id].id == id { EnabledByIdentifier(listing, id); }
  }

  // No two entries of a listing are for the same actor.
  ghost predicate OneEntryEach(listing: seq<RuntimeActor>) {
    forall i, j | 0 <= i < j < |listing| :: listing[i].id != listing[j].id
  }

  /** From a listing with one entry for each actor exactly the enabled entries are collected. */
  lemma {:induction false} EnabledExactly(listing: seq<RuntimeActor>, a: RuntimeActor)
    requires OneEntryEach(listing)
    ensures a.id in Enabled(listing) && Enabled(listing)[a.id] == a <==> a in listing && a.enabled
    decreases |listing|
  {
    EnabledByIdentifier(listing, a.id);
    if listing != [] {
      var last := listing[|listing| - 1];
      EnabledExactly(listing[..|listing| - 1], a);
      if a in listing && a.enabled && a != last { assert a in listing[..|listing| - 1] && a.id != last.id; }
    }
  }

  /** Exactly the children stay that live and whose snapshot is still listed as enabled, as it is. */
  lemma KeptExactly(running: map<ActorId, Child>, tasks: map<TaskId, Task>, listing: seq<RuntimeActor>, id: ActorId)
    requires ChildrenOk(running, tasks) && OneEntryEach(listing)
    ensures id in KeptChildren(running, Enabled(listing), tasks)
            <==> id in running && tasks[running[id].task].live && running[id].actor in listing && running[id].actor.enabled
  {
    if id in running { EnabledExactly(listing, running[id].actor); }
  }

  // Children that a reconcile leaves alone: wanted with the same snapshot, and not finished.
  predicate Kept(id: ActorId, child: Child, desired: map<ActorId, RuntimeActor>, tasks: map<TaskId, Task>) {
    id in desired && desired[id] == child.actor && child.task in tasks && tasks[child.task].live
  }

  function KeptChildren(running: map<ActorId, Child>, desired: map<ActorId, RuntimeActor>, tasks: map<TaskId, Task>)
    : map<ActorId, Child>
  {
    map id | id in running && Kept(id, running[id], desired, tasks) :: running[id]
  }

  /** The tasks that a reconcile stops. */
  function StaleTasks(running: map<ActorId, Child>, desired: map<ActorId, RuntimeActor>, tasks: map<TaskId, Task>)
    : set<TaskId>
  {
    TasksOf(running - KeptChildren(running, desired, tasks).Keys)
  }

  function TasksOf(children: map<ActorId, Child>): set<TaskId> {
    set id | id in children :: children[id].task
  }

  function Told(tasks: map<TaskId, Task>, some: set<TaskId>): map<TaskId, Task> {
    map t | t in tasks :: if t in some then tasks[t].(told := true) else tasks[t]
  }

  function Ended(tasks: map<TaskId, Task>, some: set<TaskId>): map<TaskId, Task> {
    map t | t in tasks :: if t in some then tasks[t].(live := false) else tasks[t]
  }

  ghost predicate AllEnded(tasks: map<TaskId, Task>) {
    forall t | t in tasks :: !tasks[t].live
  }

  ghost predicate EndWell(tasks: set<TaskId>, endsWell: TaskId -> bool) {
    forall t | t in tasks :: endsWell(t)
  }

  // Exactly one of the awaited tasks, the last one, has not ended well.
  ghost predicate UpToABadEnd(awaited: set<TaskId>, endsWell: TaskId -> bool) {
    exists t | t in awaited :: !endsWell(t) && EndWell(awaited - {t}, endsWell)
  }

  // Every running child has its own task under its own name, and nobody has told it to stop.
  ghost predicate ChildrenOk(running: map<ActorId, Child>, tasks: map<TaskId, Task>) {
    forall id | id in running ::
      && running[id].task in tasks && tasks[running[id].task].owner == id && running[id].actor.id == id
      && !tasks[running[id].task].told
  }

  // Every living task is the task of the running child of its actor.
  ghost predicate NoStrayTasks(running: map<ActorId, Child>, tasks: map<TaskId, Task>) {
    forall t | t in tasks && tasks[t].live :: tasks[t].owner in running && running[tasks[t].owner].task == t
  }

  ghost predicate StraysAreTold(running: map<ActorId, Child>, tasks: map<TaskId, Task>) {
    forall t | t in tasks && tasks[t].live ::
      tasks[t].told || (tasks[t].owner in running && running[tasks[t].owner].task == t)
  }

  /** No actor has two living tasks. */
  ghost predicate OneTaskEach(tasks: map<TaskId, Task>) {
    forall t, u | t in tasks && u in tasks && tasks[t].live && tasks[u].live && tasks[t].owner == tasks[u].owner :: t == u
  }

  // The tasks before and after a reconcile: stale ones have been told and have ended, the others changed only if
  // they ended by themselves, and a new task is the untold task of a child that is not kept.
  ghost predicate TasksReconciled(running: map<ActorId, Child>, tasks: map<TaskId, Task>, first: seq<RuntimeActor>,
                                  running': map<ActorId, Child>, tasks': map<TaskId, Task>, gone: set<TaskId>)
  {
    var stale := StaleTasks(running, Enabled(first), tasks);
    && (forall t | t in tasks :: t in tasks' && tasks'[t] == Ended(Told(tasks, stale), stale + gone)[t])
    && NewTasks(KeptChildren(running, Enabled(first), tasks), tasks, running', tasks', gone)
  }

  ghost predicate NewTasks(kept: map<ActorId, Child>, tasks: map<TaskId, Task>, running': map<ActorId, Child>,
                           tasks': map<TaskId, Task>, gone: set<TaskId>)
  {
    forall t | t in tasks' && t !in tasks ::
      && tasks'[t] == Task(tasks'[t].owner, false, t !in gone)
      && tasks'[t].owner in running' && tasks'[t].owner !in kept && running'[tasks'[t].owner].task == t
  }

  // What a successful reconcile makes of the running children. The second reading counts only if some child was
  // stopped. A kept child keeps its task, which nobody touches; a started child has a task that did not exist
  // before. The tasks that have ended by themselves are gone.
  ghost predicate Reconciled(running: map<ActorId, Child>, tasks: map<TaskId, Task>, first: seq<RuntimeActor>,
                             second: Reading, running': map<ActorId, Child>, tasks': map<TaskId, Task>,
                             gone: set<TaskId>)
  {
    var kept := KeptChildren(running, Enabled(first), tasks);
    && (kept == running || second.Some?)
    && var desired := if kept == running then Enabled(first) else Enabled(second.value);
    && running'.Keys == kept.Keys + desired.Keys
    && (forall id | id in kept ::
          && running'[id] == kept[id]
          && kept[id].task in tasks' && tasks'[kept[id].task] == Ended(tasks, gone)[kept[id].task])
    && (forall id | id in running' && id !in kept ::
          && running'[id].actor == desired[id] && running'[id].task !in tasks
          && running'[id].task in tasks' && tasks'[running'[id].task] == Task(id, false, running'[id].task !in gone))
    && TasksReconciled(running, tasks, first, running', tasks', gone)
  }

  // Exactly the enabled actors are running, with the same snapshots, and each of their tasks is untold and lives
  // unless it has ended by itself.
  ghost predicate Matches(running: map<ActorId, Child>, tasks: map<TaskId, Task>, gone: set<TaskId>,
                          enabled: map<ActorId, RuntimeActor>)
  {
    && running.Keys == enabled.Keys
    && forall id | id in running ::
         && running[id].actor == enabled[id] && running[id].task in tasks
         && tasks[running[id].task] == Task(id, false, running[id].task !in gone)
  }

  /** If the directory is stable during a reconcile, exactly the enabled actors are running, with the same snapshots,
      and each of their tasks is untold and lives unless it has ended by itself. */
  lemma StableDirectoryIsMatched(running: map<ActorId, Child>, tasks: map<TaskId, Task>, first: seq<RuntimeActor>,
                                 second: Reading, running': map<ActorId, Child>, tasks': map<TaskId, Task>,
                                 gone: set<TaskId>)
    requires ChildrenOk(running, tasks) && Reconciled(running, tasks, first, second, running', tasks', gone)
    requires second.Some? ==> Enabled(first) == Enabled(second.value)
    ensures Matches(running', tasks', gone, Enabled(first))
  {}

  lemma MatchesLater(running: map<ActorId, Child>, tasks: map<TaskId, Task>, gone: set<TaskId>,
                     enabled: map<ActorId, RuntimeActor>, gone': set<TaskId>)
    requires Matches(running, tasks, gone, enabled) && gone <= gone'
    ensures Matches(running, Ended(tasks, gone'), gone', enabled)
  {}

  // Old children are as they were and old tasks change only by ending; each new child has a new task and the wanted
  // snapshot, and there are no other new tasks.
  ghost predicate SpawnedOnly(running: map<ActorId, Child>, tasks: map<TaskId, Task>, desired: map<ActorId, RuntimeActor>,
                              running': map<ActorId, Child>, tasks': map<TaskId, Task>, gone: set<TaskId>)
  {
    && (forall id | id in running :: id in running' && running'[id] == running[id])
    && (forall t | t in tasks :: t in tasks' && tasks'[t] == Ended(tasks, gone)[t])
    && (forall id | id in running' && id !in running ::
          && id in desired && running'[id].actor == desired[id] && running'[id].task !in tasks
          && running'[id].task in tasks' && tasks'[running'[id].task] == Task(id, false, running'[id].task !in gone))
    && NewTasks(running, tasks, running', tasks', gone)
  }

  // What the tasks become when one more is spawned and, meanwhile, some end by themselves.
  function OneMore(tasks: map<TaskId, Task>, id: ActorId, t: TaskId, gone: set<TaskId>): map<TaskId, Task> {
    Ended(tasks[t := Task(id, false, true)], gone)
  }

  // An actor without a child has no living task either, so it may get one.
  lemma OneMoreIsOne(running: map<ActorId, Child>, tasks: map<TaskId, Task>, id: ActorId, t: TaskId)
    requires NoStrayTasks(running, tasks) && id !in running
    ensures OneTaskEach(tasks[t := Task(id, false, true)])
  {}

  lemma OneMoreChild(running: map<ActorId, Child>, tasks: map<TaskId, Task>, id: ActorId, child: Child,
                     gone: set<TaskId>)
    requires ChildrenOk(running, tasks) && NoStrayTasks(running, tasks)
    requires id !in running && child.task !in tasks && child.actor.id == id
    ensures ChildrenOk(running[id := child], OneMore(tasks, id, child.task, gone))
    ensures NoStrayTasks(running[id := child], OneMore(tasks, id, child.task, gone))
  {}

  lemma OneMoreTask(tasks: map<TaskId, Task>, tasks': map<TaskId, Task>, gone: set<TaskId>, id: ActorId, t: TaskId,
                    gone': set<TaskId>)
    requires t !in tasks' && gone <= gone' && forall u | u in tasks :: u in tasks' && tasks'[u] == Ended(tasks, gone)[u]
    ensures forall u | u in tasks ::
              u in OneMore(tasks', id, t, gone') && OneMore(tasks', id, t, gone')[u] == Ended(tasks, gone')[u]
  {}

  lemma OneMoreNewTask(kept: map<ActorId, Child>, tasks: map<TaskId, Task>, running': map<ActorId, Child>,
                       tasks': map<TaskId, Task>, gone: set<TaskId>, child: Child, id: ActorId, gone': set<TaskId>)
    requires NewTasks(kept, tasks, running', tasks', gone) && gone <= gone'
    requires id !in running' && id !in kept && child.task !in tasks'
    ensures NewTasks(kept, tasks, running'[id := child], OneMore(tasks', id, child.task, gone'), gone')
  {}

  lemma OneMoreSpawned(running: map<ActorId, Child>, tasks: map<TaskId, Task>, desired: map<ActorId, RuntimeActor>,
                       running': map<ActorId, Child>, tasks': map<TaskId, Task>, gone: set<TaskId>, id: ActorId,
                       t: TaskId, gone': set<TaskId>)
    requires SpawnedOnly(running, tasks, desired, running', tasks', gone)
    requires id in desired && id !in running' && t !in tasks' && gone <= gone'
    ensures SpawnedOnly(running, tasks, desired, running'[id := Child(desired[id], t)],
                        OneMore(tasks', id, t, gone'), gone')
  {
    OneMoreTask(tasks, tasks', gone, id, t, gone');
    OneMoreNewTask(running, tasks, running', tasks', gone, Child(desired[id], t), id, gone');
  }

  lemma KeptAreNotStale(running: map<ActorId, Child>, tasks: map<TaskId, Task>, desired: map<ActorId, RuntimeActor>)
    requires ChildrenOk(running, tasks)
    ensures forall id | id in KeptChildren(running, desired, tasks) ::
              running[id].task !in StaleTasks(running, desired, tasks)
  {
    forall id | id in KeptChildren(running, desired, tasks)
      ensures running[id].task !in StaleTasks(running, desired, tasks)
    {
      assert tasks[running[id].task].owner == id;
    }
  }

  lemma OldTasksAfter(tasks: map<TaskId, Task>, stale: set<TaskId>, before: set<TaskId>, gone: set<TaskId>)
    requires before <= gone
    ensures Ended(Ended(Told(tasks, stale), stale + before), gone) == Ended(Told(tasks, stale), stale + gone)
  {}

  // The two phases of a reconcile together.
  lemma AfterSpawning(running: map<ActorId, Child>, tasks: map<TaskId, Task>, first: seq<RuntimeActor>, second: Reading,
                      kept: map<ActorId, Child>, stopped: map<TaskId, Task>, before: set<TaskId>,
                      desired: map<ActorId, RuntimeActor>, running': map<ActorId, Child>, tasks': map<TaskId, Task>,
                      gone: set<TaskId>)
    requires ChildrenOk(running, tasks) && kept == KeptChildren(running, Enabled(first), tasks) && before <= gone
    requires kept == running || second.Some?
    requires desired == if kept == running then Enabled(first) else Enabled(second.value)
    requires var stale := StaleTasks(running, Enabled(first), tasks);
             stopped == Ended(Told(tasks, stale), stale + before)
    requires running'.Keys == kept.Keys + desired.Keys && SpawnedOnly(kept, stopped, desired, running', tasks', gone)
    ensures Reconciled(running, tasks, first, second, running', tasks', gone)
  {
    KeptAreNotStale(running, tasks, Enabled(first));
    OldTasksAfter(tasks, StaleTasks(running, Enabled(first), tasks), before, gone);
  }

  // Told and partly awaited: whoever is left running is untouched, and a stray has been told.
  lemma StoppedTasks(running: map<ActorId, Child>, tasks: map<TaskId, Task>, stopping: map<ActorId, Child>,
                     ended: set<TaskId>)
    requires ChildrenOk(running, tasks) && NoStrayTasks(running, tasks)
    requires forall id | id in stopping :: id in running && running[id] == stopping[id]
    ensures var (left, after) := (running - stopping.Keys, Ended(Told(tasks, TasksOf(stopping)), ended));
      && ChildrenOk(left, after) && StraysAreTold(left, after)
      && (TasksOf(stopping) <= ended ==> NoStrayTasks(left, after))
  {
    forall id | id in running && id !in stopping ensures running[id].task !in TasksOf(stopping) {
      assert tasks[running[id].task].owner == id;
    }
  }

  lemma TellOneMore(tasks: map<TaskId, Task>, some: set<TaskId>, gone: set<TaskId>, t: TaskId, gone': set<TaskId>)
    requires t in tasks && gone <= gone'
    ensures var told := Ended(Told(tasks, some), gone);
            Ended(told[t := told[t].(told := true)], gone') == Ended(Told(tasks, some + {t}), gone')
  {}

  lemma EndOneMore(tasks: map<TaskId, Task>, some: set<TaskId>, gone: set<TaskId>, t: TaskId, gone': set<TaskId>)
    requires t in tasks && gone <= gone'
    ensures var ended := Ended(tasks, some + gone);
            Ended(ended[t := ended[t].(live := false)], gone') == Ended(tasks, some + {t} + gone')
  {}

  // Telling first, awaiting then.
  lemma ToldThenEnded(tasks: map<TaskId, Task>, some: set<TaskId>, gone: set<TaskId>, ended: set<TaskId>,
                      gone': set<TaskId>)
    requires gone <= gone'
    ensures Ended(Ended(Told(tasks, some), gone), ended + gone') == Ended(Told(tasks, some), ended + gone')
  {}

  lemma AllTasks(children: map<ActorId, Child>, done: set<TaskId>)
    requires done <= TasksOf(children) && forall id | id in children :: children[id].task in done
    ensures done == TasksOf(children)
  {}

  lemma NothingStale(tasks: map<TaskId, Task>, gone: set<TaskId>)
    requires forall t | t in tasks && t in gone :: !tasks[t].live
    ensures tasks == Ended(Told(tasks, {}), {} + gone)
  {}

  lemma BadEnd(awaited: set<TaskId>, t: TaskId, endsWell: TaskId -> bool)
    requires EndWell(awaited, endsWell) && !endsWell(t)
    ensures UpToABadEnd(awaited + {t}, endsWell)
  {
    assert t in awaited + {t} && EndWell(awaited + {t} - {t}, endsWell);
  }

  // A task that did not end well when it was awaited.
  ghost predicate SomeEndedBadly(tasks: map<TaskId, Task>, endsWell: TaskId -> bool) {
    exists t :: t in tasks && !endsWell(t)
  }

  // A round that fails whatever the tasks do: the directory cannot be read when it must be, or its signal is closed
  // while the manager waits for it.
  ghost predicate Interrupted(round: Round) {
    || (!round.stopBefore && round.first.None?)
    || (!round.stopBefore && !round.stopAfter && round.closed)
  }

  // A round that fails if some child is stale.
  ghost predicate MayLackReading(round: Round) {
    !round.stopBefore && round.second.None?
  }

  // The manager comes to this round if it was not told to stop before.
  ghost predicate Reached(rounds: seq<Round>, i: nat) {
    i < |rounds| && forall j | 0 <= j < i :: !rounds[j].stopBefore && !rounds[j].stopAfter
  }

  // A round in which the directory stays the same.
  ghost predicate Stable(round: Round) {
    round.first.Some? && round.second == round.first
  }

  // A task that ended by itself at some step.
  ghost predicate ByItself(t: TaskId, history: seq<map<TaskId, Task>>, ends: nat -> set<TaskId>) {
    exists k: nat | k + 1 < |history| :: t in ends(k) && t in history[k + 1]
  }

  ghost predicate ToldToStop(rounds: seq<Round>) {
    exists i | 0 <= i < |rounds| :: rounds[i].stopBefore || rounds[i].stopAfter
  }

  // One round of the manager: the two readings, whether it finds itself told to stop before and after the reconcile,
  // and whether the directory signal is closed while it waits.
  datatype Round = Round(first: Reading, second: Reading, stopBefore: bool, stopAfter: bool, closed: bool)

  class ActorDispatcherManager {
    var running: map<ActorId, Child>
    var tasks: map<TaskId, Task>
    var nextTask: TaskId
    var now: nat
    // How a task ends when it is awaited: true for a clean end.
    const endsWell: TaskId -> bool
    // The tasks that end by themselves at each step.
    const ends: nat -> set<TaskId>
    // All tasks as they were after every step, and those that have ended by themselves.
    ghost var history: seq<map<TaskId, Task>>
    ghost var gone: set<TaskId>

    // What holds at every point: no actor has, or ever had, two living tasks.
    ghost predicate Sound()
      reads this
    {
      && |history| == now + 1 && history[now] == tasks && OneTaskEach(tasks)
      && (forall k | 0 <= k < |history| :: OneTaskEach(history[k]))
      && (forall t | t in tasks :: t < nextTask && (t in gone ==> !tasks[t].live))
      && forall t | t in gone :: t < nextTask && ByItself(t, history, ends)
    }

    ghost predicate Valid()
      reads this
    {
      Sound() && ChildrenOk(running, tasks) && NoStrayTasks(running, tasks)
    }

    constructor (endsWell: TaskId -> bool, ends: nat -> set<TaskId>)
      ensures Valid() && running == map[] && tasks == map[] && history == [map[]] && gone == {} && nextTask == now == 0
      ensures this.endsWell == endsWell && this.ends == ends
    {
      this.endsWell, this.ends := endsWell, ends;
      running, tasks, nextTask, now := map[], map[], 0, 0;
      history, gone := [map[]], {};
    }

    /** One step: the given change of the tasks, during which some tasks may end by themselves. */
    method Step(after: map<TaskId, Task>)
      requires Sound() && OneTaskEach(after)
      requires forall t | t in after :: t < nextTask && (t in gone ==> !after[t].live)
      modifies this`tasks, this`now, this`history, this`gone
      ensures Sound() && old(history) <= history && now == old(now) + 1
      ensures gone == old(gone) + (ends(old(now)) * after.Keys) && tasks == Ended(after, gone)
    {
      tasks := map t | t in after :: if t in ends(now) then after[t].(live := false) else after[t];
      gone := gone + (ends(now) * after.Keys);
      assert tasks == Ended(after, gone);
      history := history + [tasks];
      now := now + 1;
      forall t | t in gone ensures ByItself(t, history, ends) {
        if t in ends(old(now)) && t in after {
          assert history[old(now) + 1] == tasks;
        } else {
          var k: nat :| k + 1 < |old(history)| && t in ends(k) && t in old(history)[k + 1];
          assert history[k + 1] == old(history)[k + 1];
        }
      }
    }

    method TellOne(t: TaskId, ghost start: map<TaskId, Task>, ghost done: set<TaskId>)
      requires Sound() && t in tasks && tasks == Ended(Told(start, done), gone)
      modifies this`tasks, this`now, this`history, this`gone
      ensures Sound() && old(history) <= history && old(gone) <= gone
      ensures tasks == Ended(Told(start, done + {t}), gone)
    {
      Step(tasks[t := tasks[t].(told := true)]);
      TellOneMore(start, done, old(gone), t, gone);
    }

    method AwaitOne(t: TaskId, ghost start: map<TaskId, Task>, ghost awaited: set<TaskId>)
      requires Sound() && t in tasks && tasks == Ended(start, awaited + gone)
      modifies this`tasks, this`now, this`history, this`gone
      ensures Sound() && old(history) <= history && old(gone) <= gone
      ensures tasks == Ended(start, awaited + {t} + gone)
    {
      Step(tasks[t := tasks[t].(live := false)]);
      EndOneMore(start, awaited, old(gone), t, gone);
    }

    method EnabledActors(reading: Reading) returns (actors: Option<map<ActorId, RuntimeActor>>)
      ensures actors == if reading.Some? then Some(Enabled(reading.value)) else None
    {
      if reading.None? { return None; }
      var listing := reading.value;
      var enabled: map<ActorId, RuntimeActor> := map[];
      for i := 0 to |listing|
        invariant enabled == Enabled(listing[..i])
      {
        assert listing[..i + 1][..i] == listing[..i];
        if listing[i].enabled { enabled := enabled[listing[i].id := listing[i]]; }
      }
      assert listing[..|listing|] == listing;
      return Some(enabled);
    }

    /** Asks every child to shut down. */
    method TellAll(children: map<ActorId, Child>)
      requires Sound() && forall id | id in children :: children[id].task in tasks
      modifies this`tasks, this`now, this`history, this`gone
      ensures Sound() && old(history) <= history && old(gone) <= gone
      ensures tasks == Ended(Told(old(tasks), TasksOf(children)), gone)
    {
      var todo := children.Keys;
      ghost var done: set<TaskId> := {};
      assert tasks == Ended(Told(tasks, {}), gone);
      while todo != {}
        invariant todo <= children.Keys
        invariant Sound() && old(history) <= history && old(gone) <= gone
        invariant tasks == Ended(Told(old(tasks), done), gone) && done <= TasksOf(children)
        invariant forall id | id in children && id !in todo :: children[id].task in done
        decreases |todo|
      {
        var id :| id in todo;
        var t := children[id].task;
        TellOne(t, old(tasks), done);
        done := done + {t};
        todo := todo - {id};
      }
      AllTasks(children, done);
    }

    /** Awaits the children in some order until one of them has not ended well. */
    method AwaitAll(children: map<ActorId, Child>) returns (ok: bool, ghost awaited: set<TaskId>)
      requires Sound() && forall id | id in children :: children[id].task in tasks
      modifies this`tasks, this`now, this`history, this`gone
      ensures Sound() && old(history) <= history && old(gone) <= gone
      ensures tasks == Ended(old(tasks), awaited + gone) && awaited <= TasksOf(children)
      ensures ok ==> awaited == TasksOf(children)
      ensures ok <==> EndWell(TasksOf(children), endsWell)
      ensures !ok ==> UpToABadEnd(awaited, endsWell)
    {
      var todo := children.Keys;
      awaited := {};
      assert tasks == Ended(tasks, {} + gone);
      while todo != {}
        invariant todo <= children.Keys
        invariant Sound() && old(history) <= history && old(gone) <= gone
        invariant tasks == Ended(old(tasks), awaited + gone) && awaited <= TasksOf(children)
        invariant EndWell(awaited, endsWell)
        invariant forall id | id in children && id !in todo :: children[id].task in awaited
        decreases |todo|
      {
        var id :| id in todo;
        var t := children[id].task;
        assert t in TasksOf(children) && t in old(tasks);
        AwaitOne(t, old(tasks), awaited);
        if !endsWell(t) {
          BadEnd(awaited, t, endsWell);
          return false, awaited + {t};
        }
        awaited := awaited + {t};
        todo := todo - {id};
      }
      AllTasks(children, awaited);
      return true, awaited;
    }

    method Spawn(id: ActorId, actor: RuntimeActor)
      requires Valid() && id !in running && actor.id == id
      modifies this
      ensures Valid() && old(history) <= history && old(gone) <= gone
      ensures old(nextTask) !in old(tasks)
      ensures running == old(running)[id := Child(actor, old(nextTask))]
      ensures tasks == OneMore(old(tasks), id, old(nextTask), gone)
    {
      var t := nextTask;
      nextTask := nextTask + 1;
      OneMoreIsOne(running, tasks, id, t);
      Step(tasks[t := Task(id, false, true)]);
      OneMoreChild(running, old(tasks), id, Child(actor, t), gone);
      running := running[id := Child(actor, t)];
    }

    /** Starts a dispatcher for every actor that has none. */
    method SpawnMissing(desired: map<ActorId, RuntimeActor>)
      requires Valid() && forall id | id in desired :: desired[id].id == id
      modifies this
      ensures Valid() && old(history) <= history && old(gone) <= gone
      ensures running.Keys == old(running).Keys + desired.Keys
      ensures SpawnedOnly(old(running), old(tasks), desired, running, tasks, gone)
    {
      var todo := desired.Keys;
      while todo != {}
        invariant todo <= desired.Keys && Valid() && old(history) <= history && old(gone) <= gone
        invariant forall id :: id in running <==> id in old(running) || (id in desired && id !in todo)
        invariant SpawnedOnly(old(running), old(tasks), desired, running, tasks, gone)
        decreases |todo|
      {
        var id :| id in todo;
        todo := todo - {id};
        if id !in running {
          ghost var (children, before, t, was) := (running, tasks, nextTask, gone);
          Spawn(id, desired[id]);
          OneMoreSpawned(old(running), old(tasks), desired, children, before, was, id, t, gone);
        }
      }
    }

    /** Stops some children: tells them all, then awaits them until one has not ended well. */
    method StopChildren(stopping: map<ActorId, Child>) returns (ok: bool, ghost awaited: set<TaskId>)
      requires Valid() && forall id | id in stopping :: id in running && running[id] == stopping[id]
      modifies this
      ensures Sound() && old(history) <= history && old(gone) <= gone
      ensures running == old(running) - stopping.Keys && nextTask == old(nextTask)
      ensures tasks == Ended(Told(old(tasks), TasksOf(stopping)), awaited + gone) && awaited <= TasksOf(stopping)
      ensures ok ==> Valid() && awaited == TasksOf(stopping)
      ensures ok <==> EndWell(TasksOf(stopping), endsWell)
      ensures !ok ==> UpToABadEnd(awaited, endsWell) && StraysAreTold(running, tasks)
    {
      running := running - stopping.Keys;
      TellAll(stopping);
      ghost var before := gone;
      ok, awaited := AwaitAll(stopping);
      ToldThenEnded(old(tasks), TasksOf(stopping), before, awaited, gone);
      StoppedTasks(old(running), old(tasks), stopping, awaited + gone);
    }

    /** The second phase of a reconcile, after the stale children were stopped. */
    method Restart(desired: map<ActorId, RuntimeActor>, ghost children: map<ActorId, Child>,
                   ghost before: map<TaskId, Task>, ghost first: seq<RuntimeActor>, ghost second: Reading)
      requires Valid() && forall id | id in desired :: desired[id].id == id
      requires ChildrenOk(children, before) && running == KeptChildren(children, Enabled(first), before)
      requires running == children || second.Some?
      requires desired == if running == children then Enabled(first) else Enabled(second.value)
      requires var stale := StaleTasks(children, Enabled(first), before);
               tasks == Ended(Told(before, stale), stale + gone)
      modifies this
      ensures Valid() && old(history) <= history && old(gone) <= gone
      ensures Reconciled(children, before, first, second, running, tasks, gone)
    {
      SpawnMissing(desired);
      AfterSpawning(children, before, first, second, old(running), old(tasks), old(gone), desired, running, tasks, gone);
    }

    /** Stops every child that is finished or no longer wanted as it is, and starts what is missing. It fails if a
        reading fails or a stopped task has not ended well: if the first reading fails, nothing has changed; later,
        the stale children are gone, and if it was the second reading, their tasks have ended. */
    method ReconcileDispatchers(first: Reading, second: Reading) returns (ok: bool, ghost awaited: set<TaskId>)
      requires Valid()
      modifies this
      ensures Sound() && old(history) <= history && old(gone) <= gone
      ensures first.None? ==> !ok && unchanged(this)
      ensures first.Some? ==>
                var kept := KeptChildren(old(running), Enabled(first.value), old(tasks));
                var stale := StaleTasks(old(running), Enabled(first.value), old(tasks));
                && (ok <==> EndWell(stale, endsWell) && (kept == old(running) || second.Some?))
                && (ok ==> Valid() && Reconciled(old(running), old(tasks), first.value, second, running, tasks, gone))
                && (!ok ==> running == kept && StraysAreTold(running, tasks) && awaited <= stale
                            && tasks == Ended(Told(old(tasks), stale), awaited + gone))
                && (!ok && EndWell(stale, endsWell) ==> Valid() && awaited == stale)
                && (!EndWell(stale, endsWell) ==> UpToABadEnd(awaited, endsWell))
    {
      awaited := {};
      var desired := EnabledActors(first);
      if desired.None? { return false, awaited; }
      var kept := KeptChildren(running, desired.value, tasks);
      var stopping := running - kept.Keys;
      assert running - stopping.Keys == kept;
      ghost var stale := StaleTasks(running, desired.value, tasks);
      if stopping != map[] {
        ok, awaited := StopChildren(stopping);
        if !ok { return; }
        desired := EnabledActors(second);
        if desired.None? {
          assert StraysAreTold(running, tasks);
          return false, awaited;
        }
        EnabledIdentifiers(second.value);
      } else {
        assert kept == running;
        EnabledIdentifiers(first.value);
        NothingStale(tasks, gone);
      }
      Restart(desired.value, old(running), old(tasks), first.value, second);
      return true, awaited;
    }

    /** Stops everything; afterwards nothing runs, unless a task ended badly. */
    method StopAllDispatchers() returns (ok: bool)
      requires Valid()
      modifies this
      ensures Sound() && old(history) <= history && running == map[]
      ensures ok ==> Valid() && AllEnded(tasks)
      ensures ok <==> EndWell(TasksOf(old(running)), endsWell)
      ensures !ok ==> StraysAreTold(running, tasks) && SomeEndedBadly(tasks, endsWell)
    {
      var children := running;
      ghost var awaited;
      ok, awaited := StopChildren(children);
      assert running == map[];
      if !ok {
        var t :| t in TasksOf(children) && !endsWell(t);
        assert t in tasks;
      }
    }

    method ReconcileRound(round: Round) returns (ok: bool)
      requires Valid()
      modifies this
      ensures Sound() && old(history) <= history
      ensures ok ==> Valid() && round.first.Some?
      ensures ok && Stable(round) ==> Matches(running, tasks, gone, Enabled(round.first.value))
      ensures !ok ==> StraysAreTold(running, tasks)
      ensures !ok ==> round.first.None? || round.second.None? || SomeEndedBadly(tasks, endsWell)
    {
      ghost var awaited;
      ok, awaited := ReconcileDispatchers(round.first, round.second);
      if ok && Stable(round) {
        StableDirectoryIsMatched(old(running), old(tasks), round.first.value, round.second, running, tasks, gone);
      }
    }

    /** Waiting for a signal, while tasks may end. */
    method Wait(ghost round: Round)
      requires Valid() && (Stable(round) ==> Matches(running, tasks, gone, Enabled(round.first.value)))
      modifies this`tasks, this`now, this`history, this`gone
      ensures Valid() && old(history) <= history
      ensures Stable(round) ==> Matches(running, tasks, gone, Enabled(round.first.value))
    {
      Step(tasks);
      if Stable(round) { MatchesLater(running, old(tasks), old(gone), Enabled(round.first.value), gone); }
    }

    /** One pass of the loop; stop says that the manager was told to stop, and has stopped everything. */
    method RunRound(round: Round) returns (ok: bool, stop: bool)
      requires Valid()
      modifies this
      ensures Sound() && old(history) <= history
      ensures ok ==> Valid() && stop == (round.stopBefore || round.stopAfter)
      ensures ok ==> !Interrupted(round)
      ensures !ok ==> Interrupted(round) || MayLackReading(round) || SomeEndedBadly(tasks, endsWell)
      ensures ok && stop ==> running == map[] && AllEnded(tasks)
      ensures ok && !stop && Stable(round) ==> Matches(running, tasks, gone, Enabled(round.first.value))
      ensures !ok ==> StraysAreTold(running, tasks)
    {
      stop := round.stopBefore;
      if !stop {
        ok := ReconcileRound(round);
        if !ok { return; }
        stop := round.stopAfter;
      }
      if stop {
        ok := StopAllDispatchers();
      } else {
        Wait(round);
        ok := !round.closed;
      }
    }

    /** Dropping the children aborts their tasks. */
    method AbortAll()
      requires Sound() && StraysAreTold(running, tasks)
      modifies this
      ensures Sound() && old(history) <= history && running == map[] && tasks.Keys == old(tasks).Keys
      ensures forall t | t in tasks && tasks[t].live :: tasks[t].told
    {
      Step(Told(tasks, TasksOf(running)));
      running := map[];
    }

    /** The manager's loop. At no point does any actor have two living tasks; after a round with a stable directory
        the enabled actors are running; told to stop, it leaves none; if it fails, whatever still lives has been told
        to stop or was aborted. It fails if it comes to a round that is interrupted, and only for that, a missing
        second reading or a task that ended badly. */
    method RunWith(rounds: seq<Round>) returns (ok: bool)
      requires Valid()
      modifies this
      ensures old(history) <= history && forall k | 0 <= k < |history| :: OneTaskEach(history[k])
      ensures ok ==> Valid()
      ensures ok ==> forall i: nat | Reached(rounds, i) :: !Interrupted(rounds[i])
      ensures !ok ==>
                || (exists i: nat :: Reached(rounds, i) && (Interrupted(rounds[i]) || MayLackReading(rounds[i])))
                || SomeEndedBadly(tasks, endsWell)
      ensures ok && ToldToStop(rounds) ==> running == map[] && AllEnded(tasks)
      ensures ok && !ToldToStop(rounds) && |rounds| > 0 && Stable(rounds[|rounds| - 1]) ==>
                Matches(running, tasks, gone, Enabled(rounds[|rounds| - 1].first.value))
      ensures !ok ==> running == map[] && forall t | t in tasks && tasks[t].live :: tasks[t].told
    {
      for i := 0 to |rounds|
        invariant Valid() && old(history) <= history
        invariant forall j | 0 <= j < i :: !rounds[j].stopBefore && !rounds[j].stopAfter && !Interrupted(rounds[j])
        invariant i > 0 && Stable(rounds[i - 1]) ==> Matches(running, tasks, gone, Enabled(rounds[i - 1].first.value))
      {
        var stop;
        assert Reached(rounds, i);
        ok, stop := RunRound(rounds[i]);
        if !ok {
          AbortAll();
          return;
        }
        if stop { return; }
      }
      return true;
    }
  }

  lemma NobodyEndsByItself(manager: ActorDispatcherManager)
    requires manager.Sound() && forall k :: manager.ends(k) == {}
    ensures manager.gone == {}
  {
    assert forall t :: !ByItself(t, manager.history, manager.ends);
  }

  // Of two tasks that end badly one is not awaited.
  lemma OneIsNotAwaited(tasks: map<TaskId, Task>, stale: set<TaskId>, awaited: set<TaskId>, endsWell: TaskId -> bool,
                        t: TaskId, u: TaskId)
    requires t in tasks && u in tasks && tasks[t].live && tasks[u].live && {t, u} <= stale && t != u
    requires UpToABadEnd(awaited, endsWell) && !endsWell(t) && !endsWell(u)
    ensures var after := Ended(Told(tasks, stale), awaited + {});
            after[t] == tasks[t].(told := true) || after[u] == tasks[u].(told := true)
  {
    var bad :| bad in awaited && !endsWell(bad) && EndWell(awaited - {bad}, endsWell);
    assert bad == t || t !in awaited - {bad};
  }

  lemma TwoEnabled(a: RuntimeActor, b: RuntimeActor)
    requires a.enabled && b.enabled && a.id != b.id
    ensures Enabled([a, b]) == map[a.id := a, b.id := b] && Enabled([]) == map[]
  {
    assert [a][..0] == [] && Enabled([a]) == map[a.id := a];
    assert [a, b][..1] == [a];
  }

  /** The strays of a failed reconcile are real: of two dispatchers that end badly when they are stopped, only one is
      awaited, and the other lives on without being anybody's child. */
  method FailedReconcileLeavesAStray() returns (manager: ActorDispatcherManager, ok: bool, stray: TaskId)
    ensures fresh(manager) && !ok && stray in manager.tasks && manager.tasks[stray].live && manager.tasks[stray].told
    ensures manager.running == map[]
  {
    var a, b := RuntimeActor("a", true, {}), RuntimeActor("b", true, {});
    TwoEnabled(a, b);
    manager := new ActorDispatcherManager(t => false, k => {});
    ghost var awaited;
    ok, awaited := manager.ReconcileDispatchers(Some([a, b]), None);
    NobodyEndsByItself(manager);
    assert "a" in manager.running && "b" in manager.running;
    var t, u := manager.running["a"].task, manager.running["b"].task;
    ghost var (running, tasks) := (manager.running, manager.tasks);
    ok, awaited := manager.ReconcileDispatchers(Some([]), None);
    NobodyEndsByItself(manager);
    ghost var stale := StaleTasks(running, map[], tasks);
    assert KeptChildren(running, map[], tasks) == map[];
    assert t in stale && u in stale && !EndWell(stale, manager.endsWell);
    OneIsNotAwaited(tasks, stale, awaited, manager.endsWell, t, u);
    stray := if manager.tasks[t].live then t else u;
  }
}
