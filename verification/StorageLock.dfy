/**
  Writing one storage file from several processes: the queue of each process, a chain of promises,
  the cross-process lock file and the read-modify-write it protects, as steps between file-system
  operations.
 */
module StorageLock {
  import opened Text

  const STALE_AFTER_MS := 30_000

  type Pid = nat

  // A change to the stored object.
  datatype Op = Put(key: string, value: string) | Remove(key: string)

  type Store = map<string, string>

  function Apply(op: Op, m: Store): Store {
    match op
    case Put(k, v) => m[k := v]
    case Remove(k) => m - {k}
  }

  // The target file: missing, an object, or text that is not one.
  datatype Disk = Absent | Object(m: Store) | Damaged

  // The tasks of a process are numbered as they are enqueued.
  datatype TaskId = TaskId(pid: Pid, index: nat)

  // The lock file; `touched` is its modification time, and it is stamped once its payload is in.
  datatype Lock = Lock(creator: TaskId, stamped: bool, touched: int)

  // Where a task stands between two awaits: `created` is the modification time of a lock that was
  // read without payload, `seen` the one that was looked up; `ok` tells whether the promise resolves.
  datatype Phase =
    | Idle
    | Opening
    | Reading
    | Aging(created: int)
    | Judging(created: int, seen: int)
    | Stealing
    | Waiting
    | Stamping
    | Loading
    | Entering(data: Store)
    | Blocked(data: Store)
    | Writing(data: Store)
    | Syncing(data: Store)
    | Renaming(data: Store)
    | Releasing(ok: bool)
    | Settled(ok: bool)

  // `after` is the promise the task was chained to; a nested task runs without taking the lock.
  datatype Task = Task(op: Op, after: Option<TaskId>, phase: Phase, nested: bool)

  datatype Commit = Commit(id: TaskId, op: Op)

  // `tails` are the last promises of the queues, `held` the processes that know they have the lock.
  datatype World = World(
    now: int, lock: Option<Lock>, file: Disk, tasks: map<TaskId, Task>, tails: map<Pid, TaskId>,
    held: set<Pid>, commits: seq<Commit>)

  datatype Action =
    | Tick(ms: nat)
    | Enqueue(pid: Pid, op: Op)
    | Start(t: TaskId)
    | Open(t: TaskId)
    | ReadLock(t: TaskId)
    | Stat(t: TaskId)
    | Judge(t: TaskId)
    | Steal(t: TaskId)
    | Retry(t: TaskId)
    | GiveUp(t: TaskId)
    | Stamp(t: TaskId)
    | StampFails(t: TaskId, written: bool, unlinked: bool)
    | Load(t: TaskId)
    | Enter(t: TaskId)
    | WriteTemp(t: TaskId)
    | Sync(t: TaskId)
    | Rename(t: TaskId)
    | Fails(t: TaskId)
    | Release(t: TaskId)
    | ReleaseFails(t: TaskId)

  function To(w: World, t: TaskId, phase: Phase): World
    requires t in w.tasks
  {
    w.(tasks := w.tasks[t := w.tasks[t].(phase := phase)])
  }

  // `enqueue`: the task is chained to the tail of its queue, and becomes the tail.
  function EnqueueStep(w: World, pid: Pid, op: Op): World {
    var after := if pid in w.tails then Some(w.tails[pid]) else None;
    var t := TaskId(pid, if pid in w.tails then w.tails[pid].index + 1 else 0);
    w.(tasks := w.tasks[t := Task(op, after, Idle, false)], tails := w.tails[pid := t])
  }

  // The promise that the task waits for has settled, one way or the other.
  predicate Ready(w: World, t: TaskId)
    requires t in w.tasks
  {
    var after := w.tasks[t].after;
    after.None? || (after.value in w.tasks && w.tasks[after.value].phase.Settled?)
  }

  // `withFileLock`: a process that has the lock already runs the callback at once.
  function StartStep(w: World, t: TaskId): World
    requires t in w.tasks
  {
    if t.pid in w.held then w.(tasks := w.tasks[t := w.tasks[t].(phase := Loading, nested := true)])
    else To(w, t, Opening)
  }

  // `tryAcquire`: exclusive creation, and what follows when the file exists.
  function OpenStep(w: World, t: TaskId): World
    requires t in w.tasks
  {
    if w.lock.None? then To(w.(lock := Some(Lock(t, false, w.now))), t, Stamping)
    else To(w, t, Reading)
  }

  // `isStale` up to the age check: the owner of a stamped lock is alive.
  function ReadStep(w: World, t: TaskId): World
    requires t in w.tasks
  {
    if w.lock.Some? && !w.lock.value.stamped then To(w, t, Aging(w.lock.value.touched)) else To(w, t, Waiting)
  }

  // `lockFileAgeExceeds` looks up the modification time of whatever lock is there by now,
  function StatStep(w: World, t: TaskId, created: int): World
    requires t in w.tasks
  {
    if w.lock.Some? then To(w, t, Judging(created, w.lock.value.touched)) else To(w, t, Waiting)
  }

  // and compares it with the clock when that has come back.
  function JudgeStep(w: World, t: TaskId, seen: int): World
    requires t in w.tasks
  {
    if w.now - seen > STALE_AFTER_MS then To(w, t, Stealing) else To(w, t, Waiting)
  }

  predicate Unwritten(w: World, t: TaskId) {
    w.lock.Some? && w.lock.value.creator == t && !w.lock.value.stamped
  }

  // Writing the payload through the open handle; a lock that was unlinked meanwhile stays gone.
  function StampStep(w: World, t: TaskId): World
    requires t in w.tasks
  {
    var held := w.held + {t.pid};
    if Unwritten(w, t)
    then To(w.(lock := Some(Lock(t, true, w.now)), held := held), t, Loading)
    else To(w.(held := held), t, Loading)
  }

  // Writing the payload or closing the handle fails; a lock that cannot be removed then is left
  // behind, with or without its payload.
  function StampFailsStep(w: World, t: TaskId, written: bool, unlinked: bool): World
    requires t in w.tasks
  {
    var lock := if unlinked then None else if written && Unwritten(w, t) then Some(Lock(t, true, w.now)) else w.lock;
    To(w.(lock := lock), t, Settled(false))
  }

  function LoadStep(w: World, t: TaskId): World
    requires t in w.tasks
  {
    match w.file
    case Absent => To(w, t, Entering(Apply(w.tasks[t].op, map[])))
    case Object(m) => To(w, t, Entering(Apply(w.tasks[t].op, m)))
    case Damaged => To(w, t, Releasing(false))
  }

  // `atomicWriteFile` calls `withFileLock` again: in a process that has the lock the write begins at
  // once, and nothing is given back after it; otherwise the inner call would wait for a lock.
  function EnterStep(w: World, t: TaskId, data: Store): World
    requires t in w.tasks
  {
    To(w, t, if t.pid in w.held then Writing(data) else Blocked(data))
  }

  function RenameStep(w: World, t: TaskId, data: Store): World
    requires t in w.tasks
  {
    To(w.(file := Object(data), commits := w.commits + [Commit(t, w.tasks[t].op)]), t, Releasing(true))
  }

  // Only the task that took the lock gives it back; the removal of the file may fail.
  function ReleaseStep(w: World, t: TaskId, ok: bool, unlinked: bool): World
    requires t in w.tasks
  {
    if w.tasks[t].nested then To(w, t, Settled(ok))
    else
      var lock := if unlinked then None else w.lock;
      To(w.(held := w.held - {t.pid}, lock := lock), t, Settled(ok && unlinked))
  }

  // One step; `None` when it is not enabled.
  function Do(w: World, a: Action): Option<World> {
    if a.Tick? then Some(w.(now := w.now + a.ms))
    else if a.Enqueue? then Some(EnqueueStep(w, a.pid, a.op))
    else if a.t !in w.tasks then None
    else
      var t, phase := a.t, w.tasks[a.t].phase;
      match a
      case Start(_) => if phase.Idle? && Ready(w, t) then Some(StartStep(w, t)) else None
      case Open(_) => if phase.Opening? then Some(OpenStep(w, t)) else None
      case ReadLock(_) => if phase.Reading? then Some(ReadStep(w, t)) else None
      case Stat(_) => if phase.Aging? then Some(StatStep(w, t, phase.created)) else None
      case Judge(_) => if phase.Judging? then Some(JudgeStep(w, t, phase.seen)) else None
      case Steal(_) => if phase.Stealing? then Some(To(w.(lock := None), t, Waiting)) else None
      case Retry(_) => if phase.Waiting? then Some(To(w, t, Opening)) else None
      case GiveUp(_) => if phase.Waiting? then Some(To(w, t, Settled(false))) else None
      case Stamp(_) => if phase.Stamping? then Some(StampStep(w, t)) else None
      case StampFails(_, _, _) => if phase.Stamping? then Some(StampFailsStep(w, t, a.written, a.unlinked)) else None
      case Load(_) => if phase.Loading? then Some(LoadStep(w, t)) else None
      case Enter(_) => if phase.Entering? then Some(EnterStep(w, t, phase.data)) else None
      case WriteTemp(_) => if phase.Writing? then Some(To(w, t, Syncing(phase.data))) else None
      case Sync(_) => if phase.Syncing? then Some(To(w, t, Renaming(phase.data))) else None
      case Rename(_) => if phase.Renaming? then Some(RenameStep(w, t, phase.data)) else None
      case Fails(_) => if phase.Loading? || Carries(phase) then Some(To(w, t, Releasing(false))) else None
      case Release(_) => if phase.Releasing? then Some(ReleaseStep(w, t, phase.ok, true)) else None
      case ReleaseFails(_) => if phase.Releasing? then Some(ReleaseStep(w, t, phase.ok, false)) else None
  }

  // With the file's next value in hand.
  predicate Carries(phase: Phase) {
    phase.Entering? || phase.Blocked? || phase.Writing? || phase.Syncing? || phase.Renaming?
  }

  predicate TouchesLock(a: Action) { a.Open? || a.Stamp? || a.StampFails? || a.Release? || a.ReleaseFails? }

  // The protected section of `withFileLock`, the removal of the lock included.
  predicate InSection(phase: Phase) { phase.Loading? || Carries(phase) || phase.Releasing? }

  predicate Holds(phase: Phase) { phase.Stamping? || InSection(phase) }

  function Run(w: World, actions: seq<Action>): Option<World> {
    if actions == [] then Some(w)
    else
      match Run(w, actions[..|actions| - 1])
      case None => None
      case Some(v) => Do(v, actions[|actions| - 1])
  }

  // ----- Verdicts on the age of a lock -----

  // The task is about to find the lock stale.
  predicate Late(w: World, t: TaskId) {
    t in w.tasks && w.tasks[t].phase.Judging? && w.now - w.tasks[t].phase.seen > STALE_AFTER_MS
  }

  // The lock was left behind: the task that created it has settled.
  predicate Orphaned(w: World) {
    w.lock.Some? && w.lock.value.creator in w.tasks && w.tasks[w.lock.value.creator].phase.Settled?
  }

  // A lock is found stale only when it was left behind and nobody else is about to remove it.
  ghost predicate Harmless(w: World, a: Action) {
    a.Judge? && Late(w, a.t) ==>
      Orphaned(w) && forall r :: r in w.tasks ==> !w.tasks[r].phase.Stealing?
  }

  ghost predicate Careful(w: World, actions: seq<Action>) {
    forall n :: 0 <= n < |actions| && Run(w, actions[..n]).Some? ==> Harmless(Run(w, actions[..n]).value, actions[n])
  }

  // A verdict on a lock that was read without payload comes soon enough after its creation.
  predicate Prompt(w: World, a: Action) {
    a.Judge? && a.t in w.tasks && w.tasks[a.t].phase.Judging? ==>
      w.now - w.tasks[a.t].phase.created <= 30_000
  }

  ghost predicate Prompted(w: World, actions: seq<Action>) {
    forall n :: 0 <= n < |actions| && Run(w, actions[..n]).Some? ==> Prompt(Run(w, actions[..n]).value, actions[n])
  }

  // ----- What every run keeps -----

  // The tasks of a process are numbered without gaps, up to the tail of its queue.
  ghost predicate NumbersOk(w: World) {
    && (forall p :: p in w.tails ==> w.tails[p].pid == p)
    && (forall t :: t in w.tasks <==> t.pid in w.tails && t.index <= w.tails[t.pid].index)
  }

  // The task enqueued before this one by the same process.
  function Before(t: TaskId): Option<TaskId> {
    if t.index == 0 then None else Some(TaskId(t.pid, t.index - 1))
  }

  // Every task is chained to the one before it, and has begun only if that one has settled.
  ghost predicate ChainOk(w: World) {
    && (forall t :: t in w.tasks ==> w.tasks[t].after == Before(t))
    && (forall t :: t in w.tasks && !w.tasks[t].phase.Idle? ==> Ready(w, t))
  }

  ghost predicate QueueOk(w: World) { NumbersOk(w) && ChainOk(w) }

  // A process knows that it has the lock while one of its tasks is in the section.
  ghost predicate HeldOk(w: World) {
    && (forall t :: t in w.tasks && InSection(w.tasks[t].phase) ==> t.pid in w.held)
    && (forall p :: p in w.held ==> exists t :: t in w.tasks && t.pid == p && InSection(w.tasks[t].phase))
    && (forall t :: t in w.tasks ==> !w.tasks[t].nested && !w.tasks[t].phase.Blocked?)
  }

  // The lock is held by the one task that is past its creation; a lock that could not be removed
  // is nobody's.
  ghost predicate LockOk(w: World) {
    && (forall t :: t in w.tasks && Holds(w.tasks[t].phase) ==> w.lock.Some? && w.lock.value.creator == t)
    && (w.lock.Some? ==>
          && w.lock.value.creator in w.tasks
          && w.lock.value.touched <= w.now
          && var phase := w.tasks[w.lock.value.creator].phase;
             phase.Settled? || if w.lock.value.stamped then InSection(phase) else phase.Stamping?)
  }

  // At most one task is about to remove the lock, and then the lock was left behind.
  ghost predicate ThievesOk(w: World) {
    && (forall q :: q in w.tasks && w.tasks[q].phase.Stealing? ==> Orphaned(w))
    && (forall q, r :: q in w.tasks && r in w.tasks && w.tasks[q].phase.Stealing? && w.tasks[r].phase.Stealing? ==> q == r)
  }

  // A lock that is there is no older than the one a task has read without payload.
  predicate AgeOk(w: World, phase: Phase) {
    phase.Aging? || phase.Judging? ==>
      && phase.created <= w.now
      && (w.lock.Some? ==> phase.created <= w.lock.value.touched)
      && (phase.Judging? ==> phase.created <= phase.seen)
  }

  ghost predicate AgesOk(w: World) {
    forall t :: t in w.tasks ==> AgeOk(w, w.tasks[t].phase)
  }

  function Fold(start: Disk, commits: seq<Commit>): Disk {
    if commits == [] then start
    else Object(Apply(commits[|commits| - 1].op, Content(Fold(start, commits[..|commits| - 1]))))
  }

  function Content(d: Disk): Store { if d.Object? then d.m else map[] }

  // Data on its way to the file is the file's next value.
  ghost predicate CarriedOk(w: World) {
    forall t :: t in w.tasks && Carries(w.tasks[t].phase) ==>
      !w.file.Damaged? && w.tasks[t].phase.data == Apply(w.tasks[t].op, Content(w.file))
  }

  // The file is the fold of the commits.
  ghost predicate DataOk(w: World, start: Disk) {
    w.file == Fold(start, w.commits) && CarriedOk(w)
  }

  // The task's change is in the file.
  predicate Done(phase: Phase) { phase == Releasing(true) || phase.Settled? }

  ghost predicate Committed(commits: seq<Commit>, t: TaskId) {
    exists i :: 0 <= i < |commits| && commits[i].id == t
  }

  // Each process commits its tasks in the order they were enqueued, each at most once, and every
  // task that resolves has been committed.
  ghost predicate FifoOk(w: World) {
    && (forall i :: 0 <= i < |w.commits| ==>
          var t := w.commits[i].id;
          t in w.tasks && w.tasks[t].op == w.commits[i].op && Done(w.tasks[t].phase))
    && (forall i, j :: 0 <= i < j < |w.commits| && w.commits[i].id.pid == w.commits[j].id.pid ==>
          w.commits[i].id.index < w.commits[j].id.index)
    && (forall t :: t in w.tasks && (w.tasks[t].phase == Releasing(true) || w.tasks[t].phase == Settled(true)) ==>
          Committed(w.commits, t))
  }

  ghost predicate Inv(w: World, start: Disk) {
    QueueOk(w) && HeldOk(w) && LockOk(w) && ThievesOk(w) && AgesOk(w) && DataOk(w, start) && FifoOk(w)
  }

  // Nothing has been enqueued.
  ghost predicate Initial(w: World) {
    w.lock.None? && w.commits == [] && w.tasks == map[] && w.tails == map[] && w.held == {}
  }

  // ----- The queue -----

  lemma ReadyBefore(w: World, t: TaskId)
    requires ChainOk(w) && t in w.tasks && Ready(w, t) && t.index > 0
    ensures var u := TaskId(t.pid, t.index - 1); u in w.tasks && w.tasks[u].phase.Settled?
  {
    assert w.tasks[t].after == Before(t);
    hide ChainOk;
  }

  // When a task is ready, all earlier ones of its process have settled.
  lemma {:induction false} EarlierSettled(w: World, t: TaskId, u: TaskId)
    requires ChainOk(w) && t in w.tasks && u in w.tasks && t.pid == u.pid && u.index < t.index && Ready(w, t)
    ensures w.tasks[u].phase.Settled?
    decreases t.index
  {
    hide Ready;
    ReadyBefore(w, t);
    var before := TaskId(t.pid, t.index - 1);
    if u.index < before.index {
      EarlierSettled(w, before, u);
    }
  }

  // A task that has begun and not settled is alone: the earlier ones have settled, the later ones
  // have not begun.
  lemma OneAtATime(w: World, t: TaskId, u: TaskId)
    requires ChainOk(w) && t in w.tasks && u in w.tasks && t.pid == u.pid && t != u
    requires !w.tasks[t].phase.Idle? && !w.tasks[t].phase.Settled?
    ensures if u.index < t.index then w.tasks[u].phase.Settled? else w.tasks[u].phase.Idle? && !Ready(w, u)
  {
    hide Ready;
    if u.index < t.index {
      EarlierSettled(w, t, u);
    } else if Ready(w, u) {
      EarlierSettled(w, u, t);
    }
  }

  // A task that can start finds that its process does not have the lock.
  lemma NotNested(w: World, t: TaskId)
    requires ChainOk(w) && HeldOk(w) && t in w.tasks && w.tasks[t].phase.Idle? && Ready(w, t)
    ensures t.pid !in w.held
  {
    hide Ready, ChainOk;
    if t.pid in w.held {
      var u :| u in w.tasks && u.pid == t.pid && InSection(w.tasks[u].phase);
      OneAtATime(w, u, t);
    }
  }

  // All a step changes of the queue is the phase of one task that is ready and has not settled.
  ghost predicate Moves(w: World, t: TaskId, v: World) {
    && t in w.tasks && t in v.tasks && v.tails == w.tails && v.now == w.now
    && v.tasks == w.tasks[t := w.tasks[t].(phase := v.tasks[t].phase)]
    && !w.tasks[t].phase.Settled? && !v.tasks[t].phase.Idle?
    && (w.tasks[t].phase.Idle? ==> Ready(w, t))
  }

  lemma StepMoves(w: World, a: Action, v: World)
    requires QueueOk(w) && HeldOk(w) && Do(w, a) == Some(v) && !a.Tick? && !a.Enqueue?
    ensures Moves(w, a.t, v)
  {
    hide QueueOk, HeldOk, Moves, Do;
    if a.Start? {
      StartMoves(w, a, v);
    } else {
      InTasks(w, a, v);
      Unnested(w, a.t);
      OtherMoves(w, a, v);
    }
  }

  lemma InTasks(w: World, a: Action, v: World)
    requires Do(w, a) == Some(v) && !a.Tick? && !a.Enqueue?
    ensures a.t in w.tasks
    ensures a.Start? ==> w.tasks[a.t].phase.Idle? && Ready(w, a.t) && v == StartStep(w, a.t)
  {
    hide Ready, StartStep;
  }

  lemma StartMoves(w: World, a: Action, v: World)
    requires QueueOk(w) && HeldOk(w) && a.Start? && Do(w, a) == Some(v)
    ensures Moves(w, a.t, v)
  {
    hide QueueOk, HeldOk, Ready, Moves, Do, StartStep;
    InTasks(w, a, v);
    Startable(w, a.t);
    OneMove(w, a.t, v);
  }

  lemma OtherMoves(w: World, a: Action, v: World)
    requires Do(w, a) == Some(v) && !a.Tick? && !a.Enqueue? && !a.Start?
    requires a.t in w.tasks && !w.tasks[a.t].nested
    ensures Moves(w, a.t, v)
  {
    hide Moves, Ready, Do, Puts;
    if SeesLock(a) {
      LockPuts(w, a, v);
    } else {
      FilePuts(w, a, v);
    }
    OneMove(w, a.t, v);
  }

  predicate SeesLock(a: Action) { a.ReadLock? || a.Stat? || a.Judge? || TouchesLock(a) }

  lemma LockPuts(w: World, a: Action, v: World)
    requires Do(w, a) == Some(v) && SeesLock(a) && a.t in w.tasks && !w.tasks[a.t].nested
    ensures a.t in v.tasks && Puts(w, a.t, v, v.tasks[a.t].phase)
    ensures !w.tasks[a.t].phase.Idle? && !w.tasks[a.t].phase.Settled? && !v.tasks[a.t].phase.Idle?
  {
    hide OpenStep, ReadStep, StatStep, JudgeStep, StampStep, StampFailsStep, ReleaseStep;
    LockSteps(w, a.t);
  }

  lemma FilePuts(w: World, a: Action, v: World)
    requires Do(w, a) == Some(v) && !a.Tick? && !a.Enqueue? && !a.Start? && !SeesLock(a) && a.t in w.tasks
    ensures a.t in v.tasks && Puts(w, a.t, v, v.tasks[a.t].phase)
    ensures !w.tasks[a.t].phase.Idle? && !w.tasks[a.t].phase.Settled? && !v.tasks[a.t].phase.Idle?
  {
    hide Apply, LoadStep, EnterStep, RenameStep;
    FileSteps(w, a.t);
  }

  lemma Unnested(w: World, t: TaskId)
    requires HeldOk(w) && t in w.tasks
    ensures !w.tasks[t].nested
  {
  }

  lemma Startable(w: World, t: TaskId)
    requires QueueOk(w) && HeldOk(w) && t in w.tasks && w.tasks[t].phase.Idle? && Ready(w, t)
    ensures StartStep(w, t) == To(w, t, Opening)
  {
    hide Ready, HeldOk;
    NotNested(w, t);
  }

  // The steps, but for what they do to the lock and the file.
  ghost predicate Puts(w: World, t: TaskId, v: World, phase: Phase) {
    t in w.tasks && v.tails == w.tails && v.now == w.now && v.tasks == w.tasks[t := w.tasks[t].(phase := phase)]
  }

  lemma LockSteps(w: World, t: TaskId)
    requires t in w.tasks && !w.tasks[t].nested
    ensures Puts(w, t, OpenStep(w, t), if w.lock.None? then Stamping else Reading)
    ensures Puts(w, t, ReadStep(w, t), ReadStep(w, t).tasks[t].phase) && !ReadStep(w, t).tasks[t].phase.Idle?
    ensures forall c :: Puts(w, t, StatStep(w, t, c), StatStep(w, t, c).tasks[t].phase) && !StatStep(w, t, c).tasks[t].phase.Idle?
    ensures forall c :: Puts(w, t, JudgeStep(w, t, c), JudgeStep(w, t, c).tasks[t].phase) && !JudgeStep(w, t, c).tasks[t].phase.Idle?
    ensures Puts(w, t, StampStep(w, t), Loading)
    ensures forall written, unlinked :: Puts(w, t, StampFailsStep(w, t, written, unlinked), Settled(false))
    ensures forall ok, unlinked :: Puts(w, t, ReleaseStep(w, t, ok, unlinked), Settled(ok && unlinked))
  {
  }

  lemma FileSteps(w: World, t: TaskId)
    requires t in w.tasks
    ensures Puts(w, t, LoadStep(w, t), LoadStep(w, t).tasks[t].phase) && !LoadStep(w, t).tasks[t].phase.Idle?
    ensures forall data :: Puts(w, t, EnterStep(w, t, data), if t.pid in w.held then Writing(data) else Blocked(data))
    ensures forall data :: Puts(w, t, RenameStep(w, t, data), Releasing(true))
  {
    hide Apply;
  }

  lemma OneMove(w: World, t: TaskId, v: World)
    requires t in v.tasks && Puts(w, t, v, v.tasks[t].phase)
    requires !w.tasks[t].phase.Settled? && !v.tasks[t].phase.Idle?
    requires w.tasks[t].phase.Idle? ==> Ready(w, t)
    ensures Moves(w, t, v)
  {
    hide Ready;
  }

  lemma ReadyStays(w: World, t: TaskId, v: World, u: TaskId)
    requires Moves(w, t, v) && u in w.tasks && Ready(w, u)
    ensures Ready(v, u)
  {
  }

  lemma MovesReady(w: World, t: TaskId, v: World)
    requires ChainOk(w) && Moves(w, t, v)
    ensures ChainOk(v)
  {
    hide Ready, Before;
    MovesOne(w, t, v);
    forall u | u in v.tasks && !v.tasks[u].phase.Idle?
      ensures Ready(v, u)
    {
      assert u in w.tasks && Ready(w, u);
      ReadyStays(w, t, v, u);
    }
  }

  lemma MovesOne(w: World, t: TaskId, v: World)
    requires Moves(w, t, v)
    ensures v.tasks.Keys == w.tasks.Keys
    ensures forall u :: u in w.tasks ==>
              && v.tasks[u].after == w.tasks[u].after
              && (u != t ==> v.tasks[u] == w.tasks[u])
  {
    hide Ready;
  }

  lemma MovesNumbers(w: World, t: TaskId, v: World)
    requires NumbersOk(w) && Moves(w, t, v)
    ensures NumbersOk(v)
  {
    hide Ready;
  }

  lemma MovesChain(w: World, t: TaskId, v: World)
    requires QueueOk(w) && Moves(w, t, v)
    ensures QueueOk(v)
  {
    hide NumbersOk, ChainOk, Moves;
    MovesReady(w, t, v);
    MovesNumbers(w, t, v);
  }

  lemma EnqueuedNumbers(w: World, pid: Pid, op: Op)
    requires NumbersOk(w)
    ensures NumbersOk(EnqueueStep(w, pid, op))
    ensures var v := EnqueueStep(w, pid, op);
            && pid in v.tails && v.tails[pid] !in w.tasks && Grows(w, v)
            && v.tails[pid] in v.tasks && v.tasks == w.tasks[v.tails[pid] := v.tasks[v.tails[pid]]]
            && v.tasks[v.tails[pid]].after == Before(v.tails[pid])
  {
  }

  lemma Enqueued(w: World, pid: Pid, op: Op)
    requires QueueOk(w)
    ensures QueueOk(EnqueueStep(w, pid, op))
    ensures Grows(w, EnqueueStep(w, pid, op))
  {
    hide ChainOk, NumbersOk, EnqueueStep, Grows;
    EnqueuedNumbers(w, pid, op);
    ChainGrows(w, EnqueueStep(w, pid, op), EnqueueStep(w, pid, op).tails[pid]);
  }

  // The tasks stay as they are, and new ones have not begun.
  ghost predicate Grows(w: World, v: World) {
    && (forall t :: t in w.tasks ==> t in v.tasks && v.tasks[t] == w.tasks[t])
    && (forall t :: t in v.tasks && t !in w.tasks ==> v.tasks[t].phase.Idle? && !v.tasks[t].nested)
  }

  lemma ChainGrows(w: World, v: World, n: TaskId)
    requires ChainOk(w) && Grows(w, v) && n !in w.tasks && n in v.tasks && v.tasks == w.tasks[n := v.tasks[n]]
    requires v.tasks[n].after == Before(n)
    ensures ChainOk(v)
  {
    forall u | u in w.tasks && Ready(w, u)
      ensures Ready(v, u)
    {
    }
    hide Ready;
  }

  lemma StepQueue(w: World, a: Action, v: World)
    requires QueueOk(w) && HeldOk(w) && Do(w, a) == Some(v)
    ensures QueueOk(v)
  {
    hide QueueOk, HeldOk, Ready, Moves;
    if a.Enqueue? {
      Enqueued(w, a.pid, a.op);
    } else if a.Tick? {
      SameQueue(w, v);
    } else {
      StepMoves(w, a, v);
      MovesChain(w, a.t, v);
    }
  }

  lemma SameQueue(w: World, v: World)
    requires QueueOk(w) && v.tasks == w.tasks && v.tails == w.tails
    ensures QueueOk(v)
  {
    assert forall t :: t in w.tasks ==> (Ready(v, t) <==> Ready(w, t));
    hide Ready;
  }

  // What a step does to the section and to the knowledge of the lock.
  lemma SectionStep(w: World, a: Action, v: World)
    requires Do(w, a) == Some(v) && !a.Tick? && !a.Enqueue? && Moves(w, a.t, v)
    requires !w.tasks[a.t].nested
    ensures var before, after := InSection(w.tasks[a.t].phase), InSection(v.tasks[a.t].phase);
            && (v.held == if before && !after then w.held - {a.t.pid} else if after && !before then w.held + {a.t.pid} else w.held)
            && (v.tasks[a.t].phase.Blocked? ==> before && a.t.pid !in w.held)
  {
    hide Ready, Apply;
  }

  lemma StepHeld(w: World, a: Action, v: World)
    requires QueueOk(w) && HeldOk(w) && Do(w, a) == Some(v)
    ensures HeldOk(v)
  {
    hide Ready;
    if a.Enqueue? {
      Enqueued(w, a.pid, a.op);
      hide QueueOk, EnqueueStep;
      HeldGrows(w, v);
    } else if !a.Tick? {
      hide QueueOk;
      StepMoves(w, a, v);
      SectionStep(w, a, v);
      hide Do, InSection;
      HeldMoves(w, a.t, v);
    }
  }

  lemma HeldGrows(w: World, v: World)
    requires HeldOk(w) && v.held == w.held
    requires Grows(w, v)
    ensures HeldOk(v)
  {
    forall p | p in v.held
      ensures exists t :: t in v.tasks && t.pid == p && InSection(v.tasks[t].phase)
    {
      var t :| t in w.tasks && t.pid == p && InSection(w.tasks[t].phase);
      assert v.tasks[t] == w.tasks[t];
    }
  }

  lemma HeldMoves(w: World, t: TaskId, v: World)
    requires QueueOk(w) && HeldOk(w) && Moves(w, t, v)
    requires var before, after := InSection(w.tasks[t].phase), InSection(v.tasks[t].phase);
             && (v.held == if before && !after then w.held - {t.pid} else if after && !before then w.held + {t.pid} else w.held)
             && (v.tasks[t].phase.Blocked? ==> before && t.pid !in w.held)
    ensures HeldOk(v)
  {
    hide Ready, QueueOk, Carries;
    forall u | u in v.tasks && InSection(v.tasks[u].phase)
      ensures u.pid in v.held
    {
      if u != t && u.pid == t.pid && InSection(w.tasks[t].phase) {
        Alone(w, t, u);
      }
    }
    forall p | p in v.held
      ensures exists u :: u in v.tasks && u.pid == p && InSection(v.tasks[u].phase)
    {
      if p == t.pid && InSection(v.tasks[t].phase) {
        assert t in v.tasks;
      } else {
        var u :| u in w.tasks && u.pid == p && InSection(w.tasks[u].phase);
        assert u in v.tasks;
      }
    }
  }

  lemma Alone(w: World, t: TaskId, u: TaskId)
    requires QueueOk(w) && t in w.tasks && u in w.tasks && t.pid == u.pid && t != u && InSection(w.tasks[t].phase)
    ensures !InSection(w.tasks[u].phase)
  {
    hide Ready, ChainOk;
    OneAtATime(w, t, u);
  }

  // ----- The lock and the file -----

  // How a step that steals nothing changes the lock.
  ghost predicate LockMoves(w: World, t: TaskId, v: World)
    requires t in w.tasks && t in v.tasks
  {
    var before, after := w.tasks[t].phase, v.tasks[t].phase;
    || (w.lock.None? && v.lock == Some(Lock(t, false, w.now)) && after.Stamping?)
    || (before.Stamping? && v.lock == Some(Lock(t, true, w.now)) && after.Loading?)
    || (Holds(before) && v.lock.None? && after.Settled?)
    || (before.Stamping? && v.lock == Some(Lock(t, true, w.now)) && after.Settled?)
    || (Holds(before) && v.lock == w.lock && after.Settled?)
    || (v.lock == w.lock && !before.Stamping? && !after.Stamping? && (Holds(before) <==> Holds(after)))
  }

  lemma LockStep(w: World, a: Action, v: World)
    requires LockOk(w) && Do(w, a) == Some(v) && !a.Tick? && !a.Enqueue? && !a.Steal?
    requires Moves(w, a.t, v) && !w.tasks[a.t].nested && (a.Start? ==> StartStep(w, a.t) == To(w, a.t, Opening))
    ensures LockMoves(w, a.t, v)
  {
    hide Ready, Moves, LockMoves;
    if TouchesLock(a) {
      assert a.Stamp? || a.StampFails? ==> Unwritten(w, a.t);
      hide LockOk, Do;
      LockTouched(w, a, v);
    } else {
      hide LockOk, Do;
      LockLeft(w, a, v);
    }
  }

  lemma LockTouched(w: World, a: Action, v: World)
    requires Do(w, a) == Some(v) && TouchesLock(a) && a.t in w.tasks && a.t in v.tasks
    requires !w.tasks[a.t].nested && (a.Stamp? || a.StampFails? ==> Unwritten(w, a.t))
    ensures LockMoves(w, a.t, v)
  {
    hide Ready, StartStep, ReadStep, StatStep, JudgeStep, LoadStep, EnterStep, RenameStep;
  }

  lemma LockLeft(w: World, a: Action, v: World)
    requires Do(w, a) == Some(v) && !a.Tick? && !a.Enqueue? && !a.Steal? && !TouchesLock(a) && a.t in w.tasks && a.t in v.tasks
    requires a.Start? ==> StartStep(w, a.t) == To(w, a.t, Opening)
    ensures LockMoves(w, a.t, v)
  {
    hide Ready, Apply, StartStep, OpenStep, StampStep, StampFailsStep, ReleaseStep;
  }

  lemma LockStays(w: World, t: TaskId, v: World)
    requires LockOk(w) && Moves(w, t, v) && LockMoves(w, t, v)
    ensures LockOk(v)
  {
    hide Ready;
  }

  lemma StepLock(w: World, a: Action, v: World)
    requires QueueOk(w) && HeldOk(w) && LockOk(w) && ThievesOk(w) && Do(w, a) == Some(v)
    ensures LockOk(v)
  {
    hide QueueOk, HeldOk, Ready, ThievesOk;
    if a.Enqueue? {
      Enqueued(w, a.pid, a.op);
      hide EnqueueStep;
    } else if a.Steal? {
      hide Do, LockOk;
      StealLock(w, a.t, v);
    } else if !a.Tick? {
      StepMoves(w, a, v);
      Unnested(w, a.t);
      hide LockOk, Moves, LockMoves;
      if a.Start? {
        Startable(w, a.t);
      }
      LockStep(w, a, v);
      LockStays(w, a.t, v);
    }
  }

  lemma StealLock(w: World, q: TaskId, v: World)
    requires LockOk(w) && ThievesOk(w) && Do(w, Steal(q)) == Some(v)
    ensures LockOk(v)
  {
  }

  // What a step does to those who are about to remove the lock.
  ghost predicate ThiefMoves(w: World, t: TaskId, v: World)
    requires t in w.tasks && t in v.tasks
  {
    var before, after := w.tasks[t].phase, v.tasks[t].phase;
    && (after.Stealing? ==> Late(w, t) && v.lock == w.lock)
    && (Orphaned(w) ==> v.lock == w.lock || before.Stealing?)
  }

  lemma ThiefStep(w: World, a: Action, v: World)
    requires Do(w, a) == Some(v) && !a.Tick? && !a.Enqueue? && Moves(w, a.t, v)
    requires !w.tasks[a.t].nested && (a.Start? ==> StartStep(w, a.t) == To(w, a.t, Opening))
    ensures v.tasks[a.t].phase.Stealing? ==> a.Judge? && Late(w, a.t) && v.lock == w.lock
  {
    hide Ready, Apply, StartStep;
  }

  lemma OrphanStays(w: World, t: TaskId, v: World)
    requires LockOk(w) && t in w.tasks && t in v.tasks && LockMoves(w, t, v) && Orphaned(w)
    requires !w.tasks[t].phase.Settled?
    ensures v.lock == w.lock
  {
  }

  lemma ThievesMove(w: World, t: TaskId, v: World)
    requires ThievesOk(w) && Moves(w, t, v) && ThiefMoves(w, t, v)
    requires v.tasks[t].phase.Stealing? ==> Orphaned(w) && forall r :: r in w.tasks ==> !w.tasks[r].phase.Stealing?
    ensures ThievesOk(v)
  {
    hide Ready;
    MovesOne(w, t, v);
  }

  // One task at a time finds a lock stale, and then the lock stays until that task removes it.
  lemma StepThieves(w: World, a: Action, v: World)
    requires QueueOk(w) && HeldOk(w) && LockOk(w) && ThievesOk(w) && Harmless(w, a) && Do(w, a) == Some(v)
    ensures ThievesOk(v)
  {
    hide QueueOk, HeldOk, Ready, Late;
    if a.Enqueue? {
      Enqueued(w, a.pid, a.op);
      hide EnqueueStep;
    } else if !a.Tick? {
      StepMoves(w, a, v);
      Unnested(w, a.t);
      hide LockOk, LockMoves, Do;
      if a.Start? {
        Startable(w, a.t);
      }
      ThiefStep(w, a, v);
      if a.Steal? {
        Steals(w, a.t, v);
      } else {
        LockStep(w, a, v);
        if Orphaned(w) {
          OrphanStays(w, a.t, v);
        }
      }
      hide ThievesOk, Orphaned;
      ThievesMove(w, a.t, v);
    }
  }

  lemma Steals(w: World, q: TaskId, v: World)
    requires Do(w, Steal(q)) == Some(v)
    ensures q in w.tasks && w.tasks[q].phase.Stealing? && v == To(w.(lock := None), q, Waiting)
  {
  }

  // What a step does to what the tasks know of the lock's age.
  ghost predicate AgeMoves(w: World, t: TaskId, v: World)
    requires t in w.tasks && t in v.tasks
  {
    var before, after := w.tasks[t].phase, v.tasks[t].phase;
    && (after.Aging? ==> w.lock.Some? && v.lock == w.lock && after.created == w.lock.value.touched)
    && (after.Judging? ==> before.Aging? && after.created == before.created && w.lock.Some? && v.lock == w.lock
                           && after.seen == w.lock.value.touched)
    && (v.lock.Some? ==> v.lock == w.lock || v.lock.value.touched == w.now)
  }

  lemma AgeStep(w: World, a: Action, v: World)
    requires Do(w, a) == Some(v) && !a.Tick? && !a.Enqueue? && Moves(w, a.t, v)
    requires !w.tasks[a.t].nested && (a.Start? ==> StartStep(w, a.t) == To(w, a.t, Opening))
    ensures AgeMoves(w, a.t, v)
  {
    hide Ready, Apply, StartStep;
  }

  lemma AgesMove(w: World, t: TaskId, v: World)
    requires LockOk(w) && AgesOk(w) && Moves(w, t, v) && AgeMoves(w, t, v)
    ensures AgesOk(v)
  {
    hide Ready, Holds, InSection;
    MovesOne(w, t, v);
    assert v.now == w.now;
    hide Moves;
  }

  lemma StepAges(w: World, a: Action, v: World)
    requires QueueOk(w) && HeldOk(w) && LockOk(w) && AgesOk(w) && Do(w, a) == Some(v)
    ensures AgesOk(v)
  {
    hide QueueOk, HeldOk, Ready;
    if a.Enqueue? {
      Enqueued(w, a.pid, a.op);
      hide EnqueueStep;
    } else if !a.Tick? {
      StepMoves(w, a, v);
      Unnested(w, a.t);
      hide LockOk, AgesOk, Moves;
      if a.Start? {
        Startable(w, a.t);
      }
      AgeStep(w, a, v);
      AgesMove(w, a.t, v);
    }
  }

  lemma StepData(w: World, a: Action, v: World, start: Disk)
    requires QueueOk(w) && HeldOk(w) && LockOk(w) && DataOk(w, start) && Do(w, a) == Some(v)
    ensures DataOk(v, start)
  {
    StepFile(w, a, v, start);
    StepCarried(w, a, v);
  }

  lemma StepFile(w: World, a: Action, v: World, start: Disk)
    requires DataOk(w, start) && Do(w, a) == Some(v)
    ensures v.file == Fold(start, v.commits)
  {
    hide Apply, Fold, Do;
    if a.Rename? {
      RenameFile(w, a.t, v);
      FoldStep(start, w.commits, v.commits[|v.commits| - 1]);
    } else {
      FileStays(w, a, v);
    }
  }

  lemma RenameFile(w: World, t: TaskId, v: World)
    requires CarriedOk(w) && Do(w, Rename(t)) == Some(v)
    ensures t in w.tasks && v.commits == w.commits + [Commit(t, w.tasks[t].op)]
    ensures v.file == Object(Apply(w.tasks[t].op, Content(w.file)))
  {
    hide Apply, Content;
  }

  lemma FileStays(w: World, a: Action, v: World)
    requires Do(w, a) == Some(v) && !a.Rename?
    ensures v.file == w.file && v.commits == w.commits
  {
    hide Apply, Ready;
  }

  // What a step does to data on its way and to the file.
  ghost predicate CarryMoves(w: World, t: TaskId, v: World)
    requires t in w.tasks && t in v.tasks
  {
    var before, after := w.tasks[t].phase, v.tasks[t].phase;
    && (v.file == w.file || before.Renaming?)
    && (Carries(after) ==>
          && v.file == w.file
          && (|| (Carries(before) && after.data == before.data)
              || (before.Loading? && !w.file.Damaged? && after.data == Apply(w.tasks[t].op, Content(w.file)))))
  }

  lemma CarryStep(w: World, a: Action, v: World)
    requires Do(w, a) == Some(v) && !a.Tick? && !a.Enqueue? && Moves(w, a.t, v) && !w.tasks[a.t].nested
    requires a.Start? ==> StartStep(w, a.t) == To(w, a.t, Opening)
    ensures CarryMoves(w, a.t, v)
  {
    hide Ready, Apply, StartStep, OpenStep, ReadStep, StatStep, JudgeStep, StampStep, StampFailsStep, ReleaseStep;
    LockSteps(w, a.t);
    SameFile(w, a.t);
  }

  lemma SameFile(w: World, t: TaskId)
    requires t in w.tasks && !w.tasks[t].nested
    ensures OpenStep(w, t).file == ReadStep(w, t).file == StampStep(w, t).file == w.file
    ensures forall c :: StatStep(w, t, c).file == JudgeStep(w, t, c).file == w.file
    ensures forall written, unlinked :: StampFailsStep(w, t, written, unlinked).file == w.file
    ensures forall ok, unlinked :: ReleaseStep(w, t, ok, unlinked).file == w.file
    ensures forall ok, unlinked :: ReleaseStep(w, t, ok, unlinked).tasks[t].phase.Settled?
    ensures var phase := ReadStep(w, t).tasks[t].phase; phase.Aging? || phase.Waiting?
    ensures forall c :: var phase := StatStep(w, t, c).tasks[t].phase; phase.Judging? || phase.Waiting?
    ensures forall c :: var phase := JudgeStep(w, t, c).tasks[t].phase; phase.Stealing? || phase.Waiting?
  {
  }

  lemma OnlyHolder(w: World, t: TaskId, u: TaskId)
    requires LockOk(w) && t in w.tasks && u in w.tasks && Holds(w.tasks[t].phase) && Holds(w.tasks[u].phase)
    ensures t == u
  {
  }

  lemma CarryMove(w: World, t: TaskId, v: World)
    requires LockOk(w) && CarriedOk(w) && Moves(w, t, v) && CarryMoves(w, t, v)
    ensures CarriedOk(v)
  {
    hide Ready, Apply, Content, LockOk;
    MovesOne(w, t, v);
    forall u | u in v.tasks && Carries(v.tasks[u].phase)
      ensures !v.file.Damaged? && v.tasks[u].phase.data == Apply(v.tasks[u].op, Content(v.file))
    {
      if w.tasks[t].phase.Renaming? && Carries(w.tasks[u].phase) {
        OnlyHolder(w, t, u);
      }
    }
  }

  lemma StepCarried(w: World, a: Action, v: World)
    requires QueueOk(w) && HeldOk(w) && LockOk(w) && CarriedOk(w) && Do(w, a) == Some(v)
    ensures CarriedOk(v)
  {
    hide QueueOk, HeldOk, Ready, Apply, Content;
    if a.Enqueue? {
      Enqueued(w, a.pid, a.op);
      assert v.file == w.file;
      hide EnqueueStep;
    } else if !a.Tick? {
      StepMoves(w, a, v);
      Unnested(w, a.t);
      hide LockOk, CarriedOk, Moves;
      if a.Start? {
        Startable(w, a.t);
      }
      CarryStep(w, a, v);
      CarryMove(w, a.t, v);
    }
  }

  lemma FoldStep(start: Disk, commits: seq<Commit>, c: Commit)
    ensures Fold(start, commits + [c]) == Object(Apply(c.op, Content(Fold(start, commits))))
  {
    hide Apply;
    assert (commits + [c])[..|commits|] == commits;
  }

  lemma StepFifo(w: World, a: Action, v: World)
    requires QueueOk(w) && HeldOk(w) && FifoOk(w) && Do(w, a) == Some(v)
    ensures FifoOk(v)
  {
    if a.Rename? {
      RenameCommits(w, a, v);
    } else {
      NothingCommitted(w, a, v);
    }
  }

  lemma RenameCommits(w: World, a: Action, v: World)
    requires QueueOk(w) && FifoOk(w) && a.Rename? && Do(w, a) == Some(v)
    ensures FifoOk(v)
  {
    hide Apply, Fold, Content, QueueOk, Ready, FifoOk;
    assert a.t in w.tasks && w.tasks[a.t].phase.Renaming? && v == RenameStep(w, a.t, w.tasks[a.t].phase.data);
    hide Do;
    RenameFifo(w, a.t, w.tasks[a.t].phase.data);
  }

  lemma RenameFifo(w: World, t: TaskId, data: Store)
    requires QueueOk(w) && FifoOk(w) && t in w.tasks && w.tasks[t].phase.Renaming?
    ensures FifoOk(RenameStep(w, t, data))
  {
    hide QueueOk, Committed;
    var v := RenameStep(w, t, data);
    forall i | 0 <= i < |w.commits| && w.commits[i].id.pid == t.pid
      ensures w.commits[i].id.index < t.index
    {
      DoneBefore(w, t, w.commits[i].id);
    }
    CommittedSnoc(w.commits, Commit(t, w.tasks[t].op));
  }

  lemma CommittedSnoc(commits: seq<Commit>, c: Commit)
    ensures forall t :: Committed(commits + [c], t) <==> Committed(commits, t) || t == c.id
  {
    var longer := commits + [c];
    assert longer[|commits|] == c;
    forall t | Committed(commits, t)
      ensures Committed(longer, t)
    {
      var i :| 0 <= i < |commits| && commits[i].id == t;
      assert longer[i].id == t;
    }
  }

  lemma DoneBefore(w: World, t: TaskId, u: TaskId)
    requires QueueOk(w) && t in w.tasks && u in w.tasks && t.pid == u.pid
    requires w.tasks[t].phase.Renaming? && Done(w.tasks[u].phase)
    ensures u.index < t.index
  {
    hide Ready, ChainOk;
    if t != u {
      OneAtATime(w, t, u);
    }
  }

  // What a step that commits nothing does to a task's being done.
  lemma DoneStep(w: World, a: Action, v: World)
    requires Do(w, a) == Some(v) && !a.Tick? && !a.Enqueue? && !a.Rename?
    requires Moves(w, a.t, v) && !w.tasks[a.t].nested
    ensures v.commits == w.commits
    ensures var before, after := w.tasks[a.t].phase, v.tasks[a.t].phase;
            && (Done(before) ==> Done(after))
            && (after == Releasing(true) || after == Settled(true) ==> before == Releasing(true))
  {
    hide Ready, Apply;
  }

  lemma FifoMoves(w: World, t: TaskId, v: World)
    requires FifoOk(w) && Moves(w, t, v) && v.commits == w.commits
    requires var before, after := w.tasks[t].phase, v.tasks[t].phase;
             && (Done(before) ==> Done(after))
             && (after == Releasing(true) || after == Settled(true) ==> before == Releasing(true))
    ensures FifoOk(v)
  {
    hide Ready, Committed, Done;
  }

  lemma NothingCommitted(w: World, a: Action, v: World)
    requires QueueOk(w) && HeldOk(w) && FifoOk(w) && !a.Rename? && Do(w, a) == Some(v)
    ensures FifoOk(v)
  {
    hide QueueOk, HeldOk, Ready, Committed;
    if a.Enqueue? {
      Enqueued(w, a.pid, a.op);
      assert v.commits == w.commits;
      hide EnqueueStep;
    } else if !a.Tick? {
      StepMoves(w, a, v);
      Unnested(w, a.t);
      hide FifoOk, Moves;
      DoneStep(w, a, v);
      FifoMoves(w, a.t, v);
    }
  }

  lemma InitialInv(w: World)
    requires Initial(w)
    ensures Inv(w, w.file)
  {
  }

  lemma StepKeeps(w: World, a: Action, v: World, start: Disk)
    requires Inv(w, start) && Harmless(w, a) && Do(w, a) == Some(v)
    ensures Inv(v, start)
  {
    hide Do, QueueOk, HeldOk, LockOk, ThievesOk, AgesOk, DataOk, FifoOk, Harmless;
    StepQueue(w, a, v);
    StepHeld(w, a, v);
    StepLock(w, a, v);
    StepThieves(w, a, v);
    StepAges(w, a, v);
    StepData(w, a, v, start);
    StepFifo(w, a, v);
  }

  lemma CarefulBefore(w: World, actions: seq<Action>)
    requires Careful(w, actions) && actions != [] && Run(w, actions).Some?
    ensures var init := actions[..|actions| - 1];
            && Careful(w, init) && Run(w, init).Some?
            && Harmless(Run(w, init).value, actions[|actions| - 1])
  {
    hide Do, Harmless;
    var init := actions[..|actions| - 1];
    forall n | 0 <= n < |init| && Run(w, init[..n]).Some?
      ensures Harmless(Run(w, init[..n]).value, init[n])
    {
      assert init[..n] == actions[..n];
    }
  }

  lemma {:induction false} RunKeeps(w: World, start: Disk, actions: seq<Action>)
    requires Inv(w, start) && Careful(w, actions) && Run(w, actions).Some?
    ensures Inv(Run(w, actions).value, start)
  {
    hide Do, Inv, Careful, Harmless;
    if actions != [] {
      CarefulBefore(w, actions);
      var init := actions[..|actions| - 1];
      RunKeeps(w, start, init);
      StepKeeps(Run(w, init).value, actions[|actions| - 1], Run(w, actions).value, start);
    }
  }

  // From nothing enqueued, the invariants hold whenever no lock is found stale wrongly.
  lemma CarefulRunKeeps(w: World, actions: seq<Action>)
    requires Initial(w) && Careful(w, actions) && Run(w, actions).Some?
    ensures Inv(Run(w, actions).value, w.file)
  {
    hide Run, Inv, Careful, Initial;
    InitialInv(w);
    RunKeeps(w, w.file, actions);
  }

  // ----- The main results -----

  // At most one task, of all processes, is ever between creating the lock and having removed it.
  lemma MutualExclusion(w: World, actions: seq<Action>, t: TaskId, u: TaskId)
    requires Initial(w) && Careful(w, actions) && Run(w, actions).Some?
    requires var v := Run(w, actions).value;
             t in v.tasks && u in v.tasks && Holds(v.tasks[t].phase) && Holds(v.tasks[u].phase)
    ensures t == u
  {
    hide Run, Careful, QueueOk, HeldOk, ThievesOk, AgesOk, DataOk, FifoOk, Initial;
    CarefulRunKeeps(w, actions);
  }

  // No task of the queue enters by the reentrant path, since the queue keeps two tasks of one process
  // from meeting inside the lock; and no write inside the lock waits for it again.
  lemma NeverReentrant(w: World, actions: seq<Action>, t: TaskId)
    requires Initial(w) && Careful(w, actions) && Run(w, actions).Some? && t in Run(w, actions).value.tasks
    ensures var task := Run(w, actions).value.tasks[t]; !task.nested && !task.phase.Blocked?
  {
    hide Run, Careful, QueueOk, LockOk, ThievesOk, AgesOk, DataOk, FifoOk, Initial;
    CarefulRunKeeps(w, actions);
  }

  predicate WritesFile(a: Action) { a.Enter? || a.WriteTemp? || a.Sync? || a.Rename? }

  // The write of a task runs under the lock that the task itself took: the inner acquisition neither
  // waits nor takes nor gives back anything, up to and including the rename.
  lemma WritesUnderOwnLock(w: World, actions: seq<Action>, a: Action, u: World)
    requires Initial(w) && Careful(w, actions) && Run(w, actions).Some?
    requires WritesFile(a) && Do(Run(w, actions).value, a) == Some(u)
    ensures var v := Run(w, actions).value;
            && a.t.pid in v.held && v.lock.Some? && v.lock.value.creator == a.t
            && u.held == v.held && u.lock == v.lock
            && a.t in u.tasks && InSection(u.tasks[a.t].phase) && !u.tasks[a.t].phase.Blocked?
  {
    hide Run, Careful, QueueOk, ThievesOk, AgesOk, DataOk, FifoOk, Initial, Do;
    CarefulRunKeeps(w, actions);
    WriteStep(Run(w, actions).value, a, u);
  }

  lemma WriteStep(v: World, a: Action, u: World)
    requires WritesFile(a) && Do(v, a) == Some(u)
    ensures a.t in v.tasks && Carries(v.tasks[a.t].phase)
    ensures u.held == v.held && u.lock == v.lock && a.t in u.tasks
    ensures InSection(u.tasks[a.t].phase) && (a.t.pid in v.held ==> !u.tasks[a.t].phase.Blocked?)
  {
    hide Apply, Ready;
  }

  // No update is lost: at every moment the stored object, as any reader would see it, is the
  // fold of all committed operations in commit order.
  lemma NoLostUpdates(w: World, actions: seq<Action>)
    requires Initial(w) && Careful(w, actions) && Run(w, actions).Some?
    ensures var v := Run(w, actions).value; v.file == Fold(w.file, v.commits)
  {
    hide Run, Careful, QueueOk, HeldOk, LockOk, ThievesOk, AgesOk, FifoOk, Initial;
    CarefulRunKeeps(w, actions);
  }

  // The commits of one process are operations it enqueued, in the order it enqueued them, none
  // twice: when the later one was committed, the earlier task had settled.
  lemma CommitsAreFifo(w: World, actions: seq<Action>, i: nat, j: nat)
    requires Initial(w) && Careful(w, actions) && Run(w, actions).Some?
    requires i < j < |Run(w, actions).value.commits|
    requires Run(w, actions).value.commits[i].id.pid == Run(w, actions).value.commits[j].id.pid
    ensures var v := Run(w, actions).value;
            var a, b := v.commits[i], v.commits[j];
            && a.id in v.tasks && b.id in v.tasks
            && v.tasks[a.id].op == a.op && v.tasks[b.id].op == b.op
            && a.id.index < b.id.index && v.tasks[a.id].phase.Settled?
  {
    hide Run, Careful, HeldOk, LockOk, ThievesOk, AgesOk, DataOk, Initial;
    CarefulRunKeeps(w, actions);
    var v := Run(w, actions).value;
    hide FifoOk, QueueOk;
    FifoPair(v, i, j);
  }

  lemma FifoPair(v: World, i: nat, j: nat)
    requires QueueOk(v) && FifoOk(v) && i < j < |v.commits| && v.commits[i].id.pid == v.commits[j].id.pid
    ensures var a, b := v.commits[i], v.commits[j];
            && a.id in v.tasks && b.id in v.tasks
            && v.tasks[a.id].op == a.op && v.tasks[b.id].op == b.op
            && a.id.index < b.id.index && v.tasks[a.id].phase.Settled?
  {
    hide Ready, Committed, NumbersOk;
    var t, u := v.commits[j].id, v.commits[i].id;
    assert !v.tasks[t].phase.Idle? && Ready(v, t);
    hide ChainOk;
    EarlierSettled(v, t, u);
  }

  // A `set` or `delete` whose promise has resolved is in the file's history, exactly once.
  lemma ResolvedIsCommitted(w: World, actions: seq<Action>, t: TaskId) returns (i: nat)
    requires Initial(w) && Careful(w, actions) && Run(w, actions).Some?
    requires t in Run(w, actions).value.tasks && Run(w, actions).value.tasks[t].phase == Settled(true)
    ensures var v := Run(w, actions).value;
            && i < |v.commits| && v.commits[i] == Commit(t, v.tasks[t].op)
            && forall j :: 0 <= j < |v.commits| && v.commits[j].id == t ==> j == i
  {
    hide Run, Careful, QueueOk, HeldOk, LockOk, ThievesOk, AgesOk, DataOk, Initial;
    CarefulRunKeeps(w, actions);
    var v := Run(w, actions).value;
    i :| 0 <= i < |v.commits| && v.commits[i].id == t;
  }

  // A file that is no object is never overwritten.
  lemma {:induction false} DamagedStays(w: World, actions: seq<Action>)
    requires Initial(w) && Careful(w, actions) && Run(w, actions).Some? && w.file.Damaged?
    ensures Run(w, actions).value.file.Damaged?
  {
    hide Do, Inv, Initial, Careful, Harmless;
    if actions != [] {
      CarefulBefore(w, actions);
      var init := actions[..|actions| - 1];
      DamagedStays(w, init);
      CarefulRunKeeps(w, init);
      DamagedStep(Run(w, init).value, actions[|actions| - 1], Run(w, actions).value, w.file);
    }
  }

  lemma DamagedStep(w: World, a: Action, v: World, start: Disk)
    requires Inv(w, start) && w.file.Damaged? && Do(w, a) == Some(v)
    ensures v.file.Damaged?
  {
    hide Fold, Apply, QueueOk, HeldOk, LockOk, ThievesOk, AgesOk, FifoOk;
  }
}
