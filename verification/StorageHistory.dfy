/**
  What the stored object holds, key by key, in terms of the committed operations; what becomes of the
  lock file; and that a task whose turn it is can go through with its operation.
 */
module StorageHistory {
  import T = Text
  import opened StorageLock

  // A reader of the file finds this value under the key; a file that is not an object holds nothing.
  predicate Has(d: Disk, key: string, value: string) { d.Object? && key in d.m && d.m[key] == value }

  predicate Lacks(d: Disk, key: string) { d.Object? && key !in d.m }

  // The file shows the effect of the operation on its key.
  predicate Shows(d: Disk, op: Op) {
    match op
    case Put(k, x) => Has(d, k, x)
    case Remove(k) => Lacks(d, k)
  }

  // The operation is the last one that names its key.
  ghost predicate LastOn(commits: seq<Commit>, i: nat) {
    i < |commits| && forall j :: i < j < |commits| ==> commits[j].op.key != commits[i].op.key
  }

  ghost predicate Unnamed(commits: seq<Commit>, key: string) {
    forall i :: 0 <= i < |commits| ==> commits[i].op.key != key
  }

  // One operation on an object: its own key changes, every other key stays as it is.
  lemma ApplyIsLocal(op: Op, m: Store)
    ensures forall k :: k != op.key ==> (k in Apply(op, m) <==> k in m) && (k in m ==> Apply(op, m)[k] == m[k])
    ensures match op case Put(k, x) => k in Apply(op, m) && Apply(op, m)[k] == x case Remove(k) => k !in Apply(op, m)
  {
  }

  lemma {:induction false} FoldHolds(start: Disk, commits: seq<Commit>, key: string)
    ensures commits != [] ==> Fold(start, commits).Object?
    ensures Unnamed(commits, key) ==>
              (key in Content(Fold(start, commits)) <==> key in Content(start)) &&
              (key in Content(start) ==> Content(Fold(start, commits))[key] == Content(start)[key])
    ensures forall i: nat :: LastOn(commits, i) && commits[i].op.key == key ==> Shows(Fold(start, commits), commits[i].op)
  {
    if commits != [] {
      var init, last := commits[..|commits| - 1], commits[|commits| - 1];
      FoldHolds(start, init, key);
      ApplyIsLocal(last.op, Content(Fold(start, init)));
      assert Fold(start, commits) == Object(Apply(last.op, Content(Fold(start, init))));
      hide Apply, Fold;
      forall i: nat | LastOn(commits, i) && commits[i].op.key == key
        ensures Shows(Fold(start, commits), commits[i].op)
      {
        if i < |init| {
          assert LastOn(init, i) && init[i] == commits[i] && last.op.key != key;
        }
      }
      if Unnamed(commits, key) {
        assert Unnamed(init, key) && last.op.key != key;
      }
    }
  }

  // At every moment of a run, each key holds what the last committed operation on it says, and what
  // it held at the start if no committed operation names it.
  lemma StoredIsLast(w: World, actions: seq<Action>, key: string)
    requires Initial(w) && Careful(w, actions) && Run(w, actions).Some?
    ensures var v := Run(w, actions).value;
            forall i: nat :: LastOn(v.commits, i) && v.commits[i].op.key == key ==> Shows(v.file, v.commits[i].op)
    ensures var v := Run(w, actions).value;
            Unnamed(v.commits, key) ==> forall x :: Has(v.file, key, x) <==> Has(w.file, key, x)
  {
    hide Run, Careful, Initial, Fold;
    NoLostUpdates(w, actions);
    FoldHolds(w.file, Run(w, actions).value.commits, key);
    NothingFolded(w.file);
    if Unnamed(Run(w, actions).value.commits, key) {
      hide Unnamed;
    }
  }

  lemma NothingFolded(start: Disk)
    ensures Fold(start, []) == start
  {
  }

  // The rename of a task commits its operation: the key it names changes, every other key keeps its
  // presence and its value, and nothing else ever changes the file.
  lemma RenameIsLocal(w: World, actions: seq<Action>, a: Action, u: World)
    requires Initial(w) && Careful(w, actions) && Run(w, actions).Some? && Do(Run(w, actions).value, a) == T.Some(u)
    ensures var v := Run(w, actions).value;
            if !a.Rename? then u.file == v.file && u.commits == v.commits
            else
              && a.t in v.tasks && u.commits == v.commits + [Commit(a.t, v.tasks[a.t].op)]
              && Shows(u.file, v.tasks[a.t].op)
              && forall k, x :: k != v.tasks[a.t].op.key ==> (Has(u.file, k, x) <==> Has(v.file, k, x))
  {
    hide Run, Careful, Initial, Do, QueueOk, HeldOk, LockOk, ThievesOk, AgesOk, FifoOk, Apply, Fold;
    CarefulRunKeeps(w, actions);
    var v := Run(w, actions).value;
    if a.Rename? {
      RenameFile(v, a.t, u);
      ApplyIsLocal(v.tasks[a.t].op, Content(v.file));
    } else {
      FileStays(v, a, u);
    }
  }

  // ----- The lock file -----

  // What a step does to the lock file, and how the promise of a task ends that gives it back: only a
  // release that removes the file lets a promise resolve.
  ghost predicate LockMoves(v: World, a: Action, u: World) {
    match a
    case Open(t) => u.lock == if v.lock.Some? then v.lock else T.Some(Lock(t, false, v.now))
    case Stamp(t) => u.lock == T.Some(Lock(t, true, v.now)) && t.pid in u.held
    case StampFails(t, written, unlinked) =>
      && t in u.tasks && u.tasks[t].phase == Settled(false) && u.held == v.held
      && if unlinked then u.lock.None?
         else u.lock.Some? && u.lock.value.creator == t && u.lock.value.stamped == written
    case Steal(_) => u.lock.None?
    case Release(t) =>
      && t in u.tasks && t in v.tasks && v.tasks[t].phase.Releasing?
      && u.tasks[t].phase == Settled(v.tasks[t].phase.ok) && u.lock.None? && t.pid !in u.held
    case ReleaseFails(t) => t in u.tasks && u.lock == v.lock && t.pid !in u.held && u.tasks[t].phase == Settled(false)
    case _ => u.lock == v.lock && u.held == v.held
  }

  lemma LockStep(v: World, a: Action, u: World)
    requires HeldOk(v) && LockOk(v) && Do(v, a) == T.Some(u)
    ensures LockMoves(v, a, u)
  {
  }

  // In a careful run the lock is created by the task that finds none, stamped by the task that created
  // it, and removed only with its release, after a failed stamp, or as a stale one.
  lemma LockIsGivenBack(w: World, actions: seq<Action>, a: Action, u: World)
    requires Initial(w) && Careful(w, actions) && Run(w, actions).Some? && Do(Run(w, actions).value, a) == T.Some(u)
    ensures LockMoves(Run(w, actions).value, a, u)
  {
    hide Run, Careful, Initial, Do, QueueOk, HeldOk, LockOk, ThievesOk, AgesOk, FifoOk, LockMoves;
    CarefulRunKeeps(w, actions);
    LockStep(Run(w, actions).value, a, u);
  }

  // ----- What a task can do -----

  // A careful run that ends with this state.
  ghost predicate Reaches(w: World, actions: seq<Action>, v: World) { Careful(w, actions) && Run(w, actions) == T.Some(v) }

  lemma GoesOn(w: World, actions: seq<Action>, v: World, a: Action, u: World)
    requires Reaches(w, actions, v) && Do(v, a) == T.Some(u) && !a.Judge?
    ensures Reaches(w, actions + [a], u)
  {
    hide Do;
    var longer := actions + [a];
    assert longer[..|actions|] == actions;
    forall n | 0 <= n < |longer| && Run(w, longer[..n]).Some?
      ensures Harmless(Run(w, longer[..n]).value, longer[n])
    {
      hide Run;
      if n < |actions| {
        assert longer[..n] == actions[..n];
      } else {
        assert longer[n] == a;
      }
    }
  }

  // From one state to the next, for a task that goes from one phase to another and keeps the rest.
  ghost predicate Moves(v: World, a: Action, u: World, p: Phase, q: Phase) {
    && !a.Tick? && !a.Enqueue? && a.t in v.tasks && a.t in u.tasks && Do(v, a) == T.Some(u)
    && v.tasks[a.t].phase == p && u.tasks[a.t] == v.tasks[a.t].(phase := q)
  }

  lemma Takes(v: World, t: TaskId) returns (u: World)
    requires t in v.tasks && v.tasks[t].phase == Opening && v.lock.None?
    ensures Moves(v, Open(t), u, Opening, Stamping)
    ensures u.lock == T.Some(Lock(t, false, v.now)) && u.held == v.held && u.file == v.file && u.commits == v.commits
  {
    u := OpenStep(v, t);
  }

  lemma Stamps(v: World, t: TaskId) returns (u: World)
    requires t in v.tasks && v.tasks[t].phase == Stamping
    ensures Moves(v, Stamp(t), u, Stamping, Loading)
    ensures t.pid in u.held && u.file == v.file && u.commits == v.commits
  {
    u := StampStep(v, t);
  }

  lemma Loads(v: World, t: TaskId) returns (u: World, data: Store)
    requires t in v.tasks && v.tasks[t].phase == Loading && !v.file.Damaged?
    ensures Moves(v, Load(t), u, Loading, Entering(data)) && Shows(Object(data), v.tasks[t].op)
    ensures u.held == v.held && u.commits == v.commits
  {
    var content := if v.file.Object? then v.file.m else map[];
    data := Apply(v.tasks[t].op, content);
    ApplyIsLocal(v.tasks[t].op, content);
    u := To(v, t, Entering(data));
  }

  lemma Enters(v: World, t: TaskId, data: Store) returns (u: World)
    requires t in v.tasks && v.tasks[t].phase == Entering(data) && t.pid in v.held
    ensures Moves(v, Enter(t), u, Entering(data), Writing(data)) && u.commits == v.commits
  {
    u := EnterStep(v, t, data);
  }

  lemma Writes(v: World, t: TaskId, data: Store) returns (u: World)
    requires t in v.tasks && v.tasks[t].phase == Writing(data)
    ensures Moves(v, WriteTemp(t), u, Writing(data), Syncing(data)) && u.commits == v.commits
  {
    u := To(v, t, Syncing(data));
  }

  lemma Syncs(v: World, t: TaskId, data: Store) returns (u: World)
    requires t in v.tasks && v.tasks[t].phase == Syncing(data)
    ensures Moves(v, Sync(t), u, Syncing(data), Renaming(data)) && u.commits == v.commits
  {
    u := To(v, t, Renaming(data));
  }

  lemma Renames(v: World, t: TaskId, data: Store) returns (u: World)
    requires t in v.tasks && v.tasks[t].phase == Renaming(data)
    ensures Moves(v, Rename(t), u, Renaming(data), Releasing(true))
    ensures u.file == Object(data) && u.commits == v.commits + [Commit(t, v.tasks[t].op)]
  {
    u := RenameStep(v, t, data);
  }

  lemma Releases(v: World, t: TaskId, ok: bool) returns (u: World)
    requires t in v.tasks && v.tasks[t].phase == Releasing(ok) && !v.tasks[t].nested
    ensures Moves(v, Release(t), u, Releasing(ok), Settled(ok))
    ensures u.file == v.file && u.commits == v.commits && u.lock.None? && t.pid !in u.held
  {
    u := ReleaseStep(v, t, ok, true);
  }

  // Where no lock is, nobody is in the section.
  lemma NobodyHolds(v: World, pid: Pid)
    requires HeldOk(v) && LockOk(v) && v.lock.None?
    ensures pid !in v.held
  {
  }

  lemma Starts(v: World, t: TaskId) returns (u: World)
    requires t in v.tasks && v.tasks[t].phase == Idle && Ready(v, t) && t.pid !in v.held
    ensures Moves(v, Start(t), u, Idle, Opening)
    ensures u.lock == v.lock && u.file == v.file && u.commits == v.commits
  {
    u := StartStep(v, t);
  }

  // From the lock in hand to the promise resolved.
  lemma SectionSucceeds(w: World, actions: seq<Action>, v: World, t: TaskId) returns (u: World)
    requires Reaches(w, actions, v) && t in v.tasks && v.tasks[t].phase == Stamping && !v.tasks[t].nested && !v.file.Damaged?
    ensures Reaches(w, actions + [Stamp(t)] + [Load(t)] + [Enter(t)] + [WriteTemp(t)] + [Sync(t)] + [Rename(t)] + [Release(t)], u)
    ensures t in u.tasks && u.tasks[t].phase == Settled(true) && u.lock.None? && t.pid !in u.held
    ensures Shows(u.file, v.tasks[t].op) && u.commits == v.commits + [Commit(t, v.tasks[t].op)]
  {
    hide Reaches, Do, Shows;
    var v1 := Stamps(v, t);
    GoesOn(w, actions, v, Stamp(t), v1);
    var v2, data := Loads(v1, t);
    GoesOn(w, actions + [Stamp(t)], v1, Load(t), v2);
    var v3 := Enters(v2, t, data);
    GoesOn(w, actions + [Stamp(t)] + [Load(t)], v2, Enter(t), v3);
    var v4 := Writes(v3, t, data);
    GoesOn(w, actions + [Stamp(t)] + [Load(t)] + [Enter(t)], v3, WriteTemp(t), v4);
    var v5 := Syncs(v4, t, data);
    GoesOn(w, actions + [Stamp(t)] + [Load(t)] + [Enter(t)] + [WriteTemp(t)], v4, Sync(t), v5);
    var v6 := Renames(v5, t, data);
    GoesOn(w, actions + [Stamp(t)] + [Load(t)] + [Enter(t)] + [WriteTemp(t)] + [Sync(t)], v5, Rename(t), v6);
    u := Releases(v6, t, true);
    GoesOn(w, actions + [Stamp(t)] + [Load(t)] + [Enter(t)] + [WriteTemp(t)] + [Sync(t)] + [Rename(t)], v6, Release(t), u);
  }

  // In every state of a careful run, a task whose turn it is and that finds no lock can go through all
  // its steps: then its promise has resolved, the file shows its operation, and the lock is gone.
  lemma WriteSucceeds(w: World, actions: seq<Action>, t: TaskId) returns (u: World)
    requires Initial(w) && Careful(w, actions) && Run(w, actions).Some?
    requires var v := Run(w, actions).value;
             t in v.tasks && v.tasks[t].phase == Idle && Ready(v, t) && v.lock.None? && !v.file.Damaged?
    ensures Reaches(w, actions + [Start(t)] + [Open(t)] + [Stamp(t)] + [Load(t)] + [Enter(t)] + [WriteTemp(t)] + [Sync(t)] + [Rename(t)] + [Release(t)], u)
    ensures var op := Run(w, actions).value.tasks[t].op;
            && t in u.tasks && u.tasks[t].phase == Settled(true) && u.lock.None? && t.pid !in u.held
            && Shows(u.file, op) && u.commits == Run(w, actions).value.commits + [Commit(t, op)]
  {
    var v := Run(w, actions).value;
    assert Reaches(w, actions, v);
    hide Run, Careful, Initial, Do, QueueOk, HeldOk, LockOk, ThievesOk, AgesOk, FifoOk, Reaches, Shows, Ready;
    CarefulRunKeeps(w, actions);
    NobodyHolds(v, t.pid);
    NotNested(v, t);
    var v1 := Starts(v, t);
    GoesOn(w, actions, v, Start(t), v1);
    var v2 := Takes(v1, t);
    GoesOn(w, actions + [Start(t)], v1, Open(t), v2);
    u := SectionSucceeds(w, actions + [Start(t)] + [Open(t)], v2, t);
  }

  lemma NotNested(v: World, t: TaskId)
    requires HeldOk(v) && t in v.tasks
    ensures !v.tasks[t].nested
  {
  }

  lemma Rejects(v: World, t: TaskId) returns (u: World)
    requires t in v.tasks && InSection(v.tasks[t].phase) && !v.tasks[t].phase.Releasing?
    ensures Moves(v, Fails(t), u, v.tasks[t].phase, Releasing(false))
    ensures u.lock == v.lock && u.file == v.file && u.commits == v.commits
  {
    u := To(v, t, Releasing(false));
  }

  // A failure inside the section, at any point up to the rename: the lock is given back, the promise
  // rejects, and the file is what it was.
  lemma FailureIsClean(w: World, actions: seq<Action>, t: TaskId) returns (u: World)
    requires Initial(w) && Careful(w, actions) && Run(w, actions).Some?
    requires var v := Run(w, actions).value;
             t in v.tasks && InSection(v.tasks[t].phase) && !v.tasks[t].phase.Releasing?
    ensures Reaches(w, actions + [Fails(t)] + [Release(t)], u)
    ensures t in u.tasks && u.tasks[t].phase == Settled(false) && u.lock.None? && t.pid !in u.held
    ensures u.file == Run(w, actions).value.file && u.commits == Run(w, actions).value.commits
  {
    var v := Run(w, actions).value;
    assert Reaches(w, actions, v);
    hide Run, Careful, Initial, QueueOk, HeldOk, LockOk, ThievesOk, AgesOk, FifoOk, Reaches;
    CarefulRunKeeps(w, actions);
    NotNested(v, t);
    hide Do, InSection;
    var v1 := Rejects(v, t);
    GoesOn(w, actions, v, Fails(t), v1);
    u := Releases(v1, t, false);
    GoesOn(w, actions + [Fails(t)], v1, Release(t), u);
  }

  // A task that found a lock which is there for good can try again, or give up.
  lemma WaiterIsFree(v: World, t: TaskId)
    requires t in v.tasks && v.tasks[t].phase == Waiting
    ensures Moves(v, Retry(t), To(v, t, Opening), Waiting, Opening)
    ensures Moves(v, GiveUp(t), To(v, t, Settled(false)), Waiting, Settled(false))
  {
  }
}
