/**
  Verdicts on the age of a lock file: which of them are harmless, and a run in which one is not.
 */
module StorageVerdicts {
  import T = Text
  import opened StorageLock

  // ----- When a verdict is harmless -----

  ghost predicate Exclusive(w: World) {
    forall t, u :: t in w.tasks && u in w.tasks && Holds(w.tasks[t].phase) && Holds(w.tasks[u].phase) ==> t == u
  }

  ghost predicate StaysExclusive(w: World) {
    forall more :: Careful(w, more) && Run(w, more).Some? ==> Exclusive(Run(w, more).value)
  }

  // Verdicts that come soon enough after the creation of the lock that was read are never late: the
  // modification time that is looked up may be that of a newer lock, but not of an older one.
  lemma {:induction false} PromptIsCareful(w: World, actions: seq<Action>)
    requires Initial(w) && Prompted(w, actions)
    ensures Careful(w, actions)
  {
    hide Do, Inv, Initial, Harmless, Prompt;
    if actions != [] {
      var init, last := actions[..|actions| - 1], actions[|actions| - 1];
      PromptBefore(w, actions);
      PromptIsCareful(w, init);
      if Run(w, init).Some? {
        CarefulRunKeeps(w, init);
        PromptStep(Run(w, init).value, last, w.file);
      }
      CarefulSnoc(w, init, last);
      assert actions == init + [last];
    }
  }

  lemma PromptBefore(w: World, actions: seq<Action>)
    requires Prompted(w, actions) && actions != []
    ensures var init := actions[..|actions| - 1];
            Prompted(w, init) && (Run(w, init).Some? ==> Prompt(Run(w, init).value, actions[|actions| - 1]))
  {
    hide Do, Prompt;
    var init := actions[..|actions| - 1];
    forall n | 0 <= n < |init| && Run(w, init[..n]).Some?
      ensures Prompt(Run(w, init[..n]).value, init[n])
    {
      assert init[..n] == actions[..n];
    }
  }

  lemma PromptStep(w: World, a: Action, start: Disk)
    requires Inv(w, start) && Prompt(w, a)
    ensures Harmless(w, a)
  {
    hide QueueOk, HeldOk, LockOk, ThievesOk, DataOk, FifoOk;
  }

  lemma CarefulSnoc(w: World, actions: seq<Action>, a: Action)
    requires Careful(w, actions) && (Run(w, actions).Some? ==> Harmless(Run(w, actions).value, a))
    ensures Careful(w, actions + [a])
  {
    hide Do, Harmless;
    var longer := actions + [a];
    forall n | 0 <= n < |longer| && Run(w, longer[..n]).Some?
      ensures Harmless(Run(w, longer[..n]).value, longer[n])
    {
      if n < |actions| {
        assert longer[..n] == actions[..n];
      } else {
        assert longer[..n] == actions;
      }
    }
  }

  lemma {:induction false} RunAppend(w: World, first: seq<Action>, second: seq<Action>)
    requires Run(w, first).Some?
    ensures Run(w, first + second) == Run(Run(w, first).value, second)
  {
    hide Do;
    if second == [] {
      assert first + second == first;
    } else {
      var init := second[..|second| - 1];
      RunAppend(w, first, init);
      assert (first + second)[..|first + second| - 1] == first + init;
    }
  }

  lemma RunThree(w: World, a: Action, x: World, b: Action, y: World, c: Action, z: World)
    requires Do(w, a) == T.Some(x) && Do(x, b) == T.Some(y) && Do(y, c) == T.Some(z)
    ensures Run(w, [a, b, c]) == T.Some(z)
  {
    hide Do;
    assert Run(w, []) == T.Some(w);
    assert [a][..0] == [] && [a, b][..1] == [a] && [a, b, c][..2] == [a, b];
    assert Run(w, [a]) == T.Some(x);
    assert Run(w, [a, b]) == T.Some(y);
  }

  // A world with one more lock, taken by this task.
  function Taken(w: World, t: TaskId, task: Task): World {
    w.(lock := T.Some(Lock(t, false, w.now)), tasks := w.tasks[t := task.(phase := Stamping)])
  }

  // A task that found the lock stale removes whatever lock there is and takes it.
  lemma Takes(w: World, q: TaskId)
    requires q in w.tasks && w.tasks[q].phase.Stealing?
    ensures Run(w, [Steal(q), Retry(q), Open(q)]) == T.Some(Taken(w, q, w.tasks[q]))
  {
    hide Run;
    var x := To(w.(lock := T.None), q, Waiting);
    var y := To(x, q, Opening);
    assert Do(x, Retry(q)) == T.Some(y);
    assert OpenStep(y, q).tasks == Taken(w, q, w.tasks[q]).tasks;
    assert Do(y, Open(q)) == T.Some(Taken(w, q, w.tasks[q]));
    hide Do, To, Taken;
    StealsAndOpens(w, q);
    RunThree(w, Steal(q), x, Retry(q), y, Open(q), Taken(w, q, w.tasks[q]));
  }

  lemma StealsAndOpens(w: World, q: TaskId)
    requires q in w.tasks && w.tasks[q].phase.Stealing?
    ensures Do(w, Steal(q)) == T.Some(To(w.(lock := T.None), q, Waiting))
  {
  }

  const SOME_OP := Remove("")

  // Where there is no lock, the first task of another process takes it.
  lemma Comes(w: World, pid: Pid)
    requires QueueOk(w) && HeldOk(w) && w.lock.None? && pid !in w.tails
    ensures var t := TaskId(pid, 0);
            Run(w, [Enqueue(pid, SOME_OP), Start(t), Open(t)])
              == T.Some(Taken(w, t, Task(SOME_OP, T.None, Idle, false)).(tails := w.tails[pid := t]))
  {
    hide Run, QueueOk, HeldOk;
    var t := TaskId(pid, 0);
    var x := EnqueueStep(w, pid, SOME_OP);
    var y := To(x, t, Opening);
    NotHeld(w, pid);
    assert Do(x, Start(t)) == T.Some(y);
    var z := Taken(w, t, Task(SOME_OP, T.None, Idle, false)).(tails := w.tails[pid := t]);
    assert OpenStep(y, t).tasks == z.tasks;
    assert Do(y, Open(t)) == T.Some(z);
    hide Do, To, Taken, EnqueueStep;
    Arrives(w, pid);
    RunThree(w, Enqueue(pid, SOME_OP), x, Start(t), y, Open(t), z);
  }

  lemma Arrives(w: World, pid: Pid)
    ensures Do(w, Enqueue(pid, SOME_OP)) == T.Some(EnqueueStep(w, pid, SOME_OP))
  {
  }

  lemma NotHeld(w: World, pid: Pid)
    requires QueueOk(w) && HeldOk(w) && pid !in w.tails
    ensures pid !in w.held
  {
    hide ChainOk;
  }

  lemma {:induction false} FreshPid(pids: set<Pid>) returns (pid: Pid)
    ensures forall p :: p in pids ==> p < pid
    decreases |pids|
  {
    if pids == {} {
      pid := 0;
    } else {
      var p :| p in pids;
      var rest := FreshPid(pids - {p});
      pid := if p < rest then rest else p + 1;
      assert forall q :: q in pids ==> q == p || q in pids - {p};
    }
  }

  lemma NoVerdicts(w: World, actions: seq<Action>)
    requires forall a :: a in actions ==> !a.Judge?
    ensures Careful(w, actions)
  {
    hide Run;
  }

  // Two tasks are past the creation of the lock after these actions.
  ghost predicate Breaks(v: World, more: seq<Action>) {
    Careful(v, more) && Run(v, more).Some? && !Exclusive(Run(v, more).value)
  }

  lemma StealsLive(v: World, q: TaskId, t: TaskId)
    requires q in v.tasks && v.tasks[q].phase.Stealing? && t in v.tasks && Holds(v.tasks[t].phase)
    ensures Breaks(v, [Steal(q), Retry(q), Open(q)])
  {
    hide Run, Careful, Do;
    Takes(v, q);
    NoVerdicts(v, [Steal(q), Retry(q), Open(q)]);
    BothHold(Taken(v, q, v.tasks[q]), q, t);
  }

  lemma BothHold(w: World, t: TaskId, u: TaskId)
    requires t in w.tasks && u in w.tasks && t != u && Holds(w.tasks[t].phase) && Holds(w.tasks[u].phase)
    ensures !Exclusive(w)
  {
  }

  // If some task can take the lock now, a thief can take it from that task.
  lemma StealsNext(v: World, q: TaskId, first: seq<Action>, t: TaskId)
    requires Run(v, first).Some? && forall a :: a in first ==> !a.Judge?
    requires var x := Run(v, first).value;
             q in x.tasks && x.tasks[q].phase.Stealing? && t in x.tasks && Holds(x.tasks[t].phase)
    ensures Breaks(v, first + [Steal(q), Retry(q), Open(q)])
  {
    hide Run, Careful, Exclusive;
    StealsLive(Run(v, first).value, q, t);
    RunAppend(v, first, [Steal(q), Retry(q), Open(q)]);
    NoVerdicts(v, first + [Steal(q), Retry(q), Open(q)]);
  }

  lemma HarmBreaks(v: World, start: Disk, q: TaskId) returns (more: seq<Action>)
    requires QueueOk(v) && HeldOk(v) && LockOk(v) && q in v.tasks && v.tasks[q].phase.Stealing?
    requires !Orphaned(v) || exists r :: r in v.tasks && r != q && v.tasks[r].phase.Stealing?
    ensures Breaks(v, more)
  {
    hide Run, Careful, Exclusive, Breaks, Ready;
    if r :| r in v.tasks && r != q && v.tasks[r].phase.Stealing? {
      more := [Steal(r), Retry(r), Open(r)];
      Takes(v, r);
      StealsNext(v, q, more, r);
      more := more + [Steal(q), Retry(q), Open(q)];
    } else if v.lock.Some? {
      more := [Steal(q), Retry(q), Open(q)];
      StealsLive(v, q, v.lock.value.creator);
    } else {
      var pid := FreshPid(v.tails.Keys);
      var t := TaskId(pid, 0);
      more := [Enqueue(pid, SOME_OP), Start(t), Open(t)];
      Comes(v, pid);
      assert q != t;
      StealsNext(v, q, more, t);
      more := more + [Steal(q), Retry(q), Open(q)];
    }
  }

  // A verdict on the age of a lock is harmless exactly when no run can go on from it, without another
  // harmful one, to two tasks past the creation of the lock.
  lemma HarmlessIff(w: World, actions: seq<Action>, q: TaskId, u: World, v: World)
    requires Initial(w) && Careful(w, actions) && Run(w, actions) == T.Some(u) && Do(u, Judge(q)) == T.Some(v)
    ensures Harmless(u, Judge(q)) <==> StaysExclusive(v)
  {
    hide Run, Careful, Initial, Do, Inv, Exclusive, Harmless;
    CarefulRunKeeps(w, actions);
    if Harmless(u, Judge(q)) {
      StepKeeps(u, Judge(q), v, w.file);
      forall more | Careful(v, more) && Run(v, more).Some?
        ensures Exclusive(Run(v, more).value)
      {
        RunKeeps(v, w.file, more);
        InvExcludes(Run(v, more).value, w.file);
      }
    } else {
      HarmfulVerdict(u, w.file, q, v);
      var more := HarmBreaks(v, w.file, q);
    }
  }

  lemma InvExcludes(v: World, start: Disk)
    requires Inv(v, start)
    ensures Exclusive(v)
  {
    hide QueueOk, HeldOk, ThievesOk, AgesOk, DataOk, FifoOk;
  }

  lemma HarmfulVerdict(u: World, start: Disk, q: TaskId, v: World)
    requires Inv(u, start) && Do(u, Judge(q)) == T.Some(v) && !Harmless(u, Judge(q))
    ensures QueueOk(v) && HeldOk(v) && LockOk(v) && q in v.tasks && v.tasks[q].phase.Stealing?
    ensures !Orphaned(v) || exists r :: r in v.tasks && r != q && v.tasks[r].phase.Stealing?
  {
    hide Ready, QueueOk, HeldOk, DataOk, FifoOk, LockOk, ThievesOk, AgesOk;
    StepQueue(u, Judge(q), v);
    StepHeld(u, Judge(q), v);
    StepLock(u, Judge(q), v);
    assert v == To(u, q, Stealing);
    if r :| r in u.tasks && u.tasks[r].phase.Stealing? {
      assert r in v.tasks && r != q && v.tasks[r].phase.Stealing?;
    }
  }

  // ----- A live lock is stolen -----

  const P := TaskId(1, 0)
  const Q := TaskId(2, 0)
  const FIRST := Task(Put("a", "x"), T.None, Idle, false)
  const SECOND := Task(Put("b", "y"), T.None, Idle, false)

  // A state in which the first tasks of two processes have these phases and nothing is committed.
  function Scene(now: int, lock: T.Option<Lock>, held: set<Pid>, first: Phase, second: Phase): World {
    World(now, lock, Absent, Two(first, second), map[1 := P, 2 := Q], held, [])
  }

  function Two(first: Phase, second: Phase): map<TaskId, Task> {
    map[P := FIRST.(phase := first), Q := SECOND.(phase := second)]
  }

  lemma TwoUpdates(first: Phase, second: Phase, next: Phase)
    ensures Two(first, second)[P := FIRST.(phase := next)] == Two(next, second)
    ensures Two(first, second)[Q := SECOND.(phase := next)] == Two(first, next)
  {
  }

  // A lock without payload is young, and who has read it looks up its age soon.
  ghost predicate LooksInTime(w: World) {
    && (w.lock.Some? && !w.lock.value.stamped ==> w.now - w.lock.value.touched <= STALE_AFTER_MS)
    && (forall t :: t in w.tasks && w.tasks[t].phase.Aging? ==> w.now - w.tasks[t].phase.created <= STALE_AFTER_MS)
  }

  ghost predicate Leads(u: World, a: Action, v: World) {
    Do(u, a) == T.Some(v) && LooksInTime(v)
  }

  const NOTHING := World(0, T.None, Absent, map[], map[], {}, [])
  const MINE := T.Some(Lock(P, false, 0))
  const STAMPED := T.Some(Lock(P, true, 29_990))
  const THEIRS := T.Some(Lock(Q, false, 30_010))

  // A run in which the second process reads the lock of the first without payload and looks up its
  // modification time; then the payload is written, and then the second process reads the clock.
  function StaleRun(n: nat): World {
    match n
    case 0 => NOTHING
    case 1 => World(0, T.None, Absent, map[P := FIRST], map[1 := P], {}, [])
    case 2 => Scene(0, T.None, {}, Idle, Idle)
    case 3 => Scene(0, T.None, {}, Opening, Idle)
    case 4 => Scene(0, MINE, {}, Stamping, Idle)
    case 5 => Scene(0, MINE, {}, Stamping, Opening)
    case 6 => Scene(0, MINE, {}, Stamping, Reading)
    case 7 => Scene(29_980, MINE, {}, Stamping, Reading)
    case 8 => Scene(29_980, MINE, {}, Stamping, Aging(0))
    case 9 => Scene(29_985, MINE, {}, Stamping, Aging(0))
    case 10 => Scene(29_985, MINE, {}, Stamping, Judging(0, 0))
    case 11 => Scene(29_990, MINE, {}, Stamping, Judging(0, 0))
    case 12 => Scene(29_990, STAMPED, {1}, Loading, Judging(0, 0))
    case 13 => Scene(30_010, STAMPED, {1}, Loading, Judging(0, 0))
    case 14 => Scene(30_010, STAMPED, {1}, Loading, Stealing)
    case 15 => Scene(30_010, T.None, {1}, Loading, Waiting)
    case 16 => Scene(30_010, T.None, {1}, Loading, Opening)
    case _ => Scene(30_010, THEIRS, {1}, Loading, Stamping)
  }

  const STALE_ACTIONS := [
    Enqueue(1, Put("a", "x")), Enqueue(2, Put("b", "y")), Start(P), Open(P), Start(Q), Open(Q), Tick(29_980),
    ReadLock(Q), Tick(5), Stat(Q), Tick(5), Stamp(P), Tick(20), Judge(Q), Steal(Q), Retry(Q), Open(Q)]

  lemma BothEnqueue()
    ensures Leads(StaleRun(0), Enqueue(1, Put("a", "x")), StaleRun(1))
    ensures Leads(StaleRun(1), Enqueue(2, Put("b", "y")), StaleRun(2))
  {
    assert StaleRun(0).tasks[P := FIRST] == map[P := FIRST] && StaleRun(0).tails[1 := P] == map[1 := P];
    assert StaleRun(1).tasks[Q := SECOND] == Two(Idle, Idle) && StaleRun(1).tails[2 := Q] == map[1 := P, 2 := Q];
  }

  lemma FirstStarts()
    ensures Leads(Scene(0, T.None, {}, Idle, Idle), Start(P), Scene(0, T.None, {}, Opening, Idle))
  {
    TwoUpdates(Idle, Idle, Opening);
  }

  lemma FirstCreates()
    ensures Leads(Scene(0, T.None, {}, Opening, Idle), Open(P), Scene(0, MINE, {}, Stamping, Idle))
  {
    var w := Scene(0, T.None, {}, Opening, Idle);
    assert Do(w, Open(P)) == T.Some(OpenStep(w, P));
    hide Do;
    TwoUpdates(Opening, Idle, Stamping);
  }

  lemma SecondStarts()
    ensures Leads(Scene(0, MINE, {}, Stamping, Idle), Start(Q), Scene(0, MINE, {}, Stamping, Opening))
  {
    TwoUpdates(Stamping, Idle, Opening);
  }

  lemma SecondFinds()
    ensures Leads(Scene(0, MINE, {}, Stamping, Opening), Open(Q), Scene(0, MINE, {}, Stamping, Reading))
  {
    var w := Scene(0, MINE, {}, Stamping, Opening);
    assert Do(w, Open(Q)) == T.Some(OpenStep(w, Q));
    hide Do;
    TwoUpdates(Stamping, Opening, Reading);
  }

  lemma SecondReads()
    ensures Leads(Scene(29_980, MINE, {}, Stamping, Reading), ReadLock(Q), Scene(29_980, MINE, {}, Stamping, Aging(0)))
  {
    var w := Scene(29_980, MINE, {}, Stamping, Reading);
    assert Do(w, ReadLock(Q)) == T.Some(ReadStep(w, Q));
    hide Do;
    TwoUpdates(Stamping, Reading, Aging(0));
  }

  lemma SecondLooks()
    ensures Leads(Scene(29_985, MINE, {}, Stamping, Aging(0)), Stat(Q), Scene(29_985, MINE, {}, Stamping, Judging(0, 0)))
  {
    var w := Scene(29_985, MINE, {}, Stamping, Aging(0));
    assert Do(w, Stat(Q)) == T.Some(StatStep(w, Q, 0));
    hide Do;
    TwoUpdates(Stamping, Aging(0), Judging(0, 0));
  }

  lemma FirstStamps()
    ensures Leads(Scene(29_990, MINE, {}, Stamping, Judging(0, 0)), Stamp(P), Scene(29_990, STAMPED, {1}, Loading, Judging(0, 0)))
  {
    var w := Scene(29_990, MINE, {}, Stamping, Judging(0, 0));
    assert Do(w, Stamp(P)) == T.Some(StampStep(w, P));
    assert w.held + {P.pid} == {1};
    hide Do;
    TwoUpdates(Stamping, Judging(0, 0), Loading);
  }

  lemma TimePasses()
    ensures Leads(Scene(0, MINE, {}, Stamping, Reading), Tick(29_980), Scene(29_980, MINE, {}, Stamping, Reading))
    ensures Leads(Scene(29_980, MINE, {}, Stamping, Aging(0)), Tick(5), Scene(29_985, MINE, {}, Stamping, Aging(0)))
    ensures Leads(Scene(29_985, MINE, {}, Stamping, Judging(0, 0)), Tick(5), Scene(29_990, MINE, {}, Stamping, Judging(0, 0)))
    ensures Leads(Scene(29_990, STAMPED, {1}, Loading, Judging(0, 0)), Tick(20), Scene(30_010, STAMPED, {1}, Loading, Judging(0, 0)))
  {
  }

  lemma SecondJudges()
    ensures Leads(Scene(30_010, STAMPED, {1}, Loading, Judging(0, 0)), Judge(Q), Scene(30_010, STAMPED, {1}, Loading, Stealing))
  {
    var w := Scene(30_010, STAMPED, {1}, Loading, Judging(0, 0));
    assert Do(w, Judge(Q)) == T.Some(JudgeStep(w, Q, 0));
    hide Do;
    TwoUpdates(Loading, Judging(0, 0), Stealing);
  }

  lemma SecondSteals()
    ensures Leads(Scene(30_010, STAMPED, {1}, Loading, Stealing), Steal(Q), Scene(30_010, T.None, {1}, Loading, Waiting))
  {
    TwoUpdates(Loading, Stealing, Waiting);
  }

  lemma SecondRetries()
    ensures Leads(Scene(30_010, T.None, {1}, Loading, Waiting), Retry(Q), Scene(30_010, T.None, {1}, Loading, Opening))
  {
    TwoUpdates(Loading, Waiting, Opening);
  }

  lemma SecondCreates()
    ensures Leads(Scene(30_010, T.None, {1}, Loading, Opening), Open(Q), Scene(30_010, THEIRS, {1}, Loading, Stamping))
  {
    var w := Scene(30_010, T.None, {1}, Loading, Opening);
    assert Do(w, Open(Q)) == T.Some(OpenStep(w, Q));
    hide Do;
    TwoUpdates(Loading, Opening, Stamping);
  }

  // Every lock gets its payload in time and every age is looked up in time, and still the live holder
  // of a lock loses it and two processes are past its creation at once.
  lemma LiveLockIsStolen()
    ensures Initial(NOTHING) && LooksInTime(NOTHING) && StaleRun(0) == NOTHING
    ensures forall i :: 0 <= i < |STALE_ACTIONS| ==> Leads(StaleRun(i), STALE_ACTIONS[i], StaleRun(i + 1))
    ensures !Exclusive(StaleRun(|STALE_ACTIONS|))
  {
    BothEnqueue();
    FirstStarts();
    FirstCreates();
    SecondStarts();
    SecondFinds();
    SecondReads();
    SecondLooks();
    FirstStamps();
    TimePasses();
    SecondJudges();
    SecondSteals();
    SecondRetries();
    SecondCreates();
    hide Leads;
    BothHold(StaleRun(17), P, Q);
  }
}
