/** What every interleaving of workers, callers and destructor keeps. */
module ThreadPoolSafety {
  import opened Prelude
  import opened ThreadPool

  type Workers = seq<WorkerPc>
  type Clients = map<nat, ClientPc>

  // ----- The inductive invariant, one concern at a time -----

  predicate Holds(pc: WorkerPc) {
    pc.Testing? || pc.Dozing? || pc.Deciding? || pc.Popping?
  }

  /** The mutex is held exactly by the thread whose program counter says so. */
  ghost predicate MutexOk(holder: Holder, workers: Workers, clients: Clients) {
    (forall i: nat :: i < |workers| ==> (Holds(workers[i]) <==> holder == Worker(i))) &&
    (forall c :: c in clients ==> (clients[c].Checking? || clients[c].Pushing? <==> holder == Client(c))) &&
    (holder.Client? ==> holder.c in clients) && (holder.Worker? ==> holder.i < |workers|)
  }

  /** What a worker's program counter tells it about the queue. */
  ghost predicate WorkersOk(workers: Workers, tasks: seq<Task>, stop: bool) {
    forall i :: 0 <= i < |workers| ==>
      (workers[i].Dozing? ==> tasks == []) &&
      (workers[i].Deciding? ==> stop || tasks != []) &&
      (workers[i].Popping? ==> tasks != []) &&
      (workers[i].Returned? ==> stop && tasks == [])
  }

  /** Once a worker has returned, nobody is about to push. */
  ghost predicate ClosedOk(workers: Workers, clients: Clients) {
    forall i, c :: 0 <= i < |workers| && workers[i].Returned? && c in clients ==> !clients[c].Pushing?
  }

  predicate AllAsleep(workers: Workers) {
    forall i :: 0 <= i < |workers| ==> workers[i].Sleeping?
  }

  /** With every worker asleep on a non-empty queue, a caller is about to notify. */
  ghost predicate WakeupOk(tasks: seq<Task>, workers: Workers, clients: Clients) {
    tasks != [] && |workers| > 0 && AllAsleep(workers) ==> exists c :: c in clients && clients[c].Notifying?
  }

  function Hand(pc: WorkerPc, t: Task): nat {
    if pc == Running(t) then 1 else 0
  }

  /** How many workers are running task `t`. */
  function InHand(workers: Workers, t: Task): nat {
    if workers == [] then 0 else Hand(workers[0], t) + InHand(workers[1..], t)
  }

  /** Tasks leave the queue in the order they entered it; each one taken has been run or is being run. */
  ghost predicate TasksOk(s: State) {
    s.accepted == s.popped + s.tasks &&
    forall t :: multiset(s.popped)[t] == multiset(s.ran)[t] + InHand(s.workers, t)
  }

  ghost predicate Inv(s: State) {
    MutexOk(s.holder, s.workers, s.clients) && WorkersOk(s.workers, s.tasks, s.stop) &&
    ClosedOk(s.workers, s.clients) && WakeupOk(s.tasks, s.workers, s.clients) && TasksOk(s) &&
    (s.stop <==> !s.destructor.NotStarted?)
  }

  // ----- Steps of a worker -----

  lemma WorkerKeepsMutex(s: State, i: nat, a: WorkerAction)
    requires MutexOk(s.holder, s.workers, s.clients) && WorkerNext(s, i, a).Some?
    ensures var s' := WorkerNext(s, i, a).value; MutexOk(s'.holder, s'.workers, s'.clients)
  {
  }

  lemma WorkerKeepsWorkers(s: State, i: nat, a: WorkerAction)
    requires MutexOk(s.holder, s.workers, s.clients) && WorkersOk(s.workers, s.tasks, s.stop)
    requires WorkerNext(s, i, a).Some?
    ensures var s' := WorkerNext(s, i, a).value; WorkersOk(s'.workers, s'.tasks, s'.stop)
  {
  }

  lemma WorkerKeepsRest(s: State, i: nat, a: WorkerAction)
    requires MutexOk(s.holder, s.workers, s.clients) && WorkersOk(s.workers, s.tasks, s.stop)
    requires ClosedOk(s.workers, s.clients) && WakeupOk(s.tasks, s.workers, s.clients)
    requires WorkerNext(s, i, a).Some?
    ensures var s' := WorkerNext(s, i, a).value;
            ClosedOk(s'.workers, s'.clients) && WakeupOk(s'.tasks, s'.workers, s'.clients)
  {
    var s' := WorkerNext(s, i, a).value;
    assert s'.workers[i].Sleeping? ==> a.Sleep? && s.tasks == [];
  }

  lemma {:induction false} InHandUpdate(workers: Workers, i: nat, pc: WorkerPc, t: Task)
    requires i < |workers|
    ensures InHand(workers[i := pc], t) + Hand(workers[i], t) == InHand(workers, t) + Hand(pc, t)
  {
    var updated := workers[i := pc];
    assert InHand(updated, t) == Hand(updated[0], t) + InHand(updated[1..], t);
    if i > 0 {
      assert updated[1..] == workers[1..][i - 1 := pc];
      InHandUpdate(workers[1..], i - 1, pc, t);
    } else {
      assert updated[1..] == workers[1..];
    }
  }

  lemma WorkerKeepsTasks(s: State, i: nat, a: WorkerAction)
    requires TasksOk(s) && WorkerNext(s, i, a).Some?
    ensures TasksOk(WorkerNext(s, i, a).value)
  {
    var s' := WorkerNext(s, i, a).value;
    if a.Pop? {
      assert s.popped + s.tasks == (s.popped + [s.tasks[0]]) + s.tasks[1..];
    }
    forall t ensures multiset(s'.popped)[t] == multiset(s'.ran)[t] + InHand(s'.workers, t) {
      InHandUpdate(s.workers, i, s'.workers[i], t);
    }
  }

  lemma WorkerKeeps(s: State, i: nat, a: WorkerAction)
    requires Inv(s) && WorkerNext(s, i, a).Some?
    ensures Inv(WorkerNext(s, i, a).value)
  {
    WorkerKeepsMutex(s, i, a);
    WorkerKeepsWorkers(s, i, a);
    WorkerKeepsRest(s, i, a);
    WorkerKeepsTasks(s, i, a);
  }

  // ----- Steps of a caller -----

  lemma ClientKeepsMutex(s: State, c: nat, a: ClientAction)
    requires MutexOk(s.holder, s.workers, s.clients) && ClientNext(s, c, a).Some?
    ensures var s' := ClientNext(s, c, a).value; MutexOk(s'.holder, s'.workers, s'.clients)
  {
  }

  lemma ClientKeepsWorkers(s: State, c: nat, a: ClientAction)
    requires MutexOk(s.holder, s.workers, s.clients) && WorkersOk(s.workers, s.tasks, s.stop)
    requires ClosedOk(s.workers, s.clients) && ClientNext(s, c, a).Some?
    ensures var s' := ClientNext(s, c, a).value;
            WorkersOk(s'.workers, s'.tasks, s'.stop) && ClosedOk(s'.workers, s'.clients)
  {
  }

  lemma ClientKeepsWakeup(s: State, c: nat, a: ClientAction)
    requires WakeupOk(s.tasks, s.workers, s.clients) && ClientNext(s, c, a).Some?
    ensures var s' := ClientNext(s, c, a).value; WakeupOk(s'.tasks, s'.workers, s'.clients)
  {
    var s' := ClientNext(s, c, a).value;
    if AllAsleep(s'.workers) && |s'.workers| > 0 && s'.tasks != [] {
      if a.Push? {
        assert s'.clients[c].Notifying?;
      } else {
        assert s'.workers == s.workers && s'.workers[0].Sleeping?;
        var k :| k in s.clients && s.clients[k].Notifying?;
        assert k in s'.clients && s'.clients[k].Notifying?;
      }
    }
  }

  lemma ClientKeepsTasks(s: State, c: nat, a: ClientAction)
    requires TasksOk(s) && ClientNext(s, c, a).Some?
    ensures TasksOk(ClientNext(s, c, a).value)
  {
    if a.Push? {
      assert s.popped + (s.tasks + [s.clients[c].task]) == (s.popped + s.tasks) + [s.clients[c].task];
    }
    if a.NotifyOne? && a.woken.Some? {
      forall t ensures InHand(s.workers[a.woken.value := Acquiring], t) == InHand(s.workers, t) {
        InHandUpdate(s.workers, a.woken.value, Acquiring, t);
      }
    }
  }

  lemma ClientKeeps(s: State, c: nat, a: ClientAction)
    requires Inv(s) && ClientNext(s, c, a).Some?
    ensures Inv(ClientNext(s, c, a).value)
  {
    ClientKeepsMutex(s, c, a);
    ClientKeepsWorkers(s, c, a);
    ClientKeepsWakeup(s, c, a);
    ClientKeepsTasks(s, c, a);
  }

  // ----- Steps of the destructor -----

  lemma {:induction false} InHandWakeAll(workers: Workers, t: Task)
    ensures InHand(WakeAll(workers), t) == InHand(workers, t)
    decreases |workers|
  {
    if workers != [] {
      assert WakeAll(workers)[1..] == WakeAll(workers[1..]);
      InHandWakeAll(workers[1..], t);
    }
  }

  lemma DestructorKeeps(s: State, a: DestructorAction)
    requires Inv(s) && DestructorNext(s, a).Some?
    ensures Inv(DestructorNext(s, a).value)
  {
    forall t ensures InHand(WakeAll(s.workers), t) == InHand(s.workers, t) {
      InHandWakeAll(s.workers, t);
    }
  }

  lemma StepKeeps(s: State, a: Action)
    requires Inv(s) && Next(s, a).Some?
    ensures Inv(Next(s, a).value) && |Next(s, a).value.workers| == |s.workers|
  {
    match a
    case Work(i, work) => WorkerKeeps(s, i, work);
    case Enqueue(c, step) => ClientKeeps(s, c, step);
    case Destroy(move) => DestructorKeeps(s, move);
  }

  // ----- The main results, about every reachable state -----

  lemma ReachableKeepsInv(n: nat, s: State)
    requires Reachable(n, s)
    ensures Inv(s) && |s.workers| == n
  {
    var actions :| Run(Next, Initial(n), actions) == Some(s);
    var good := (t: State) => Inv(t) && |t.workers| == n;
    InitialOk(n);
    forall t, a | good(t) && Next(t, a).Some? ensures good(Next(t, a).value) {
      StepKeeps(t, a);
    }
    RunKeeps(Next, good, Initial(n), actions);
  }

  lemma {:induction false} NothingInHand(workers: Workers, t: Task)
    requires forall i :: 0 <= i < |workers| ==> !workers[i].Running?
    ensures InHand(workers, t) == 0
    decreases |workers|
  {
    if workers != [] { NothingInHand(workers[1..], t); }
  }

  lemma InitialOk(n: nat)
    ensures Inv(Initial(n))
  {
    forall t ensures InHand(Initial(n).workers, t) == 0 {
      NothingInHand(Initial(n).workers, t);
    }
  }

  /** Tasks leave the queue in the order in which `enqueue` accepted them, and a worker about to
      take one finds one: the queue is never popped empty, though stop is set outside the mutex. */
  lemma FirstInFirstOut(n: nat, s: State)
    requires Reachable(n, s)
    ensures s.popped + s.tasks == s.accepted
    ensures forall i :: 0 <= i < |s.workers| && s.workers[i].Popping? ==> s.tasks != []
  {
    ReachableKeepsInv(n, s);
  }

  /** When every worker has returned, each accepted task has been run once for each time it was
      accepted, and none is left. */
  lemma EveryAcceptedTaskHasRun(n: nat, s: State)
    requires Reachable(n, s) && n > 0 && AllReturned(s)
    ensures s.tasks == [] && multiset(s.ran) == multiset(s.accepted)
  {
    ReachableKeepsInv(n, s);
    assert s.workers[0].Returned?;
    assert s.accepted == s.popped;
    forall t ensures multiset(s.ran)[t] == multiset(s.accepted)[t] {
      NothingInHand(s.workers, t);
    }
  }

  ghost predicate Closed(s: State, i: nat) {
    Inv(s) && i < |s.workers| && s.workers[i].Returned?
  }

  lemma ClosedStep(s: State, i: nat, a: Action)
    requires Closed(s, i) && Next(s, a).Some?
    ensures Closed(Next(s, a).value, i) && Next(s, a).value.accepted == s.accepted
  {
    StepKeeps(s, a);
  }

  /** Once any worker has returned the queue is empty and stays so: nobody can push any more. */
  lemma {:induction false} EmptyOnceAWorkerReturned(n: nat, s: State, i: nat, actions: seq<Action>)
    requires Reachable(n, s) && i < |s.workers| && s.workers[i].Returned? && Run(Next, s, actions).Some?
    ensures Run(Next, s, actions).value.tasks == []
    ensures Run(Next, s, actions).value.accepted == s.accepted
  {
    ReachableKeepsInv(n, s);
    var closed := (t: State) => Closed(t, i) && t.accepted == s.accepted;
    forall t, a | closed(t) && Next(t, a).Some? ensures closed(Next(t, a).value) {
      ClosedStep(t, i, a);
    }
    RunKeeps(Next, closed, s, actions);
  }

  /** No lost wake-up: whenever the queue is non-empty and every worker is asleep, some caller
      has still to call notify_one. This holds during shutdown too. */
  lemma NoLostWakeup(n: nat, s: State)
    requires Reachable(n, s) && n > 0 && s.tasks != [] && AllAsleep(s.workers)
    ensures exists c :: c in s.clients && s.clients[c].Notifying?
  {
    ReachableKeepsInv(n, s);
  }

  // ----- Shutdown: exactly when the destructor's wake-up can be lost -----

  ghost predicate NobodyWillSleep(s: State) {
    s.stop && forall i :: 0 <= i < |s.workers| ==> !s.workers[i].Sleeping? && !s.workers[i].Dozing?
  }

  lemma AwakeStaysAwake(s: State, a: Action)
    requires NobodyWillSleep(s) && Next(s, a).Some?
    ensures NobodyWillSleep(Next(s, a).value)
  {
  }

  lemma {:induction false} NobodyWillEverSleep(s: State, actions: seq<Action>)
    requires NobodyWillSleep(s) && Run(Next, s, actions).Some?
    ensures NobodySleeps(Run(Next, s, actions).value.workers)
  {
    forall t, a | NobodyWillSleep(t) && Next(t, a).Some? ensures NobodyWillSleep(Next(t, a).value) {
      AwakeStaysAwake(t, a);
    }
    RunKeeps(Next, t => NobodyWillSleep(t), s, actions);
  }

  /** The destructor waits for worker `i`, which sleeps, and no caller will notify. */
  ghost predicate Stuck(s: State, i: nat) {
    s.stop && s.destructor == Joining && i < |s.workers| && s.workers[i].Sleeping? &&
    forall c :: c in s.clients ==> s.clients[c].Locking? || s.clients[c].Checking?
  }

  /** Some continuation of `s` is stuck. */
  ghost predicate StuckAhead(s: State) {
    exists actions, i :: Run(Next, s, actions).Some? && Stuck(Run(Next, s, actions).value, i)
  }

  /** Callers about to notify can all do so first, and wake nobody, as long as nobody sleeps. */
  lemma {:induction false} NotifiersGoFirst(s: State, callers: set<nat>) returns (actions: seq<Action>)
    requires NobodySleeps(s.workers) && forall c :: c in callers ==> c in s.clients && s.clients[c].Notifying?
    ensures Run(Next, s, actions) == Some(s.(clients := s.clients - callers))
    decreases |callers|
  {
    actions := [];
    if c :| c in callers {
      var first := Enqueue(c, NotifyOne(None));
      var t := Next(s, first).value;
      var others := NotifiersGoFirst(t, callers - {c});
      actions := [first] + others;
      assert actions[0] == first && actions[1..] == others;
      assert s.clients - callers == (s.clients - {c}) - (callers - {c});
    } else {
      assert s.clients - callers == s.clients;
    }
  }

  lemma DozerGetsStuck(s: State, i: nat)
    requires Inv(s) && s.stop && s.destructor == Joining && NobodySleeps(s.workers)
    requires i < |s.workers| && s.workers[i].Dozing?
    ensures StuckAhead(s)
  {
    var callers := set c | c in s.clients && s.clients[c].Notifying?;
    var before := NotifiersGoFirst(s, callers);
    var quiet := s.(clients := s.clients - callers);
    assert s.holder == Worker(i);
    RunSnoc(Next, s, before, Work(i, Sleep));
    var stuck := Next(quiet, Work(i, Sleep)).value;
    assert Run(Next, s, before + [Work(i, Sleep)]) == Some(stuck);
    assert Stuck(stuck, i);
  }

  lemma AnnouncedIsInv(s: State)
    requires Inv(s) && s.destructor == NotifyingAll
    ensures Inv(DestructorNext(s, NotifyAll).value) && NobodySleeps(DestructorNext(s, NotifyAll).value.workers)
  {
    StepKeeps(s, Destroy(NotifyAll));
  }

  /** After notify_all the destructor can get stuck if and only if, at the moment of notify_all, some
      worker had tested the predicate and not yet gone to sleep. */
  lemma ShutdownGetsStuckIff(n: nat, s: State)
    requires Reachable(n, s) && s.destructor == NotifyingAll
    ensures DestructorNext(s, NotifyAll).Some?
    ensures StuckAhead(DestructorNext(s, NotifyAll).value) <==> exists i :: 0 <= i < |s.workers| && s.workers[i].Dozing?
  {
    ReachableKeepsInv(n, s);
    var s' := DestructorNext(s, NotifyAll).value;
    AnnouncedIsInv(s);
    if i :| 0 <= i < |s.workers| && s.workers[i].Dozing? {
      DozerGetsStuck(s', i);
    } else {
      assert NobodyWillSleep(s');
      forall actions | Run(Next, s', actions).Some? ensures NobodySleeps(Run(Next, s', actions).value.workers) {
        NobodyWillEverSleep(s', actions);
      }
    }
  }

  /** Once stuck, and without spurious wake-ups, the destructor never finishes. */
  lemma {:induction false} StuckForever(s: State, i: nat, actions: seq<Action>)
    requires Stuck(s, i) && Run(StrictNext, s, actions).Some?
    ensures Stuck(Run(StrictNext, s, actions).value, i)
  {
    RunKeeps(StrictNext, t => Stuck(t, i), s, actions);
  }

  /** And it can get stuck: the flag is set and announced between one worker's test and its sleep. */
  lemma ShutdownCanGetStuck() returns (actions: seq<Action>, s: State)
    ensures Run(Next, Initial(1), actions) == Some(s) && Stuck(s, 0)
  {
    var s0 := Initial(1);
    actions := [Work(0, LockQueue), Work(0, Test), Destroy(SetStop), Destroy(NotifyAll), Work(0, Sleep)];
    var s1 := Next(s0, actions[0]).value;
    var s2 := Next(s1, actions[1]).value;
    var s3 := Next(s2, actions[2]).value;
    var s4 := Next(s3, actions[3]).value;
    s := Next(s4, actions[4]).value;
    assert Run(Next, s, actions[1..][1..][1..][1..][1..]) == Some(s);
    assert Run(Next, s4, actions[1..][1..][1..][1..]) == Some(s);
    assert Run(Next, s3, actions[1..][1..][1..]) == Some(s);
    assert Run(Next, s2, actions[1..][1..]) == Some(s);
    assert Run(Next, s1, actions[1..]) == Some(s);
  }
}
