/** What the pool can always still do, with no spurious wake-ups: run what it has accepted, and shut down. */
module ThreadPoolProgress {
  import opened Prelude
  import opened ThreadPool
  import opened ThreadPoolSafety

  /** One more step. */
  lemma Do(start: State, actions: seq<Action>, s: State, a: Action) returns (actions': seq<Action>, s': State)
    requires Run(StrictNext, start, actions) == Some(s) && Inv(s) && StrictNext(s, a).Some?
    ensures Run(StrictNext, start, actions') == Some(s') && StrictNext(s, a) == Some(s') && Inv(s')
  {
    RunSnoc(StrictNext, start, actions, a);
    StepKeeps(s, a);
    actions', s' := actions + [a], StrictNext(s, a).value;
  }

  // ----- How much there is to do -----

  function Burden(pc: WorkerPc): nat {
    match pc
    case Running(_) => 3
    case Sleeping => 2
    case Acquiring => 1
    case _ => 0
  }

  function Burdens(workers: seq<WorkerPc>): nat {
    if workers == [] then 0 else Burden(workers[0]) + Burdens(workers[1..])
  }

  function Remaining(s: State): nat {
    4 * |s.tasks| + Burdens(s.workers)
  }

  lemma {:induction false} BurdensUpdate(workers: seq<WorkerPc>, i: nat, pc: WorkerPc)
    requires i < |workers|
    ensures Burdens(workers[i := pc]) + Burden(workers[i]) == Burdens(workers) + Burden(pc)
    decreases |workers|
  {
    var updated := workers[i := pc];
    assert Burdens(updated) == Burden(updated[0]) + Burdens(updated[1..]);
    if i > 0 {
      assert updated[1..] == workers[1..][i - 1 := pc];
      BurdensUpdate(workers[1..], i - 1, pc);
    } else {
      assert updated[1..] == workers[1..];
    }
  }

  /** Nobody holds the mutex. */
  predicate Calm(s: State) {
    s.holder == Nobody
  }

  predicate NobodyRuns(s: State) {
    forall i :: 0 <= i < |s.workers| ==> !s.workers[i].Running?
  }

  /** The pool is stopped, and no worker sleeps or is about to. */
  predicate NoneAsleep(s: State) {
    s.stop && forall i :: 0 <= i < |s.workers| ==> !s.workers[i].Sleeping? && !s.workers[i].Dozing?
  }

  /** `s'` comes after `s`, with the mutex free; the destructor has not moved. */
  ghost predicate Later(s: State, s': State) {
    Inv(s') && Calm(s') && s.accepted <= s'.accepted && s'.stop == s.stop && s'.destructor == s.destructor &&
    |s'.workers| == |s.workers| && s'.clients.Keys <= s.clients.Keys && (NoneAsleep(s) ==> NoneAsleep(s'))
  }

  lemma CallerReleases(start: State, before: seq<Action>, s: State, c: nat) returns (actions: seq<Action>, s': State)
    requires Run(StrictNext, start, before) == Some(s) && Inv(s) && s.holder == Client(c)
    ensures Run(StrictNext, start, actions) == Some(s') && Later(s, s')
  {
    if s.clients[c].Pushing? {
      actions, s' := Do(start, before, s, Enqueue(c, Push));
    } else {
      actions, s' := Do(start, before, s, Enqueue(c, CheckStop));
      if !s.stop { actions, s' := Do(start, actions, s', Enqueue(c, Push)); }
    }
  }

  function StepsToRelease(pc: WorkerPc): nat {
    match pc
    case Testing => 3
    case Deciding => 2
    case _ => 1
  }

  lemma WorkerReleases(start: State, before: seq<Action>, s: State, i: nat) returns (actions: seq<Action>, s': State)
    requires Run(StrictNext, start, before) == Some(s) && Inv(s) && s.holder == Worker(i)
    ensures Run(StrictNext, start, actions) == Some(s') && Later(s, s')
    decreases StepsToRelease(s.workers[i])
  {
    var a := match s.workers[i]
      case Testing => Test
      case Dozing => Sleep
      case Deciding => Decide
      case _ => Pop;
    actions, s' := Do(start, before, s, Work(i, a));
    if !Calm(s') { actions, s' := WorkerReleases(start, actions, s', i); }
  }

  /** Whoever holds the mutex releases it by its own steps. */
  lemma MutexIsReleased(start: State, before: seq<Action>, s: State) returns (actions: seq<Action>, s': State)
    requires Run(StrictNext, start, before) == Some(s) && Inv(s)
    ensures Run(StrictNext, start, actions) == Some(s') && Later(s, s')
  {
    match s.holder
    case Nobody => actions, s' := before, s;
    case Client(c) => actions, s' := CallerReleases(start, before, s, c);
    case Worker(i) => actions, s' := WorkerReleases(start, before, s, i);
  }

  /** A worker at the mutex takes a task. */
  lemma TaskIsTaken(start: State, before: seq<Action>, s: State, i: nat) returns (actions: seq<Action>, s': State)
    requires Run(StrictNext, start, before) == Some(s) && Inv(s) && Calm(s) && s.tasks != []
    requires i < |s.workers| && s.workers[i].Acquiring?
    ensures Run(StrictNext, start, actions) == Some(s') && Inv(s')
    ensures s' == s.(tasks := s.tasks[1..], workers := s.workers[i := Running(s.tasks[0])],
                     popped := s.popped + [s.tasks[0]])
  {
    actions, s' := Do(start, before, s, Work(i, LockQueue));
    actions, s' := Do(start, actions, s', Work(i, Test));
    actions, s' := Do(start, actions, s', Work(i, Decide));
    actions, s' := Do(start, actions, s', Work(i, Pop));
    assert s'.workers == s.workers[i := Running(s.tasks[0])];
  }

  /** With the mutex free, something can be done as long as a task waits or runs: a running one ends, one is
      taken, or, if all workers sleep, a caller that has still to notify wakes one. */
  lemma SomethingIsDone(start: State, before: seq<Action>, s: State) returns (actions: seq<Action>, s': State)
    requires Run(StrictNext, start, before) == Some(s) && Inv(s) && Calm(s) && |s.workers| > 0
    requires s.tasks != [] || !NobodyRuns(s)
    ensures Run(StrictNext, start, actions) == Some(s') && Later(s, s') && Remaining(s') < Remaining(s)
  {
    if i :| 0 <= i < |s.workers| && s.workers[i].Running? {
      actions, s' := Do(start, before, s, Work(i, RunEnds));
      BurdensUpdate(s.workers, i, Acquiring);
    } else if i :| 0 <= i < |s.workers| && s.workers[i].Acquiring? {
      actions, s' := TaskIsTaken(start, before, s, i);
      BurdensUpdate(s.workers, i, Running(s.tasks[0]));
    } else {
      assert AllAsleep(s.workers);
      var c :| c in s.clients && s.clients[c].Notifying?;
      actions, s' := Do(start, before, s, Enqueue(c, NotifyOne(Some(0))));
      BurdensUpdate(s.workers, 0, Acquiring);
    }
  }

  lemma {:induction false} QueueIsEmptied(start: State, before: seq<Action>, s: State)
    returns (actions: seq<Action>, s': State)
    requires Run(StrictNext, start, before) == Some(s) && Inv(s) && Calm(s) && |s.workers| > 0
    ensures Run(StrictNext, start, actions) == Some(s') && Later(s, s') && s'.tasks == [] && NobodyRuns(s')
    decreases Remaining(s)
  {
    actions, s' := before, s;
    if s.tasks != [] || !NobodyRuns(s) {
      actions, s' := SomethingIsDone(start, before, s);
      actions, s' := QueueIsEmptied(start, actions, s');
    }
  }

  lemma AllHaveRun(s: State)
    requires Inv(s) && s.tasks == [] && NobodyRuns(s)
    ensures multiset(s.ran) == multiset(s.accepted)
  {
    assert s.accepted == s.popped;
    forall t ensures multiset(s.ran)[t] == multiset(s.accepted)[t] {
      NothingInHand(s.workers, t);
    }
  }

  lemma QueueCanBeEmptied(s: State) returns (actions: seq<Action>, s': State)
    requires Inv(s) && |s.workers| > 0
    ensures Run(StrictNext, s, actions) == Some(s') && Later(s, s') && s'.tasks == [] && NobodyRuns(s')
  {
    assert Run(StrictNext, s, []) == Some(s);
    var middle: State;
    actions, middle := MutexIsReleased(s, [], s);
    actions, s' := QueueIsEmptied(s, actions, middle);
  }

  /** From every reachable state of a pool with a worker, some continuation runs every task accepted so far,
      as often as it was accepted, and leaves the queue empty: stopped or not. */
  lemma AcceptedTasksCanRun(n: nat, s: State) returns (actions: seq<Action>, s': State)
    requires Reachable(n, s) && n > 0
    ensures Run(StrictNext, s, actions) == Some(s') && s.accepted <= s'.accepted
    ensures s'.tasks == [] && multiset(s'.ran) == multiset(s'.accepted)
  {
    ReachableKeepsInv(n, s);
    actions, s' := QueueCanBeEmptied(s);
    AllHaveRun(s');
  }

  /** A caller about to read the stop flag has its task accepted, by its own two steps, as the last one; on
      a stopped pool it is turned away, and nothing else changes but that it releases the mutex. */
  lemma CallIsAcceptedIff(n: nat, s: State, c: nat, t: Task)
    requires Reachable(n, s) && c in s.clients && s.clients[c] == Checking(t)
    ensures !s.stop ==>
              Run(StrictNext, s, [Enqueue(c, CheckStop), Enqueue(c, Push)]) ==
              Some(s.(tasks := s.tasks + [t], accepted := s.accepted + [t], holder := Nobody,
                      clients := s.clients[c := Notifying]))
    ensures s.stop ==>
              StrictNext(s, Enqueue(c, CheckStop)) == Some(s.(holder := Nobody, clients := s.clients - {c}))
  {
    if !s.stop {
      var actions := [Enqueue(c, CheckStop), Enqueue(c, Push)];
      var s1 := s.(clients := s.clients[c := Pushing(t)]);
      assert StrictNext(s, actions[0]) == Some(s1);
      assert actions[1..] == [Enqueue(c, Push)];
      RunOne(StrictNext, s1, Enqueue(c, Push));
      assert s.clients[c := Pushing(t)][c := Notifying] == s.clients[c := Notifying];
    }
  }

  lemma CallIsPushed(start: State, before: seq<Action>, s: State, c: nat, t: Task)
    returns (actions: seq<Action>, s': State)
    requires Run(StrictNext, start, before) == Some(s) && Inv(s) && Calm(s) && !s.stop && c !in s.clients
    ensures Run(StrictNext, start, actions) == Some(s') && Inv(s')
    ensures s'.accepted == s.accepted + [t] && s'.clients == s.clients[c := Notifying] && s'.workers == s.workers
  {
    actions, s' := Do(start, before, s, Enqueue(c, Call(t)));
    actions, s' := Do(start, actions, s', Enqueue(c, LockToPush));
    actions, s' := Do(start, actions, s', Enqueue(c, CheckStop));
    actions, s' := Do(start, actions, s', Enqueue(c, Push));
  }

  /** From every reachable state of a pool that is not stopped, an enqueue can be begun and come to its end,
      its task accepted as the last one. */
  lemma EnqueueCanEnd(n: nat, s: State, c: nat, t: Task) returns (actions: seq<Action>, s': State)
    requires Reachable(n, s) && !s.stop && c !in s.clients
    ensures Run(StrictNext, s, actions) == Some(s') && c !in s'.clients
    ensures s.accepted < s'.accepted && s'.accepted[|s'.accepted| - 1] == t
  {
    ReachableKeepsInv(n, s);
    assert Run(StrictNext, s, []) == Some(s);
    var free: State;
    actions, free := MutexIsReleased(s, [], s);
    actions, s' := CallIsPushed(s, actions, free, c, t);
    var woken := None;
    if i: nat :| i < |s'.workers| && s'.workers[i].Sleeping? { woken := Some(i); }
    actions, s' := Do(s, actions, s', Enqueue(c, NotifyOne(woken)));
  }

  /** With the queue empty and the pool stopped, workers at the mutex return one by one. */
  lemma {:induction false} WorkersReturn(start: State, before: seq<Action>, s: State)
    returns (actions: seq<Action>, s': State)
    requires Run(StrictNext, start, before) == Some(s) && Inv(s) && Calm(s) && s.tasks == [] && NobodyRuns(s)
    requires NoneAsleep(s)
    ensures Run(StrictNext, start, actions) == Some(s') && Inv(s') && AllReturned(s')
    ensures s'.accepted == s.accepted && s'.destructor == s.destructor && s'.tasks == []
    decreases Burdens(s.workers)
  {
    actions, s' := before, s;
    if i :| 0 <= i < |s.workers| && !s.workers[i].Returned? {
      actions, s' := Do(start, actions, s', Work(i, LockQueue));
      actions, s' := Do(start, actions, s', Work(i, Test));
      actions, s' := Do(start, actions, s', Work(i, Decide));
      assert s'.workers == s.workers[i := Returned];
      BurdensUpdate(s.workers, i, Returned);
      actions, s' := WorkersReturn(start, actions, s');
    }
  }

  /** While the destructor waits, and as long as no worker sleeps or is about to, some continuation lets
      every worker return and the destructor end, with every accepted task run. */
  lemma ShutdownCanEnd(n: nat, s: State) returns (actions: seq<Action>, s': State)
    requires Reachable(n, s) && n > 0 && s.destructor == Joining
    requires forall i :: 0 <= i < |s.workers| ==> !s.workers[i].Sleeping? && !s.workers[i].Dozing?
    ensures Run(StrictNext, s, actions) == Some(s') && s'.destructor == Joined && AllReturned(s')
    ensures s.accepted <= s'.accepted && s'.tasks == [] && multiset(s'.ran) == multiset(s'.accepted)
  {
    ReachableKeepsInv(n, s);
    actions, s' := QueueCanBeEmptied(s);
    actions, s' := WorkersReturn(s, actions, s');
    actions, s' := Do(s, actions, s', Destroy(JoinAll));
    AllHaveRun(s');
  }
}
