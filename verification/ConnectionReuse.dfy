/**
  When `accept` returns a descriptor whose last task has not finished: what the assumption about it in
  `Next` is needed for, and what becomes of the new connection.
*/
module ConnectionReuse {
  import opened Prelude
  import opened ConnectionDispatch
  import opened ConnectionSafety

  // ----- The assumption about `accept` is exactly what mutual exclusion needs -----

  /** Some continuation of `s` has two tasks on one descriptor. */
  ghost predicate TwoTasksAhead(s: State) {
    exists actions :: Run(Next, s, actions).Some? && !OneTaskPerFd(Run(Next, s, actions).value.tasks)
  }

  /** One more step of the event loop. */
  lemma NextStep(start: State, actions: seq<Action>, s: State, a: LoopAction)
    returns (actions': seq<Action>, s': State)
    requires Run(Next, start, actions) == Some(s) && LoopNext(s, a).Some?
    ensures Run(Next, start, actions') == Some(s') && LoopNext(s, a) == Some(s')
  {
    RunSnoc(Next, start, actions, Loop(a));
    actions', s' := actions + [Loop(a)], LoopNext(s, a).value;
  }

  lemma PastTheChecks(s: State, fd: Fd) returns (actions: seq<Action>, t: State)
    requires s.loop.Accepting? && Closed(s, fd) && fd !in s.working
    ensures Run(Next, Accepted(s, s.loop.listener, fd), actions) == Some(t)
    ensures t.loop == LookingUp(fd) && fd in t.net.mapped && t.tasks == s.tasks
  {
    var start := Accepted(s, s.loop.listener, fd);
    assert Run(Next, start, []) == Some(start);
    actions, t := NextStep(start, [], start, Register);
    actions, t := NextStep(start, actions, t, ClientEvent(fd));
    actions, t := NextStep(start, actions, t, Mark);
    actions, t := NextStep(start, actions, t, Check);
  }

  /** With the marker gone, an event for the new connection gets past both checks. */
  lemma UnmarkedReuseIsHandedOver(s: State, fd: Fd)
    requires s.loop.Accepting? && Closed(s, fd) && InFlight(s, fd) && fd !in s.working
    ensures TwoTasksAhead(Accepted(s, s.loop.listener, fd))
  {
    var start := Accepted(s, s.loop.listener, fd);
    var first :| first in s.tasks && s.tasks[first].fd == fd;
    var id := Bound(s.tasks.Keys);
    var actions, t := PastTheChecks(s, fd);
    actions, t := NextStep(start, actions, t, LookUp);
    assert t.tasks == s.tasks && t.loop.Enqueueing? && t.loop.fd == fd;
    actions, t := NextStep(start, actions, t, Enqueue(id));
    assert t.tasks[first].fd == fd && t.tasks[id].fd == fd && first != id;
  }

  lemma {:induction false} ContinuationIsReachable(registry: map<Fd, Port>, listeners: set<Fd>, s: State,
                                                   actions: seq<Action>)
    requires Reachable(registry, listeners, s) && Run(Next, s, actions).Some?
    ensures Reachable(registry, listeners, Run(Next, s, actions).value)
  {
    var before :| Run(Next, Initial(registry, listeners), before) == Some(s);
    RunBoth(Next, Initial(registry, listeners), before, actions);
  }

  /** For mutual exclusion the assumption about `accept` is exactly what is needed: after an `accept`, two
      tasks can come to be on one descriptor if and only if the descriptor returned has a task in flight
      and no marker. */
  lemma AcceptIsSafeIff(registry: map<Fd, Port>, listeners: set<Fd>, s: State, fd: Fd)
    requires Reachable(registry, listeners, s) && s.loop.Accepting? && Closed(s, fd)
    ensures TwoTasksAhead(Accepted(s, s.loop.listener, fd)) <==> InFlight(s, fd) && fd !in s.working
  {
    var start := Accepted(s, s.loop.listener, fd);
    if InFlight(s, fd) && fd !in s.working {
      UnmarkedReuseIsHandedOver(s, fd);
    } else {
      assert Next(s, Loop(AcceptOk(fd))) == Some(start);
      RunOne(Next, s, Loop(AcceptOk(fd)));
      ContinuationIsReachable(registry, listeners, s, [Loop(AcceptOk(fd))]);
      forall later | Run(Next, start, later).Some? ensures OneTaskPerFd(Run(Next, start, later).value.tasks) {
        ContinuationIsReachable(registry, listeners, start, later);
        MutualExclusion(registry, listeners, Run(Next, start, later).value);
      }
    }
  }

  // ----- Runs on a kernel that reuses descriptors at once -----

  /** One more step of the event loop, or of a task, on a kernel that reuses descriptors at once. */
  lemma LoopStep(start: State, actions: seq<Action>, s: State, a: LoopAction)
    returns (actions': seq<Action>, s': State)
    requires Run(LooseNext, start, actions) == Some(s) && LooseLoopNext(s, a).Some?
    ensures Run(LooseNext, start, actions') == Some(s') && LooseLoopNext(s, a) == Some(s')
  {
    RunSnoc(LooseNext, start, actions, Loop(a));
    actions', s' := actions + [Loop(a)], LooseLoopNext(s, a).value;
  }

  lemma TaskStep(start: State, actions: seq<Action>, s: State, id: nat, a: TaskAction)
    returns (actions': seq<Action>, s': State)
    requires Run(LooseNext, start, actions) == Some(s) && TaskNext(s, id, a).Some?
    ensures Run(LooseNext, start, actions') == Some(s') && TaskNext(s, id, a) == Some(s')
  {
    RunSnoc(LooseNext, start, actions, Work(id, a));
    actions', s' := actions + [Work(id, a)], TaskNext(s, id, a).value;
  }

  /** Three steps: a connection is accepted on `fd` and mapped. */
  lemma Connect(start: State, actions: seq<Action>, s: State, l: Fd, fd: Fd)
    returns (actions': seq<Action>, s': State)
    requires Run(LooseNext, start, actions) == Some(s)
    requires s.loop == Waiting && l in s.net.listeners && fd !in s.net.listeners && fd !in s.net.open
    ensures Run(LooseNext, start, actions') == Some(s')
    ensures s' == s.(net := Net(s.net.registry, s.net.listeners, s.net.mapped[fd := GetPort(s.net.registry, l)],
                                s.net.open[fd := |s.net.conns|], s.net.conns + [Conn(fd, l)]))
  {
    actions', s' := LoopStep(start, actions, s, ListenerEvent(l));
    actions', s' := LoopStep(start, actions', s', AcceptOk(fd));
    actions', s' := LoopStep(start, actions', s', Register);
  }

  /** Three steps: an event for an unmarked, mapped descriptor gets past both checks. */
  lemma Notice(start: State, actions: seq<Action>, s: State, fd: Fd)
    returns (actions': seq<Action>, s': State)
    requires Run(LooseNext, start, actions) == Some(s)
    requires s.loop == Waiting && fd in s.net.mapped && fd !in s.net.listeners && fd !in s.working
    ensures Run(LooseNext, start, actions') == Some(s')
    ensures s' == s.(loop := LookingUp(fd), working := s.working + {fd})
  {
    actions', s' := LoopStep(start, actions, s, ClientEvent(fd));
    actions', s' := LoopStep(start, actions', s', Mark);
    actions', s' := LoopStep(start, actions', s', Check);
  }

  /** Two more: it is handed over to a new task. */
  lemma HandOver(start: State, actions: seq<Action>, s: State, fd: Fd, id: nat)
    returns (actions': seq<Action>, s': State)
    requires Run(LooseNext, start, actions) == Some(s)
    requires s.loop == Waiting && fd in s.net.mapped && fd !in s.net.listeners && fd !in s.working && id !in s.tasks
    ensures Run(LooseNext, start, actions') == Some(s')
    ensures s' == s.(working := s.working + {fd},
                     tasks := s.tasks[id := Task(fd, s.net.mapped[fd], ConnOf(s.net, fd), Queued)])
  {
    actions', s' := Notice(start, actions, s, fd);
    actions', s' := LoopStep(start, actions', s', LookUp);
    actions', s' := LoopStep(start, actions', s', Enqueue(id));
  }

  /** Three steps: the handler ends the connection, which has no SSL object. */
  lemma EndConnection(start: State, actions: seq<Action>, s: State, id: nat)
    returns (actions': seq<Action>, s': State)
    requires Run(LooseNext, start, actions) == Some(s)
    requires id in s.tasks && s.tasks[id].pc == Queued && s.tasks[id].fd !in s.ssl.stored
    ensures Run(LooseNext, start, actions') == Some(s')
    ensures s' == At(s, id, Closing).(calls := s.calls + [Call(s.tasks[id].conn, s.tasks[id].port)])
  {
    actions', s' := TaskStep(start, actions, s, id, Start);
    actions', s' := TaskStep(start, actions', s', id, HandlerReturns(false));
    actions', s' := TaskStep(start, actions', s', id, CleanSsl);
  }

  /** Two more: its descriptor is closed and unmapped. */
  lemma Retire(start: State, actions: seq<Action>, s: State, id: nat)
    returns (actions': seq<Action>, s': State)
    requires Run(LooseNext, start, actions) == Some(s)
    requires id in s.tasks && s.tasks[id].pc == Queued && s.tasks[id].fd !in s.ssl.stored
    ensures Run(LooseNext, start, actions') == Some(s')
    ensures s' == At(s, id, Finishing(true)).(
                    net := s.net.(open := s.net.open - {s.tasks[id].fd},
                                  mapped := s.net.mapped - {s.tasks[id].fd}),
                    calls := s.calls + [Call(s.tasks[id].conn, s.tasks[id].port)])
  {
    actions', s' := EndConnection(start, actions, s, id);
    actions', s' := TaskStep(start, actions', s', id, CloseFd);
    actions', s' := TaskStep(start, actions', s', id, Unmap);
  }

  /** Four steps: a stale event for an unmapped descriptor erases its marker, whoever set it. */
  lemma StaleEvent(start: State, actions: seq<Action>, s: State, fd: Fd)
    returns (actions': seq<Action>, s': State)
    requires Run(LooseNext, start, actions) == Some(s)
    requires s.loop == Waiting && fd !in s.net.mapped && fd !in s.net.listeners
    ensures Run(LooseNext, start, actions') == Some(s')
    ensures s' == s.(working := s.working - {fd})
  {
    actions', s' := LoopStep(start, actions, s, ClientEvent(fd));
    actions', s' := LoopStep(start, actions', s', Mark);
    assert s' == s.(loop := Checking(fd, fd in s.working), working := s.working + {fd});
    actions', s' := LoopStep(start, actions', s', Check);
    actions', s' := LoopStep(start, actions', s', Unmark);
  }

  /** A connection on descriptor 5 is served and closed, and a stale event erases the marker that its
      task has still to erase. */
  lemma RetiredButNotFinished(r: map<Fd, Port>) returns (actions: seq<Action>, s: State)
    requires r == map[3 := 80]
    ensures Run(LooseNext, Initial(r, {3}), actions) == Some(s)
    ensures s == State(Waiting, {}, map[0 := Task(5, 80, 0, Finishing(true))], Net(r, {3}, map[], map[], [Conn(5, 3)]),
                       Ssl(map[], []), [Call(0, 80)])
  {
    var start := Initial(r, {3});
    actions, s := Connect(start, [], start, 3, 5);
    actions, s := HandOver(start, actions, s, 5, 0);
    actions, s := Retire(start, actions, s, 0);
    assert s.net.open == map[] && s.net.mapped == map[];
    actions, s := StaleEvent(start, actions, s, 5);
  }

  /** Descriptor 5 is reused then, and the new connection handed over to task 1. */
  lemma ReusedAndServed(r: map<Fd, Port>) returns (actions: seq<Action>, s: State)
    requires r == map[3 := 80]
    ensures Run(LooseNext, Initial(r, {3}), actions) == Some(s)
    ensures s == State(Waiting, {5}, map[0 := Task(5, 80, 0, Finishing(true)), 1 := Task(5, 80, 1, Queued)],
                       Net(r, {3}, map[5 := 80], map[5 := 1], [Conn(5, 3), Conn(5, 3)]), Ssl(map[], []), [Call(0, 80)])
  {
    actions, s := RetiredButNotFinished(r);
    actions, s := Connect(Initial(r, {3}), actions, s, 3, 5);
    actions, s := HandOver(Initial(r, {3}), actions, s, 5, 1);
  }

  /** Task 0 still erases a marker, which is now that of the new connection; so two tasks come to serve
      one connection. */
  lemma EarlyReuseBreaksExclusion() returns (actions: seq<Action>, s: State)
    ensures Run(LooseNext, Initial(map[3 := 80], {3}), actions) == Some(s)
    ensures 1 in s.tasks && 2 in s.tasks && s.tasks[1] == s.tasks[2] == Task(5, 80, 1, Queued)
  {
    var start := Initial(map[3 := 80], {3});
    actions, s := ReusedAndServed(map[3 := 80]);
    actions, s := TaskStep(start, actions, s, 0, Finish);
    actions, s := HandOver(start, actions, s, 5, 2);
  }

  // ----- When a connection on a reused descriptor can still be served -----

  /** Connection `c` is open on `fd` and has no task yet; tasks of earlier connections on `fd` have closed
      it, and are still to unmap it or to erase its marker. */
  ghost predicate Unserved(s: State, fd: Fd, c: nat) {
    c < |s.net.conns| && fd in s.net.open && s.net.open[fd] == c &&
    (forall f :: f in s.net.open && s.net.open[f] == c ==> f == fd) &&
    (forall id :: id in s.tasks ==>
       s.tasks[id].conn != c && (s.tasks[id].fd == fd ==> s.tasks[id].pc.Unmapping? || s.tasks[id].pc.Finishing?)) &&
    (forall i :: 0 <= i < |s.calls| ==> s.calls[i].conn != c)
  }

  /** Neither the map nor the event loop knows `fd`. */
  ghost predicate Unknown(loop: LoopPc, mapped: map<Fd, Port>, fd: Fd) {
    fd !in mapped &&
    match loop
    case Registering(f, _) => f != fd
    case LookingUp(f) => f != fd
    case Enqueueing(f, _) => f != fd
    case _ => true
  }

  /** `fd` is marked, and nobody will erase the marker before `fd` is unmapped. */
  ghost predicate Skipped(loop: LoopPc, working: set<Fd>, tasks: map<nat, Task>, mapped: map<Fd, Port>, fd: Fd) {
    fd in mapped && fd in working && (forall id :: id in tasks && tasks[id].fd == fd ==> !tasks[id].pc.Finishing?) &&
    match loop
    case Registering(f, _) => f != fd
    case Checking(f, skip) => f == fd ==> skip
    case Unmarking(f) => f != fd
    case LookingUp(f) => f != fd
    case Enqueueing(f, _) => f != fd
    case _ => true
  }

  ghost predicate Forgotten(s: State, fd: Fd) {
    Unknown(s.loop, s.net.mapped, fd) || Skipped(s.loop, s.working, s.tasks, s.net.mapped, fd)
  }

  lemma LoopForgets(s: State, fd: Fd, c: nat, a: LoopAction)
    requires Unserved(s, fd, c) && Forgotten(s, fd) && LooseLoopNext(s, a).Some?
    ensures Unserved(LooseLoopNext(s, a).value, fd, c) && Forgotten(LooseLoopNext(s, a).value, fd)
  {
  }

  lemma TaskForgets(s: State, fd: Fd, c: nat, id: nat, a: TaskAction)
    requires Unserved(s, fd, c) && Forgotten(s, fd) && TaskNext(s, id, a).Some?
    ensures Unserved(TaskNext(s, id, a).value, fd, c) && Forgotten(TaskNext(s, id, a).value, fd)
  {
  }

  lemma {:induction false} ForgottenForGood(s: State, fd: Fd, c: nat, actions: seq<Action>)
    requires Unserved(s, fd, c) && Forgotten(s, fd) && Run(LooseNext, s, actions).Some?
    ensures Unserved(Run(LooseNext, s, actions).value, fd, c)
    decreases |actions|
  {
    if actions != [] {
      match actions[0] {
        case Loop(step) => LoopForgets(s, fd, c, step);
        case Work(id, work) => TaskForgets(s, fd, c, id, work);
      }
      ForgottenForGood(LooseNext(s, actions[0]).value, fd, c, actions[1..]);
    }
  }

  /** Some continuation of `s` has a task for connection `c`. */
  ghost predicate ServedAhead(s: State, c: nat) {
    exists actions :: Run(LooseNext, s, actions).Some? && HasTask(Run(LooseNext, s, actions).value, c)
  }

  ghost predicate HasTask(s: State, c: nat) {
    exists id :: id in s.tasks && s.tasks[id].conn == c
  }

  lemma UnmarkedCanBeServed(start: State, actions: seq<Action>, s: State, fd: Fd, c: nat)
    requires Run(LooseNext, start, actions) == Some(s)
    requires Unserved(s, fd, c) && s.loop == Waiting && fd !in s.net.listeners && fd in s.net.mapped && fd !in s.working
    ensures ServedAhead(start, c)
  {
    var id := Bound(s.tasks.Keys);
    var actions', s' := HandOver(start, actions, s, fd, id);
    assert s'.tasks[id].conn == c;
  }

  /** A connection that has no task yet can still get one if and only if its descriptor is mapped and
      either unmarked or about to be unmarked by a task that has unmapped it already. */
  lemma ServedIff(s: State, fd: Fd, c: nat)
    requires Unserved(s, fd, c) && s.loop == Waiting && fd !in s.net.listeners
    ensures ServedAhead(s, c) <==>
            fd in s.net.mapped &&
              (fd in s.working ==> exists id :: id in s.tasks && s.tasks[id].fd == fd && s.tasks[id].pc.Finishing?)
  {
    assert Run(LooseNext, s, []) == Some(s);
    if fd in s.net.mapped && fd !in s.working {
      UnmarkedCanBeServed(s, [], s, fd, c);
    } else if id :| fd in s.net.mapped && id in s.tasks && s.tasks[id].fd == fd && s.tasks[id].pc.Finishing? {
      var actions, s' := TaskStep(s, [], s, id, Finish);
      UnmarkedCanBeServed(s, actions, s', fd, c);
    } else {
      forall actions | Run(LooseNext, s, actions).Some? ensures !HasTask(Run(LooseNext, s, actions).value, c) {
        ForgottenForGood(s, fd, c, actions);
      }
    }
  }

  /** A task that unmaps its descriptor after a new connection has been registered on it erases that
      connection's entry: it is never served, although it stays open. */
  lemma ReusedTooEarlyIsNeverServed(s: State, id: nat, fd: Fd, c: nat, actions: seq<Action>)
    requires Unserved(s, fd, c) && s.loop == Waiting && id in s.tasks && s.tasks[id].fd == fd
    requires s.tasks[id].pc == Unmapping && Run(LooseNext, TaskNext(s, id, Unmap).value, actions).Some?
    ensures Unserved(Run(LooseNext, TaskNext(s, id, Unmap).value, actions).value, fd, c)
  {
    ForgottenForGood(TaskNext(s, id, Unmap).value, fd, c, actions);
  }

  /** A connection on descriptor 5 is served, and its task has closed but not yet unmapped it. */
  lemma ClosedButMapped(r: map<Fd, Port>) returns (actions: seq<Action>, s: State)
    requires r == map[3 := 80]
    ensures Run(LooseNext, Initial(r, {3}), actions) == Some(s)
    ensures s == State(Waiting, {5}, map[0 := Task(5, 80, 0, Unmapping)],
                       Net(r, {3}, map[5 := 80], map[], [Conn(5, 3)]), Ssl(map[], []), [Call(0, 80)])
  {
    var start := Initial(r, {3});
    actions, s := Connect(start, [], start, 3, 5);
    actions, s := HandOver(start, actions, s, 5, 0);
    actions, s := EndConnection(start, actions, s, 0);
    actions, s := TaskStep(start, actions, s, 0, CloseFd);
    assert s.net.open == map[] && s.net.mapped == map[5 := 80];
  }

  /** A run that accepts the next connection on it then: it is mapped and marked, and already lost. */
  lemma TooEarlyIsReached() returns (actions: seq<Action>, s: State)
    ensures Run(LooseNext, Initial(map[3 := 80], {3}), actions) == Some(s)
    ensures Unserved(s, 5, 1) && 5 in s.net.mapped && !ServedAhead(s, 1)
  {
    actions, s := ClosedButMapped(map[3 := 80]);
    actions, s := Connect(Initial(map[3 := 80], {3}), actions, s, 3, 5);
    ServedIff(s, 5, 1);
  }
}
