/** What every run of the connection-dispatch protocol keeps. */
module ConnectionSafety {
  import opened Prelude
  import opened ConnectionDispatch

  // ----- The inductive invariant, one concern at a time -----
  // `busy` is the set of descriptors with a task in flight.

  function Busy(s: State): set<Fd> {
    set id | id in s.tasks :: s.tasks[id].fd
  }

  /** At most one task in flight per descriptor. */
  ghost predicate OneTaskPerFd(tasks: map<nat, Task>) {
    forall i, j :: i in tasks && j in tasks && tasks[i].fd == tasks[j].fd ==> i == j
  }

  /** A task that has not closed its descriptor: mapped to its port, still on its connection. */
  ghost predicate HoldsFd(net: Net, t: Task) {
    t.fd in net.mapped && net.mapped[t.fd] == t.port && t.fd in net.open && net.open[t.fd] == t.conn
  }

  ghost predicate OnListenerPort(net: Net, fd: Fd, port: Port) {
    fd in net.open && net.open[fd] < |net.conns| && port == GetPort(net.registry, net.conns[net.open[fd]].listener)
  }

  /** A task that has closed its descriptor has left its connection; the next one may be there already,
      and is mapped to its own port once the old entry is gone. */
  ghost predicate TaskNetOk(net: Net, t: Task) {
    t.conn < |net.conns| && t.port == GetPort(net.registry, net.conns[t.conn].listener) &&
    match t.pc
    case Unmapping => true
    case Finishing(true) => t.fd in net.mapped ==> OnListenerPort(net, t.fd, net.mapped[t.fd])
    case _ => HoldsFd(net, t)
  }

  /** The object stored for `fd`, if any, has been freed `n` times. */
  ghost predicate StoredFreed(ssl: Ssl, fd: Fd, n: nat) {
    fd in ssl.stored ==> ssl.stored[fd] < |ssl.objects| && ssl.objects[ssl.stored[fd]].frees == n
  }

  ghost predicate TaskSslOk(ssl: Ssl, t: Task) {
    match t.pc
    case Tls(x) => StoredFreed(ssl, t.fd, 0) && t.fd in ssl.stored && ssl.stored[t.fd] == x
    case Erasing(x) => StoredFreed(ssl, t.fd, 1) && t.fd in ssl.stored && ssl.stored[t.fd] == x
    case Closing => t.fd !in ssl.stored
    case _ => StoredFreed(ssl, t.fd, 0)
  }

  ghost predicate TasksOk(tasks: map<nat, Task>, net: Net, ssl: Ssl, busy: set<Fd>) {
    OneTaskPerFd(tasks) &&
    forall id :: id in tasks ==> tasks[id].fd in busy && TaskNetOk(net, tasks[id]) && TaskSslOk(ssl, tasks[id])
  }

  /** In flight implies marked or already unmapped. */
  ghost predicate BusyOk(working: set<Fd>, net: Net, busy: set<Fd>) {
    forall fd :: fd in busy ==> fd in working || fd !in net.mapped
  }

  /** Open descriptors carry distinct connections. A mapped descriptor is open, on the port of its
      listener, unless its task is about to unmap it. */
  ghost predicate NetOk(net: Net, busy: set<Fd>) {
    (forall fd :: fd in net.open ==> net.open[fd] < |net.conns| && net.conns[net.open[fd]].fd == fd) &&
    (forall fd :: fd in net.mapped ==> fd in busy || OnListenerPort(net, fd, net.mapped[fd]))
  }

  ghost predicate LoopOk(loop: LoopPc, working: set<Fd>, net: Net, busy: set<Fd>) {
    match loop
    case Registering(fd, port) => (fd in busy ==> fd in working) && OnListenerPort(net, fd, port)
    case Checking(fd, skip) => !skip && fd in net.mapped ==> fd in working && fd !in busy
    case Unmarking(fd) => fd !in net.mapped
    case LookingUp(fd) => fd in net.mapped && fd in working && fd !in busy
    case Enqueueing(fd, port) => fd in net.mapped && net.mapped[fd] == port && fd in working && fd !in busy
    case _ => true
  }

  /** A task on the descriptor of a connection just accepted has closed that descriptor for an earlier one. */
  ghost predicate ArrivalOk(loop: LoopPc, tasks: map<nat, Task>) {
    loop.Registering? ==>
      forall id :: id in tasks && tasks[id].fd == loop.fd ==> tasks[id].pc.Unmapping? || tasks[id].pc == Finishing(true)
  }

  /** The event loop is between marking `fd` and either handing it over or erasing the marker. */
  ghost predicate LoopHolds(loop: LoopPc, fd: Fd) {
    loop == Checking(fd, false) || loop == Unmarking(fd) || loop == LookingUp(fd)
    || (loop.Enqueueing? && loop.fd == fd)
  }

  ghost predicate MarkersOk(loop: LoopPc, working: set<Fd>, busy: set<Fd>) {
    forall fd :: fd in working ==> fd in busy || LoopHolds(loop, fd)
  }

  /** A stored object was made for the connection now on its descriptor, and is live unless a task
      is at work on that descriptor. */
  ghost predicate StoredOk(net: Net, ssl: Ssl, busy: set<Fd>) {
    forall fd :: fd in ssl.stored ==>
      fd in net.open && ssl.stored[fd] < |ssl.objects| && ssl.objects[ssl.stored[fd]].conn == net.open[fd] &&
      (fd in busy || ssl.objects[ssl.stored[fd]].frees == 0)
  }

  /** Every object is freed at most once; one not yet freed is stored under its connection's descriptor. */
  ghost predicate ObjectsOk(net: Net, ssl: Ssl) {
    forall x :: 0 <= x < |ssl.objects| ==>
      ssl.objects[x].conn < |net.conns| && ssl.objects[x].frees <= 1 &&
      (ssl.objects[x].frees == 0 ==>
         var fd := net.conns[ssl.objects[x].conn].fd; fd in ssl.stored && ssl.stored[fd] == x)
  }

  ghost predicate CallsOk(net: Net, calls: seq<Call>) {
    forall i :: 0 <= i < |calls| ==>
      calls[i].conn < |net.conns| && calls[i].port == GetPort(net.registry, net.conns[calls[i].conn].listener)
  }

  ghost predicate Core(s: State, busy: set<Fd>) {
    TasksOk(s.tasks, s.net, s.ssl, busy) && BusyOk(s.working, s.net, busy) && NetOk(s.net, busy) &&
    LoopOk(s.loop, s.working, s.net, busy) && ArrivalOk(s.loop, s.tasks) && MarkersOk(s.loop, s.working, busy) &&
    StoredOk(s.net, s.ssl, busy) && ObjectsOk(s.net, s.ssl) && CallsOk(s.net, s.calls)
  }

  ghost predicate Inv(s: State) {
    Core(s, Busy(s))
  }

  function LoopBusy(s: State, a: LoopAction, busy: set<Fd>): set<Fd> {
    if a.Enqueue? && s.loop.Enqueueing? then busy + {s.loop.fd} else busy
  }

  function TaskBusy(s: State, id: nat, a: TaskAction, busy: set<Fd>): set<Fd> {
    if a == Finish && id in s.tasks then busy - {s.tasks[id].fd} else busy
  }

  /** A new connection on a descriptor that is not open concerns no task that has one open. */
  lemma AcceptKeepsTasks(s: State, l: Fd, fd: Fd, busy: set<Fd>)
    requires TasksOk(s.tasks, s.net, s.ssl, busy) && fd !in s.net.open
    ensures TasksOk(s.tasks, Accepted(s, l, fd).net, s.ssl, busy)
  {
    forall id | id in s.tasks ensures TaskNetOk(Accepted(s, l, fd).net, s.tasks[id]) {
      assert TaskNetOk(s.net, s.tasks[id]);
    }
  }

  lemma AcceptKeeps(s: State, a: LoopAction, busy: set<Fd>)
    requires Core(s, busy) && LoopNext(s, a).Some? && a.AcceptOk? && (a.fd in busy ==> a.fd in s.working)
    ensures Core(LoopNext(s, a).value, LoopBusy(s, a, busy))
  {
    AcceptKeepsTasks(s, s.loop.listener, a.fd, busy);
  }

  lemma EnqueueKeeps(s: State, a: LoopAction, busy: set<Fd>)
    requires Core(s, busy) && LoopNext(s, a).Some? && a.Enqueue?
    ensures Core(LoopNext(s, a).value, LoopBusy(s, a, busy))
  {
  }

  lemma RegisterKeeps(s: State, a: LoopAction, busy: set<Fd>)
    requires Core(s, busy) && LoopNext(s, a).Some? && a.Register?
    ensures Core(LoopNext(s, a).value, LoopBusy(s, a, busy))
  {
  }

  lemma MarkKeeps(s: State, a: LoopAction, busy: set<Fd>)
    requires Core(s, busy) && LoopNext(s, a).Some? && a.Mark?
    ensures Core(LoopNext(s, a).value, LoopBusy(s, a, busy))
  {
  }

  lemma CheckKeeps(s: State, a: LoopAction, busy: set<Fd>)
    requires Core(s, busy) && LoopNext(s, a).Some? && a.Check?
    ensures Core(LoopNext(s, a).value, LoopBusy(s, a, busy))
  {
  }

  lemma OtherLoopKeeps(s: State, a: LoopAction, busy: set<Fd>)
    requires Core(s, busy) && LoopNext(s, a).Some? && !a.AcceptOk? && !a.Enqueue? && !a.Register? && !a.Mark? &&
             !a.Check?
    ensures Core(LoopNext(s, a).value, LoopBusy(s, a, busy))
  {
  }

  /** The other tasks are on other descriptors. */
  lemma OthersElsewhere(tasks: map<nat, Task>, id: nat)
    requires OneTaskPerFd(tasks) && id in tasks
    ensures forall k :: k in tasks && k != id ==> tasks[k].fd != tasks[id].fd
  {
  }

  /** Two states of the descriptor tables, or of the SSL table, that differ only at `fd`. */
  ghost predicate NetAgrees(net: Net, net': Net, fd: Fd) {
    net'.registry == net.registry && net'.conns == net.conns &&
    forall g :: g != fd ==>
      (g in net.mapped <==> g in net'.mapped) && (g in net.mapped ==> net'.mapped[g] == net.mapped[g]) &&
      (g in net.open <==> g in net'.open) && (g in net.open ==> net'.open[g] == net.open[g])
  }

  ghost predicate SslAgrees(ssl: Ssl, ssl': Ssl, fd: Fd) {
    forall g :: g != fd ==>
      (g in ssl.stored <==> g in ssl'.stored) &&
      (g in ssl.stored && ssl.stored[g] < |ssl.objects| ==>
        ssl'.stored[g] == ssl.stored[g] < |ssl'.objects| &&
        ssl'.objects[ssl.stored[g]] == ssl.objects[ssl.stored[g]])
  }

  /** One task moving, with changes at its own descriptor only, leaves the others in order. */
  lemma OneTaskMoves(s: State, s': State, id: nat, pc: TaskPc, busy: set<Fd>)
    requires TasksOk(s.tasks, s.net, s.ssl, busy) && id in s.tasks
    requires s'.tasks == s.tasks[id := s.tasks[id].(pc := pc)]
    requires NetAgrees(s.net, s'.net, s.tasks[id].fd) && SslAgrees(s.ssl, s'.ssl, s.tasks[id].fd)
    requires TaskNetOk(s'.net, s'.tasks[id]) && TaskSslOk(s'.ssl, s'.tasks[id])
    ensures TasksOk(s'.tasks, s'.net, s'.ssl, busy)
  {
    OthersElsewhere(s.tasks, id);
    forall k | k in s.tasks && k != id ensures TaskNetOk(s'.net, s'.tasks[k]) && TaskSslOk(s'.ssl, s'.tasks[k]) {
      assert s'.tasks[k] == s.tasks[k];
    }
  }

  lemma HandlerKeeps(s: State, id: nat, a: TaskAction, busy: set<Fd>)
    requires Core(s, busy) && TaskNext(s, id, a).Some? &&
             (a.Start? || a.HandlerReturns? || a.HandlerThrows? || a.TlsRefuse? || a.TlsReturns?)
    ensures Core(TaskNext(s, id, a).value, TaskBusy(s, id, a, busy))
  {
    var s' := TaskNext(s, id, a).value;
    OneTaskMoves(s, s', id, s'.tasks[id].pc, busy);
  }

  lemma TlsEnterStoredKeeps(s: State, id: nat, a: TaskAction, busy: set<Fd>)
    requires Core(s, busy) && TaskNext(s, id, a).Some? && a == TlsEnter && s.tasks[id].fd in s.ssl.stored
    ensures Core(TaskNext(s, id, a).value, TaskBusy(s, id, a, busy))
  {
    var s' := TaskNext(s, id, a).value;
    OneTaskMoves(s, s', id, s'.tasks[id].pc, busy);
  }

  lemma TlsEnterUnstoredKeeps(s: State, id: nat, a: TaskAction, busy: set<Fd>)
    requires Core(s, busy) && TaskNext(s, id, a).Some? && a == TlsEnter && s.tasks[id].fd !in s.ssl.stored
    ensures Core(TaskNext(s, id, a).value, TaskBusy(s, id, a, busy))
  {
    var s' := TaskNext(s, id, a).value;
    OneTaskMoves(s, s', id, s'.tasks[id].pc, busy);
  }

  lemma TlsFreeKeeps(s: State, id: nat, a: TaskAction, busy: set<Fd>)
    requires Core(s, busy) && TaskNext(s, id, a).Some? && a == TlsFree
    ensures Core(TaskNext(s, id, a).value, TaskBusy(s, id, a, busy))
  {
    var s' := TaskNext(s, id, a).value;
    OneTaskMoves(s, s', id, s'.tasks[id].pc, busy);
  }

  lemma TlsEraseKeeps(s: State, id: nat, a: TaskAction, busy: set<Fd>)
    requires Core(s, busy) && TaskNext(s, id, a).Some? && a == TlsErase
    ensures Core(TaskNext(s, id, a).value, TaskBusy(s, id, a, busy))
  {
    var s' := TaskNext(s, id, a).value;
    OneTaskMoves(s, s', id, Cleaning, busy);
  }

  lemma CleanSslStoredKeeps(s: State, id: nat, a: TaskAction, busy: set<Fd>)
    requires Core(s, busy) && TaskNext(s, id, a).Some? && a == CleanSsl && s.tasks[id].fd in s.ssl.stored
    ensures Core(TaskNext(s, id, a).value, TaskBusy(s, id, a, busy))
  {
    var s' := TaskNext(s, id, a).value;
    OneTaskMoves(s, s', id, Closing, busy);
  }

  lemma CleanSslUnstoredKeeps(s: State, id: nat, a: TaskAction, busy: set<Fd>)
    requires Core(s, busy) && TaskNext(s, id, a).Some? && a == CleanSsl && s.tasks[id].fd !in s.ssl.stored
    ensures Core(TaskNext(s, id, a).value, TaskBusy(s, id, a, busy))
  {
    var s' := TaskNext(s, id, a).value;
    OneTaskMoves(s, s', id, Closing, busy);
  }

  lemma CloseFdKeeps(s: State, id: nat, a: TaskAction, busy: set<Fd>)
    requires Core(s, busy) && TaskNext(s, id, a).Some? && a == CloseFd
    ensures Core(TaskNext(s, id, a).value, TaskBusy(s, id, a, busy))
  {
    var s' := TaskNext(s, id, a).value;
    OneTaskMoves(s, s', id, Unmapping, busy);
  }

  lemma UnmapKeeps(s: State, id: nat, a: TaskAction, busy: set<Fd>)
    requires Core(s, busy) && TaskNext(s, id, a).Some? && a == Unmap
    ensures Core(TaskNext(s, id, a).value, TaskBusy(s, id, a, busy))
  {
    var s' := TaskNext(s, id, a).value;
    OneTaskMoves(s, s', id, Finishing(true), busy);
  }

  lemma FinishKeeps(s: State, id: nat, a: TaskAction, busy: set<Fd>)
    requires Core(s, busy) && TaskNext(s, id, a).Some? && a == Finish
    ensures Core(TaskNext(s, id, a).value, TaskBusy(s, id, a, busy))
  {
    OthersElsewhere(s.tasks, id);
  }

  lemma InFlightIsBusy(s: State, fd: Fd)
    ensures InFlight(s, fd) <==> fd in Busy(s)
  {
  }

  lemma TaskMovesNobody(s: State, s': State)
    requires s'.tasks.Keys == s.tasks.Keys
    requires forall id :: id in s.tasks ==> s'.tasks[id].fd == s.tasks[id].fd
    ensures Busy(s') == Busy(s)
  {
    forall fd ensures fd in Busy(s') <==> fd in Busy(s) {
      if fd in Busy(s) { var id :| id in s.tasks && s.tasks[id].fd == fd; assert s'.tasks[id].fd == fd; }
      if fd in Busy(s') { var id :| id in s'.tasks && s'.tasks[id].fd == fd; assert s.tasks[id].fd == fd; }
    }
  }

  lemma EnqueueAdds(s: State, s': State, id: nat, t: Task)
    requires id !in s.tasks && s'.tasks == s.tasks[id := t]
    ensures Busy(s') == Busy(s) + {t.fd}
  {
    forall fd ensures fd in Busy(s') <==> fd in Busy(s) + {t.fd} {
      if fd in Busy(s) { var k :| k in s.tasks && s.tasks[k].fd == fd; assert s'.tasks[k].fd == fd; }
      assert s'.tasks[id].fd == t.fd;
    }
  }

  lemma FinishRemoves(s: State, s': State, id: nat)
    requires id in s.tasks && OneTaskPerFd(s.tasks) && s'.tasks == s.tasks - {id}
    ensures Busy(s') == Busy(s) - {s.tasks[id].fd}
  {
    forall fd ensures fd in Busy(s') <==> fd in Busy(s) - {s.tasks[id].fd} {
      if fd in Busy(s) && fd != s.tasks[id].fd {
        var k :| k in s.tasks && s.tasks[k].fd == fd;
        assert k in s'.tasks;
      }
    }
  }

  lemma LoopCoreKept(s: State, a: LoopAction, busy: set<Fd>)
    requires Core(s, busy) && LoopNext(s, a).Some? && (a.AcceptOk? && a.fd in busy ==> a.fd in s.working)
    ensures Core(LoopNext(s, a).value, LoopBusy(s, a, busy))
  {
    match a
    case AcceptOk(_) => AcceptKeeps(s, a, busy);
    case Enqueue(id) => EnqueueKeeps(s, a, busy);
    case Register => RegisterKeeps(s, a, busy);
    case Mark => MarkKeeps(s, a, busy);
    case Check => CheckKeeps(s, a, busy);
    case _ => OtherLoopKeeps(s, a, busy);
  }

  lemma LoopBusyKept(s: State, a: LoopAction)
    requires LoopNext(s, a).Some?
    ensures Busy(LoopNext(s, a).value) == LoopBusy(s, a, Busy(s))
    ensures a.AcceptOk? && a.fd in Busy(s) ==> a.fd in s.working
  {
    var s' := LoopNext(s, a).value;
    if a.Enqueue? { EnqueueAdds(s, s', a.id, s'.tasks[a.id]); } else { TaskMovesNobody(s, s'); }
    if a.AcceptOk? { InFlightIsBusy(s, a.fd); }
  }

  lemma TaskCoreKept(s: State, id: nat, a: TaskAction, busy: set<Fd>)
    requires Core(s, busy) && TaskNext(s, id, a).Some?
    ensures Core(TaskNext(s, id, a).value, TaskBusy(s, id, a, busy))
  {
    match a
    case TlsEnter =>
      if s.tasks[id].fd in s.ssl.stored { TlsEnterStoredKeeps(s, id, a, busy); }
        else { TlsEnterUnstoredKeeps(s, id, a, busy); }
    case CleanSsl =>
      if s.tasks[id].fd in s.ssl.stored { CleanSslStoredKeeps(s, id, a, busy); }
        else { CleanSslUnstoredKeeps(s, id, a, busy); }
    case TlsFree => TlsFreeKeeps(s, id, a, busy);
    case TlsErase => TlsEraseKeeps(s, id, a, busy);
    case CloseFd => CloseFdKeeps(s, id, a, busy);
    case Unmap => UnmapKeeps(s, id, a, busy);
    case Finish => FinishKeeps(s, id, a, busy);
    case _ => HandlerKeeps(s, id, a, busy);
  }

  lemma TaskBusyKept(s: State, id: nat, a: TaskAction)
    requires OneTaskPerFd(s.tasks) && TaskNext(s, id, a).Some?
    ensures Busy(TaskNext(s, id, a).value) == TaskBusy(s, id, a, Busy(s))
  {
    var s' := TaskNext(s, id, a).value;
    if a == Finish { FinishRemoves(s, s', id); } else { TaskMovesNobody(s, s'); }
  }

  lemma StepKeeps(s: State, a: Action)
    requires Inv(s) && Next(s, a).Some?
    ensures Inv(Next(s, a).value)
  {
    match a
    case Loop(step) => LoopBusyKept(s, step); LoopCoreKept(s, step, Busy(s));
    case Work(id, work) => TaskBusyKept(s, id, work); TaskCoreKept(s, id, work, Busy(s));
  }

  lemma RegistryKept(s: State, a: Action)
    requires Next(s, a).Some?
    ensures Next(s, a).value.net.registry == s.net.registry
  {
  }

  // ----- The main results, about every reachable state -----

  lemma ReachableKeepsInv(registry: map<Fd, Port>, listeners: set<Fd>, s: State)
    requires Reachable(registry, listeners, s)
    ensures Inv(s) && s.net.registry == registry
  {
    var actions :| Run(Next, Initial(registry, listeners), actions) == Some(s);
    var good := (t: State) => Inv(t) && t.net.registry == registry;
    forall t, a | good(t) && Next(t, a).Some? ensures good(Next(t, a).value) {
      StepKeeps(t, a);
      RegistryKept(t, a);
    }
    RunKeeps(Next, good, Initial(registry, listeners), actions);
  }

  /** Each descriptor has at most one queued or running task, and while it has one it is marked
      or no longer mapped: so the event loop cannot hand it over a second time. */
  lemma MutualExclusion(registry: map<Fd, Port>, listeners: set<Fd>, s: State)
    requires Reachable(registry, listeners, s)
    ensures forall i, j :: i in s.tasks && j in s.tasks && s.tasks[i].fd == s.tasks[j].fd ==> i == j
    ensures forall i :: i in s.tasks ==> s.tasks[i].fd in s.working || s.tasks[i].fd !in s.net.mapped
  {
    ReachableKeepsInv(registry, listeners, s);
  }

  /** A marker belongs to a task in flight or to the descriptor the event loop is processing; so
      none is left when nothing is going on. */
  lemma NoMarkerLeak(registry: map<Fd, Port>, listeners: set<Fd>, s: State)
    requires Reachable(registry, listeners, s)
    ensures forall fd :: fd in s.working ==> InFlight(s, fd) || LoopHolds(s.loop, fd)
    ensures s.loop == Waiting && s.tasks == map[] ==> s.working == {}
  {
    ReachableKeepsInv(registry, listeners, s);
    forall fd | fd in s.working && !LoopHolds(s.loop, fd) ensures InFlight(s, fd) {
      assert fd in Busy(s);
    }
    if s.loop == Waiting && s.tasks == map[] {
      assert Busy(s) == {};
      assert forall fd :: fd !in s.working;
    }
  }

  /** The second look into client_map_port always finds the descriptor: its else-branch is dead. */
  lemma SecondLookUpSucceeds(registry: map<Fd, Port>, listeners: set<Fd>, s: State, fd: Fd)
    requires Reachable(registry, listeners, s) && s.loop == LookingUp(fd)
    ensures fd in s.net.mapped && OnListenerPort(s.net, fd, s.net.mapped[fd])
  {
    ReachableKeepsInv(registry, listeners, s);
  }

  /** An SSL object is freed at most once, and exactly once by the time its connection's
      descriptor is closed. */
  lemma FreedExactlyOnce(registry: map<Fd, Port>, listeners: set<Fd>, s: State, x: nat)
    requires Reachable(registry, listeners, s) && x < |s.ssl.objects|
    ensures s.ssl.objects[x].frees <= 1
    ensures (forall fd :: fd in s.net.open ==> s.net.open[fd] != s.ssl.objects[x].conn) ==> s.ssl.objects[x].frees == 1
  {
    ReachableKeepsInv(registry, listeners, s);
  }

  /** A handler works on a live SSL object made for its own connection, which is still the one on
      its descriptor: never on an object of an earlier connection with the same number. */
  lemma TlsObjectIsOwn(registry: map<Fd, Port>, listeners: set<Fd>, s: State, id: nat, x: nat)
    requires Reachable(registry, listeners, s) && id in s.tasks && s.tasks[id].pc == Tls(x)
    ensures x < |s.ssl.objects| && s.ssl.objects[x].frees == 0
    ensures s.ssl.objects[x].conn == s.tasks[id].conn
    ensures s.tasks[id].fd in s.net.open && s.net.open[s.tasks[id].fd] == s.tasks[id].conn
  {
    ReachableKeepsInv(registry, listeners, s);
  }

  /** Every handler call gets the port registered for the listener that accepted its connection. */
  lemma PortAffinity(registry: map<Fd, Port>, listeners: set<Fd>, s: State, i: nat)
    requires Reachable(registry, listeners, s) && i < |s.calls|
    ensures s.calls[i].conn < |s.net.conns|
    ensures s.calls[i].port == GetPort(registry, s.net.conns[s.calls[i].conn].listener)
  {
    ReachableKeepsInv(registry, listeners, s);
  }
}
