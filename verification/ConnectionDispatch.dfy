/**
  The event loop, its worker tasks and the TLS object table of one server process, as a
  transition system with one step per critical section or system call
  (Core/mstd/EpollManager.hpp, Core/protocols/https.hpp).

  Nothing is assumed about epoll: an event may name any descriptor at any time, however stale.
  Nothing is assumed about the pool: any queued task may start at any time.
  The one assumption about the kernel is in the guard of `AcceptOk`.
*/
module ConnectionDispatch {
  import opened Prelude

  type Fd = int
  type Port = int

  /** One successful `accept`; its position in `State.conns` identifies the connection. */
  datatype Conn = Conn(fd: Fd, listener: Fd)

  /** An SSL object, made for connection `conn` and passed `frees` times to SSL_free. */
  datatype SslObject = SslObject(conn: nat, frees: nat)

  /** A call of handle_connection: the connection served and the port passed. */
  datatype Call = Call(conn: nat, port: Port)

  /** Where the event loop stands between two of its steps. */
  datatype LoopPc =
    | Waiting
    | Accepting(listener: Fd)
    | Registering(fd: Fd, port: Port)
    | Marking(fd: Fd)
    | Checking(fd: Fd, skip: bool)
    | Unmarking(fd: Fd)
    | LookingUp(fd: Fd)
    | Enqueueing(fd: Fd, port: Port)

  /** Where a task stands: queued, in its handler, holding an SSL object, or in its clean-up. */
  datatype TaskPc =
    | Queued
    | Handling
    | Tls(ssl: nat)
    | Erasing(ssl: nat)
    | Cleaning
    | Closing
    | Unmapping
    | Finishing(closed: bool)

  datatype Task = Task(fd: Fd, port: Port, conn: nat, pc: TaskPc)

  /** Descriptors and ports. */
  datatype Net = Net(
    registry: map<Fd, Port>,   // FdPortRegistry, filled before the loop starts
    listeners: set<Fd>,        // server_fds: the listeners added to epoll
    mapped: map<Fd, Port>,     // client_map_port
    open: map<Fd, nat>,        // the kernel's client descriptors, each with its connection
    conns: seq<Conn>)

  /** ssl_map and every SSL object ever made. */
  datatype Ssl = Ssl(stored: map<Fd, nat>, objects: seq<SslObject>)

  datatype State = State(
    loop: LoopPc,
    working: set<Fd>,          // working_fds
    tasks: map<nat, Task>,     // queued or running
    net: Net,
    ssl: Ssl,
    calls: seq<Call>)

  /** A step of the event-loop thread. */
  datatype LoopAction =
    | ListenerEvent(listener: Fd)
    | ClientEvent(fd: Fd)
    | AcceptFail
    | AcceptOk(fd: Fd)
    | Register
    | Mark
    | Check
    | Unmark
    | LookUp
    | Enqueue(id: nat)

  /** A step of a worker. */
  datatype TaskAction =
    | Start
    | HandlerReturns(keepAlive: bool)
    | HandlerThrows
    | TlsEnter
    | TlsRefuse
    | TlsReturns(keepAlive: bool)
    | TlsFree
    | TlsErase
    | CleanSsl
    | CloseFd
    | Unmap
    | Finish

  datatype Action = Loop(step: LoopAction) | Work(id: nat, work: TaskAction)

  function GetPort(registry: map<Fd, Port>, fd: Fd): Port {
    if fd in registry then registry[fd] else -1
  }

  /** The connection on `fd`; one past the last connection when `fd` is not open. */
  function ConnOf(net: Net, fd: Fd): nat {
    if fd in net.open then net.open[fd] else |net.conns|
  }

  predicate InFlight(s: State, fd: Fd) {
    exists id :: id in s.tasks && s.tasks[id].fd == fd
  }

  function Initial(registry: map<Fd, Port>, listeners: set<Fd>): State {
    State(Waiting, {}, map[], Net(registry, listeners, map[], map[], []), Ssl(map[], []), [])
  }

  function At(s: State, id: nat, pc: TaskPc): State
    requires id in s.tasks
  {
    s.(tasks := s.tasks[id := s.tasks[id].(pc := pc)])
  }

  function FreeObject(objects: seq<SslObject>, x: nat): seq<SslObject> {
    if x < |objects| then objects[x := objects[x].(frees := objects[x].frees + 1)] else objects
  }

  /** `accept` returns a descriptor that is not open, nor a listener. */
  predicate Closed(s: State, fd: Fd) {
    fd !in s.net.listeners && fd !in s.net.open
  }

  /** The state after `accept` on listener `l` has returned `fd`. */
  function Accepted(s: State, l: Fd, fd: Fd): State {
    s.(loop := Registering(fd, GetPort(s.net.registry, l)),
       net := s.net.(open := s.net.open[fd := |s.net.conns|], conns := s.net.conns + [Conn(fd, l)]))
  }

  /** Steps of the event-loop thread. */
  function LoopNext(s: State, a: LoopAction): Option<State> {
    match (s.loop, a)
    case (Waiting, ListenerEvent(l)) =>
      if l in s.net.listeners then Some(s.(loop := Accepting(l))) else None
    case (Waiting, ClientEvent(fd)) =>
      if fd in s.net.listeners then None else Some(s.(loop := Marking(fd)))
    case (Accepting(_), AcceptFail) =>
      Some(s.(loop := Waiting))
    case (Accepting(l), AcceptOk(fd)) =>
      // The kernel returns a descriptor that is not open. The assumption: nor one whose closing task
      // has still to finish, unless its marker is still there.
      if !Closed(s, fd) || (InFlight(s, fd) && fd !in s.working) then None
      else Some(Accepted(s, l, fd))
    case (Registering(fd, port), Register) =>
      Some(s.(loop := Waiting, net := s.net.(mapped := s.net.mapped[fd := port])))
    case (Marking(fd), Mark) =>
      if fd in s.working then Some(s.(loop := Checking(fd, true)))
      else Some(s.(loop := Checking(fd, false), working := s.working + {fd}))
    case (Checking(fd, skip), Check) =>
      if fd !in s.net.mapped then Some(s.(loop := Unmarking(fd)))
      else if skip then Some(s.(loop := Waiting))
      else Some(s.(loop := LookingUp(fd)))
    case (Unmarking(fd), Unmark) =>
      Some(s.(loop := Waiting, working := s.working - {fd}))
    case (LookingUp(fd), LookUp) =>
      if fd in s.net.mapped then Some(s.(loop := Enqueueing(fd, s.net.mapped[fd])))
      else Some(s.(loop := Unmarking(fd)))
    case (Enqueueing(fd, port), Enqueue(id)) =>
      if id in s.tasks then None
      else Some(s.(loop := Waiting, tasks := s.tasks[id := Task(fd, port, ConnOf(s.net, fd), Queued)]))
    case _ => None
  }

  /** Steps of a worker running task `id`. */
  function TaskNext(s: State, id: nat, a: TaskAction): Option<State> {
    if id !in s.tasks then None else
    var t := s.tasks[id];
    match (t.pc, a)
    case (Queued, Start) =>
      Some(At(s, id, Handling).(calls := s.calls + [Call(t.conn, t.port)]))
    case (Handling, HandlerReturns(keepAlive)) =>
      Some(At(s, id, if keepAlive then Finishing(false) else Cleaning))
    case (Handling, HandlerThrows) =>
      Some(At(s, id, Cleaning))
    case (Handling, TlsEnter) =>
      // One critical section: reuse the object stored for the descriptor, or make and store one.
      if t.fd in s.ssl.stored then Some(At(s, id, Tls(s.ssl.stored[t.fd])))
      else Some(At(s, id, Tls(|s.ssl.objects|)).(
                  ssl := Ssl(s.ssl.stored[t.fd := |s.ssl.objects|], s.ssl.objects + [SslObject(t.conn, 0)])))
    case (Handling, TlsRefuse) =>
      // No stored object and the peeked byte is not a handshake.
      if t.fd in s.ssl.stored then None else Some(At(s, id, Cleaning))
    case (Tls(_), TlsReturns(keepAlive)) =>
      // Handshake unfinished, read unfinished or keep-alive; or accept failed, or an exception.
      Some(At(s, id, if keepAlive then Finishing(false) else Cleaning))
    case (Tls(x), TlsFree) =>
      Some(At(s, id, Erasing(x)).(ssl := s.ssl.(objects := FreeObject(s.ssl.objects, x))))
    case (Erasing(_), TlsErase) =>
      Some(At(s, id, Cleaning).(ssl := s.ssl.(stored := s.ssl.stored - {t.fd})))
    case (Cleaning, CleanSsl) =>
      if t.fd in s.ssl.stored then
        Some(At(s, id, Closing).(
               ssl := Ssl(s.ssl.stored - {t.fd}, FreeObject(s.ssl.objects, s.ssl.stored[t.fd]))))
      else Some(At(s, id, Closing))
    case (Closing, CloseFd) =>
      Some(At(s, id, Unmapping).(net := s.net.(open := s.net.open - {t.fd})))
    case (Unmapping, Unmap) =>
      Some(At(s, id, Finishing(true)).(net := s.net.(mapped := s.net.mapped - {t.fd})))
    case (Finishing(_), Finish) =>
      Some(s.(tasks := s.tasks - {id}, working := s.working - {t.fd}))
    case _ => None
  }

  function Next(s: State, a: Action): Option<State> {
    match a
    case Loop(step) => LoopNext(s, step)
    case Work(id, work) => TaskNext(s, id, work)
  }

  /** The event loop on a kernel that reuses a descriptor as soon as it is closed. */
  function LooseLoopNext(s: State, a: LoopAction): Option<State> {
    if s.loop.Accepting? && a.AcceptOk? then
      if Closed(s, a.fd) then Some(Accepted(s, s.loop.listener, a.fd)) else None
    else LoopNext(s, a)
  }

  function LooseNext(s: State, a: Action): Option<State> {
    match a
    case Loop(step) => LooseLoopNext(s, step)
    case Work(id, work) => TaskNext(s, id, work)
  }

  ghost predicate Reachable(registry: map<Fd, Port>, listeners: set<Fd>, s: State) {
    exists actions :: Run(Next, Initial(registry, listeners), actions) == Some(s)
  }
}
