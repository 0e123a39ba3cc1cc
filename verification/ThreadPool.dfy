/**
  The worker pool of Core/mstd/threadPool.hpp: any number of workers, any number of threads calling
  `enqueue`, and the destructor, one step per access to shared state. `stop` is set without the
  mutex; a sleeping worker may wake spuriously.
*/
module ThreadPool {
  import opened Prelude

  type Task = int

  datatype WorkerPc =
    | Acquiring            // outside the mutex, on the way to (re)acquire it
    | Testing              // holds the mutex, about to test the wait predicate
    | Dozing               // holds the mutex, found the predicate false, about to release it and sleep
    | Sleeping             // asleep on the condition
    | Deciding             // holds the mutex, past the wait
    | Popping              // holds the mutex, about to take a task
    | Running(task: Task)
    | Returned

  /** A thread inside `enqueue`. */
  datatype ClientPc =
    | Locking(task: Task)
    | Checking(task: Task) // holds the mutex, about to read stop
    | Pushing(task: Task)  // holds the mutex
    | Notifying            // has released the mutex, about to call notify_one

  datatype DestructorPc = NotStarted | NotifyingAll | Joining | Joined

  datatype Holder = Nobody | Worker(i: nat) | Client(c: nat)

  datatype State = State(
    tasks: seq<Task>,
    stop: bool,
    holder: Holder,
    workers: seq<WorkerPc>,
    clients: map<nat, ClientPc>,
    destructor: DestructorPc,
    // History, read by no step:
    accepted: seq<Task>,   // pushed, in order
    popped: seq<Task>,     // taken from the queue, in order
    ran: seq<Task>)        // run to the end, in order of ending

  datatype WorkerAction = LockQueue | Test | Sleep | SpuriousWake | Decide | Pop | RunEnds

  datatype ClientAction = Call(task: Task) | LockToPush | CheckStop | Push | NotifyOne(woken: Option<nat>)

  datatype DestructorAction = SetStop | NotifyAll | JoinAll

  datatype Action =
    | Work(i: nat, work: WorkerAction)
    | Enqueue(c: nat, step: ClientAction)
    | Destroy(move: DestructorAction)

  function Initial(n: nat): State {
    State([], false, Nobody, seq(n, i => Acquiring), map[], NotStarted, [], [], [])
  }

  function WakeAll(workers: seq<WorkerPc>): seq<WorkerPc> {
    seq(|workers|, i requires 0 <= i < |workers| => if workers[i].Sleeping? then Acquiring else workers[i])
  }

  predicate AllReturned(s: State) {
    forall i :: 0 <= i < |s.workers| ==> s.workers[i].Returned?
  }

  predicate NobodySleeps(workers: seq<WorkerPc>) {
    forall i :: 0 <= i < |workers| ==> !workers[i].Sleeping?
  }

  function WorkerNext(s: State, i: nat, a: WorkerAction): Option<State> {
    if i >= |s.workers| then None else
    match (s.workers[i], a)
    case (Acquiring, LockQueue) =>
      if s.holder != Nobody then None else Some(s.(holder := Worker(i), workers := s.workers[i := Testing]))
    case (Testing, Test) =>
      Some(s.(workers := s.workers[i := if s.stop || s.tasks != [] then Deciding else Dozing]))
    case (Dozing, Sleep) =>
      Some(s.(holder := Nobody, workers := s.workers[i := Sleeping]))
    case (Sleeping, SpuriousWake) =>
      Some(s.(workers := s.workers[i := Acquiring]))
    case (Deciding, Decide) =>
      if s.stop && s.tasks == [] then Some(s.(holder := Nobody, workers := s.workers[i := Returned]))
      else Some(s.(workers := s.workers[i := Popping]))
    case (Popping, Pop) =>
      if s.tasks == [] then None
      else Some(s.(tasks := s.tasks[1..], holder := Nobody, workers := s.workers[i := Running(s.tasks[0])],
                   popped := s.popped + [s.tasks[0]]))
    case (Running(t), RunEnds) =>
      Some(s.(workers := s.workers[i := Acquiring], ran := s.ran + [t]))
    case _ => None
  }

  function ClientNext(s: State, c: nat, a: ClientAction): Option<State> {
    if c !in s.clients then
      match a
      case Call(t) => Some(s.(clients := s.clients[c := Locking(t)]))
      case _ => None
    else match (s.clients[c], a)
      case (Locking(t), LockToPush) =>
        if s.holder != Nobody then None else Some(s.(holder := Client(c), clients := s.clients[c := Checking(t)]))
      case (Checking(t), CheckStop) =>
        // A stopped pool throws; the lock is released on the way out.
        if s.stop then Some(s.(holder := Nobody, clients := s.clients - {c}))
        else Some(s.(clients := s.clients[c := Pushing(t)]))
      case (Pushing(t), Push) =>
        Some(s.(tasks := s.tasks + [t], holder := Nobody, clients := s.clients[c := Notifying],
                accepted := s.accepted + [t]))
      case (Notifying, NotifyOne(woken)) =>
        // notify_one wakes one sleeper, whichever, if there is one.
        if woken.Some? && woken.value < |s.workers| && s.workers[woken.value].Sleeping? then
          Some(s.(workers := s.workers[woken.value := Acquiring], clients := s.clients - {c}))
        else if woken.None? && NobodySleeps(s.workers) then Some(s.(clients := s.clients - {c}))
        else None
      case _ => None
  }

  function DestructorNext(s: State, a: DestructorAction): Option<State> {
    match (s.destructor, a)
    case (NotStarted, SetStop) => Some(s.(stop := true, destructor := NotifyingAll))
    case (NotifyingAll, NotifyAll) => Some(s.(workers := WakeAll(s.workers), destructor := Joining))
    case (Joining, JoinAll) => if AllReturned(s) then Some(s.(destructor := Joined)) else None
    case _ => None
  }

  function Next(s: State, a: Action): Option<State> {
    match a
    case Work(i, work) => WorkerNext(s, i, work)
    case Enqueue(c, step) => ClientNext(s, c, step)
    case Destroy(move) => DestructorNext(s, move)
  }

  /** The same pool with no spurious wake-ups. */
  function StrictNext(s: State, a: Action): Option<State> {
    if a.Work? && a.work.SpuriousWake? then None else Next(s, a)
  }

  ghost predicate Reachable(n: nat, s: State) {
    exists actions :: Run(Next, Initial(n), actions) == Some(s)
  }
}
