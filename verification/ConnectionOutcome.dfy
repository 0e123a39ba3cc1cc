/** What a handler's outcome decides: which connections a task keeps, and which it closes. */
module ConnectionOutcome {
  import opened Prelude
  import opened ConnectionDispatch
  import opened ConnectionSafety

  /** Whether a step ends the handler, and if so, whether the connection is to be kept. */
  function Verdict(a: TaskAction): Option<bool> {
    match a
    case HandlerReturns(keepAlive) => Some(keepAlive)
    case TlsReturns(keepAlive) => Some(keepAlive)
    case HandlerThrows => Some(false)
    case TlsRefuse => Some(false)
    case TlsFree => Some(false)
    case _ => None
  }

  predicate NoFinish(actions: seq<Action>, id: nat) {
    forall i :: 0 <= i < |actions| ==> actions[i] != Work(id, Finish)
  }

  predicate IsOpen(net: Net, fd: Fd, conn: nat) {
    fd in net.open && net.open[fd] == conn
  }

  predicate ClosedForGood(net: Net, conn: nat) {
    conn < |net.conns| && forall fd :: fd in net.open ==> net.open[fd] != conn
  }

  /** The task has been told to keep its connection, or is on the way to closing it. */
  ghost predicate Heading(s: State, id: nat, t: Task, keep: bool) {
    id in s.tasks && s.tasks[id].fd == t.fd && s.tasks[id].conn == t.conn && s.tasks[id].port == t.port &&
    match s.tasks[id].pc
    case Finishing(closed) => closed == !keep && (closed ==> ClosedForGood(s.net, t.conn))
    case Unmapping => !keep && ClosedForGood(s.net, t.conn)
    case Cleaning => !keep
    case Closing => !keep
    case Erasing(_) => !keep
    case _ => false
  }

  lemma VerdictHeads(s: State, id: nat, a: TaskAction)
    requires TaskNext(s, id, a).Some? && Verdict(a).Some?
    ensures Heading(TaskNext(s, id, a).value, id, s.tasks[id], Verdict(a).value)
  {
  }

  lemma OthersKeepHeading(s: State, id: nat, t: Task, keep: bool, other: nat, a: TaskAction)
    requires Heading(s, id, t, keep) && TaskNext(s, other, a).Some? && other != id
    ensures Heading(TaskNext(s, other, a).value, id, t, keep)
  {
  }

  /** Open descriptors have different connections. */
  lemma OwnStepKeepsHeading(s: State, id: nat, t: Task, keep: bool, a: TaskAction)
    requires Inv(s) && Heading(s, id, t, keep) && TaskNext(s, id, a).Some? && a != Finish
    ensures Heading(TaskNext(s, id, a).value, id, t, keep)
  {
    assert TaskNetOk(s.net, s.tasks[id]);
  }

  lemma LoopKeepsHeading(s: State, id: nat, t: Task, keep: bool, a: LoopAction)
    requires Heading(s, id, t, keep) && LoopNext(s, a).Some?
    ensures Heading(LoopNext(s, a).value, id, t, keep)
  {
  }

  lemma {:induction false} RunKeepsHeading(s: State, id: nat, t: Task, keep: bool, actions: seq<Action>)
    requires Inv(s) && Heading(s, id, t, keep) && NoFinish(actions, id) && Run(Next, s, actions).Some?
    ensures Inv(Run(Next, s, actions).value) && Heading(Run(Next, s, actions).value, id, t, keep)
    decreases |actions|
  {
    if actions != [] {
      StepKeeps(s, actions[0]);
      match actions[0] {
        case Loop(step) => LoopKeepsHeading(s, id, t, keep, step);
        case Work(k, work) =>
          if k == id { OwnStepKeepsHeading(s, id, t, keep, work); } else { OthersKeepHeading(s, id, t, keep, k, work); }
      }
      RunKeepsHeading(Next(s, actions[0]).value, id, t, keep, actions[1..]);
    }
  }

  lemma FinishDecides(s: State, id: nat, t: Task, keep: bool)
    requires Inv(s) && Heading(s, id, t, keep) && TaskNext(s, id, Finish).Some?
    ensures var s' := TaskNext(s, id, Finish).value;
            t.fd !in s'.working && (IsOpen(s'.net, t.fd, t.conn) <==> keep) &&
            (keep ==> t.fd in s'.net.mapped && s'.net.mapped[t.fd] == t.port) &&
            (!keep ==> ClosedForGood(s'.net, t.conn) && (t.fd in s'.net.mapped ==> t.fd in s'.net.open))
  {
    assert TaskNetOk(s.net, s.tasks[id]);
  }

  /** In every run that begins with the end of a handler and ends with the end of its task, whatever
      happens in between, the connection is open afterwards if and only if the handler wanted it kept.
      If so, its descriptor is mapped to its port and unmarked. If not, no descriptor is open for it, and
      if its descriptor is mapped, it is open for a later connection. */
  lemma {:induction false} OutcomeDecides(registry: map<Fd, Port>, listeners: set<Fd>, s: State, id: nat,
                                          outcome: TaskAction, between: seq<Action>)
    requires Reachable(registry, listeners, s) && TaskNext(s, id, outcome).Some? && Verdict(outcome).Some?
    requires NoFinish(between, id)
    requires Run(Next, s, [Work(id, outcome)] + between + [Work(id, Finish)]).Some?
    ensures var t := s.tasks[id]; var keep := Verdict(outcome).value;
            var s' := Run(Next, s, [Work(id, outcome)] + between + [Work(id, Finish)]).value;
            t.fd !in s'.working && (IsOpen(s'.net, t.fd, t.conn) <==> keep) &&
            (keep ==> t.fd in s'.net.mapped && s'.net.mapped[t.fd] == t.port) &&
            (!keep ==> ClosedForGood(s'.net, t.conn) && (t.fd in s'.net.mapped ==> t.fd in s'.net.open))
  {
    var t, keep := s.tasks[id], Verdict(outcome).value;
    ReachableKeepsInv(registry, listeners, s);
    StepKeeps(s, Work(id, outcome));
    VerdictHeads(s, id, outcome);
    RunInThree(s, Work(id, outcome), between, Work(id, Finish));
    var ended := TaskNext(s, id, outcome).value;
    RunKeepsHeading(ended, id, t, keep, between);
    FinishDecides(Run(Next, ended, between).value, id, t, keep);
  }

  lemma RunInThree(s: State, first: Action, between: seq<Action>, last: Action)
    requires Run(Next, s, [first] + between + [last]).Some?
    ensures Next(s, first).Some? && Run(Next, Next(s, first).value, between).Some?
    ensures Next(Run(Next, Next(s, first).value, between).value, last) ==
            Run(Next, s, [first] + between + [last])
  {
    assert ([first] + between + [last])[0] == first && ([first] + between + [last])[1..] == between + [last];
    RunPrefix(Next(s, first).value, between, last);
  }

  lemma {:induction false} RunPrefix(s: State, actions: seq<Action>, last: Action)
    requires Run(Next, s, actions + [last]).Some?
    ensures Run(Next, s, actions).Some? && Run(Next, s, actions + [last]) == Next(Run(Next, s, actions).value, last)
    decreases |actions|
  {
    if actions == [] {
      assert [] + [last] == [last];
      RunOne(Next, s, last);
    } else {
      assert (actions + [last])[0] == actions[0] && (actions + [last])[1..] == actions[1..] + [last];
      RunPrefix(Next(s, actions[0]).value, actions[1..], last);
    }
  }

  // ----- Every task can come to its end, and every kept connection can be served again -----

  predicate ByTask(actions: seq<Action>, id: nat) {
    forall i :: 0 <= i < |actions| ==> actions[i].Work? && actions[i].id == id
  }

  function StepsLeft(pc: TaskPc): nat {
    match pc
    case Queued => 8
    case Handling => 7
    case Tls(_) => 6
    case Erasing(_) => 5
    case Cleaning => 4
    case Closing => 3
    case Unmapping => 2
    case Finishing(_) => 1
  }

  /** Every step of a task brings it nearer its end: it cannot go on for ever, whatever its handler does. */
  lemma TaskStepsAreFew(s: State, id: nat, a: TaskAction)
    requires TaskNext(s, id, a).Some?
    ensures var s' := TaskNext(s, id, a).value;
            if a == Finish then s'.tasks == s.tasks - {id}
            else id in s'.tasks && StepsLeft(s'.tasks[id].pc) < StepsLeft(s.tasks[id].pc)
  {
  }

  /** How many steps the event loop may need to come back to epoll_wait. */
  function LoopStepsLeft(loop: LoopPc): nat {
    match loop
    case Waiting => 0
    case Accepting(_) => 2
    case Registering(_, _) => 1
    case Marking(_) => 4
    case Checking(_, _) => 3
    case LookingUp(_) => 2
    case Unmarking(_) => 1
    case Enqueueing(_, _) => 1
  }

  /** Every step of the event loop after an event brings it nearer epoll_wait, whatever `accept` answers, */
  lemma LoopStepsAreFew(s: State, a: LoopAction)
    requires s.loop != Waiting && LoopNext(s, a).Some?
    ensures LoopStepsLeft(LoopNext(s, a).value.loop) < LoopStepsLeft(s.loop)
  {
  }

  /** and there is always one: so it comes back. */
  lemma {:induction false} LoopComesBack(s: State) returns (steps: seq<Action>)
    ensures forall i :: 0 <= i < |steps| ==> steps[i].Loop?
    ensures Run(Next, s, steps).Some? && Run(Next, s, steps).value.loop == Waiting
    decreases LoopStepsLeft(s.loop)
  {
    if s.loop == Waiting {
      steps := [];
    } else {
      var id := Bound(s.tasks.Keys);
      var a := match s.loop
        case Accepting(_) => AcceptFail
        case Registering(_, _) => Register
        case Marking(_) => Mark
        case Checking(_, _) => Check
        case LookingUp(_) => LookUp
        case Unmarking(_) => Unmark
        case _ => Enqueue(id);
      LoopStepsAreFew(s, a);
      var later := LoopComesBack(LoopNext(s, a).value);
      steps := [Loop(a)] + later;
      assert steps[0] == Loop(a) && steps[1..] == later;
    }
  }

  /** Next comes the task's only possible step, if its handler has ended; before, its handler fails. */
  function TowardsEnd(pc: TaskPc): TaskAction {
    match pc
    case Queued => Start
    case Handling => HandlerThrows
    case Tls(_) => TlsReturns(false)
    case Erasing(_) => TlsErase
    case Cleaning => CleanSsl
    case Closing => CloseFd
    case Unmapping => Unmap
    case Finishing(_) => Finish
  }

  /** From any state, a task comes to its end by its own steps alone, the last of them its only `Finish`. */
  lemma {:induction false} TaskCanFinish(s: State, id: nat) returns (actions: seq<Action>)
    requires id in s.tasks
    ensures ByTask(actions, id) && NoFinish(actions, id)
    ensures Run(Next, s, actions + [Work(id, Finish)]).Some?
    decreases StepsLeft(s.tasks[id].pc)
  {
    var a := TowardsEnd(s.tasks[id].pc);
    var s' := TaskNext(s, id, a).value;
    if a == Finish {
      actions := [];
      assert [] + [Work(id, Finish)] == [Work(id, Finish)];
      RunOne(Next, s, Work(id, Finish));
    } else {
      var later := TaskCanFinish(s', id);
      actions := [Work(id, a)] + later;
      assert (actions + [Work(id, Finish)])[0] == Work(id, a);
      assert (actions + [Work(id, Finish)])[1..] == later + [Work(id, Finish)];
    }
  }

  /** How the handler of a task may end, by where the task stands: only a connection without a stored SSL
      object can be refused. */
  predicate MayEndWith(s: State, id: nat, outcome: TaskAction) {
    id in s.tasks &&
    match s.tasks[id].pc
    case Handling => outcome.HandlerReturns? || outcome.HandlerThrows? ||
                     (outcome.TlsRefuse? && s.tasks[id].fd !in s.ssl.stored)
    case Tls(_) => outcome.TlsReturns? || outcome.TlsFree?
    case _ => false
  }

  /** It ends in these ways and no others, and each time the task can then come to its end. */
  lemma OutcomesIff(s: State, id: nat, outcome: TaskAction)
    requires Verdict(outcome).Some?
    ensures MayEndWith(s, id, outcome) <==>
            exists between ::
              NoFinish(between, id) && Run(Next, s, [Work(id, outcome)] + between + [Work(id, Finish)]).Some?
  {
    if MayEndWith(s, id, outcome) {
      var between := TaskCanFinish(TaskNext(s, id, outcome).value, id);
      var all := [Work(id, outcome)] + between + [Work(id, Finish)];
      assert all[0] == Work(id, outcome) && all[1..] == between + [Work(id, Finish)];
    } else {
      forall between ensures Run(Next, s, [Work(id, outcome)] + between + [Work(id, Finish)]).None? {
        assert ([Work(id, outcome)] + between + [Work(id, Finish)])[0] == Work(id, outcome);
      }
    }
  }

  /** Before that, a handler is called once, with its connection, still open, and its listener's port. */
  lemma StartServesTheConnection(registry: map<Fd, Port>, listeners: set<Fd>, s: State, id: nat)
    requires Reachable(registry, listeners, s) && TaskNext(s, id, Start).Some?
    ensures var t := s.tasks[id];
            IsOpen(s.net, t.fd, t.conn) && t.conn < |s.net.conns| &&
            TaskNext(s, id, Start).value.calls ==
            s.calls + [Call(t.conn, GetPort(registry, s.net.conns[t.conn].listener))]
  {
    ReachableKeepsInv(registry, listeners, s);
    assert TaskNetOk(s.net, s.tasks[id]);
  }

  /** One more step of the event loop. */
  lemma LoopStep(start: State, actions: seq<Action>, s: State, a: LoopAction) returns (actions': seq<Action>, s': State)
    requires Run(Next, start, actions) == Some(s) && LoopNext(s, a).Some?
    ensures Run(Next, start, actions') == Some(s') && LoopNext(s, a) == Some(s')
  {
    RunSnoc(Next, start, actions, Loop(a));
    actions', s' := actions + [Loop(a)], LoopNext(s, a).value;
  }

  /** An event for a mapped and unmarked descriptor gets past both checks, */
  lemma EventIsNoticed(s: State, fd: Fd) returns (actions: seq<Action>, s': State)
    requires s.loop == Waiting && fd !in s.net.listeners && fd in s.net.mapped && fd !in s.working
    ensures Run(Next, s, actions) == Some(s') && s' == s.(loop := LookingUp(fd), working := s.working + {fd})
  {
    assert Run(Next, s, []) == Some(s);
    actions, s' := LoopStep(s, [], s, ClientEvent(fd));
    actions, s' := LoopStep(s, actions, s', Mark);
    actions, s' := LoopStep(s, actions, s', Check);
  }

  /** and is handed over to a new task for its connection: so a kept connection can be served again. */
  lemma EventIsHandedOver(s: State, fd: Fd, id: nat) returns (actions: seq<Action>, s': State)
    requires s.loop == Waiting && fd !in s.net.listeners && fd in s.net.mapped && fd !in s.working && id !in s.tasks
    ensures Run(Next, s, actions) == Some(s')
    ensures s' == s.(working := s.working + {fd},
                     tasks := s.tasks[id := Task(fd, s.net.mapped[fd], ConnOf(s.net, fd), Queued)])
  {
    actions, s' := EventIsNoticed(s, fd);
    actions, s' := LoopStep(s, actions, s', LookUp);
    actions, s' := LoopStep(s, actions, s', Enqueue(id));
  }
}
