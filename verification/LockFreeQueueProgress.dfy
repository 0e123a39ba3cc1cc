/** What one thread gets done by its own steps, from any reachable state of the queue. */
module LockFreeQueueProgress {
  import opened Prelude
  import opened LockFreeQueue
  import opened LockFreeQueueSafety

  /** One more step. */
  lemma Do(start: State, actions: seq<Action>, s: State, a: Action) returns (actions': seq<Action>, s': State)
    requires Run(Next, start, actions) == Some(s) && Next(s, a).Some?
    ensures Run(Next, start, actions') == Some(s') && actions' == actions + [a] && Next(s, a) == Some(s')
  {
    RunSnoc(Next, start, actions, a);
    actions', s' := actions + [a], Next(s, a).value;
  }

  predicate ByConsumer(actions: seq<Action>) {
    forall i :: 0 <= i < |actions| ==> actions[i].Consume?
  }

  predicate ByProducer(actions: seq<Action>, p: nat) {
    forall i :: 0 <= i < |actions| ==> actions[i].Produce? && actions[i].producer == p
  }

  /** The dummy `h` is not the last node, and links to `n`. */
  predicate FirstIs(s: State, h: Addr, n: Addr) {
    s.tail != h && h in s.heap && n in s.heap && s.heap[h].next == Some(n) && s.chain != []
  }

  /** The first four steps bring the consumer past its CAS. */
  lemma HeadIsTaken(start: State, h: Addr, n: Addr) returns (actions: seq<Action>, s: State)
    requires FirstIs(start, h, n) && start.consumer == Out && start.head == Some(h)
    ensures Run(Next, start, actions) == Some(s) && ByConsumer(actions)
    ensures s == start.(consumer := Recheck(h), head := Some(n))
  {
    assert Run(Next, start, []) == Some(start);
    actions, s := Do(start, [], start, Consume(BeginDequeue));
    actions, s := Do(start, actions, s, Consume(TestEmpty));
    actions, s := Do(start, actions, s, Consume(LoadNext));
    actions, s := Do(start, actions, s, Consume(SwapHead(false)));
  }

  /** The next three read the value, */
  lemma ValueIsRead(start: State, before: seq<Action>, s: State, h: Addr, n: Addr)
    returns (actions: seq<Action>, s': State)
    requires Run(Next, start, before) == Some(s) && ByConsumer(before)
    requires FirstIs(s, h, n) && s.consumer == Recheck(h)
    ensures Run(Next, start, actions) == Some(s') && ByConsumer(actions)
    ensures s' == s.(consumer := StoreHead(h, s.heap[n].data, n))
  {
    actions, s' := Do(start, before, s, Consume(TestAgain));
    actions, s' := Do(start, actions, s', Consume(LoadData));
    actions, s' := Do(start, actions, s', Consume(LoadNew));
  }

  /** and the last two delete the dummy. */
  lemma DummyIsDeleted(start: State, before: seq<Action>, s: State, h: Addr, n: Addr)
    returns (actions: seq<Action>, s': State)
    requires Run(Next, start, before) == Some(s) && ByConsumer(before)
    requires FirstIs(s, h, n) && s.consumer == StoreHead(h, s.heap[n].data, n)
    ensures Run(Next, start, actions) == Some(s') && ByConsumer(actions)
    ensures s'.consumer == Out && s'.swapped == s.swapped && s'.delivered == s.delivered + [s.heap[n].data]
  {
    actions, s' := Do(start, before, s, Consume(SetHead));
    actions, s' := Do(start, actions, s', Consume(DeleteOld));
  }

  /** If the first link has been written, a dequeue run alone delivers the next value in tail-swap order,
      and comes to its end. */
  lemma DequeueDelivers(start: State) returns (actions: seq<Action>, s: State)
    requires Reachable(start) && start.consumer == Out && start.head != Some(start.tail)
    requires start.head.Some? && start.head.value in start.heap && start.heap[start.head.value].next.Some?
    ensures Run(Next, start, actions) == Some(s) && ByConsumer(actions) && s.consumer == Out
    ensures |start.delivered| < |start.swapped| && s.swapped == start.swapped
    ensures s.delivered == start.delivered + [start.swapped[|start.delivered|].data]
  {
    var h, n := NextInLine(start);
    actions, s := HeadIsTaken(start, h, n);
    actions, s := ValueIsRead(start, actions, s, h, n);
    actions, s := DummyIsDeleted(start, actions, s, h, n);
  }

  lemma NextInLine(s: State) returns (h: Addr, n: Addr)
    requires Reachable(s) && s.consumer == Out && s.head != Some(s.tail)
    requires s.head.Some? && s.head.value in s.heap && s.heap[s.head.value].next.Some?
    ensures s.head == Some(h) && FirstIs(s, h, n)
    ensures |s.delivered| < |s.swapped| && s.heap[n].data == s.swapped[|s.delivered|].data
  {
    ReachableKeepsInv(s);
    assert |s.chain| > 1;
    h, n := s.chain[0], s.chain[1];
    assert Settled(s.heap, s.producers, s.chain[1 - 1], s.chain[1]);
  }

  /** On an empty queue it delivers nothing. */
  lemma EmptyDequeueEnds(start: State) returns (actions: seq<Action>)
    requires Reachable(start) && start.consumer == Out && start.head == Some(start.tail)
    ensures Run(Next, start, actions) == Some(start) && ByConsumer(actions) && actions != []
  {
    ReachableKeepsInv(start);
    assert Run(Next, start, []) == Some(start);
    var s: State;
    actions, s := Do(start, [], start, Consume(BeginDequeue));
    actions, s := Do(start, actions, s, Consume(TestEmpty));
    actions, s := Do(start, actions, s, Consume(TestAgain));
    assert s == start;
  }

  /** An enqueue run alone swaps its value in last, writes its link, and comes to its end. */
  lemma EnqueueEnds(start: State, p: nat, data: Value) returns (actions: seq<Action>, s: State)
    requires Reachable(start) && p !in start.producers
    ensures Run(Next, start, actions) == Some(s) && ByProducer(actions, p)
    ensures s.producers == start.producers && s.swapped == start.swapped + [Item(p, data)]
    ensures start.tail in s.heap && s.heap[start.tail].next == Some(s.tail)
    ensures s.tail in s.heap && s.heap[s.tail].data == data && s.delivered == start.delivered
  {
    TailIsLive(start);
    actions, s := TailIsSwapped(start, p, data);
    actions, s := Do(start, actions, s, Produce(p, Link));
    assert (start.producers[p := Linking(s.tail, start.tail)]) - {p} == start.producers;
  }

  lemma TailIsLive(s: State)
    requires Reachable(s)
    ensures s.tail in s.heap
  {
    ReachableKeepsInv(s);
  }

  lemma TailIsSwapped(start: State, p: nat, data: Value) returns (actions: seq<Action>, s: State)
    requires start.tail in start.heap && p !in start.producers
    ensures Run(Next, start, actions) == Some(s) && ByProducer(actions, p)
    ensures s.tail !in start.heap && s.heap == start.heap[s.tail := Node(data, None, p)]
    ensures s.producers == start.producers[p := Linking(s.tail, start.tail)]
    ensures s.swapped == start.swapped + [Item(p, data)] && s.delivered == start.delivered
  {
    var at := Bound(start.heap.Keys);
    assert Run(Next, start, []) == Some(start);
    actions, s := Do(start, [], start, Produce(p, Begin(data, at)));
    actions, s := Do(start, actions, s, Produce(p, LoadTail));
    actions, s := Do(start, actions, s, Produce(p, CasTail(false)));
  }
}
