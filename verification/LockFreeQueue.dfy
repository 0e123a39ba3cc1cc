/**
  The linked queue of Core/mstd/lockFreeQueue.hpp with any number of producers and one consumer,
  as a transition system with one step per access to shared memory. Atomics are sequentially
  consistent and compare_exchange_weak may fail at any time. Addresses of deleted nodes may be
  reused by later allocations.

  A link that its producer has not written yet is null. The consumer may read it, and put it into
  head; reading the data behind it is undefined behaviour, and ends here in `Crashed`.
*/
module LockFreeQueue {
  import opened Prelude

  type Addr = nat

  /** The element type; the queue only moves values about. */
  type Value = int

  /** `maker` is history: the producer that allocated the node. */
  datatype Node = Node(data: Value, next: Option<Addr>, maker: nat)

  /** A value in the queue and the producer that put it there. */
  datatype Item = Item(producer: nat, data: Value)

  /** Where a producer stands in `enqueue`; one that is not in the map is outside it. */
  datatype ProducerPc =
    | Allocated(node: Addr)                  // before loading tail
    | Loaded(node: Addr, oldTail: Addr)      // before the CAS on tail
    | Linking(node: Addr, oldTail: Addr)     // before old_tail->next = new_node

  /** Where the consumer stands in `dequeue`. */
  datatype ConsumerPc =
    | Out
    | GotHead(front: Option<Addr>)           // before comparing with tail (loop condition)
    | ReadNext(h: Addr)                      // before evaluating old_head->next
    | CasHead(h: Addr, next: Option<Addr>)   // before the CAS on head
    | Recheck(h: Addr)                       // before comparing with tail (after the loop)
    | ReadData(h: Addr)                      // before reading old_head->next->data
    | ReadNew(h: Addr, res: Value)           // before reading new_head
    | StoreHead(h: Addr, res: Value, n: Addr)  // before storing head
    | Delete(h: Addr, res: Value)            // before deleting old_head
    | Crashed                                // a null pointer has been followed

  datatype State = State(
    heap: map<Addr, Node>,                // the nodes allocated and not deleted
    head: Option<Addr>,
    tail: Addr,
    producers: map<nat, ProducerPc>,
    consumer: ConsumerPc,
    // History, read by no step:
    chain: seq<Addr>,                     // live nodes in tail-swap order, the dummy first
    issued: seq<Item>,                    // enqueue calls, in the order they began
    swapped: seq<Item>,                   // enqueues, in the order of their tail swaps
    delivered: seq<Value>,                // values returned by dequeue
    made: nat,
    freed: nat)

  datatype ProducerAction =
    | Begin(data: Value, at: Addr)
    | LoadTail
    | CasTail(spurious: bool)
    | Link

  datatype ConsumerAction =
    | BeginDequeue
    | TestEmpty
    | LoadNext
    | SwapHead(spurious: bool)
    | TestAgain
    | LoadData
    | LoadNew
    | SetHead
    | DeleteOld

  datatype Action = Produce(producer: nat, step: ProducerAction) | Consume(work: ConsumerAction)

  function Initial(dummy: Addr, default: Value): State {
    State(map[dummy := Node(default, None, 0)], Some(dummy), dummy, map[], Out, [dummy], [], [], [], 1, 0)
  }

  function ProducerNext(s: State, p: nat, a: ProducerAction): Option<State> {
    if p !in s.producers then
      if a.Begin? && a.at !in s.heap then
        Some(s.(heap := s.heap[a.at := Node(a.data, None, p)],
                producers := s.producers[p := Allocated(a.at)],
                issued := s.issued + [Item(p, a.data)],
                made := s.made + 1))
      else None
    else match (s.producers[p], a)
      case (Allocated(n), LoadTail) =>
        Some(s.(producers := s.producers[p := Loaded(n, s.tail)]))
      case (Loaded(n, t), CasTail(spurious)) =>
        if spurious || s.tail != t then Some(s.(producers := s.producers[p := Allocated(n)]))
        else if n !in s.heap then None
        else Some(s.(tail := n,
                     producers := s.producers[p := Linking(n, t)],
                     chain := s.chain + [n],
                     swapped := s.swapped + [Item(p, s.heap[n].data)]))
      case (Linking(n, t), Link) =>
        if t !in s.heap then None
        else Some(s.(heap := s.heap[t := s.heap[t].(next := Some(n))],
                     producers := s.producers - {p}))
      case _ => None
  }

  function ConsumerNext(s: State, a: ConsumerAction): Option<State> {
    match (s.consumer, a)
    case (Out, BeginDequeue) => Some(s.(consumer := GotHead(s.head)))
    case (GotHead(front), TestEmpty) =>
      if front.None? then Some(s.(consumer := Crashed))
      else Some(s.(consumer := if front.value == s.tail then Recheck(front.value) else ReadNext(front.value)))
    case (ReadNext(h), LoadNext) =>
      if h !in s.heap then None else Some(s.(consumer := CasHead(h, s.heap[h].next)))
    case (CasHead(h, n), SwapHead(spurious)) =>
      if spurious || s.head != Some(h) then Some(s.(consumer := GotHead(s.head)))
      else Some(s.(head := n, consumer := Recheck(h)))
    case (Recheck(h), TestAgain) =>
      Some(s.(consumer := if h == s.tail then Out else ReadData(h)))
    case (ReadData(h), LoadData) =>
      if h !in s.heap then None
      else if s.heap[h].next.None? then Some(s.(consumer := Crashed))
      else if s.heap[h].next.value !in s.heap then None
      else Some(s.(consumer := ReadNew(h, s.heap[s.heap[h].next.value].data)))
    case (ReadNew(h, res), LoadNew) =>
      if h !in s.heap || s.heap[h].next.None? then None
      else Some(s.(consumer := StoreHead(h, res, s.heap[h].next.value)))
    case (StoreHead(h, res, n), SetHead) => Some(s.(head := Some(n), consumer := Delete(h, res)))
    case (Delete(h, res), DeleteOld) =>
      if h !in s.heap || s.chain == [] then None
      else Some(s.(heap := s.heap - {h}, consumer := Out, chain := s.chain[1..],
                   delivered := s.delivered + [res], freed := s.freed + 1))
    case _ => None
  }

  function Next(s: State, a: Action): Option<State> {
    match a
    case Produce(p, step) => ProducerNext(s, p, step)
    case Consume(work) => ConsumerNext(s, work)
  }

  ghost predicate Reachable(s: State) {
    exists dummy, default, actions :: Run(Next, Initial(dummy, default), actions) == Some(s)
  }
}
