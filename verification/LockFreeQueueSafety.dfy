/** What every interleaving of many producers and one consumer keeps. */
module LockFreeQueueSafety {
  import opened Prelude
  import opened LockFreeQueue

  type Heap = map<Addr, Node>
  type Producers = map<nat, ProducerPc>

  // ----- The inductive invariant, one concern at a time -----

  /** The chain: distinct live nodes ending at the tail, which has no successor. */
  ghost predicate ChainOk(heap: Heap, chain: seq<Addr>, tail: Addr) {
    |chain| > 0 && chain[|chain| - 1] == tail &&
    (forall i :: 0 <= i < |chain| ==> chain[i] in heap) &&
    (forall i, j :: 0 <= i < j < |chain| ==> chain[i] != chain[j]) &&
    heap[tail].next == None
  }

  /** `b` directly follows `a` in the chain. */
  ghost predicate Follows(chain: seq<Addr>, a: Addr, b: Addr) {
    exists i :: 0 < i < |chain| && chain[i - 1] == a && chain[i] == b
  }

  /** `a` links to `b`, or the maker of `b` is about to write that link. */
  ghost predicate Settled(heap: Heap, producers: Producers, a: Addr, b: Addr) {
    a in heap && b in heap &&
    (heap[a].next == Some(b) ||
     (heap[a].next == None && heap[b].maker in producers && producers[heap[b].maker] == Linking(b, a)))
  }

  ghost predicate LinksOk(heap: Heap, chain: seq<Addr>, producers: Producers) {
    forall i :: 0 < i < |chain| ==> Settled(heap, producers, chain[i - 1], chain[i])
  }

  ghost predicate ProducerOk(heap: Heap, chain: seq<Addr>, p: nat, pc: ProducerPc) {
    pc.node in heap && heap[pc.node].maker == p &&
    match pc
    case Linking(n, t) => Follows(chain, t, n) && t in heap && heap[t].next == None
    case _ => pc.node !in chain && heap[pc.node].next == None
  }

  ghost predicate ProducersOk(heap: Heap, chain: seq<Addr>, producers: Producers) {
    forall p :: p in producers ==> ProducerOk(heap, chain, p, producers[p])
  }

  /** Every live node is in the chain or still private to its maker. */
  ghost predicate HeapOk(heap: Heap, chain: seq<Addr>, producers: Producers) {
    forall a :: a in heap ==> a in chain || (heap[a].maker in producers && producers[heap[a].maker].node == a)
  }

  /** `h` is the dummy, and its link to the second node `n` has been written. */
  ghost predicate Second(heap: Heap, chain: seq<Addr>, h: Addr, n: Addr) {
    |chain| > 1 && h == chain[0] && n == chain[1] && h in heap && n in heap && heap[h].next == Some(n)
  }

  /** `n` is null, while the link of the dummy `h` has still to be written, or the second node. */
  ghost predicate NullOrSecond(heap: Heap, chain: seq<Addr>, h: Addr, n: Option<Addr>) {
    |chain| > 1 && h == chain[0] && (n.Some? ==> Second(heap, chain, h, n.value))
  }

  /** The consumer's `h` is the dummy; head is still there, or null, or has moved to the second node. */
  ghost predicate HeadOk(heap: Heap, chain: seq<Addr>, h: Addr, head: Option<Addr>) {
    |chain| > 0 && h == chain[0] && (head == Some(h) || NullOrSecond(heap, chain, h, head))
  }

  ghost predicate ConsumerOk(heap: Heap, chain: seq<Addr>, head: Option<Addr>, pc: ConsumerPc) {
    |chain| > 0 &&
    match pc
    case Out => head == Some(chain[0])
    case GotHead(front) => head == front == Some(chain[0])
    case ReadNext(h) => head == Some(h) && h == chain[0] && |chain| > 1
    case CasHead(h, n) => head == Some(h) && NullOrSecond(heap, chain, h, n)
    case Recheck(h) => HeadOk(heap, chain, h, head)
    case ReadData(h) => HeadOk(heap, chain, h, head) && |chain| > 1
    case ReadNew(h, res) => HeadOk(heap, chain, h, head) && |chain| > 1 && Second(heap, chain, h, chain[1]) &&
                            res == heap[chain[1]].data
    case StoreHead(h, res, n) => HeadOk(heap, chain, h, head) && Second(heap, chain, h, n) && res == heap[n].data
    case Delete(h, res) => head.Some? && Second(heap, chain, h, head.value) && res == heap[head.value].data
    case Crashed => HeadOk(heap, chain, chain[0], head) && |chain| > 1
  }

  /** Delivered values, then the values of the chain after the dummy: the tail-swap order. */
  ghost predicate ValuesOk(heap: Heap, chain: seq<Addr>, swapped: seq<Item>, delivered: seq<Value>) {
    |swapped| + 1 == |delivered| + |chain| && |chain| > 0 &&
    (forall i :: 0 <= i < |delivered| ==> delivered[i] == swapped[i].data) &&
    (forall i :: 0 < i < |chain| ==> chain[i] in heap && heap[chain[i]].data == swapped[|delivered| + i - 1].data)
  }

  /** The values of `items` put in by producer `p`, in order. */
  function By(p: nat, items: seq<Item>): seq<Value> {
    if items == [] then []
    else
      var last := items[|items| - 1];
      By(p, items[..|items| - 1]) + if last.producer == p then [last.data] else []
  }

  /** The value producer `p` has begun to enqueue and not yet swapped in. */
  function Unswapped(heap: Heap, producers: Producers, p: nat): seq<Value> {
    if p in producers && !producers[p].Linking? && producers[p].node in heap
    then [heap[producers[p].node].data] else []
  }

  ghost predicate OrderOk(heap: Heap, producers: Producers, issued: seq<Item>, swapped: seq<Item>) {
    forall p: nat :: By(p, issued) == By(p, swapped) + Unswapped(heap, producers, p)
  }

  ghost predicate Structure(s: State) {
    ChainOk(s.heap, s.chain, s.tail) && LinksOk(s.heap, s.chain, s.producers) &&
    ProducersOk(s.heap, s.chain, s.producers) && HeapOk(s.heap, s.chain, s.producers)
  }

  ghost predicate Inv(s: State) {
    Structure(s) && ConsumerOk(s.heap, s.chain, s.head, s.consumer) &&
    ValuesOk(s.heap, s.chain, s.swapped, s.delivered) &&
    OrderOk(s.heap, s.producers, s.issued, s.swapped) && s.made == s.freed + |s.heap|
  }

  ghost predicate Contents(s: State) {
    ConsumerOk(s.heap, s.chain, s.head, s.consumer) && ValuesOk(s.heap, s.chain, s.swapped, s.delivered)
  }

  // ----- Steps of a producer -----

  lemma BeginKeepsLinks(heap: Heap, chain: seq<Addr>, producers: Producers, p: nat, at: Addr, node: Node)
    requires LinksOk(heap, chain, producers) && p !in producers && at !in heap
    ensures LinksOk(heap[at := node], chain, producers[p := Allocated(at)])
  {
    var producers' := producers[p := Allocated(at)];
    forall i | 0 < i < |chain| ensures Settled(heap[at := node], producers', chain[i - 1], chain[i]) {
      assert Settled(heap, producers, chain[i - 1], chain[i]);
    }
  }

  lemma BeginKeepsProducers(heap: Heap, chain: seq<Addr>, producers: Producers, p: nat, at: Addr, node: Node)
    requires ProducersOk(heap, chain, producers) && p !in producers && at !in heap && at !in chain
    requires node.next == None && node.maker == p
    ensures ProducersOk(heap[at := node], chain, producers[p := Allocated(at)])
  {
    forall q | q in producers ensures ProducerOk(heap[at := node], chain, q, producers[q]) {
      assert ProducerOk(heap, chain, q, producers[q]);
    }
  }

  lemma BeginKeepsStructure(s: State, p: nat, a: ProducerAction)
    requires Structure(s) && ProducerNext(s, p, a).Some? && a.Begin?
    ensures Structure(ProducerNext(s, p, a).value)
  {
    BeginKeepsLinks(s.heap, s.chain, s.producers, p, a.at, Node(a.data, None, p));
    BeginKeepsProducers(s.heap, s.chain, s.producers, p, a.at, Node(a.data, None, p));
  }

  lemma LoadTailKeepsStructure(s: State, p: nat, a: ProducerAction)
    requires Structure(s) && ProducerNext(s, p, a).Some? && a.LoadTail?
    ensures Structure(ProducerNext(s, p, a).value)
  {
  }

  lemma FollowsInLonger(chain: seq<Addr>, n: Addr)
    requires |chain| > 0
    ensures Follows(chain + [n], chain[|chain| - 1], n)
    ensures forall a, b :: Follows(chain, a, b) ==> Follows(chain + [n], a, b)
  {
    var longer := chain + [n];
    assert longer[|chain| - 1] == chain[|chain| - 1] && longer[|chain|] == n;
    forall a, b | Follows(chain, a, b) ensures Follows(longer, a, b) {
      var i :| 0 < i < |chain| && chain[i - 1] == a && chain[i] == b;
      assert longer[i - 1] == a && longer[i] == b;
    }
  }

  lemma SwapKeepsLinks(heap: Heap, chain: seq<Addr>, producers: Producers, p: nat, n: Addr)
    requires |chain| > 0 && chain[|chain| - 1] in heap && heap[chain[|chain| - 1]].next == None
    requires LinksOk(heap, chain, producers)
    requires p in producers && producers[p].Loaded? && n in heap && heap[n].maker == p
    ensures LinksOk(heap, chain + [n], producers[p := Linking(n, chain[|chain| - 1])])
  {
    var producers' := producers[p := Linking(n, chain[|chain| - 1])];
    forall i | 0 < i < |chain| + 1 ensures Settled(heap, producers', (chain + [n])[i - 1], (chain + [n])[i]) {
      if i < |chain| { assert Settled(heap, producers, chain[i - 1], chain[i]); }
    }
  }

  lemma SwapKeepsProducers(heap: Heap, chain: seq<Addr>, producers: Producers, p: nat, n: Addr)
    requires |chain| > 0 && chain[|chain| - 1] in heap && heap[chain[|chain| - 1]].next == None
    requires ProducersOk(heap, chain, producers)
    requires p in producers && producers[p].Loaded? && producers[p].node == n
    ensures ProducersOk(heap, chain + [n], producers[p := Linking(n, chain[|chain| - 1])])
  {
    FollowsInLonger(chain, n);
    forall q | q in producers && q != p ensures ProducerOk(heap, chain + [n], q, producers[q]) {
      assert ProducerOk(heap, chain, q, producers[q]) && ProducerOk(heap, chain, p, producers[p]);
    }
  }

  lemma SwapKeepsChain(heap: Heap, chain: seq<Addr>, tail: Addr, n: Addr)
    requires ChainOk(heap, chain, tail) && n in heap && n !in chain && heap[n].next == None
    ensures ChainOk(heap, chain + [n], n)
  {
  }

  lemma SwapKeepsHeap(heap: Heap, chain: seq<Addr>, producers: Producers, p: nat, n: Addr, t: Addr)
    requires HeapOk(heap, chain, producers) && p in producers && producers[p].node == n
    ensures HeapOk(heap, chain + [n], producers[p := Linking(n, t)])
  {
    assert (chain + [n])[|chain|] == n;
    forall a | a in chain ensures a in chain + [n] {}
  }

  lemma CasTailKeepsStructure(s: State, p: nat, a: ProducerAction)
    requires Structure(s) && ProducerNext(s, p, a).Some? && a.CasTail?
    ensures Structure(ProducerNext(s, p, a).value)
  {
    var s' := ProducerNext(s, p, a).value;
    var n := s.producers[p].node;
    assert ProducerOk(s.heap, s.chain, p, s.producers[p]);
    if s'.producers[p].Linking? {
      assert s'.producers == s.producers[p := Linking(n, s.tail)] && s'.chain == s.chain + [n];
      SwapKeepsLinks(s.heap, s.chain, s.producers, p, n);
      SwapKeepsProducers(s.heap, s.chain, s.producers, p, n);
      SwapKeepsChain(s.heap, s.chain, s.tail, n);
      SwapKeepsHeap(s.heap, s.chain, s.producers, p, n, s.tail);
    }
  }

  /** The heap after `t` has been given the successor `n`. */
  function WithLink(heap: Heap, t: Addr, n: Addr): Heap
    requires t in heap
  {
    heap[t := heap[t].(next := Some(n))]
  }

  lemma LinkKeepsLinks(heap: Heap, chain: seq<Addr>, producers: Producers, p: nat, t: Addr, n: Addr)
    requires LinksOk(heap, chain, producers) && Follows(chain, t, n) && t in heap
    requires forall i, j :: 0 <= i < j < |chain| ==> chain[i] != chain[j]
    requires p in producers && producers[p] == Linking(n, t)
    ensures LinksOk(WithLink(heap, t, n), chain, producers - {p})
  {
    forall i | 0 < i < |chain| ensures Settled(WithLink(heap, t, n), producers - {p}, chain[i - 1], chain[i]) {
      assert Settled(heap, producers, chain[i - 1], chain[i]);
    }
  }

  lemma LinkKeepsProducers(heap: Heap, chain: seq<Addr>, producers: Producers, p: nat, t: Addr, n: Addr)
    requires ProducersOk(heap, chain, producers) && Follows(chain, t, n) && t in heap
    requires forall i, j :: 0 <= i < j < |chain| ==> chain[i] != chain[j]
    requires p in producers && producers[p] == Linking(n, t)
    ensures ProducersOk(WithLink(heap, t, n), chain, producers - {p})
  {
    assert t in chain;
    forall q | q in producers && q != p ensures ProducerOk(WithLink(heap, t, n), chain, q, producers[q]) {
      assert ProducerOk(heap, chain, q, producers[q]) && ProducerOk(heap, chain, p, producers[p]);
    }
  }

  lemma LinkKeepsChain(heap: Heap, chain: seq<Addr>, tail: Addr, t: Addr, n: Addr)
    requires ChainOk(heap, chain, tail) && Follows(chain, t, n) && t in heap
    ensures ChainOk(WithLink(heap, t, n), chain, tail)
  {
  }

  lemma LinkKeepsHeap(heap: Heap, chain: seq<Addr>, producers: Producers, p: nat, t: Addr, n: Addr)
    requires HeapOk(heap, chain, producers) && Follows(chain, t, n) && t in heap
    requires p in producers && producers[p] == Linking(n, t)
    ensures HeapOk(WithLink(heap, t, n), chain, producers - {p})
  {
    assert n in chain;
  }

  lemma LinkKeepsStructure(s: State, p: nat, a: ProducerAction)
    requires Structure(s) && ProducerNext(s, p, a).Some? && a.Link?
    ensures Structure(ProducerNext(s, p, a).value)
  {
    var n, t := s.producers[p].node, s.producers[p].oldTail;
    assert ProducerOk(s.heap, s.chain, p, s.producers[p]);
    LinkKeepsLinks(s.heap, s.chain, s.producers, p, t, n);
    LinkKeepsProducers(s.heap, s.chain, s.producers, p, t, n);
    LinkKeepsChain(s.heap, s.chain, s.tail, t, n);
    LinkKeepsHeap(s.heap, s.chain, s.producers, p, t, n);
  }

  lemma BeginKeepsContents(s: State, p: nat, a: ProducerAction)
    requires Structure(s) && Contents(s) && ProducerNext(s, p, a).Some? && a.Begin?
    ensures Contents(ProducerNext(s, p, a).value)
  {
  }

  lemma LongerKeepsContents(heap: Heap, chain: seq<Addr>, n: Addr, item: Item, head: Option<Addr>, pc: ConsumerPc,
                            swapped: seq<Item>, delivered: seq<Value>)
    requires ConsumerOk(heap, chain, head, pc) && ValuesOk(heap, chain, swapped, delivered)
    requires n in heap && item.data == heap[n].data
    ensures ConsumerOk(heap, chain + [n], head, pc) && ValuesOk(heap, chain + [n], swapped + [item], delivered)
  {
  }

  lemma CasTailKeepsContents(s: State, p: nat, a: ProducerAction)
    requires Structure(s) && Contents(s) && ProducerNext(s, p, a).Some? && a.CasTail?
    ensures Contents(ProducerNext(s, p, a).value)
  {
    var n := s.producers[p].node;
    if n in s.heap {
      LongerKeepsContents(s.heap, s.chain, n, Item(p, s.heap[n].data), s.head, s.consumer, s.swapped, s.delivered);
    }
  }

  lemma LinkKeepsConsumer(heap: Heap, chain: seq<Addr>, t: Addr, n: Addr, head: Option<Addr>, pc: ConsumerPc)
    requires ConsumerOk(heap, chain, head, pc) && t in heap && heap[t].next == None
    ensures ConsumerOk(WithLink(heap, t, n), chain, head, pc)
  {
  }

  lemma LinkKeepsValues(heap: Heap, chain: seq<Addr>, t: Addr, n: Addr, swapped: seq<Item>, delivered: seq<Value>)
    requires ValuesOk(heap, chain, swapped, delivered) && t in heap
    ensures ValuesOk(WithLink(heap, t, n), chain, swapped, delivered)
  {
  }

  lemma LinkKeepsContents(s: State, p: nat, a: ProducerAction)
    requires Structure(s) && Contents(s) && ProducerNext(s, p, a).Some? && a.Link?
    ensures Contents(ProducerNext(s, p, a).value)
  {
    var n, t := s.producers[p].node, s.producers[p].oldTail;
    assert ProducerOk(s.heap, s.chain, p, s.producers[p]);
    LinkKeepsConsumer(s.heap, s.chain, t, n, s.head, s.consumer);
    LinkKeepsValues(s.heap, s.chain, t, n, s.swapped, s.delivered);
  }

  lemma {:induction false} BySnoc(p: nat, items: seq<Item>, item: Item)
    ensures By(p, items + [item]) == By(p, items) + if item.producer == p then [item.data] else []
  {
    assert (items + [item])[..|items|] == items;
  }

  lemma BeginKeepsOrder(s: State, p: nat, a: ProducerAction)
    requires Structure(s) && OrderOk(s.heap, s.producers, s.issued, s.swapped)
    requires ProducerNext(s, p, a).Some? && a.Begin?
    ensures var s' := ProducerNext(s, p, a).value; OrderOk(s'.heap, s'.producers, s'.issued, s'.swapped)
  {
    var s' := ProducerNext(s, p, a).value;
    forall q: nat ensures By(q, s'.issued) == By(q, s'.swapped) + Unswapped(s'.heap, s'.producers, q) {
      BySnoc(q, s.issued, Item(p, a.data));
      if q in s.producers { assert ProducerOk(s.heap, s.chain, q, s.producers[q]); }
    }
  }

  lemma CasTailKeepsOrder(s: State, p: nat, a: ProducerAction)
    requires Structure(s) && OrderOk(s.heap, s.producers, s.issued, s.swapped)
    requires ProducerNext(s, p, a).Some? && a.CasTail?
    ensures var s' := ProducerNext(s, p, a).value; OrderOk(s'.heap, s'.producers, s'.issued, s'.swapped)
  {
    var s' := ProducerNext(s, p, a).value;
    var n := s.producers[p].node;
    assert ProducerOk(s.heap, s.chain, p, s.producers[p]);
    forall q: nat ensures By(q, s'.issued) == By(q, s'.swapped) + Unswapped(s'.heap, s'.producers, q) {
      if s'.producers[p].Linking? { BySnoc(q, s.swapped, Item(p, s.heap[n].data)); }
    }
  }

  lemma QuietStepsKeepOrder(s: State, p: nat, a: ProducerAction)
    requires Structure(s) && OrderOk(s.heap, s.producers, s.issued, s.swapped)
    requires ProducerNext(s, p, a).Some? && (a.LoadTail? || a.Link?)
    ensures var s' := ProducerNext(s, p, a).value; OrderOk(s'.heap, s'.producers, s'.issued, s'.swapped)
  {
  }

  lemma ProducerKeeps(s: State, p: nat, a: ProducerAction)
    requires Inv(s) && ProducerNext(s, p, a).Some?
    ensures Inv(ProducerNext(s, p, a).value)
  {
    match a
    case Begin(_, _) => BeginKeepsStructure(s, p, a); BeginKeepsContents(s, p, a); BeginKeepsOrder(s, p, a);
    case LoadTail => LoadTailKeepsStructure(s, p, a); QuietStepsKeepOrder(s, p, a);
    case CasTail(_) => CasTailKeepsStructure(s, p, a); CasTailKeepsContents(s, p, a); CasTailKeepsOrder(s, p, a);
    case Link => LinkKeepsStructure(s, p, a); LinkKeepsContents(s, p, a); QuietStepsKeepOrder(s, p, a);
  }

  // ----- Steps of the consumer -----

  lemma ConsumerStaysOk(s: State, a: ConsumerAction)
    requires ChainOk(s.heap, s.chain, s.tail) && ConsumerOk(s.heap, s.chain, s.head, s.consumer)
    requires ConsumerNext(s, a).Some? && !a.DeleteOld?
    requires |s.chain| > 1 && s.heap[s.chain[0]].next.Some? ==> Second(s.heap, s.chain, s.chain[0], s.chain[1])
    ensures var s' := ConsumerNext(s, a).value; ConsumerOk(s'.heap, s'.chain, s'.head, s'.consumer)
  {
  }

  lemma ConsumerOnlyMovesHead(s: State, a: ConsumerAction)
    requires ConsumerNext(s, a).Some? && !a.DeleteOld?
    ensures ConsumerNext(s, a).value ==
            s.(head := ConsumerNext(s, a).value.head, consumer := ConsumerNext(s, a).value.consumer)
  {
  }

  lemma ConsumerKeeps(s: State, a: ConsumerAction)
    requires Inv(s) && ConsumerNext(s, a).Some? && !a.DeleteOld?
    ensures Inv(ConsumerNext(s, a).value)
  {
    if |s.chain| > 1 { assert Settled(s.heap, s.producers, s.chain[0], s.chain[1]); }
    ConsumerStaysOk(s, a);
    ConsumerOnlyMovesHead(s, a);
  }

  lemma DropSize<T>(m: map<Addr, T>, k: Addr)
    requires k in m
    ensures |m - {k}| == |m| - 1
  {
    assert m.Keys == (m - {k}).Keys + {k};
  }

  lemma FollowsInRest(chain: seq<Addr>, a: Addr, b: Addr)
    requires Follows(chain, a, b) && a != chain[0]
    ensures Follows(chain[1..], a, b)
  {
    var i :| 0 < i < |chain| && chain[i - 1] == a && chain[i] == b;
    assert chain[1..][i - 2] == a && chain[1..][i - 1] == b;
  }

  lemma DropKeepsLinks(heap: Heap, chain: seq<Addr>, producers: Producers)
    requires |chain| > 1 && LinksOk(heap, chain, producers)
    requires forall i, j :: 0 <= i < j < |chain| ==> chain[i] != chain[j]
    ensures LinksOk(heap - {chain[0]}, chain[1..], producers)
  {
    forall i | 0 < i < |chain[1..]| ensures Settled(heap - {chain[0]}, producers, chain[1..][i - 1], chain[1..][i]) {
      assert Settled(heap, producers, chain[i], chain[i + 1]);
    }
  }

  lemma DropKeepsProducers(heap: Heap, chain: seq<Addr>, producers: Producers)
    requires |chain| > 1 && chain[0] in heap && heap[chain[0]].next == Some(chain[1])
    requires forall i, j :: 0 <= i < j < |chain| ==> chain[i] != chain[j]
    requires ProducersOk(heap, chain, producers)
    ensures ProducersOk(heap - {chain[0]}, chain[1..], producers)
  {
    forall p | p in producers ensures ProducerOk(heap - {chain[0]}, chain[1..], p, producers[p]) {
      assert ProducerOk(heap, chain, p, producers[p]);
      if producers[p].Linking? {
        FollowsInRest(chain, producers[p].oldTail, producers[p].node);
        assert producers[p].node in chain[1..];
      }
    }
  }

  lemma DropKeepsOrder(heap: Heap, producers: Producers, h: Addr, issued: seq<Item>, swapped: seq<Item>)
    requires OrderOk(heap, producers, issued, swapped)
    requires forall p :: p in producers && !producers[p].Linking? ==> producers[p].node != h
    ensures OrderOk(heap - {h}, producers, issued, swapped)
  {
    forall p: nat ensures By(p, issued) == By(p, swapped) + Unswapped(heap - {h}, producers, p) {
      assert Unswapped(heap - {h}, producers, p) == Unswapped(heap, producers, p);
    }
  }

  lemma DropKeepsValues(heap: Heap, chain: seq<Addr>, swapped: seq<Item>, delivered: seq<Value>)
    requires |chain| > 1 && ValuesOk(heap, chain, swapped, delivered)
    requires forall i, j :: 0 <= i < j < |chain| ==> chain[i] != chain[j]
    ensures ValuesOk(heap - {chain[0]}, chain[1..], swapped, delivered + [heap[chain[1]].data])
  {
    forall i | 0 < i < |chain[1..]|
      ensures chain[1..][i] in heap - {chain[0]} &&
              (heap - {chain[0]})[chain[1..][i]].data == swapped[|delivered| + i].data
    {
      assert chain[1..][i] == chain[i + 1];
    }
  }

  lemma DropKeepsChain(heap: Heap, chain: seq<Addr>, tail: Addr, producers: Producers)
    requires |chain| > 1 && ChainOk(heap, chain, tail) && HeapOk(heap, chain, producers)
    ensures ChainOk(heap - {chain[0]}, chain[1..], tail)
    ensures HeapOk(heap - {chain[0]}, chain[1..], producers)
  {
    forall a | a in chain && a != chain[0] ensures a in chain[1..] {
      var i :| 0 <= i < |chain| && chain[i] == a;
      assert chain[1..][i - 1] == a;
    }
  }

  /** The state after the dummy has been deleted. */
  function WithoutDummy(s: State): State
    requires |s.chain| > 1 && s.chain[1] in s.heap
  {
    s.(heap := s.heap - {s.chain[0]}, consumer := Out, chain := s.chain[1..],
       delivered := s.delivered + [s.heap[s.chain[1]].data], freed := s.freed + 1)
  }

  lemma DeleteDropsDummy(s: State)
    requires ConsumerOk(s.heap, s.chain, s.head, s.consumer) && ConsumerNext(s, DeleteOld).Some?
    ensures Second(s.heap, s.chain, s.chain[0], s.chain[1]) && s.head == Some(s.chain[1])
    ensures ConsumerNext(s, DeleteOld).value == WithoutDummy(s)
  {
  }

  lemma DropKeepsStructure(s: State)
    requires Structure(s) && |s.chain| > 1 && Second(s.heap, s.chain, s.chain[0], s.chain[1])
    ensures Structure(WithoutDummy(s))
  {
    DropKeepsLinks(s.heap, s.chain, s.producers);
    DropKeepsProducers(s.heap, s.chain, s.producers);
    DropKeepsChain(s.heap, s.chain, s.tail, s.producers);
  }

  lemma DropKeepsRest(s: State)
    requires Inv(s) && |s.chain| > 1 && Second(s.heap, s.chain, s.chain[0], s.chain[1]) && s.head == Some(s.chain[1])
    requires Structure(WithoutDummy(s))
    ensures Inv(WithoutDummy(s))
  {
    DropKeepsValues(s.heap, s.chain, s.swapped, s.delivered);
    assert forall p :: p in s.producers ==> ProducerOk(s.heap, s.chain, p, s.producers[p]);
    DropKeepsOrder(s.heap, s.producers, s.chain[0], s.issued, s.swapped);
    DropSize(s.heap, s.chain[0]);
  }

  lemma DeleteKeeps(s: State)
    requires Inv(s) && ConsumerNext(s, DeleteOld).Some?
    ensures Inv(ConsumerNext(s, DeleteOld).value)
  {
    DeleteDropsDummy(s);
    DropKeepsStructure(s);
    DropKeepsRest(s);
  }

  lemma StepKeeps(s: State, a: Action)
    requires Inv(s) && Next(s, a).Some?
    ensures Inv(Next(s, a).value)
  {
    match a
    case Produce(p, step) => ProducerKeeps(s, p, step);
    case Consume(work) =>
      if work.DeleteOld? { DeleteKeeps(s); } else { ConsumerKeeps(s, work); }
  }

  // ----- The main results, about every reachable state -----

  lemma InitialInv(dummy: Addr, default: Value)
    ensures Inv(Initial(dummy, default))
  {
  }

  lemma {:induction false} RunKeepsInv(s: State, actions: seq<Action>)
    requires Inv(s) && Run(Next, s, actions).Some?
    ensures Inv(Run(Next, s, actions).value)
    decreases |actions|
  {
    if actions != [] {
      StepKeeps(s, actions[0]);
      RunKeepsInv(Next(s, actions[0]).value, actions[1..]);
    }
  }

  lemma ReachableKeepsInv(s: State)
    requires Reachable(s)
    ensures Inv(s)
  {
    var dummy, default, actions :| Run(Next, Initial(dummy, default), actions) == Some(s);
    InitialInv(dummy, default);
    RunKeepsInv(Initial(dummy, default), actions);
  }

  function Data(items: seq<Item>): seq<Value> {
    seq(|items|, i requires 0 <= i < |items| => items[i].data)
  }

  /** The values of the given nodes, in order. */
  ghost function DataAt(heap: Heap, nodes: seq<Addr>): seq<Value>
    requires forall i :: 0 <= i < |nodes| ==> nodes[i] in heap
  {
    seq(|nodes|, i requires 0 <= i < |nodes| => heap[nodes[i]].data)
  }

  lemma RemainingValues(heap: Heap, chain: seq<Addr>, swapped: seq<Item>, delivered: seq<Value>)
    requires ValuesOk(heap, chain, swapped, delivered) && forall i :: 0 <= i < |chain| ==> chain[i] in heap
    ensures delivered + DataAt(heap, chain[1..]) == Data(swapped)
  {
    var rest := DataAt(heap, chain[1..]);
    forall i | |delivered| <= i < |swapped| ensures rest[i - |delivered|] == swapped[i].data {
      assert chain[1..][i - |delivered|] == chain[i - |delivered| + 1];
    }
  }

  /** Dequeued values followed by those still in the queue are the enqueued values, in the order
      of the tail swaps: nothing is lost, duplicated or reordered. */
  lemma DeliveredThenRemaining(s: State)
    requires Reachable(s)
    ensures |s.chain| > 0 && forall i :: 0 <= i < |s.chain| ==> s.chain[i] in s.heap
    ensures s.delivered + DataAt(s.heap, s.chain[1..]) == Data(s.swapped)
  {
    ReachableKeepsInv(s);
    RemainingValues(s.heap, s.chain, s.swapped, s.delivered);
  }

  /** Each producer's values are swapped in in the order of its calls; at most the value of its
      unfinished call is missing. */
  lemma {:induction false} ProducerOrder(s: State, p: nat)
    requires Reachable(s)
    ensures By(p, s.swapped) <= By(p, s.issued)
    ensures |By(p, s.issued)| <= |By(p, s.swapped)| + 1
    ensures p !in s.producers ==> By(p, s.swapped) == By(p, s.issued)
  {
    ReachableKeepsInv(s);
  }

  /** A link missing between consecutive nodes is owed by exactly one producer. */
  lemma MissingLinkIsOwedOnce(s: State, i: nat)
    requires Reachable(s) && 0 < i < |s.chain|
    ensures s.chain[i - 1] in s.heap
    ensures s.heap[s.chain[i - 1]].next.Some? ==> s.heap[s.chain[i - 1]].next.value == s.chain[i]
    ensures s.heap[s.chain[i - 1]].next.None? ==>
      exists p :: p in s.producers && s.producers[p] == Linking(s.chain[i], s.chain[i - 1]) &&
        forall q :: q in s.producers && s.producers[q].Linking? && s.producers[q].oldTail == s.chain[i - 1] ==> q == p
  {
    ReachableKeepsInv(s);
    assert Settled(s.heap, s.producers, s.chain[i - 1], s.chain[i]);
    forall q | q in s.producers && s.producers[q].Linking? && s.producers[q].oldTail == s.chain[i - 1]
      ensures q == s.heap[s.chain[i]].maker
    {
      assert ProducerOk(s.heap, s.chain, q, s.producers[q]);
    }
  }

  /** A link written in `a` leads to a live node. */
  predicate LinksLive(heap: Heap, a: Addr)
    requires a in heap
  {
    heap[a].next.Some? ==> heap[a].next.value in heap
  }

  /** Every node that a thread is about to read, write or delete is live, and no dequeue begins with a
      null head. */
  lemma NoDeletedNodeIsTouched(s: State)
    requires Reachable(s)
    ensures forall p :: p in s.producers ==> s.producers[p].node in s.heap
    ensures forall p :: p in s.producers && s.producers[p].Linking? ==> s.producers[p].oldTail in s.heap
    ensures s.consumer.ReadNext? || s.consumer.ReadData? || s.consumer.ReadNew? || s.consumer.Delete?
            ==> s.consumer.h in s.heap && LinksLive(s.heap, s.consumer.h)
    ensures s.consumer.GotHead? ==> s.consumer.front == s.head && s.head.Some? && s.head.value in s.heap
  {
    ReachableKeepsInv(s);
    forall p | p in s.producers ensures ProducerOk(s.heap, s.chain, p, s.producers[p]) {}
    if |s.chain| > 1 { assert Settled(s.heap, s.producers, s.chain[0], s.chain[1]); }
  }

  /** When the consumer is about to read a link, the link is missing if and only if some producer
      has swapped the tail away from that node and not yet written its link. */
  lemma LinkMissingIffOwed(s: State)
    requires Reachable(s) && (s.consumer.ReadNext? || s.consumer.ReadData?)
    ensures s.consumer.h in s.heap
    ensures s.heap[s.consumer.h].next.None? <==>
            exists p :: p in s.producers && s.producers[p].Linking? && s.producers[p].oldTail == s.consumer.h
  {
    ReachableKeepsInv(s);
    assert Settled(s.heap, s.producers, s.chain[0], s.chain[1]);
    forall p | p in s.producers && s.producers[p].Linking? && s.producers[p].oldTail == s.consumer.h
      ensures s.heap[s.consumer.h].next.None?
    {
      assert ProducerOk(s.heap, s.chain, p, s.producers[p]);
    }
  }

  /** `dequeue` finds the queue empty exactly when every value swapped in has been delivered. */
  lemma EmptyAnswerIsRight(s: State)
    requires Reachable(s) && s.consumer.Recheck?
    ensures ConsumerNext(s, TestAgain).value.consumer == Out <==> s.delivered == Data(s.swapped)
  {
    DeliveredThenRemaining(s);
    ReachableKeepsInv(s);
  }

  /** So does `empty` when the consumer calls it: head stands still meanwhile, and the answer is that
      of the moment at which tail is read. */
  lemma EmptyIsRight(s: State)
    requires Reachable(s) && s.consumer == Out
    ensures s.head == Some(s.tail) <==> s.delivered == Data(s.swapped)
  {
    DeliveredThenRemaining(s);
    ReachableKeepsInv(s);
  }

  // ----- At rest -----

  predicate AtRest(s: State) {
    s.producers == map[] && s.consumer == Out
  }

  /** The nodes met by following links from `a`, at most `n` of them. */
  function Walk(heap: Heap, a: Addr, n: nat): seq<Addr>
    decreases n
  {
    if n == 0 || a !in heap then []
    else if heap[a].next.None? then [a]
    else [a] + Walk(heap, heap[a].next.value, n - 1)
  }

  lemma {:induction false} WalkFollowsChain(heap: Heap, chain: seq<Addr>, n: nat)
    requires 0 < |chain| <= n
    requires forall i :: 0 <= i < |chain| ==> chain[i] in heap
    requires forall i :: 0 < i < |chain| ==> heap[chain[i - 1]].next == Some(chain[i])
    requires heap[chain[|chain| - 1]].next == None
    ensures Walk(heap, chain[0], n) == chain
  {
    if |chain| > 1 {
      assert heap[chain[1 - 1]].next == Some(chain[1]);
      forall i | 0 < i < |chain[1..]| ensures heap[chain[1..][i - 1]].next == Some(chain[1..][i]) {
        assert heap[chain[(i + 1) - 1]].next == Some(chain[i + 1]);
      }
      WalkFollowsChain(heap, chain[1..], n - 1);
      assert chain == [chain[0]] + chain[1..];
    }
  }

  /** The nodes of the chain are no more than the live nodes, and no fewer when there are no others. */
  lemma {:induction false} ChainSize(heap: Heap, chain: seq<Addr>)
    requires forall i :: 0 <= i < |chain| ==> chain[i] in heap
    requires forall i, j :: 0 <= i < j < |chain| ==> chain[i] != chain[j]
    requires forall a :: a in heap ==> a in chain
    ensures |chain| == |heap|
    decreases |chain|
  {
    if chain == [] {
      assert heap.Keys == {};
    } else {
      DropSize(heap, chain[0]);
      forall a | a in chain && a != chain[0] ensures a in chain[1..] {
        var i :| 0 <= i < |chain| && chain[i] == a;
        assert chain[1..][i - 1] == a;
      }
      ChainSize(heap - {chain[0]}, chain[1..]);
    }
  }

  /** A chain with every link written that holds exactly the nodes of the heap. */
  ghost predicate WholeHeap(heap: Heap, chain: seq<Addr>) {
    |chain| > 0 && heap.Keys == (set a | a in chain) &&
    (forall i, j :: 0 <= i < j < |chain| ==> chain[i] != chain[j]) &&
    (forall i :: 0 < i < |chain| ==> heap[chain[i - 1]].next == Some(chain[i])) &&
    heap[chain[|chain| - 1]].next == None
  }

  lemma AtRestChain(s: State)
    requires Inv(s) && AtRest(s)
    ensures WholeHeap(s.heap, s.chain) && s.head == Some(s.chain[0]) && s.tail == s.chain[|s.chain| - 1]
    ensures |s.chain| == |s.heap| && Walk(s.heap, s.chain[0], |s.heap|) == s.chain
  {
    forall i | 0 < i < |s.chain| ensures s.heap[s.chain[i - 1]].next == Some(s.chain[i]) {
      assert Settled(s.heap, s.producers, s.chain[i - 1], s.chain[i]);
    }
    ChainSize(s.heap, s.chain);
    WalkFollowsChain(s.heap, s.chain, |s.heap|);
  }

  /** With nobody inside an operation, following links from head meets every live node once and
      ends at tail; the nodes after the first hold the undelivered values in tail-swap order, and
      every value any producer began to enqueue has been swapped in, in that producer's order. */
  lemma AtRestHeadReachesAll(s: State)
    requires Reachable(s) && AtRest(s)
    ensures s.head.Some?
    ensures var nodes := Walk(s.heap, s.head.value, |s.heap|);
            WholeHeap(s.heap, nodes) && nodes[|nodes| - 1] == s.tail &&
            s.delivered + DataAt(s.heap, nodes[1..]) == Data(s.swapped)
    ensures forall p: nat :: By(p, s.swapped) == By(p, s.issued)
  {
    ReachableKeepsInv(s);
    DeliveredThenRemaining(s);
    AtRestChain(s);
  }

  /** The destructor's loop on a whole chain deletes its nodes in order, reading none after its
      deletion, and leaves none. */
  method DeleteAll(nodes: Heap, first: Addr, ghost chain: seq<Addr>) returns (heap: Heap, deletions: seq<Addr>)
    requires WholeHeap(nodes, chain) && first == chain[0]
    ensures heap == map[] && deletions == chain
  {
    heap, deletions := nodes, [];
    var head := Some(first);
    while head.Some?
      invariant |deletions| <= |chain| && deletions == chain[..|deletions|]
      invariant head == if |deletions| < |chain| then Some(chain[|deletions|]) else None
      invariant heap.Keys <= nodes.Keys && forall i :: 0 <= i < |deletions| ==> chain[i] !in heap
      invariant forall i :: |deletions| <= i < |chain| ==> chain[i] in heap && heap[chain[i]] == nodes[chain[i]]
      decreases |chain| - |deletions|
    {
      var oldHead := head.value;
      assert |deletions| + 1 < |chain| ==> nodes[chain[(|deletions| + 1) - 1]].next == Some(chain[|deletions| + 1]);
      head := heap[oldHead].next;
      heap, deletions := heap - {oldHead}, deletions + [oldHead];
    }
  }

  /** Destroying a queue at rest: with the deletions of earlier dequeues, every node ever
      allocated is deleted exactly once. */
  method Destroy(s: State) returns (heap: Heap, deletions: seq<Addr>)
    requires Reachable(s) && AtRest(s)
    ensures s.head.Some? && heap == map[] && deletions == Walk(s.heap, s.head.value, |s.heap|)
    ensures s.freed + |deletions| == s.made
  {
    ReachableKeepsInv(s);
    AtRestChain(s);
    heap, deletions := DeleteAll(s.heap, s.head.value, s.chain);
  }

  // ----- Exactly when a dequeue can follow a null pointer -----

  /** The node whose link this dequeue depends on. */
  function Front(pc: ConsumerPc): Option<Addr> {
    match pc
    case Out => None
    case Crashed => None
    case GotHead(front) => front
    case _ => Some(pc.h)
  }

  /** None of these begins another dequeue. */
  predicate SameDequeue(actions: seq<Action>) {
    forall i :: 0 <= i < |actions| ==> actions[i] != Consume(BeginDequeue)
  }

  /** Some continuation of the dequeue under way crashes. */
  ghost predicate CrashAhead(s: State) {
    exists actions ::
      SameDequeue(actions) && Run(Next, s, actions).Some? && Run(Next, s, actions).value.consumer.Crashed?
  }

  /** The dequeue is over, or its link has been written. */
  ghost predicate LinkThere(s: State) {
    Inv(s) && !s.consumer.Crashed? &&
    (Front(s.consumer).Some? ==> s.heap[s.chain[0]].next.Some?)
  }

  /** A link is written once. */
  lemma ProducerKeepsFirstLink(s: State, p: nat, a: ProducerAction)
    requires Structure(s) && ProducerNext(s, p, a).Some? && s.heap[s.chain[0]].next.Some?
    ensures var s' := ProducerNext(s, p, a).value;
            s'.consumer == s.consumer && |s'.chain| > 0 && s'.chain[0] == s.chain[0] && s.chain[0] in s'.heap &&
            s'.heap[s.chain[0]].next.Some?
  {
    assert p in s.producers ==> ProducerOk(s.heap, s.chain, p, s.producers[p]);
  }

  lemma ConsumerKeepsFirstLink(s: State, a: ConsumerAction)
    requires ConsumerOk(s.heap, s.chain, s.head, s.consumer) && ConsumerNext(s, a).Some? && Front(s.consumer).Some?
    requires s.chain[0] in s.heap && s.heap[s.chain[0]].next.Some?
    ensures var s' := ConsumerNext(s, a).value;
            !s'.consumer.Crashed? && (Front(s'.consumer).Some? ==> s'.chain == s.chain && s'.heap == s.heap)
  {
  }

  lemma LinkStaysThere(s: State, a: Action)
    requires LinkThere(s) && Next(s, a).Some? && a != Consume(BeginDequeue)
    ensures LinkThere(Next(s, a).value)
  {
    StepKeeps(s, a);
    if Front(s.consumer).Some? {
      match a
      case Produce(p, step) => ProducerKeepsFirstLink(s, p, step);
      case Consume(work) => ConsumerKeepsFirstLink(s, work);
    }
  }

  lemma {:induction false} LinkedDoesNotCrash(s: State, actions: seq<Action>)
    requires LinkThere(s) && SameDequeue(actions) && Run(Next, s, actions).Some?
    ensures !Run(Next, s, actions).value.consumer.Crashed?
    decreases |actions|
  {
    if actions != [] {
      LinkStaysThere(s, actions[0]);
      LinkedDoesNotCrash(Next(s, actions[0]).value, actions[1..]);
    }
  }

  lemma CrashAfterStep(s: State, a: Action)
    requires Next(s, a).Some? && a != Consume(BeginDequeue) && CrashAhead(Next(s, a).value)
    ensures CrashAhead(s)
  {
    var after :| SameDequeue(after) && Run(Next, Next(s, a).value, after).Some? &&
                 Run(Next, Next(s, a).value, after).value.consumer.Crashed?;
    assert ([a] + after)[0] == a && ([a] + after)[1..] == after;
    assert SameDequeue([a] + after);
  }

  /** The consumer alone gets to the null pointer. */
  lemma MissingLinkCrashes(s: State)
    requires Inv(s) && Front(s.consumer).Some? && |s.chain| > 1 && s.heap[s.chain[0]].next.None?
    ensures CrashAhead(s)
    decreases match s.consumer
              case GotHead(_) => 5 case ReadNext(_) => 4 case CasHead(_, _) => 3 case Recheck(_) => 2 case _ => 1
  {
    var a := match s.consumer
      case GotHead(_) => TestEmpty
      case ReadNext(_) => LoadNext
      case CasHead(_, _) => SwapHead(false)
      case Recheck(_) => TestAgain
      case _ => LoadData;
    var s' := Next(s, Consume(a)).value;
    StepKeeps(s, Consume(a));
    if s.consumer.ReadData? {
      assert Run(Next, s', []) == Some(s') && SameDequeue([]);
    } else {
      MissingLinkCrashes(s');
    }
    CrashAfterStep(s, Consume(a));
  }

  /** On an empty queue a new producer may swap the tail first. */
  lemma EmptyQueueCanCrash(s: State)
    requires Inv(s) && Front(s.consumer).Some? && |s.chain| == 1
    ensures CrashAhead(s)
  {
    var p := Bound(s.producers.Keys);
    var at := Bound(s.heap.Keys);
    var a1, a2, a3 := Produce(p, Begin(0, at)), Produce(p, LoadTail), Produce(p, CasTail(false));
    var s1 := Next(s, a1).value;
    var s2 := Next(s1, a2).value;
    var s3 := Next(s2, a3).value;
    StepKeeps(s, a1);
    StepKeeps(s1, a2);
    StepKeeps(s2, a3);
    MissingLinkCrashes(s3);
    CrashAfterStep(s2, a3);
    CrashAfterStep(s1, a2);
    CrashAfterStep(s, a1);
  }

  /** A dequeue that has loaded head can still follow a null pointer if and only if the link of that node
      has not been written yet. */
  lemma DequeueCanCrashIff(s: State)
    requires Reachable(s) && Front(s.consumer).Some?
    ensures Front(s.consumer).value in s.heap
    ensures CrashAhead(s) <==> s.heap[Front(s.consumer).value].next.None?
  {
    ReachableKeepsInv(s);
    if s.heap[s.chain[0]].next.Some? {
      forall actions | SameDequeue(actions) && Run(Next, s, actions).Some?
        ensures !Run(Next, s, actions).value.consumer.Crashed?
      {
        LinkedDoesNotCrash(s, actions);
      }
    } else if |s.chain| > 1 {
      MissingLinkCrashes(s);
    } else {
      EmptyQueueCanCrash(s);
    }
  }

  /** One more step. */
  lemma Then(actions: seq<Action>, s: State, a: Action) returns (actions': seq<Action>, s': State)
    requires Run(Next, Initial(0, 0), actions) == Some(s) && Next(s, a).Some?
    ensures Run(Next, Initial(0, 0), actions') == Some(s') && Next(s, a) == Some(s')
  {
    RunSnoc(Next, Initial(0, 0), actions, a);
    actions', s' := actions + [a], Next(s, a).value;
  }

  /** A producer has swapped the tail and not yet written the link. */
  lemma LinkIsOwed() returns (actions: seq<Action>, s: State)
    ensures Run(Next, Initial(0, 0), actions) == Some(s)
    ensures s.consumer == Out && s.head == Some(0) && s.tail == 1 && 0 in s.heap && s.heap[0].next == None
  {
    s := Initial(0, 0);
    assert Run(Next, s, []) == Some(s);
    actions, s := Then([], s, Produce(1, Begin(7, 1)));
    actions, s := Then(actions, s, Produce(1, LoadTail));
    actions, s := Then(actions, s, Produce(1, CasTail(false)));
  }

  /** The consumer, seeing head and tail differ, has put null into head. */
  lemma NullIsStored() returns (actions: seq<Action>, s: State)
    ensures Run(Next, Initial(0, 0), actions) == Some(s)
    ensures s.consumer == Recheck(0) && s.head == None && s.tail == 1 && 0 in s.heap && s.heap[0].next == None
  {
    actions, s := LinkIsOwed();
    actions, s := Then(actions, s, Consume(BeginDequeue));
    actions, s := Then(actions, s, Consume(TestEmpty));
    actions, s := Then(actions, s, Consume(LoadNext));
    actions, s := Then(actions, s, Consume(SwapHead(false)));
  }

  /** It goes on and follows it. */
  lemma NullIsFollowed() returns (actions: seq<Action>, s: State)
    ensures Run(Next, Initial(0, 0), actions) == Some(s)
    ensures s.consumer == Crashed && s.head == None
  {
    actions, s := NullIsStored();
    actions, s := Then(actions, s, Consume(TestAgain));
    actions, s := Then(actions, s, Consume(LoadData));
  }
}
