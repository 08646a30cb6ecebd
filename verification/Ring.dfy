/** The lock-free ring shared by any number of producers and consumers, as a
    transition system: one step per shared load, compare-and-swap or slot
    access, with snapshots in each thread's locals that may have gone stale. */
module Ring {
  import opened Words

  type Tid = nat

  const SIZE: nat := 32
  const HTD_MAX: nat := SIZE / 4
  const WRAP: nat := 0x1_0000_0000

  datatype Marker = Marker(pos: nat, count: nat)
  datatype Bound = Bound(tail: Marker, head: Marker)
  datatype Side = Prod | Cons

  /** What travels through a ring: the id of a message buffer on the rpc
      queues, the four words of the message itself on the event queue. */
  datatype Item = Id(id: nat) | Event(msg: Msg)

  datatype Op = Enqueue(item: Item) | Dequeue {
    function Side(): Side { if Enqueue? then Prod else Cons }
  }

  datatype Result = Failed | Finished(pos: nat, item: Item)

  /** Where a thread stands in rpcmsg_enqueue or rpcmsg_dequeue, with the
      values of the locals that it still needs. */
  datatype Local =
    | LoadTail(op: Op)
    | Wait(op: Op, ot: Marker)
    | CheckRoom(op: Op, ot: Marker)
    | Reserve(op: Op, ot: Marker)
    | Access(op: Op, pos: nat, k: nat, id: nat, buf: Msg)
    | LoadHead(op: Op, pos: nat, item: Item)
    | ReloadTail(op: Op, pos: nat, item: Item, oh: Marker)
    | Publish(op: Op, pos: nat, item: Item, oh: Marker, t: Marker)
    | Done(op: Op, result: Result)

  datatype Queue = Queue(prod: Bound, cons: Bound, ring: seq<nat>, msgs: seq<Msg>,
                         events: bool, threads: map<Tid, Local>)
  {
    function B(side: Side): Bound { if side.Prod? then prod else cons }
    function SetB(side: Side, b: Bound): Queue {
      if side.Prod? then this.(prod := b) else this.(cons := b)
    }
    function SetTail(side: Side, m: Marker): Queue { SetB(side, Bound(m, B(side).head)) }
    function SetHead(side: Side, m: Marker): Queue { SetB(side, Bound(B(side).tail, m)) }
    function StoreEntry(i: nat, x: nat): Queue
      requires i < |ring|
    {
      this.(ring := ring[i := x])
    }
    function StoreWord(i: nat, k: nat, w: Word): Queue
      requires i < |msgs| && k < 4
    {
      this.(msgs := msgs[i := With(msgs[i], k, w)])
    }
    function Put(t: Tid, l: Local): Queue { this.(threads := threads[t := l]) }
  }

  /** Counters either grow without bound or wrap like uint32_t. */
  datatype Arith = Exact | Wrapped

  function Inc(a: Arith, x: nat): nat {
    if a.Exact? then x + 1 else (x + 1) % WRAP
  }

  /** The loop test of rpcmsg_tail_wait; a tail behind the head underflows. */
  predicate TooFar(a: Arith, pos: nat, head: nat) {
    if a.Exact? then !(head <= pos <= head + HTD_MAX) else (pos - head) % WRAP > HTD_MAX
  }

  /** The failure tests of the two acquire functions. */
  predicate Blocked(a: Arith, q: Queue, op: Op, pos: nat) {
    if op.Enqueue? then NoRoom(a, q.cons.head.pos, pos) else Nothing(a, q.prod.head.pos, pos)
  }

  predicate NoRoom(a: Arith, consHead: nat, pos: nat) {
    if a.Exact? then SIZE + consHead == pos else (SIZE + consHead - pos) % WRAP == 0
  }

  predicate Nothing(a: Arith, prodHead: nat, pos: nat) {
    if a.Exact? then prodHead == pos else (prodHead - pos) % WRAP == 0
  }

  predicate Fits(events: bool, item: Item) {
    item.Event? == events && (item.Id? ==> item.id < SIZE)
  }

  predicate Legal(events: bool, op: Op) {
    op.Enqueue? ==> Fits(events, op.item)
  }

  predicate Idle(q: Queue, t: Tid) {
    t !in q.threads || q.threads[t].Done?
  }

  predicate WellFormed(q: Queue) {
    && |q.ring| == SIZE && |q.msgs| == SIZE
    && (forall i | 0 <= i < SIZE :: q.ring[i] < SIZE)
    && forall t | t in q.threads :: WellFormedLocal(q.events, q.threads[t])
  }

  predicate WellFormedLocal(events: bool, l: Local) {
    && Legal(events, l.op)
    && (l.Access? ==> l.k <= 4 && l.id < SIZE)
  }

  /** First slot access of an operation: only the event producer has words to
      copy before it stores the ring entry. */
  function FirstAccess(op: Op): nat {
    if op.Enqueue? && op.item.Id? then 4 else 0
  }

  /** The markers commit_update tries to install. */
  function NewHead(a: Arith, oh: Marker, t: Marker): Marker {
    var count := Inc(a, oh.count);
    Marker(if count == t.count then t.pos else oh.pos, count)
  }

  function RingEntry(item: Item, pos: nat): nat {
    if item.Id? then item.id else pos % SIZE
  }

  function Payload(item: Item, k: nat): Word
    requires k < 4
  {
    if item.Event? then At(item.msg, k) else Zero()
  }

  /** One store or load of enqueue_fn / dequeue_fn. */
  function AccessStep(q: Queue, t: Tid, l: Local): Queue
    requires WellFormed(q) && WellFormedLocal(q.events, l) && l.Access?
  {
    if l.op.Enqueue? then
      if l.k < 4 then
        q.StoreWord(l.pos % SIZE, l.k, Payload(l.op.item, l.k))
        .Put(t, Access(l.op, l.pos, l.k + 1, l.id, l.buf))
      else
        q.StoreEntry(l.pos % SIZE, RingEntry(l.op.item, l.pos)).Put(t, LoadHead(l.op, l.pos, l.op.item))
    else
      q.Put(t, AfterLoad(q, l))
  }

  /** The consumer's locals after its next load from the slot: first the ring
      entry, then, on the event queue, the words of the message it names. */
  function AfterLoad(q: Queue, l: Local): Local
    requires WellFormed(q) && WellFormedLocal(q.events, l) && l.Access? && l.op.Dequeue?
  {
    if l.k == 0 then
      if q.events then Access(l.op, l.pos, 1, q.ring[l.pos % SIZE], l.buf)
      else LoadHead(l.op, l.pos, Id(q.ring[l.pos % SIZE]))
    else if l.k < 4 then
      Access(l.op, l.pos, l.k + 1, l.id, With(l.buf, l.k - 1, At(q.msgs[l.id], l.k - 1)))
    else
      LoadHead(l.op, l.pos, Event(With(l.buf, l.k - 1, At(q.msgs[l.id], l.k - 1))))
  }

  /** The next step of thread t. Only an idle thread looks at op: it starts it. */
  function Next(a: Arith, q: Queue, t: Tid, op: Op): Queue
    requires WellFormed(q)
  {
    if Idle(q, t) then
      if Legal(q.events, op) then q.Put(t, LoadTail(op)) else q
    else
      Move(a, q, t, q.threads[t])
  }

  function Move(a: Arith, q: Queue, t: Tid, l: Local): Queue
    requires WellFormed(q) && WellFormedLocal(q.events, l)
  {
    if l.Access? then
      AccessStep(q, t, l)
    else if l.Reserve? && q.B(l.op.Side()).tail == l.ot then
      q.SetTail(l.op.Side(), Marker(Inc(a, l.ot.pos), Inc(a, l.ot.count)))
      .Put(t, Access(l.op, l.ot.pos, FirstAccess(l.op), 0, ZeroMsg()))
    else if l.Publish? && q.B(l.op.Side()).head == l.oh then
      q.SetHead(l.op.Side(), NewHead(a, l.oh, l.t)).Put(t, Done(l.op, Finished(l.pos, l.item)))
    else
      q.Put(t, Look(a, q, q.B(l.op.Side()), l))
  }

  /** Shared loads and failed compare-and-swaps: only the locals change, and a
      failed compare-and-swap refreshes the expected value. */
  function Look(a: Arith, q: Queue, b: Bound, l: Local): Local
    requires !l.Access?
  {
    match l
    case LoadTail(o) => Wait(o, b.tail)
    case Wait(o, ot) => if TooFar(a, ot.pos, b.head.pos) then LoadTail(o) else CheckRoom(o, ot)
    case CheckRoom(o, ot) => if Blocked(a, q, o, ot.pos) then Done(o, Failed) else Reserve(o, ot)
    case Reserve(o, ot) => Wait(o, b.tail)
    case LoadHead(o, p, x) => ReloadTail(o, p, x, b.head)
    case ReloadTail(o, p, x, oh) => Publish(o, p, x, oh, b.tail)
    case Publish(o, p, x, oh, tl) => ReloadTail(o, p, x, b.head)
    case Done(_, _) => l
  }

  const M0: Marker := Marker(0, 0)

  /** rpcmsg_queue_init and rpcmsg_buffer_init: everything zeroed. */
  function Init(events: bool): Queue {
    Queue(Bound(M0, M0), Bound(M0, M0), seq(SIZE, _ => 0), seq(SIZE, _ => ZeroMsg()), events, map[])
  }

  predicate InFlight(l: Local) {
    l.Access? || l.LoadHead? || l.ReloadTail? || l.Publish?
  }

  predicate Flies(q: Queue, side: Side, t: Tid) {
    t in q.threads && InFlight(q.threads[t]) && q.threads[t].op.Side() == side
  }

  /** The threads between their reserve and their commit on one side. */
  ghost function Flying(q: Queue, side: Side): set<Tid> {
    set t | t in q.threads && Flies(q, side, t)
  }
}
