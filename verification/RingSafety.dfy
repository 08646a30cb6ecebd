/** What every interleaving of the ring keeps: the index chain, the committed
    prefix, in-flight accounting and exactly-once delivery of every item. */
module RingSafety {
  import opened Words
  import opened Ring

  /** A queue together with its history: the items by the position they were
      reserved for, the threads that claimed each position on either side, and
      the items read so far, by position. */
  datatype World = World(q: Queue, log: seq<Item>, makers: seq<Tid>, takers: seq<Tid>, out: map<nat, Item>)

  predicate Reserving(q: Queue, t: Tid, side: Side) {
    t in q.threads && q.threads[t].Reserve? && q.threads[t].op.Side() == side
    && q.B(side).tail == q.threads[t].ot
  }

  predicate Commits(q: Queue, t: Tid, side: Side) {
    && t in q.threads && q.threads[t].Publish? && q.threads[t].op.Side() == side
    && q.B(side).head == q.threads[t].oh
  }

  /** The load that completes a dequeue's copy. */
  predicate LastLoad(q: Queue, t: Tid)
    requires WellFormed(q)
  {
    t in q.threads && q.threads[t].Access? && q.threads[t].op.Dequeue? && AfterLoad(q, q.threads[t]).LoadHead?
  }

  function Step(w: World, t: Tid, op: Op): World
    requires WellFormed(w.q)
  {
    World(Next(Exact, w.q, t, op),
          if Reserving(w.q, t, Prod) then w.log + [w.q.threads[t].op.item] else w.log,
          if Reserving(w.q, t, Prod) then w.makers + [t] else w.makers,
          if Reserving(w.q, t, Cons) then w.takers + [t] else w.takers,
          if LastLoad(w.q, t) then w.out[w.q.threads[t].pos := AfterLoad(w.q, w.q.threads[t]).item] else w.out)
  }

  function Start(events: bool): World {
    World(Init(events), [], [], [], map[])
  }

  // ---------------------------------------------------------------- markers

  ghost predicate BoundOk(b: Bound) {
    && b.tail.pos == b.tail.count
    && b.head.pos <= b.head.count <= b.tail.count
    && (b.head.count == b.tail.count ==> b.head.pos == b.tail.pos)
    && b.tail.pos <= b.head.pos + HTD_MAX + 1
  }

  /** The order of the four positions around the ring. */
  ghost predicate Chain(q: Queue) {
    q.cons.head.pos <= q.cons.tail.pos <= q.prod.head.pos <= q.prod.tail.pos <= q.cons.head.pos + SIZE
  }

  ghost predicate Markers(q: Queue) {
    WellFormed(q) && BoundOk(q.prod) && BoundOk(q.cons) && Chain(q)
  }

  // ----------------------------------------------------------------- locals

  ghost predicate TailSnapshot(ot: Marker, tail: Marker) {
    ot.pos == ot.count <= tail.pos
  }

  ghost predicate HeadSnapshot(oh: Marker, head: Marker) {
    oh.count <= head.count && (oh.count == head.count ==> oh == head)
  }

  /** What a thread knows about the shared markers, whatever the others did
      since its last load: b is its own side, room the first position that it
      may not reserve. */
  ghost predicate Knows(b: Bound, room: nat, l: Local) {
    && (l.Wait? || l.CheckRoom? || l.Reserve? ==> TailSnapshot(l.ot, b.tail))
    && (l.CheckRoom? || l.Reserve? ==> l.ot.pos <= b.head.pos + HTD_MAX)
    && (l.Reserve? ==> l.ot.pos < room)
    && (InFlight(l) ==> b.head.pos <= l.pos < b.tail.pos)
    && (l.ReloadTail? || l.Publish? ==> HeadSnapshot(l.oh, b.head))
    && (l.Publish? ==> l.pos < l.t.pos == l.t.count <= b.tail.pos && (l.oh == b.head ==> l.oh.count < l.t.count))
  }

  ghost function Room(q: Queue, side: Side): nat {
    if side.Prod? then q.cons.head.pos + SIZE else q.prod.head.pos
  }

  ghost predicate LocalOk(q: Queue, l: Local) {
    Knows(q.B(l.op.Side()), Room(q, l.op.Side()), l)
  }

  /** A publisher whose snapshot still holds and is one short of the tail it
      saw: everybody else in flight reserved after that tail. */
  ghost predicate Sole(q: Queue, t: Tid, u: Tid)
    requires t in q.threads && u in q.threads
  {
    var l := q.threads[t];
    t != u && l.Publish? && l.oh == q.B(l.op.Side()).head && l.oh.count + 1 == l.t.count && Flies(q, l.op.Side(), u)
    ==> l.t.pos <= q.threads[u].pos
  }

  ghost predicate AllOk(q: Queue) {
    forall t {:trigger LocalOk(q, q.threads[t])} | t in q.threads :: LocalOk(q, q.threads[t])
  }

  ghost predicate AllSole(q: Queue) {
    forall t, u {:trigger Sole(q, t, u)} | t in q.threads && u in q.threads :: Sole(q, t, u)
  }

  /** The gap between the counts is the number of threads in flight. */
  ghost predicate Counted(q: Queue, side: Side) {
    |Flying(q, side)| == q.B(side).tail.count - q.B(side).head.count
  }

  ghost predicate Locals(q: Queue) {
    AllOk(q) && AllSole(q) && Counted(q, Prod) && Counted(q, Cons)
  }

  // ---------------------------------------------------------------- history

  /** Slot pos % 32 holds the item that was enqueued at position pos. */
  ghost predicate Holds(q: Queue, item: Item, pos: nat)
    requires |q.ring| == SIZE && |q.msgs| == SIZE
  {
    && q.ring[pos % SIZE] == RingEntry(item, pos)
    && (item.Event? ==> q.msgs[pos % SIZE] == item.msg)
  }

  predicate WritesAt(l: Local, pos: nat) { l.Access? && l.op.Enqueue? && l.pos == pos }
  predicate ReadsAt(l: Local, pos: nat) { l.Access? && l.op.Dequeue? && l.pos == pos }
  ghost predicate Writing(q: Queue, pos: nat) { exists t | t in q.threads :: WritesAt(q.threads[t], pos) }
  ghost predicate Reading(q: Queue, pos: nat) { exists t | t in q.threads :: ReadsAt(q.threads[t], pos) }

  ghost predicate SameWords(m: Msg, item: Item, k: int) {
    item.Event? ==> forall j: nat | j < 4 && j < k :: At(m, j) == At(item.msg, j)
  }

  /** What thread t has copied so far is what the log says. */
  ghost predicate Faithful(w: World, t: Tid, l: Local)
    requires Markers(w.q)
  {
    InFlight(l) ==>
      && l.pos < |w.log|
      && (if l.op.Enqueue? then l.pos < |w.makers| && w.makers[l.pos] == t && w.log[l.pos] == l.op.item
          else l.pos < |w.takers| && w.takers[l.pos] == t && (l.Access? <==> l.pos !in w.out))
      && (!l.Access? ==> l.item == w.log[l.pos])
      && (l.Access? && l.op.Enqueue? ==> FirstAccess(l.op) <= l.k && SameWords(w.q.msgs[l.pos % SIZE], l.op.item, l.k))
      && (l.Access? && l.op.Dequeue? && l.k > 0 ==>
            w.q.events && l.id == RingEntry(w.log[l.pos], l.pos) && SameWords(l.buf, w.log[l.pos], l.k - 1))
  }

  ghost predicate Slots(w: World)
    requires Markers(w.q) && |w.log| == w.q.prod.tail.pos
  {
    forall p | w.q.cons.head.pos <= p < w.q.prod.tail.pos :: Holds(w.q, w.log[p], p) || Writing(w.q, p)
  }

  ghost predicate Delivered(w: World)
    requires Markers(w.q) && |w.log| == w.q.prod.tail.pos
  {
    && (forall p | p in w.out :: p < w.q.cons.tail.pos && w.out[p] == w.log[p])
    && (forall p: nat | p < w.q.cons.tail.pos :: p in w.out || Reading(w.q, p))
  }

  ghost predicate History(w: World)
    requires Markers(w.q)
  {
    && |w.log| == |w.makers| == w.q.prod.tail.pos
    && |w.takers| == w.q.cons.tail.pos
    && (forall p | 0 <= p < |w.log| :: Fits(w.q.events, w.log[p]))
    && (forall t {:trigger Faithful(w, t, w.q.threads[t])} | t in w.q.threads :: Faithful(w, t, w.q.threads[t]))
    && Slots(w)
    && Delivered(w)
  }

  ghost predicate Inv(w: World) {
    Markers(w.q) && Locals(w.q) && History(w)
  }

  lemma StartInv(events: bool)
    ensures Inv(Start(events))
  {
    assert Flying(Init(events), Prod) == {} && Flying(Init(events), Cons) == {};
  }

  // ------------------------------------------------------------- quiet steps

  /** A step that touches only thread t's locals. */
  lemma QuietLocals(q: Queue, t: Tid, l: Local)
    requires Locals(q) && LocalOk(q, l)
    requires InFlight(l) == (t in q.threads && InFlight(q.threads[t]))
    requires InFlight(l) ==> l.op == q.threads[t].op && l.pos == q.threads[t].pos
    requires l.Publish? ==> l.t == q.B(l.op.Side()).tail
    ensures Locals(q.Put(t, l))
  {
    var q' := q.Put(t, l);
    SameFlying(q, q', Prod);
    SameFlying(q, q', Cons);
    QuietOk(q, t, l);
    QuietSole(q, t, l);
  }

  lemma SameFlying(q: Queue, q': Queue, side: Side)
    requires forall u :: Flies(q, side, u) == Flies(q', side, u)
    ensures Flying(q, side) == Flying(q', side)
  {
  }

  lemma QuietOk(q: Queue, t: Tid, l: Local)
    requires AllOk(q) && LocalOk(q, l)
    ensures AllOk(q.Put(t, l))
  {
    var q' := q.Put(t, l);
    forall u | u in q'.threads ensures LocalOk(q', q'.threads[u]) {
      if u != t { assert LocalOk(q, q.threads[u]); }
    }
  }

  lemma QuietSole(q: Queue, t: Tid, l: Local)
    requires AllSole(q) && Counted(q, Prod) && Counted(q, Cons)
    requires InFlight(l) == (t in q.threads && InFlight(q.threads[t]))
    requires InFlight(l) ==> l.op == q.threads[t].op && l.pos == q.threads[t].pos
    requires l.Publish? ==> l.t == q.B(l.op.Side()).tail
    ensures AllSole(q.Put(t, l))
  {
    var q' := q.Put(t, l);
    forall u, v | u in q'.threads && v in q'.threads ensures Sole(q', u, v) {
      if u != t {
        if v != t { assert Sole(q, u, v); }
        else if t in q.threads { assert Sole(q, u, t); }
      } else if l.Publish? && v != t && Flies(q, l.op.Side(), v) {
        Pair(Flying(q, l.op.Side()), t, v);
      }
    }
  }

  lemma Pair<T>(s: set<T>, x: T, y: T)
    requires x in s && y in s && x != y
    ensures |s| >= 2
  {
    assert |s| == |{x, y}| + |s - {x, y}|;
  }

  lemma QuietHistory(w: World, t: Tid, l: Local)
    requires Markers(w.q) && History(w) && Faithful(w, t, l) && WellFormedLocal(w.q.events, l)
    requires forall p: nat :: WritesAt(l, p) == (t in w.q.threads && WritesAt(w.q.threads[t], p))
    requires forall p: nat :: ReadsAt(l, p) == (t in w.q.threads && ReadsAt(w.q.threads[t], p))
    ensures History(w.(q := w.q.Put(t, l)))
  {
    var w' := w.(q := w.q.Put(t, l));
    forall u | u in w'.q.threads ensures Faithful(w', u, w'.q.threads[u]) {
      if u != t { assert Faithful(w, u, w.q.threads[u]); }
    }
    KeepSlots(w, w', t);
    KeepReading(w, w', t);
  }

  /** What a thread has copied stays right as the histories grow. */
  lemma FaithfulKept(w: World, w': World, u: Tid, l: Local)
    requires Markers(w.q) && Markers(w'.q) && Faithful(w, u, l)
    requires w'.q.msgs == w.q.msgs && w'.q.events == w.q.events && w'.out == w.out
    requires w.log <= w'.log && w.makers <= w'.makers && w.takers <= w'.takers
    ensures Faithful(w', u, l)
  {
  }

  /** Slots survives when memory is unchanged and nobody stops writing. */
  lemma KeepSlots(w: World, w': World, t: Tid)
    requires Markers(w.q) && Markers(w'.q) && |w.log| == w.q.prod.tail.pos == w'.q.prod.tail.pos && w'.log == w.log
    requires Slots(w) && w'.q.ring == w.q.ring && w'.q.msgs == w.q.msgs && w.q.cons.head.pos <= w'.q.cons.head.pos
    requires forall u | u in w.q.threads && u != t :: u in w'.q.threads && w'.q.threads[u] == w.q.threads[u]
    requires t in w.q.threads ==>
               forall p: nat :: WritesAt(w.q.threads[t], p) ==> t in w'.q.threads && WritesAt(w'.q.threads[t], p)
    ensures Slots(w')
  {
    forall p | w'.q.cons.head.pos <= p < w'.q.prod.tail.pos ensures Holds(w'.q, w'.log[p], p) || Writing(w'.q, p) {
      if !Holds(w.q, w.log[p], p) {
        var u :| u in w.q.threads && WritesAt(w.q.threads[u], p);
        assert u in w'.q.threads && WritesAt(w'.q.threads[u], p);
      }
    }
  }

  lemma KeepReading(w: World, w': World, t: Tid)
    requires forall u | u in w.q.threads && u != t :: u in w'.q.threads && w'.q.threads[u] == w.q.threads[u]
    requires t in w.q.threads ==>
               forall p: nat ::
                 ReadsAt(w.q.threads[t], p) && p !in w'.out ==> t in w'.q.threads && ReadsAt(w'.q.threads[t], p)
    ensures forall p: nat :: Reading(w.q, p) && p !in w'.out ==> Reading(w'.q, p)
  {
    forall p: nat | Reading(w.q, p) && p !in w'.out ensures Reading(w'.q, p) {
      var u :| u in w.q.threads && ReadsAt(w.q.threads[u], p);
      assert u in w'.q.threads && ReadsAt(w'.q.threads[u], p);
    }
  }

  lemma QuietInv(w: World, t: Tid, l: Local)
    requires Inv(w) && LocalOk(w.q, l) && Faithful(w, t, l) && WellFormedLocal(w.q.events, l)
    requires InFlight(l) == (t in w.q.threads && InFlight(w.q.threads[t]))
    requires InFlight(l) ==> l.op == w.q.threads[t].op && l.pos == w.q.threads[t].pos
    requires InFlight(l) ==> l.Access? == w.q.threads[t].Access?
    requires l.Publish? ==> l.t == w.q.B(l.op.Side()).tail
    ensures Inv(w.(q := w.q.Put(t, l)))
  {
    QuietLocals(w.q, t, l);
    QuietHistory(w, t, l);
  }

  // ------------------------------------------------------------ slot accesses

  /** A consumer's slot holds its item: all producers in flight are past it. */
  lemma ReaderSees(w: World, t: Tid)
    requires Inv(w) && t in w.q.threads && w.q.threads[t].Access? && w.q.threads[t].op.Dequeue?
    ensures w.q.threads[t].pos < |w.log| && Holds(w.q, w.log[w.q.threads[t].pos], w.q.threads[t].pos)
  {
    var p := w.q.threads[t].pos;
    assert LocalOk(w.q, w.q.threads[t]);
    forall u | u in w.q.threads ensures !WritesAt(w.q.threads[u], p) {
      assert LocalOk(w.q, w.q.threads[u]);
    }
  }

  /** What the consumer has after its next load is what the producer wrote. */
  lemma LoadFacts(w: World, t: Tid)
    requires Inv(w) && t in w.q.threads && w.q.threads[t].Access? && w.q.threads[t].op.Dequeue?
    ensures LocalOk(w.q, AfterLoad(w.q, w.q.threads[t]))
    ensures AfterLoad(w.q, w.q.threads[t]).Access? ==> Faithful(w, t, AfterLoad(w.q, w.q.threads[t]))
    ensures AfterLoad(w.q, w.q.threads[t]).LoadHead? ==>
              && w.q.threads[t].pos < |w.log|
              && AfterLoad(w.q, w.q.threads[t]) == LoadHead(Dequeue, w.q.threads[t].pos, w.log[w.q.threads[t].pos])
  {
    var l := w.q.threads[t];
    ReaderSees(w, t);
    assert LocalOk(w.q, l) && Faithful(w, t, l) && Fits(w.q.events, w.log[l.pos]);
    if l.k == 4 {
      SameMsg(AfterLoad(w.q, l).item.msg, w.log[l.pos].msg);
    }
  }

  lemma LoadStep(w: World, t: Tid, op: Op)
    requires WellFormed(w.q) && t in w.q.threads && w.q.threads[t].Access? && w.q.threads[t].op.Dequeue?
    ensures var l' := AfterLoad(w.q, w.q.threads[t]);
            Step(w, t, op) == if l'.LoadHead? then Loaded(w, t, l') else w.(q := w.q.Put(t, l'))
  {
  }

  /** The world after thread t has copied its last word. */
  function Loaded(w: World, t: Tid, l': Local): World
    requires l'.LoadHead?
  {
    w.(q := w.q.Put(t, l'), out := w.out[l'.pos := l'.item])
  }

  lemma LoadInv(w: World, t: Tid, op: Op)
    requires Inv(w) && t in w.q.threads && w.q.threads[t].Access? && w.q.threads[t].op.Dequeue?
    ensures Inv(Step(w, t, op))
  {
    LoadStep(w, t, op);
    LoadFacts(w, t);
    if AfterLoad(w.q, w.q.threads[t]).Access? {
      QuietInv(w, t, AfterLoad(w.q, w.q.threads[t]));
    } else {
      LastLoadInv(w, t);
    }
  }

  lemma LastLoadInv(w: World, t: Tid)
    requires Inv(w) && t in w.q.threads && w.q.threads[t].Access? && w.q.threads[t].op.Dequeue?
    requires AfterLoad(w.q, w.q.threads[t]).LoadHead?
    ensures Inv(Loaded(w, t, AfterLoad(w.q, w.q.threads[t])))
  {
    var l' := AfterLoad(w.q, w.q.threads[t]);
    LoadFacts(w, t);
    QuietLocals(w.q, t, l');
    LastLoadHistory(w, t, l');
  }

  /** Another thread's copy is not affected: t alone had claimed its position. */
  lemma LoadedElsewhere(w: World, t: Tid, l': Local, u: Tid, l: Local)
    requires l'.LoadHead? && Markers(w.q) && Markers(Loaded(w, t, l').q) && u != t
    requires l'.pos < |w.takers| && w.takers[l'.pos] == t && Faithful(w, u, l)
    ensures Faithful(Loaded(w, t, l'), u, l)
  {
  }

  lemma LastLoadHistory(w: World, t: Tid, l': Local)
    requires Inv(w) && t in w.q.threads && w.q.threads[t].Access? && w.q.threads[t].op.Dequeue?
    requires w.q.threads[t].pos < |w.log| && l' == LoadHead(Dequeue, w.q.threads[t].pos, w.log[w.q.threads[t].pos])
    ensures Markers(Loaded(w, t, l').q) && History(Loaded(w, t, l'))
  {
    var w' := Loaded(w, t, l');
    assert LocalOk(w.q, w.q.threads[t]) && Faithful(w, t, w.q.threads[t]);
    forall u | u in w'.q.threads ensures Faithful(w', u, w'.q.threads[u]) {
      if u != t {
        assert Faithful(w, u, w.q.threads[u]);
        LoadedElsewhere(w, t, l', u, w.q.threads[u]);
      }
    }
    KeepSlots(w, w', t);
    KeepReading(w, w', t);
  }

  /** Positions a ring apart share no slot. */
  lemma DistinctSlots(p: nat, r: nat)
    requires p != r && p < r + SIZE && r < p + SIZE
    ensures p % SIZE != r % SIZE
  {
  }

  /** Everything but slot p % 32 is as before. */
  ghost predicate OnlySlot(q: Queue, q': Queue, p: nat) {
    && |q.ring| == |q'.ring| == SIZE && |q.msgs| == |q'.msgs| == SIZE
    && q'.prod == q.prod && q'.cons == q.cons && q'.events == q.events
    && forall i | 0 <= i < SIZE && i != p % SIZE :: q'.ring[i] == q.ring[i] && q'.msgs[i] == q.msgs[i]
  }

  lemma StoreHistory(w: World, w': World, t: Tid)
    requires Inv(w) && Markers(w'.q) && t in w.q.threads && w.q.threads[t].Access? && w.q.threads[t].op.Enqueue?
    requires w'.log == w.log && w'.makers == w.makers && w'.takers == w.takers && w'.out == w.out
    requires OnlySlot(w.q, w'.q, w.q.threads[t].pos)
    requires t in w'.q.threads && w'.q.threads == w.q.threads[t := w'.q.threads[t]]
    requires w'.q.threads[t].op == w.q.threads[t].op
    requires Faithful(w', t, w'.q.threads[t])
    requires w.q.threads[t].pos < |w.log|
    requires WritesAt(w'.q.threads[t], w.q.threads[t].pos) || Holds(w'.q, w.log[w.q.threads[t].pos], w.q.threads[t].pos)
    ensures History(w')
  {
    var p := w.q.threads[t].pos;
    assert LocalOk(w.q, w.q.threads[t]) && Faithful(w, t, w.q.threads[t]);
    forall u | u in w'.q.threads ensures Faithful(w', u, w'.q.threads[u]) {
      if u != t {
        var l := w.q.threads[u];
        assert Faithful(w, u, l) && LocalOk(w.q, l);
        if InFlight(l) && l.op.Enqueue? { DistinctSlots(p, l.pos); }
      }
    }
    forall r | w.q.cons.head.pos <= r < w.q.prod.tail.pos ensures Holds(w'.q, w'.log[r], r) || Writing(w'.q, r) {
      if r != p {
        DistinctSlots(p, r);
        if !Holds(w.q, w.log[r], r) {
          var u :| u in w.q.threads && WritesAt(w.q.threads[u], r);
          assert u in w'.q.threads && WritesAt(w'.q.threads[u], r);
        }
      } else if WritesAt(w'.q.threads[t], p) {
        assert Writing(w'.q, p);
      }
    }
    KeepReading(w, w', t);
  }

  lemma StoreLocals(q: Queue, q': Queue, t: Tid)
    requires Locals(q) && t in q.threads && q.threads[t].Access?
    requires OnlySlot(q, q', q.threads[t].pos)
    requires t in q'.threads && q'.threads == q.threads[t := q'.threads[t]]
    requires LocalOk(q, q'.threads[t])
    requires InFlight(q'.threads[t]) && !q'.threads[t].Publish?
    requires q'.threads[t].op == q.threads[t].op && q'.threads[t].pos == q.threads[t].pos
    ensures Locals(q')
  {
    var q1 := q.Put(t, q'.threads[t]);
    QuietLocals(q, t, q'.threads[t]);
    SameFlying(q1, q', Prod);
    SameFlying(q1, q', Cons);
    forall u | u in q'.threads ensures LocalOk(q', q'.threads[u]) { assert LocalOk(q1, q1.threads[u]); }
    forall u, v | u in q'.threads && v in q'.threads ensures Sole(q', u, v) { assert Sole(q1, u, v); }
  }

  lemma StoreInv(w: World, t: Tid, op: Op)
    requires Inv(w) && t in w.q.threads && w.q.threads[t].Access? && w.q.threads[t].op.Enqueue?
    ensures Inv(Step(w, t, op))
  {
    var l := w.q.threads[t];
    var w' := Step(w, t, op);
    assert LocalOk(w.q, l) && Faithful(w, t, l);
    assert OnlySlot(w.q, w'.q, l.pos);
    StoreLocals(w.q, w'.q, t);
    if l.k == 4 && l.op.item.Event? {
      SameMsg(w.q.msgs[l.pos % SIZE], l.op.item.msg);
    }
    StoreHistory(w, w', t);
  }

  lemma SameMsg(m: Msg, n: Msg)
    requires forall j: nat | j < 4 :: At(m, j) == At(n, j)
    ensures m == n
  {
    assert At(m, 0) == At(n, 0) && At(m, 1) == At(n, 1) && At(m, 2) == At(n, 2) && At(m, 3) == At(n, 3);
  }

  // ------------------------------------------------- reservations and commits

  function Other(side: Side): Side { if side.Prod? then Cons else Prod }

  /** Snapshots survive somebody else's reservation. */
  lemma OkAfterReserve(q: Queue, side: Side, l: Local)
    requires LocalOk(q, l)
    ensures LocalOk(q.SetTail(side, Marker(q.B(side).tail.pos + 1, q.B(side).tail.count + 1)), l)
  {
  }

  /** Snapshots survive somebody else's commit, unless it passes a thread in flight. */
  lemma OkAfterPublish(q: Queue, side: Side, h: Marker, l: Local)
    requires LocalOk(q, l) && q.B(side).head.pos <= h.pos && h.count == q.B(side).head.count + 1
    requires InFlight(l) && l.op.Side() == side ==> h.pos <= l.pos
    ensures LocalOk(q.SetHead(side, h), l)
  {
  }

  ghost predicate ReadyToReserve(q: Queue, t: Tid) {
    && Markers(q) && Locals(q) && t in q.threads && q.threads[t].Reserve?
    && q.B(q.threads[t].op.Side()).tail == q.threads[t].ot
  }

  lemma ReserveMarkers(q: Queue, t: Tid)
    requires ReadyToReserve(q, t)
    ensures Markers(Move(Exact, q, t, q.threads[t]))
  {
    assert LocalOk(q, q.threads[t]);
  }

  lemma ReserveOk(q: Queue, t: Tid)
    requires ReadyToReserve(q, t)
    ensures AllOk(Move(Exact, q, t, q.threads[t]))
  {
    var l := q.threads[t];
    var q' := Move(Exact, q, t, l);
    forall u | u in q'.threads ensures LocalOk(q', q'.threads[u]) {
      assert LocalOk(q, q.threads[u]);
      if u != t { OkAfterReserve(q, l.op.Side(), q.threads[u]); }
    }
  }

  lemma ReserveSole(q: Queue, t: Tid)
    requires ReadyToReserve(q, t)
    ensures AllSole(Move(Exact, q, t, q.threads[t]))
  {
    var q' := Move(Exact, q, t, q.threads[t]);
    forall u, v | u in q'.threads && v in q'.threads ensures Sole(q', u, v) {
      assert LocalOk(q, q.threads[u]) && Sole(q, u, v);
    }
  }

  lemma ReserveCounted(q: Queue, t: Tid)
    requires ReadyToReserve(q, t)
    ensures Counted(Move(Exact, q, t, q.threads[t]), Prod) && Counted(Move(Exact, q, t, q.threads[t]), Cons)
  {
    var side := q.threads[t].op.Side();
    var q' := Move(Exact, q, t, q.threads[t]);
    MoreFlying(q, q', side, t);
    SameFlying(q, q', Other(side));
    assert Counted(q', side) && Counted(q', Other(side));
  }

  lemma MoreFlying(q: Queue, q': Queue, side: Side, t: Tid)
    requires forall u :: Flies(q', side, u) == (Flies(q, side, u) || u == t)
    requires !Flies(q, side, t)
    ensures |Flying(q', side)| == |Flying(q, side)| + 1
  {
    forall u ensures u in Flying(q', side) <==> u in Flying(q, side) + {t} {
      assert Flies(q', side, u) == (Flies(q, side, u) || u == t);
    }
    assert Flying(q', side) == Flying(q, side) + {t};
  }

  lemma ReserveFaithful(w: World, t: Tid, op: Op)
    requires Inv(w) && ReadyToReserve(w.q, t) && Markers(Step(w, t, op).q)
    ensures forall u | u in Step(w, t, op).q.threads :: Faithful(Step(w, t, op), u, Step(w, t, op).q.threads[u])
  {
    var w' := Step(w, t, op);
    assert LocalOk(w.q, w.q.threads[t]);
    forall u | u in w'.q.threads ensures Faithful(w', u, w'.q.threads[u]) {
      if u != t {
        assert Faithful(w, u, w.q.threads[u]);
        FaithfulKept(w, w', u, w.q.threads[u]);
      }
    }
  }

  lemma ReserveProdHistory(w: World, t: Tid, op: Op)
    requires Inv(w) && ReadyToReserve(w.q, t) && Markers(Step(w, t, op).q)
    requires w.q.threads[t].op.Enqueue?
    ensures History(Step(w, t, op))
  {
    var l := w.q.threads[t];
    var w' := Step(w, t, op);
    assert LocalOk(w.q, l);
    ReserveFaithful(w, t, op);
    forall r | w'.q.cons.head.pos <= r < w'.q.prod.tail.pos ensures Holds(w'.q, w'.log[r], r) || Writing(w'.q, r) {
      if r == w.q.prod.tail.pos {
        assert WritesAt(w'.q.threads[t], r);
      } else if !Holds(w.q, w.log[r], r) {
        var u :| u in w.q.threads && WritesAt(w.q.threads[u], r);
        assert u in w'.q.threads && WritesAt(w'.q.threads[u], r);
      }
    }
    KeepReading(w, w', t);
  }

  lemma ReserveConsHistory(w: World, t: Tid, op: Op)
    requires Inv(w) && ReadyToReserve(w.q, t) && Markers(Step(w, t, op).q)
    requires w.q.threads[t].op.Dequeue?
    ensures History(Step(w, t, op))
  {
    var w' := Step(w, t, op);
    ReserveFaithful(w, t, op);
    KeepSlots(w, w', t);
    KeepReading(w, w', t);
    assert ReadsAt(w'.q.threads[t], w.q.cons.tail.pos);
  }

  lemma ReserveInv(w: World, t: Tid, op: Op)
    requires Inv(w) && ReadyToReserve(w.q, t)
    ensures Inv(Step(w, t, op))
  {
    ReserveMarkers(w.q, t);
    ReserveOk(w.q, t);
    ReserveSole(w.q, t);
    ReserveCounted(w.q, t);
    if w.q.threads[t].op.Enqueue? { ReserveProdHistory(w, t, op); } else { ReserveConsHistory(w, t, op); }
  }

  ghost predicate ReadyToPublish(q: Queue, t: Tid) {
    && Markers(q) && Locals(q) && t in q.threads && q.threads[t].Publish?
    && q.B(q.threads[t].op.Side()).head == q.threads[t].oh
  }

  lemma PublishMarkers(q: Queue, t: Tid)
    requires ReadyToPublish(q, t)
    ensures Markers(Move(Exact, q, t, q.threads[t]))
  {
    assert LocalOk(q, q.threads[t]);
  }

  lemma PublishOk(q: Queue, t: Tid)
    requires ReadyToPublish(q, t)
    ensures AllOk(Move(Exact, q, t, q.threads[t]))
  {
    var l := q.threads[t];
    var q' := Move(Exact, q, t, l);
    var q1 := q.SetHead(l.op.Side(), NewHead(Exact, l.oh, l.t));
    forall u | u in q'.threads ensures LocalOk(q', q'.threads[u]) {
      assert LocalOk(q, q.threads[u]);
      if u != t {
        PassedBy(q, t, u);
        assert LocalOk(q1, q.threads[u]);
      }
    }
  }

  /** The commit of t keeps what u knows, and never moves the head past u. */
  lemma PassedBy(q: Queue, t: Tid, u: Tid)
    requires ReadyToPublish(q, t) && u in q.threads && u != t
    ensures var l := q.threads[t]; LocalOk(q.SetHead(l.op.Side(), NewHead(Exact, l.oh, l.t)), q.threads[u])
  {
    var l := q.threads[t];
    assert LocalOk(q, l) && LocalOk(q, q.threads[u]) && Sole(q, t, u);
    OkAfterPublish(q, l.op.Side(), NewHead(Exact, l.oh, l.t), q.threads[u]);
  }

  lemma PublishSole(q: Queue, t: Tid)
    requires ReadyToPublish(q, t)
    ensures AllSole(Move(Exact, q, t, q.threads[t]))
  {
    var q' := Move(Exact, q, t, q.threads[t]);
    forall u, v | u in q'.threads && v in q'.threads ensures Sole(q', u, v) {
      if u != t && v != t {
        assert LocalOk(q, q.threads[u]) && Sole(q, u, v);
      }
    }
  }

  lemma PublishCounted(q: Queue, t: Tid)
    requires ReadyToPublish(q, t)
    ensures Counted(Move(Exact, q, t, q.threads[t]), Prod) && Counted(Move(Exact, q, t, q.threads[t]), Cons)
  {
    var side := q.threads[t].op.Side();
    var q' := Move(Exact, q, t, q.threads[t]);
    MoreFlying(q', q, side, t);
    SameFlying(q, q', Other(side));
    assert Counted(q', side) && Counted(q', Other(side));
  }

  lemma PublishHistory(w: World, t: Tid, op: Op)
    requires Inv(w) && ReadyToPublish(w.q, t) && Markers(Step(w, t, op).q)
    ensures History(Step(w, t, op))
  {
    var w' := Step(w, t, op);
    assert LocalOk(w.q, w.q.threads[t]);
    forall u | u in w'.q.threads ensures Faithful(w', u, w'.q.threads[u]) {
      if u != t { assert Faithful(w, u, w.q.threads[u]); }
    }
    KeepSlots(w, w', t);
    KeepReading(w, w', t);
  }

  lemma PublishInv(w: World, t: Tid, op: Op)
    requires Inv(w) && ReadyToPublish(w.q, t)
    ensures Inv(Step(w, t, op))
  {
    PublishMarkers(w.q, t);
    PublishOk(w.q, t);
    PublishSole(w.q, t);
    PublishCounted(w.q, t);
    PublishHistory(w, t, op);
  }

  // ------------------------------------------------------------ the invariant

  /** A load or a failed attempt: thread t is left with a valid snapshot. */
  ghost predicate Quiet(q: Queue, t: Tid) {
    && !Idle(q, t) && !q.threads[t].Access?
    && !(q.threads[t].Reserve? && q.B(q.threads[t].op.Side()).tail == q.threads[t].ot)
    && !(q.threads[t].Publish? && q.B(q.threads[t].op.Side()).head == q.threads[t].oh)
  }

  lemma LookOk(q: Queue, l: Local)
    requires Markers(q) && LocalOk(q, l) && !l.Access?
    requires l.Reserve? ==> q.B(l.op.Side()).tail != l.ot
    requires l.ReloadTail? ==> q.B(l.op.Side()).head.count < q.B(l.op.Side()).tail.count
    ensures LocalOk(q, Look(Exact, q, q.B(l.op.Side()), l))
  {
  }

  lemma MoveInv(w: World, t: Tid, op: Op)
    requires Inv(w) && Quiet(w.q, t)
    ensures Inv(Step(w, t, op))
  {
    var l := w.q.threads[t];
    var l' := Look(Exact, w.q, w.q.B(l.op.Side()), l);
    assert LocalOk(w.q, l);
    if l.ReloadTail? { assert t in Flying(w.q, l.op.Side()); }
    LookOk(w.q, l);
    LookFaithful(w, t);
    QuietInv(w, t, l');
    LookStep(w, t, op);
  }

  lemma LookStep(w: World, t: Tid, op: Op)
    requires WellFormed(w.q) && Quiet(w.q, t)
    ensures Step(w, t, op) == w.(q := w.q.Put(t, Look(Exact, w.q, w.q.B(w.q.threads[t].op.Side()), w.q.threads[t])))
  {
  }

  lemma LookFaithful(w: World, t: Tid)
    requires Inv(w) && Quiet(w.q, t)
    ensures Faithful(w, t, Look(Exact, w.q, w.q.B(w.q.threads[t].op.Side()), w.q.threads[t]))
  {
    assert Faithful(w, t, w.q.threads[t]);
  }

  lemma BeginInv(w: World, t: Tid, op: Op)
    requires Inv(w) && Idle(w.q, t)
    ensures Inv(Step(w, t, op))
  {
    if Legal(w.q.events, op) {
      QuietInv(w, t, LoadTail(op));
    }
  }

  /** Every step of every thread, from whatever stale snapshot, keeps Inv. */
  lemma StepInv(w: World, t: Tid, op: Op)
    requires Inv(w)
    ensures WellFormed(w.q)
    ensures Inv(Step(w, t, op))
  {
    if Idle(w.q, t) { BeginInv(w, t, op); }
    else if Quiet(w.q, t) { MoveInv(w, t, op); }
    else if w.q.threads[t].Reserve? { ReserveInv(w, t, op); }
    else if w.q.threads[t].Publish? { PublishInv(w, t, op); }
    else if w.q.threads[t].op.Enqueue? { StoreInv(w, t, op); }
    else { LoadInv(w, t, op); }
  }

  /** A schedule: which thread moves next, and what it starts if it is idle. */
  type Schedule = seq<(Tid, Op)>

  ghost function Run(w: World, sched: Schedule): (r: World)
    requires Inv(w)
    ensures Inv(r)
    decreases |sched|
  {
    if sched == [] then w
    else
      StepInv(w, sched[0].0, sched[0].1);
      Run(Step(w, sched[0].0, sched[0].1), sched[1..])
  }

  // --------------------------------------------------------- what follows

  /** Every interleaving of any number of threads stays inside Inv. */
  lemma RunSafe(events: bool, sched: Schedule)
    ensures Inv(Start(events))
    ensures Inv(Run(Start(events), sched))
  {
    StartInv(events);
  }

  /** The committed prefix is complete on both sides: nobody in flight is below
      its head, what lies between the heads is fully written, and what lies
      below the consumers' head was read, each item as it was enqueued. */
  lemma CommittedPrefix(w: World)
    requires Inv(w)
    ensures forall t | t in w.q.threads && InFlight(w.q.threads[t]) ::
              w.q.B(w.q.threads[t].op.Side()).head.pos <= w.q.threads[t].pos
    ensures forall p | w.q.cons.head.pos <= p < w.q.prod.head.pos :: Holds(w.q, w.log[p], p)
    ensures forall p: nat | p < w.q.cons.head.pos :: p in w.out && w.out[p] == w.log[p]
  {
    forall t | t in w.q.threads && InFlight(w.q.threads[t])
      ensures w.q.B(w.q.threads[t].op.Side()).head.pos <= w.q.threads[t].pos
    {
      assert LocalOk(w.q, w.q.threads[t]);
    }
    forall p | w.q.cons.head.pos <= p < w.q.prod.head.pos ensures Holds(w.q, w.log[p], p) {
      forall u | u in w.q.threads ensures !WritesAt(w.q.threads[u], p) { assert LocalOk(w.q, w.q.threads[u]); }
    }
    forall p: nat | p < w.q.cons.head.pos ensures p in w.out && w.out[p] == w.log[p] {
      forall u | u in w.q.threads ensures !ReadsAt(w.q.threads[u], p) { assert LocalOk(w.q, w.q.threads[u]); }
    }
  }

  /** A position belongs to one thread per side, so two threads in flight on a
      side never share a slot. */
  lemma OneOwner(w: World, t: Tid, u: Tid)
    requires Inv(w) && t != u && t in w.q.threads && u in w.q.threads
    requires InFlight(w.q.threads[t]) && InFlight(w.q.threads[u])
    requires w.q.threads[t].op.Side() == w.q.threads[u].op.Side()
    ensures w.q.threads[t].pos % SIZE != w.q.threads[u].pos % SIZE
  {
    assert Faithful(w, t, w.q.threads[t]) && Faithful(w, u, w.q.threads[u]);
    assert LocalOk(w.q, w.q.threads[t]) && LocalOk(w.q, w.q.threads[u]);
    DistinctSlots(w.q.threads[t].pos, w.q.threads[u].pos);
  }

  /** A finishing dequeue hands out the item enqueued at its position; the step
      that read it was the only one ever to read that position. */
  lemma ExactlyOnce(w: World, t: Tid, op: Op)
    requires Inv(w) && t in w.q.threads && w.q.threads[t].op.Dequeue?
    ensures w.q.threads[t].Publish? && Step(w, t, op).q.threads[t].Done? ==>
              var p := w.q.threads[t].pos;
              && p < |w.log| && p < |w.takers| && w.takers[p] == t
              && Step(w, t, op).q.threads[t].result == Finished(p, w.log[p])
    ensures LastLoad(w.q, t)
            ==> w.q.threads[t].pos !in w.out && w.q.threads[t].pos < |w.takers| && w.takers[w.q.threads[t].pos] == t
  {
    assert Faithful(w, t, w.q.threads[t]);
  }

  /** A committed slot is not touched until the consumers' head has passed it. */
  lemma SlotStable(w: World, t: Tid, op: Op, p: nat)
    requires Inv(w) && w.q.cons.head.pos <= p < w.q.prod.head.pos
    ensures Step(w, t, op).q.ring[p % SIZE] == w.q.ring[p % SIZE]
    ensures Step(w, t, op).q.msgs[p % SIZE] == w.q.msgs[p % SIZE]
  {
    if !Idle(w.q, t) && w.q.threads[t].Access? {
      assert LocalOk(w.q, w.q.threads[t]);
      if w.q.threads[t].op.Enqueue? { DistinctSlots(p, w.q.threads[t].pos); }
    }
  }

  /** The item a slot decodes to. */
  function ItemAt(q: Queue, p: nat): Item
    requires |q.ring| == SIZE && |q.msgs| == SIZE && q.ring[p % SIZE] < SIZE
  {
    if q.events then Event(q.msgs[q.ring[p % SIZE]]) else Id(q.ring[p % SIZE])
  }

  ghost predicate Quiescent(q: Queue) {
    forall t | t in q.threads :: !InFlight(q.threads[t])
  }

  /** With nobody in flight, the items enqueued are the items dequeued followed
      by the contents of the ring, in order. */
  lemma Conservation(w: World)
    requires Inv(w) && Quiescent(w.q)
    ensures w.q.prod.head.pos == w.q.prod.tail.pos && w.q.cons.head.pos == w.q.cons.tail.pos
    ensures forall p: nat | p < w.q.cons.tail.pos :: p in w.out
    ensures w.log == seq(w.q.cons.tail.pos, p requires 0 <= p < w.q.cons.tail.pos => w.out[p])
                     + seq(w.q.prod.tail.pos - w.q.cons.tail.pos,
                         i requires 0 <= i => ItemAt(w.q, w.q.cons.tail.pos + i))
  {
    assert Flying(w.q, Prod) == {} && Flying(w.q, Cons) == {};
    CommittedPrefix(w);
    var d := seq(w.q.cons.tail.pos, p requires 0 <= p < w.q.cons.tail.pos => w.out[p]);
    var r := seq(w.q.prod.tail.pos - w.q.cons.tail.pos, i requires 0 <= i => ItemAt(w.q, w.q.cons.tail.pos + i));
    forall p | 0 <= p < |w.log| ensures w.log[p] == (d + r)[p] {
      if p >= |d| {
        assert Holds(w.q, w.log[p], p) && Fits(w.q.events, w.log[p]);
        assert (d + r)[p] == r[p - |d|] == ItemAt(w.q, p);
      }
    }
    assert |w.log| == |d + r|;
  }
}
