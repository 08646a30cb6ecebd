/** One thread alone in the uint32_t ring, step by step from idle to done. This
    is what ties the queue classes, which run an operation in one go, to the
    transition system in which it is a dozen separate steps. */
module Solo {
  import opened Words
  import opened Ring
  import opened RingSafety

  /** n steps of thread t lead from q to q'. */
  ghost predicate Reaches(q: Queue, t: Tid, op: Op, n: nat, q': Queue)
    decreases n
  {
    if n == 0 then q == q' else WellFormed(q) && Reaches(Next(Wrapped, q, t, op), t, op, n - 1, q')
  }

  lemma {:induction false} Join(q: Queue, t: Tid, op: Op, n: nat, q1: Queue, m: nat, q2: Queue)
    requires Reaches(q, t, op, n, q1) && Reaches(q1, t, op, m, q2)
    ensures Reaches(q, t, op, n + m, q2)
    decreases n
  {
    if n > 0 { Join(Next(Wrapped, q, t, op), t, op, n - 1, q1, m, q2); }
  }

  ghost predicate Leads(q: Queue, t: Tid, op: Op, q': Queue) {
    exists n: nat :: Reaches(q, t, op, n, q')
  }

  lemma Compose(q: Queue, t: Tid, op: Op, q1: Queue, q2: Queue)
    requires Leads(q, t, op, q1) && Leads(q1, t, op, q2)
    ensures Leads(q, t, op, q2)
  {
    var n: nat :| Reaches(q, t, op, n, q1);
    var m: nat :| Reaches(q1, t, op, m, q2);
    Join(q, t, op, n, q1, m, q2);
  }

  lemma Once(q: Queue, t: Tid, op: Op)
    requires WellFormed(q)
    ensures Leads(q, t, op, Next(Wrapped, q, t, op))
  {
    assert Reaches(Next(Wrapped, q, t, op), t, op, 0, Next(Wrapped, q, t, op));
    assert Reaches(q, t, op, 1, Next(Wrapped, q, t, op));
  }

  /** One step that changes nothing but the thread's locals. */
  lemma Looks(q: Queue, t: Tid, op: Op, l: Local)
    requires WellFormed(q) && WellFormedLocal(q.events, l) && !l.Access? && !l.Done?
    requires !(l.Reserve? && q.B(l.op.Side()).tail == l.ot) && !(l.Publish? && q.B(l.op.Side()).head == l.oh)
    ensures Leads(q.Put(t, l), t, op, q.Put(t, Look(Wrapped, q, q.B(l.op.Side()), l)))
  {
    Once(q.Put(t, l), t, op);
    PutPut(q, t, l, Look(Wrapped, q, q.B(l.op.Side()), l));
  }

  lemma PutPut(q: Queue, t: Tid, l: Local, l': Local)
    ensures q.Put(t, l).Put(t, l') == q.Put(t, l')
  {
    assert q.threads[t := l][t := l'] == q.threads[t := l'];
  }

  /** Nobody is in flight on a side. */
  ghost predicate Settled(b: Bound) {
    b.head == b.tail && b.tail.pos == b.tail.count < WRAP
  }

  /** A side after one more entry was reserved, and after its commit. */
  function Taken(b: Bound): Bound { Bound(Marker(Inc(Wrapped, b.tail.pos), Inc(Wrapped, b.tail.count)), b.head) }
  function Commit(b: Bound): Bound { Bound(b.tail, NewHead(Wrapped, b.head, b.tail)) }

  lemma CommitSettles(b: Bound)
    requires Settled(b)
    ensures Settled(Commit(Taken(b)))
  {
  }

  // ------------------------------------------------------ acquire and commit

  /** The acquire functions up to their space test. */
  lemma Checks(q: Queue, t: Tid, op: Op)
    requires WellFormed(q) && Idle(q, t) && Legal(q.events, op) && Settled(q.B(op.Side()))
    ensures var tail := q.B(op.Side()).tail;
            Leads(q, t, op, q.Put(t, if Blocked(Wrapped, q, op, tail.pos) then Done(op, Failed) else Reserve(op, tail)))
  {
    var tail := q.B(op.Side()).tail;
    Once(q, t, op);
    Looks(q, t, op, LoadTail(op));
    Compose(q, t, op, q.Put(t, LoadTail(op)), q.Put(t, Wait(op, tail)));
    Looks(q, t, op, Wait(op, tail));
    Compose(q, t, op, q.Put(t, Wait(op, tail)), q.Put(t, CheckRoom(op, tail)));
    Looks(q, t, op, CheckRoom(op, tail));
    Compose(q, t, op, q.Put(t, CheckRoom(op, tail)), q.Put(t, Look(Wrapped, q, q.B(op.Side()), CheckRoom(op, tail))));
  }

  function AtSlot(op: Op, pos: nat): Local { Access(op, pos, FirstAccess(op), 0, ZeroMsg()) }

  lemma Reserves(q: Queue, t: Tid, op: Op)
    requires WellFormed(q) && Legal(q.events, op)
    ensures var b := q.B(op.Side());
            Leads(q.Put(t, Reserve(op, b.tail)), t, op, q.SetB(op.Side(), Taken(b)).Put(t, AtSlot(op, b.tail.pos)))
  {
    var b := q.B(op.Side());
    Once(q.Put(t, Reserve(op, b.tail)), t, op);
    PutPut(q.SetB(op.Side(), Taken(b)), t, Reserve(op, b.tail), AtSlot(op, b.tail.pos));
  }

  /** rpcmsg_commit_update */
  lemma CommitRuns(q: Queue, t: Tid, op: Op, pos: nat, item: Item)
    requires WellFormed(q) && Legal(q.events, op)
    ensures Leads(q.Put(t, LoadHead(op, pos, item)), t, op,
                  q.SetB(op.Side(), Commit(q.B(op.Side()))).Put(t, Done(op, Finished(pos, item))))
  {
    var b := q.B(op.Side());
    var l0, l1, l2 := LoadHead(op, pos, item), ReloadTail(op, pos, item, b.head),
        Publish(op, pos, item, b.head, b.tail);
    var q' := q.SetB(op.Side(), Commit(b)).Put(t, Done(op, Finished(pos, item)));
    Looks(q, t, op, l0);
    Looks(q, t, op, l1);
    Compose(q.Put(t, l0), t, op, q.Put(t, l1), q.Put(t, l2));
    assert Leads(q.Put(t, l2), t, op, q') by {
      Once(q.Put(t, l2), t, op);
      PutPut(q.SetB(op.Side(), Commit(b)), t, l2, Done(op, Finished(pos, item)));
    }
    Compose(q.Put(t, l0), t, op, q.Put(t, l2), q');
  }

  // ------------------------------------------------------------ slot accesses

  /** A message whose words from k on were overwritten with those of m. */
  function Filled(into: Msg, m: Msg, k: nat): (r: Msg)
    requires k <= 4
    ensures forall j: nat | j < 4 :: At(r, j) == if j < k then At(into, j) else At(m, j)
    decreases 4 - k
  {
    if k == 4 then into else Filled(With(into, k, At(m, k)), m, k + 1)
  }

  /** The ring with an item in the slot of position pos. */
  function Stored(q: Queue, item: Item, pos: nat): Queue
    requires WellFormed(q)
  {
    q.(ring := q.ring[pos % SIZE := RingEntry(item, pos)],
       msgs := if item.Event? then q.msgs[pos % SIZE := item.msg] else q.msgs)
  }

  lemma StoresEntry(q: Queue, t: Tid, item: Item, pos: nat)
    requires WellFormed(q) && Fits(q.events, item) && (item.Event? ==> q.msgs[pos % SIZE] == item.msg)
    ensures Leads(q.Put(t, Access(Enqueue(item), pos, 4, 0, ZeroMsg())), t, Enqueue(item),
                  Stored(q, item, pos).Put(t, LoadHead(Enqueue(item), pos, item)))
  {
    var l := Access(Enqueue(item), pos, 4, 0, ZeroMsg());
    Once(q.Put(t, l), t, Enqueue(item));
    assert Stored(q, item, pos) == q.StoreEntry(pos % SIZE, RingEntry(item, pos));
    PutPut(Stored(q, item, pos), t, l, LoadHead(Enqueue(item), pos, item));
  }

  lemma StoresWord(q: Queue, t: Tid, item: Item, pos: nat, k: nat)
    requires WellFormed(q) && Fits(q.events, item) && k < 4 && item.Event?
    ensures Leads(q.Put(t, Access(Enqueue(item), pos, k, 0, ZeroMsg())), t, Enqueue(item),
                  q.StoreWord(pos % SIZE, k, At(item.msg, k)).Put(t, Access(Enqueue(item), pos, k + 1, 0, ZeroMsg())))
  {
    var l := Access(Enqueue(item), pos, k, 0, ZeroMsg());
    Once(q.Put(t, l), t, Enqueue(item));
    PutPut(q.StoreWord(pos % SIZE, k, At(item.msg, k)), t, l, Access(Enqueue(item), pos, k + 1, 0, ZeroMsg()));
  }

  /** The rest of enqueue_fn from word k on. */
  lemma {:induction false} Stores(q: Queue, t: Tid, item: Item, pos: nat, k: nat)
    requires WellFormed(q) && Fits(q.events, item) && k <= 4 && (item.Id? ==> k == 4)
    requires item.Event? ==> Filled(q.msgs[pos % SIZE], item.msg, k) == item.msg
    ensures Leads(q.Put(t, Access(Enqueue(item), pos, k, 0, ZeroMsg())), t, Enqueue(item),
                  Stored(q, item, pos).Put(t, LoadHead(Enqueue(item), pos, item)))
    decreases 4 - k
  {
    if k == 4 {
      StoresEntry(q, t, item, pos);
    } else {
      var q1 := q.StoreWord(pos % SIZE, k, At(item.msg, k));
      StoresWord(q, t, item, pos, k);
      Stores(q1, t, item, pos, k + 1);
      assert Stored(q1, item, pos) == Stored(q, item, pos);
      Compose(q.Put(t, Access(Enqueue(item), pos, k, 0, ZeroMsg())), t, Enqueue(item),
            q1.Put(t, Access(Enqueue(item), pos, k + 1, 0, ZeroMsg())),
            Stored(q, item, pos).Put(t, LoadHead(Enqueue(item), pos, item)));
    }
  }

  /** The rest of the event queue's dequeue_fn from word k - 1 on. */
  lemma {:induction false} LoadsWords(q: Queue, t: Tid, pos: nat, k: nat, id: nat, buf: Msg)
    requires WellFormed(q) && 1 <= k <= 4 && id < SIZE
    ensures Leads(q.Put(t, Access(Dequeue, pos, k, id, buf)), t, Dequeue,
                  q.Put(t, LoadHead(Dequeue, pos, Event(Filled(buf, q.msgs[id], k - 1)))))
    decreases 4 - k
  {
    var l, buf' := Access(Dequeue, pos, k, id, buf), With(buf, k - 1, At(q.msgs[id], k - 1));
    Once(q.Put(t, l), t, Dequeue);
    if k == 4 {
      PutPut(q, t, l, LoadHead(Dequeue, pos, Event(buf')));
      assert Filled(buf, q.msgs[id], 3) == Filled(buf', q.msgs[id], 4) == buf';
    } else {
      PutPut(q, t, l, Access(Dequeue, pos, k + 1, id, buf'));
      LoadsWords(q, t, pos, k + 1, id, buf');
      Compose(q.Put(t, l), t, Dequeue, q.Put(t, Access(Dequeue, pos, k + 1, id, buf')),
            q.Put(t, LoadHead(Dequeue, pos, Event(Filled(buf, q.msgs[id], k - 1)))));
    }
  }

  lemma Loads(q: Queue, t: Tid, pos: nat)
    requires WellFormed(q)
    ensures Leads(q.Put(t, AtSlot(Dequeue, pos)), t, Dequeue, q.Put(t, LoadHead(Dequeue, pos, ItemAt(q, pos))))
  {
    var l, id := AtSlot(Dequeue, pos), q.ring[pos % SIZE];
    Once(q.Put(t, l), t, Dequeue);
    if q.events {
      PutPut(q, t, l, Access(Dequeue, pos, 1, id, ZeroMsg()));
      LoadsWords(q, t, pos, 1, id, ZeroMsg());
      SameMsg(Filled(ZeroMsg(), q.msgs[id], 0), q.msgs[id]);
      Compose(q.Put(t, l), t, Dequeue, q.Put(t, Access(Dequeue, pos, 1, id, ZeroMsg())),
            q.Put(t, LoadHead(Dequeue, pos, ItemAt(q, pos))));
    } else {
      PutPut(q, t, l, LoadHead(Dequeue, pos, ItemAt(q, pos)));
    }
  }

  // -------------------------------------------------------- whole operations

  /** What the slot access of an operation leaves in the ring, and what the
      operation hands out. */
  function Touched(q: Queue, op: Op, pos: nat): Queue
    requires WellFormed(q)
  {
    if op.Enqueue? then Stored(q, op.item, pos) else q
  }

  function Moved(q: Queue, op: Op, pos: nat): Item
    requires WellFormed(q)
  {
    if op.Enqueue? then op.item else ItemAt(q, pos)
  }

  lemma Accesses(q: Queue, t: Tid, op: Op, pos: nat)
    requires WellFormed(q) && Legal(q.events, op)
    ensures Leads(q.Put(t, AtSlot(op, pos)), t, op, Touched(q, op, pos).Put(t, LoadHead(op, pos, Moved(q, op, pos))))
  {
    if op.Enqueue? {
      if op.item.Event? { SameMsg(Filled(q.msgs[pos % SIZE], op.item.msg, 0), op.item.msg); }
      Stores(q, t, op.item, pos, FirstAccess(op));
    } else {
      Loads(q, t, pos);
    }
  }

  /** The ring after an operation that found room. */
  function After(q: Queue, op: Op): Queue
    requires WellFormed(q)
  {
    var b := q.B(op.Side());
    Touched(q, op, b.tail.pos).SetB(op.Side(), Commit(Taken(b)))
  }

  function Outcome(q: Queue, op: Op): Result
    requires WellFormed(q)
  {
    Finished(q.B(op.Side()).tail.pos, Moved(q, op, q.B(op.Side()).tail.pos))
  }

  /** From the reservation on. */
  lemma Completes(q: Queue, t: Tid, op: Op)
    requires WellFormed(q) && Legal(q.events, op)
    ensures Leads(q.Put(t, Reserve(op, q.B(op.Side()).tail)), t, op, After(q, op).Put(t, Done(op, Outcome(q, op))))
  {
    var b := q.B(op.Side());
    var q0, q1 := q.Put(t, Reserve(op, b.tail)), q.SetB(op.Side(), Taken(b));
    var q2, item := Touched(q1, op, b.tail.pos), Moved(q, op, b.tail.pos);
    Reserves(q, t, op);
    Accesses(q1, t, op, b.tail.pos);
    Compose(q0, t, op, q1.Put(t, AtSlot(op, b.tail.pos)), q2.Put(t, LoadHead(op, b.tail.pos, item)));
    CommitRuns(q2, t, op, b.tail.pos, item);
    assert q2.SetB(op.Side(), Commit(q2.B(op.Side()))) == After(q, op);
    Compose(q0, t, op, q2.Put(t, LoadHead(op, b.tail.pos, item)), After(q, op).Put(t, Done(op, Outcome(q, op))));
  }

  /** From idle to done: the whole operation, run alone. */
  lemma RunsAlone(q: Queue, t: Tid, op: Op)
    requires WellFormed(q) && Idle(q, t) && Legal(q.events, op) && Settled(q.B(op.Side()))
    ensures Leads(q, t, op, if Blocked(Wrapped, q, op, q.B(op.Side()).tail.pos) then q.Put(t, Done(op, Failed))
                            else After(q, op).Put(t, Done(op, Outcome(q, op))))
  {
    Checks(q, t, op);
    if !Blocked(Wrapped, q, op, q.B(op.Side()).tail.pos) {
      Completes(q, t, op);
      Compose(q, t, op, q.Put(t, Reserve(op, q.B(op.Side()).tail)), After(q, op).Put(t, Done(op, Outcome(q, op))));
    }
  }

  /** An enqueue on a ring without threads, spelt out. */
  lemma EnqueueAlone(q: Queue, item: Item, ok: bool, q': Queue)
    requires WellFormed(q) && q.threads == map[] && Fits(q.events, item) && Settled(q.prod)
    requires ok == !NoRoom(Wrapped, q.cons.head.pos, q.prod.tail.pos)
    requires q' == if ok then q.(prod := Commit(Taken(q.prod)),
                                 ring := q.ring[q.prod.tail.pos % SIZE := RingEntry(item, q.prod.tail.pos)],
                                 msgs := if item.Event? then q.msgs[q.prod.tail.pos % SIZE := item.msg] else q.msgs)
                   else q
    ensures Leads(q, 0, Enqueue(item),
            q'.Put(0, Done(Enqueue(item), if ok then Finished(q.prod.tail.pos, item) else Failed)))
  {
    RunsAlone(q, 0, Enqueue(item));
  }
}
