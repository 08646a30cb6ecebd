/** The ring and the event queue as one thread runs them while nobody else is
    inside: uint32_t markers that wrap, arrays updated in place. */
module RpcQueue {
  import opened Words
  import opened Ring
  import opened Ownership
  import opened Solo

  // ---------------------------------------------------------------- windows

  /** The slot of the i-th entry from position c on. */
  function Slot(c: nat, i: nat): nat { (c + i) % SIZE }

  /** The n entries of a ring from position c on. */
  function Window<T>(a: seq<T>, c: nat, n: nat): (r: seq<T>)
    requires |a| == SIZE
    ensures |r| == n
  {
    seq(n, i requires 0 <= i < n => a[Slot(c, i)])
  }

  lemma FullTest(p: nat, c: nat)
    requires p < WRAP && c < WRAP
    ensures (SIZE + c - p) % WRAP == 0 <==> (p - c) % WRAP == SIZE
  {
  }

  lemma UsedGrows(p: nat, c: nat, used: nat)
    requires p < WRAP && c < WRAP && used == (p - c) % WRAP < SIZE
    ensures (Inc(Wrapped, p) - c) % WRAP == used + 1
  {
  }

  lemma UsedShrinks(p: nat, c: nat, used: nat)
    requires p < WRAP && c < WRAP && 0 < used == (p - c) % WRAP <= SIZE
    ensures (p - Inc(Wrapped, c)) % WRAP == used - 1
  {
  }

  /** The producer's slot is the used-th after the consumer's and meets no other. */
  lemma SlotApart(p: nat, c: nat, used: nat, i: nat)
    requires p < WRAP && c < WRAP && used == (p - c) % WRAP < SIZE && i <= used
    ensures Slot(c, i) == p % SIZE <==> i == used
  {
    if c <= p { assert p == c + used; } else { assert p + WRAP == c + used; }
  }

  lemma SlotNext(c: nat, i: nat)
    requires c < WRAP
    ensures Slot(Inc(Wrapped, c), i) == Slot(c, i + 1)
  {
  }

  lemma WindowPush<T>(a: seq<T>, p: nat, c: nat, n: nat, x: T)
    requires |a| == SIZE && p < WRAP && c < WRAP && n == (p - c) % WRAP < SIZE
    ensures Window(a[p % SIZE := x], c, n + 1) == Window(a, c, n) + [x]
  {
    var l, r := Window(a[p % SIZE := x], c, n + 1), Window(a, c, n) + [x];
    forall i | 0 <= i < n + 1 ensures l[i] == r[i] { SlotApart(p, c, n, i); }
  }

  lemma WindowPop<T>(a: seq<T>, c: nat, n: nat)
    requires |a| == SIZE && c < WRAP && n > 0
    ensures Window(a, Inc(Wrapped, c), n - 1) == Window(a, c, n)[1..]
    ensures Window(a, c, n)[0] == a[c % SIZE]
  {
    var l, r := Window(a, Inc(Wrapped, c), n - 1), Window(a, c, n)[1..];
    forall i | 0 <= i < n - 1 ensures l[i] == r[i] { SlotNext(c, i); }
  }

  /** Each of n entries from c on names its own slot. */
  ghost predicate Named(a: seq<nat>, c: nat, n: nat)
    requires |a| == SIZE
  {
    forall i | 0 <= i < n :: a[Slot(c, i)] == Slot(c, i)
  }

  lemma NamedPush(a: seq<nat>, p: nat, c: nat, n: nat)
    requires |a| == SIZE && p < WRAP && c < WRAP && n == (p - c) % WRAP < SIZE && Named(a, c, n)
    ensures Named(a[p % SIZE := p % SIZE], c, n + 1)
  {
    forall i | 0 <= i < n + 1 ensures a[p % SIZE := p % SIZE][Slot(c, i)] == Slot(c, i) { SlotApart(p, c, n, i); }
  }

  lemma NamedPop(a: seq<nat>, c: nat, n: nat)
    requires |a| == SIZE && c < WRAP && n > 0 && Named(a, c, n)
    ensures Named(a, Inc(Wrapped, c), n - 1) && a[c % SIZE] == c % SIZE
  {
    forall i | 0 <= i < n - 1 ensures a[Slot(Inc(Wrapped, c), i)] == Slot(Inc(Wrapped, c), i) { SlotNext(c, i); }
    assert a[Slot(c, 0)] == Slot(c, 0);
  }

  class IdQueue {
    var prod: Bound
    var cons: Bound
    const ring: array<nat>

    ghost predicate Valid()
      reads this, ring
    {
      && ring.Length == SIZE && (forall i | 0 <= i < SIZE :: ring[i] < SIZE)
      && Settled(prod) && Settled(cons) && Used() <= SIZE
    }

    function Used(): nat
      reads this
    {
      (prod.tail.pos - cons.tail.pos) % WRAP
    }

    /** The entries in the ring, oldest first. */
    ghost function Contents(): (s: seq<nat>)
      requires Valid()
      reads this, ring
      ensures |s| == Used() && forall x | x in s :: x < SIZE
    {
      Window(ring[..], cons.tail.pos, Used())
    }

    /** The ring of the transition system that this queue is, with no thread in it. */
    ghost function State(): (q: Queue)
      requires Valid()
      reads this, ring
      ensures WellFormed(q)
    {
      Queue(prod, cons, ring[..], seq(SIZE, _ => ZeroMsg()), false, map[])
    }

    constructor ()
      ensures Valid() && fresh(ring) && Contents() == []
    {
      prod, cons := Bound(M0, M0), Bound(M0, M0);
      ring := new nat[SIZE](_ => 0);
    }

    /** Every marker is a uint32_t. */
    ghost predicate Words32()
      reads this
    {
      && prod.tail.pos < WRAP && prod.head.pos < WRAP && cons.tail.pos < WRAP && cons.head.pos < WRAP
    }

    /** rpcmsg_acquire_prod_entry where it need not wait; others may be in flight
        on either side. It fails exactly when 32 entries are held. */
    method AcquireProdEntry() returns (ok: bool, entry: nat)
      requires Words32() && (prod.tail.pos - prod.head.pos) % 0x1_0000_0000 <= 8
      modifies this`prod
      ensures ok <==> (entry - cons.head.pos) % 0x1_0000_0000 != 32
      ensures ok <==> !NoRoom(Wrapped, cons.head.pos, entry)
      ensures entry == old(prod.tail.pos)
      ensures prod == if ok then Taken(old(prod)) else old(prod)
    {
      var ot := prod.tail;
      entry := ot.pos;
      assert !TooFar(Wrapped, ot.pos, prod.head.pos);
      ok := !NoRoom(Wrapped, cons.head.pos, ot.pos);
      FullTest(prod.tail.pos, cons.head.pos);
      if ok {
        prod := Bound(Marker(Inc(Wrapped, ot.pos), Inc(Wrapped, ot.count)), prod.head);
      }
    }

    /** rpcmsg_acquire_cons_entry likewise. It fails exactly when everything
        committed is claimed. */
    method AcquireConsEntry() returns (ok: bool, entry: nat)
      requires Words32() && (cons.tail.pos - cons.head.pos) % 0x1_0000_0000 <= 8
      modifies this`cons
      ensures ok <==> entry != prod.head.pos
      ensures entry == old(cons.tail.pos)
      ensures cons == if ok then Taken(old(cons)) else old(cons)
    {
      var ot := cons.tail;
      entry := ot.pos;
      assert !TooFar(Wrapped, ot.pos, cons.head.pos);
      ok := !Nothing(Wrapped, prod.head.pos, ot.pos);
      if ok {
        cons := Bound(Marker(Inc(Wrapped, ot.pos), Inc(Wrapped, ot.count)), cons.head);
      }
    }

    /** rpcmsg_enqueue with rpcmsg_rpc_enqueue_fn. */
    method Enqueue(id: nat) returns (ok: bool)
      requires Valid() && id < SIZE
      modifies this`prod, ring
      ensures Valid() && ok == (|old(Contents())| < SIZE)
      ensures Contents() == if ok then old(Contents()) + [id] else old(Contents())
      ensures var op := Op.Enqueue(Id(id));
              Leads(old(State()), 0, op,
                  State().Put(0, Done(op, if ok then Finished(old(prod.tail.pos), Id(id)) else Failed)))
    {
      var entry;
      ok, entry := AcquireProdEntry();
      if ok {
        WindowPush(ring[..], entry, cons.tail.pos, old(Used()), id);
        ring[entry % SIZE] := id;
        prod := Commit(prod);
        CommitSettles(old(prod));
        UsedGrows(entry, cons.tail.pos, old(Used()));
        assert ring[..] == old(ring[..])[entry % SIZE := id];
      }
      EnqueueAlone(old(State()), Id(id), ok, State());
    }

    /** rpcmsg_dequeue with rpcmsg_rpc_dequeue_fn. */
    method Dequeue() returns (r: Option<nat>)
      requires Valid()
      modifies this`cons
      ensures Valid() && (r.None? <==> old(Contents()) == [])
      ensures r.Some? ==> r.value == old(Contents())[0]
      ensures Contents() == if r.Some? then old(Contents())[1..] else []
      ensures Leads(old(State()), 0, Op.Dequeue,
                    State().Put(0, Done(
                      Op.Dequeue, if r.Some? then Finished(old(cons.tail.pos), Id(r.value)) else Failed)))
    {
      RunsAlone(State(), 0, Op.Dequeue);
      var ok, entry := AcquireConsEntry();
      if ok {
        WindowPop(ring[..], entry, old(Used()));
        r := Some(ring[entry % SIZE]);
        cons := Commit(cons);
        CommitSettles(old(cons));
        UsedShrinks(prod.tail.pos, entry, old(Used()));
      } else {
        r := None;
      }
    }
  }

  // ------------------------------------------------------------ event queue

  class EventQueue {
    const queue: IdQueue
    const messages: array<Msg>

    /** Every entry in the ring names its own slot. */
    ghost predicate Valid()
      reads this, queue, queue.ring, messages
    {
      && queue.Valid() && messages.Length == SIZE
      && Named(queue.ring[..], queue.cons.tail.pos, queue.Used())
    }

    /** The messages in the queue, oldest first. */
    ghost function Events(): (s: seq<Msg>)
      requires Valid()
      reads this, queue, queue.ring, messages
      ensures |s| == queue.Used()
    {
      Window(messages[..], queue.cons.tail.pos, queue.Used())
    }

    ghost function State(): (q: Queue)
      requires Valid()
      reads this, queue, queue.ring, messages
      ensures WellFormed(q)
    {
      Queue(queue.prod, queue.cons, queue.ring[..], messages[..], true, map[])
    }

    constructor ()
      ensures Valid() && fresh(queue) && fresh(queue.ring) && fresh(messages) && Events() == []
    {
      queue := new IdQueue();
      messages := new Msg[SIZE](_ => ZeroMsg());
    }

    /** rpcmsg_event_tx: the message goes into the slot its position names. */
    method Tx(m: Msg) returns (ok: bool)
      requires Valid()
      modifies queue`prod, queue.ring, messages
      ensures Valid() && ok == (|old(Events())| < SIZE)
      ensures Events() == if ok then old(Events()) + [m] else old(Events())
      ensures var op := Op.Enqueue(Event(m));
              Leads(old(State()), 0, op,
                  State().Put(0, Done(op, if ok then Finished(old(queue.prod.tail.pos), Event(m)) else Failed)))
    {
      var entry;
      ok, entry := queue.AcquireProdEntry();
      if ok {
        ghost var c, n := queue.cons.tail.pos, old(queue.Used());
        WindowPush(messages[..], entry, c, n, m);
        NamedPush(queue.ring[..], entry, c, n);
        messages[entry % SIZE] := m;
        queue.ring[entry % SIZE] := entry % SIZE;
        queue.prod := Commit(queue.prod);
        CommitSettles(old(queue.prod));
        UsedGrows(entry, c, n);
        assert messages[..] == old(messages[..])[entry % SIZE := m];
        assert queue.ring[..] == old(queue.ring[..])[entry % SIZE := entry % SIZE];
      }
      EnqueueAlone(old(State()), Event(m), ok, State());
    }

    /** rpcmsg_event_rx: the message the oldest entry names. */
    method Rx() returns (r: Option<Msg>)
      requires Valid()
      modifies queue`cons
      ensures Valid() && (r.None? <==> old(Events()) == [])
      ensures r.Some? ==> r.value == old(Events())[0]
      ensures Events() == if r.Some? then old(Events())[1..] else []
      ensures Leads(old(State()), 0, Op.Dequeue,
                    State().Put(0, Done(
                      Op.Dequeue, if r.Some? then Finished(old(queue.cons.tail.pos), Event(r.value)) else Failed)))
    {
      RunsAlone(State(), 0, Op.Dequeue);
      var ok, entry := queue.AcquireConsEntry();
      if ok {
        ghost var n := old(queue.Used());
        WindowPop(messages[..], entry, n);
        NamedPop(queue.ring[..], entry, n);
        r := Some(messages[queue.ring[entry % SIZE]]);
        queue.cons := Commit(queue.cons);
        CommitSettles(old(queue.cons));
        UsedShrinks(queue.prod.tail.pos, entry, n);
      } else {
        r := None;
      }
    }
  }
}
