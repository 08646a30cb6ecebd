/** Whole calls by one thread while the others rest, as runs of the system with
    its slot table: what a request, a receive, a forward, a reply and the
    driver's finish lead to. */
module Calls {
  import opened Words
  import opened Ring
  import opened RingSafety
  import RingProgress
  import opened RingAlone
  import opened Ownership
  import opened Mmio

  // ------------------------------------------------------- one thread moves on

  /** A step inside ring c, seen from outside. */
  lemma GoRing(s: Sys, t: Tid)
    requires Shape(s) && AllTied(s) && Inside(s, t)
    ensures var s', c := SysNext(s, t, Go), s.Task(t).c;
            && Around(s, s', c, t) && s'.msgs == s.msgs
            && WellFormed(s.L(c).w.q) && s'.L(c).w.q == Next(Exact, s.L(c).w.q, t, Dequeue)
  {
    assert LinkOk(s.L(s.Task(t).c)) && Tied(s, s.Task(t).c, t);
    GoFrame(s, t);
    GoneLink(s, t);
  }

  /** A step of a fresh thread inside ring c that does not end its call. */
  lemma GoFresh(s: Sys, t: Tid)
    requires SysInv(s) && Inside(s, t) && t in s.L(s.Task(t).c).w.q.threads
    requires var q := s.L(s.Task(t).c).w.q; Fresh(q, q.threads[t]) && !Arrived(q, q.threads[t])
    ensures SysNext(s, t, Go).Task(t) == s.Task(t) && SysNext(s, t, Go).lent == s.lent
  {
    var c := s.Task(t).c;
    assert LinkOk(s.L(c)) && Tied(s, c, t);
    FreshStep(s.L(c).w.q, t);
  }

  /** The commit that ends a call. */
  lemma GoCommit(s: Sys, t: Tid)
    requires SysInv(s) && Inside(s, t) && t in s.L(s.Task(t).c).w.q.threads
    requires var q := s.L(s.Task(t).c).w.q; q.threads[t].Publish? && Fresh(q, q.threads[t])
    ensures var s', c := SysNext(s, t, Go), s.Task(t).c;
            && s'.lent == s.lent && (s.Task(t).Sending? ==> s'.Task(t) == Resting)
            && (s.Task(t).Receiving? ==> s'.Task(t).Holding? && s'.Task(t).source == c && s'.Task(t).id < SIZE)
  {
    var c := s.Task(t).c;
    var w := s.L(c).w;
    assert LinkOk(s.L(c)) && Tied(s, c, t);
    RingOutcome(w, t);
    if s.Task(t).Receiving? {
      LiveTaken(w, t, Dequeue, w.q.threads[t].pos);
      assert LiveOk(s, c, w.q.threads[t].pos);
    }
  }

  // ------------------------------------------------------------------- runs

  ghost predicate CanReach(io: Io, io': Io) {
    IoInv(io) && exists acts: seq<(Tid, IoAct)> :: IoRun(io, acts) == io'
  }

  lemma IoRunNext(io: Io, x: (Tid, IoAct), rest: seq<(Tid, IoAct)>, acts: seq<(Tid, IoAct)>)
    requires IoInv(io) && acts == [x] + rest
    ensures IoInv(IoNext(io, x.0, x.1)) && IoRun(io, acts) == IoRun(IoNext(io, x.0, x.1), rest)
  {
    IoStep(io, x.0, x.1);
    assert acts[1..] == rest;
  }

  lemma IoRunFirst(io: Io, a: seq<(Tid, IoAct)>, b: seq<(Tid, IoAct)>) returns (io': Io)
    requires IoInv(io) && a != []
    ensures IoInv(io') && IoRun(io, a) == IoRun(io', a[1..]) && IoRun(io, a + b) == IoRun(io', a[1..] + b)
  {
    RingProgress.Heads(a, b);
    IoRunNext(io, a[0], a[1..], a);
    IoRunNext(io, a[0], a[1..] + b, a + b);
    io' := IoNext(io, a[0].0, a[0].1);
  }

  lemma {:induction false} IoRunBoth(io: Io, a: seq<(Tid, IoAct)>, b: seq<(Tid, IoAct)>)
    requires IoInv(io)
    ensures IoRun(io, a + b) == IoRun(IoRun(io, a), b)
    decreases |a|
  {
    if a == [] {
      assert a + b == b;
    } else {
      var io' := IoRunFirst(io, a, b);
      IoRunBoth(io', a[1..], b);
    }
  }

  lemma ReachThere(io: Io, io1: Io, io2: Io)
    requires CanReach(io, io1) && CanReach(io1, io2)
    ensures CanReach(io, io2)
  {
    var a: seq<(Tid, IoAct)> :| IoRun(io, a) == io1;
    var b: seq<(Tid, IoAct)> :| IoRun(io1, b) == io2;
    IoRunBoth(io, a, b);
  }

  lemma ReachHere(io: Io)
    requires IoInv(io)
    ensures CanReach(io, io)
  {
    assert IoRun(io, []) == io;
  }

  lemma ReachNext(io: Io, t: Tid, a: IoAct)
    requires IoInv(io)
    ensures IoInv(IoNext(io, t, a)) && CanReach(io, IoNext(io, t, a))
  {
    IoRunNext(io, (t, a), [], [(t, a)]);
    assert IoRun(io, [(t, a)]) == IoNext(io, t, a);
  }

  // ---------------------------------------------------------- steps and calls

  /** The slot table and the requests are as before, and so are the answers. */
  ghost predicate SameTable(io: Io, io': Io) {
    && io'.acks == io.acks && io'.current == io.current && io'.ticket == io.ticket && io'.starts == io.starts
    && io'.calls == io.calls && io'.answers == io.answers
  }

  /** A step inside the rings touches no slot. */
  lemma PartyStep(io: Io, t: Tid, a: Act) returns (io': Io)
    requires IoInv(io) && !a.Request? && !a.Reclaim? && !a.Reply?
    ensures IoInv(io') && CanReach(io, io') && io'.s == SysNext(io.s, t, a) && SameTable(io, io')
  {
    ReachNext(io, t, Party(a));
    io' := IoNext(io, t, Party(a));
  }

  /** Thread t, fresh and inside ring c, goes on until it is about to commit or
      about to be refused. */
  lemma {:induction false} GoOn(io: Io, t: Tid) returns (io': Io)
    requires IoInv(io) && Inside(io.s, t) && !Idle(io.s.L(io.s.Task(t).c).w.q, t)
    requires Fresh(io.s.L(io.s.Task(t).c).w.q, io.s.L(io.s.Task(t).c).w.q.threads[t])
    ensures IoInv(io') && CanReach(io, io') && SameTable(io, io')
    ensures Around(io.s, io'.s, io.s.Task(t).c, t) && io'.s.Task(t) == io.s.Task(t)
    ensures io'.s.lent == io.s.lent && io'.s.msgs == io.s.msgs
    ensures var q, q' := io.s.L(io.s.Task(t).c).w.q, io'.s.L(io.s.Task(t).c).w.q;
            && !Idle(q', t) && Arrived(q', q'.threads[t]) && Fresh(q', q'.threads[t])
            && q'.threads[t].op == q.threads[t].op && (q'.threads[t].Publish? <==> !Doomed(q, q.threads[t]))
            && q'.B(q.threads[t].op.Side()) == Goal(q, q.threads[t])
            && OnlyMine(q, q', t, q.threads[t].op.Side())
    decreases Ahead(io.s.L(io.s.Task(t).c).w.q.threads[t])
  {
    var q := io.s.L(io.s.Task(t).c).w.q;
    if Arrived(q, q.threads[t]) {
      ReachHere(io);
      return io;
    }
    GoFresh(io.s, t);
    GoRing(io.s, t);
    FreshStep(q, t);
    var io1 := PartyStep(io, t, Go);
    var q1 := Next(Exact, q, t, Dequeue);
    var io2 := GoOn(io1, t);
    ReachThere(io, io1, io2);
    MineTrans(q, q1, io2.s.L(io.s.Task(t).c).w.q, t, q.threads[t].op.Side());
    return io2;
  }

  /** A side after one whole operation on it, by a thread that met no other. */
  function Claimed(b: Bound): Bound { Bound(Marker(b.tail.pos + 1, b.tail.count + 1), b.head) }
  function Passed(b: Bound): Bound { Bound(Claimed(b).tail, NewHead(Exact, b.head, Claimed(b).tail)) }

  ghost predicate Entering(io: Io, t: Tid, c: Chan, op: Op) {
    && IoInv(io) && Inside(io.s, t) && io.s.Task(t).c == c && !Idle(io.s.L(c).w.q, t)
    && io.s.L(c).w.q.threads[t] == LoadTail(op)
    && !TooFar(Exact, io.s.L(c).w.q.B(op.Side()).tail.pos, io.s.L(c).w.q.B(op.Side()).head.pos)
  }

  /** Up to the commit. */
  lemma Halfway(io: Io, t: Tid, c: Chan, op: Op) returns (io': Io)
    requires Entering(io, t, c, op) && !Blocked(Exact, io.s.L(c).w.q, op, io.s.L(c).w.q.B(op.Side()).tail.pos)
    ensures IoInv(io') && CanReach(io, io') && SameTable(io, io')
    ensures Around(io.s, io'.s, c, t) && io'.s.Task(t) == io.s.Task(t)
    ensures io'.s.lent == io.s.lent && io'.s.msgs == io.s.msgs
    ensures var q, q' := io.s.L(c).w.q, io'.s.L(c).w.q;
            && !Idle(q', t) && q'.threads[t].Publish? && q'.threads[t].op == op && Fresh(q', q'.threads[t])
            && q'.B(op.Side()) == Claimed(q.B(op.Side())) && q'.B(Other(op.Side())) == q.B(Other(op.Side()))
  {
    io' := GoOn(io, t);
  }

  /** Through the whole call. */
  lemma Through(io: Io, t: Tid, c: Chan, op: Op) returns (io': Io)
    requires Entering(io, t, c, op) && !Blocked(Exact, io.s.L(c).w.q, op, io.s.L(c).w.q.B(op.Side()).tail.pos)
    ensures IoInv(io') && CanReach(io, io') && SameTable(io, io')
    ensures Around(io.s, io'.s, c, t) && io'.s.lent == io.s.lent && io'.s.msgs == io.s.msgs
    ensures io.s.Task(t).Sending? ==> io'.s.Task(t) == Resting
    ensures io.s.Task(t).Receiving? ==>
              io'.s.Task(t).Holding? && io'.s.Task(t).source == c && io'.s.Task(t).id < SIZE
    ensures var q, q' := io.s.L(c).w.q, io'.s.L(c).w.q;
            q'.B(op.Side()) == Passed(q.B(op.Side())) && q'.B(Other(op.Side())) == q.B(Other(op.Side()))
  {
    var io1 := Halfway(io, t, c, op);
    GoCommit(io1.s, t);
    GoRing(io1.s, t);
    CommitStep(io1.s.L(c).w.q, t);
    io' := PartyStep(io1, t, Go);
    ReachThere(io, io1, io');
  }

  // ------------------------------------------------------- what the parties do

  /** No thread of the side need wait in rpcmsg_tail_wait, nor is it full (or
      empty, for consumers). */
  predicate Open(q: Queue, side: Side) {
    && q.B(side).head.pos <= q.B(side).tail.pos <= q.B(side).head.pos + 8
    && if side.Prod? then q.prod.tail.pos != q.cons.head.pos + 32 else q.cons.tail.pos != q.prod.head.pos
  }

  /** The rings and tasks after a whole call of thread t on ring c. */
  ghost predicate Called(s: Sys, s': Sys, t: Tid, c: Chan, side: Side) {
    && Around(s, s', c, t)
    && s'.L(c).w.q.B(side) == Passed(s.L(c).w.q.B(side)) && s'.L(c).w.q.B(Other(side)) == s.L(c).w.q.B(Other(side))
  }

  /** A request for st has been registered, in buffer x. */
  ghost predicate Lodged(io: Io, io': Io, st: Ioreq, x: nat) {
    && st.slot < SLOTS && |io.acks| == |io'.acks| == |io'.current| == SLOTS
    && io'.acks == io.acks[st.slot := io'.acks[st.slot]] && io'.acks[st.slot].Some?
    && io'.current[st.slot] == |io.starts|
    && x !in io.s.lent && x < |io.s.msgs| && x < |io.ticket| && io'.ticket == io.ticket[x := |io.starts|]
    && io'.s.lent == io.s.lent + {x} && io'.s.msgs == io.s.msgs[x := st.Message()]
    && io'.starts == io.starts + [st] && io'.calls == io.calls && io'.answers == io.answers
  }

  lemma StillLodged(io: Io, io1: Io, io2: Io, st: Ioreq, x: nat)
    requires Lodged(io, io1, st, x) && SameTable(io1, io2) && io2.s.lent == io1.s.lent && io2.s.msgs == io1.s.msgs
    ensures Lodged(io, io2, st, x)
  {
  }

  /** ioreq_start begins. */
  lemma StartBegins(io: Io, t: Tid, st: Ioreq) returns (io': Io)
    requires IoInv(io) && io.s.Task(t).Resting? && st.slot < SLOTS && io.acks[st.slot].None?
    requires io.s.req.w.q.prod.head.pos <= io.s.req.w.q.prod.tail.pos <= io.s.req.w.q.prod.head.pos + 8
    ensures io'.s.Task(t).Sending? && var x := io'.s.Task(t).id;
            && io'.s.Task(t).from.None? && Lodged(io, io', st, x)
            && Entering(io', t, Req, Enqueue(Id(x))) && CanReach(io, io')
    ensures Around(io.s, io'.s, Req, t)
    ensures io'.s.req.w.q.prod == io.s.req.w.q.prod && io'.s.req.w.q.cons == io.s.req.w.q.cons
  {
    LendNeverFails(io, st.slot);
    RequestSends(io.s, t, st.Message());
    ReachNext(io, t, Begin(st));
    io' := IoNext(io, t, Begin(st));
  }

  /** A request that goes through. */
  lemma Starts(io: Io, t: Tid, st: Ioreq) returns (io': Io, x: nat)
    requires IoInv(io) && io.s.Task(t).Resting? && st.slot < SLOTS && io.acks[st.slot].None?
    requires Open(io.s.req.w.q, Prod)
    ensures IoInv(io') && CanReach(io, io') && Called(io.s, io'.s, t, Req, Prod) && io'.s.Task(t) == Resting
    ensures Lodged(io, io', st, x)
  {
    var io1 := StartBegins(io, t, st);
    x := io1.s.Task(t).id;
    io' := Through(io1, t, Req, Enqueue(Id(x)));
    ReachThere(io, io1, io');
    StillLodged(io, io1, io', st, x);
  }

  /** rpcmsg_receive begins. */
  lemma ReceiveBegins(io: Io, t: Tid, c: Chan) returns (io': Io)
    requires IoInv(io) && io.s.Task(t).Resting? && Open(io.s.L(c).w.q, Cons)
    ensures Entering(io', t, c, Dequeue) && CanReach(io, io') && SameTable(io, io') && io'.s.Task(t) == Receiving(c)
    ensures Around(io.s, io'.s, c, t) && io'.s.lent == io.s.lent && io'.s.msgs == io.s.msgs
    ensures io'.s.L(c).w.q.prod == io.s.L(c).w.q.prod && io'.s.L(c).w.q.cons == io.s.L(c).w.q.cons
  {
    ReceiveEnters(io.s, t, c);
    io' := PartyStep(io, t, Receive(c));
  }

  lemma Receives(io: Io, t: Tid, c: Chan) returns (io': Io)
    requires IoInv(io) && io.s.Task(t).Resting? && Open(io.s.L(c).w.q, Cons)
    ensures IoInv(io') && CanReach(io, io') && SameTable(io, io') && Called(io.s, io'.s, t, c, Cons)
    ensures io'.s.lent == io.s.lent && io'.s.msgs == io.s.msgs
    ensures io'.s.Task(t).Holding? && io'.s.Task(t).source == c && io'.s.Task(t).id < SIZE
    ensures io'.s.Task(t).id in io.s.lent
  {
    var io1 := ReceiveBegins(io, t, c);
    io' := Through(io1, t, c, Dequeue);
    ReachThere(io, io1, io');
    HeldIsLent(io'.s, t);
  }

  lemma HeldIsLent(s: Sys, t: Tid)
    requires SysInv(s) && s.Task(t).Holding?
    ensures s.Task(t).id in s.lent
  {
    assert CarryOk(s, t, s.Task(t).id);
    assert Placed(s, s.Task(t).id);
  }

  /** A consumer that claims a position and stops. */
  lemma Stalls(io: Io, t: Tid, c: Chan) returns (io': Io)
    requires IoInv(io) && io.s.Task(t).Resting? && Open(io.s.L(c).w.q, Cons)
    ensures IoInv(io') && CanReach(io, io') && SameTable(io, io') && Around(io.s, io'.s, c, t)
    ensures io'.s.lent == io.s.lent
    ensures io'.s.L(c).w.q.cons == Claimed(io.s.L(c).w.q.cons) && io'.s.L(c).w.q.prod == io.s.L(c).w.q.prod
  {
    var io1 := ReceiveBegins(io, t, c);
    io' := Halfway(io1, t, c, Dequeue);
    ReachThere(io, io1, io');
  }

  /** rpcmsg_forward, begin to end. */
  lemma Forwards(io: Io, t: Tid) returns (io': Io)
    requires IoInv(io) && AtDevice(io.s, t) && Open(io.s.fwd.w.q, Prod)
    ensures IoInv(io') && CanReach(io, io') && SameTable(io, io') && Called(io.s, io'.s, t, Fwd, Prod)
    ensures io'.s.Task(t) == Resting && io'.s.lent == io.s.lent && io'.s.msgs == io.s.msgs
  {
    ForwardSends(io.s, t);
    var io1 := PartyStep(io, t, Forward);
    io' := Through(io1, t, Fwd, Enqueue(Id(io.s.Task(t).id)));
    ReachThere(io, io1, io');
  }

  /** driver_rpc_ack_mmio_finish, begin to end. */
  lemma Replies(io: Io, t: Tid, data: Word) returns (io': Io)
    requires IoInv(io) && AtDevice(io.s, t) && Open(io.s.resp.w.q, Prod)
    ensures IoInv(io') && CanReach(io, io') && Called(io.s, io'.s, t, Resp, Prod)
    ensures io'.s.Task(t) == Resting && io'.s.lent == io.s.lent
    ensures io.s.Task(t).id < |io.ticket| && io'.answers == io.answers[io.ticket[io.s.Task(t).id] := data]
    ensures SameTable(io.(answers := io'.answers), io')
  {
    ReplySends(io.s, t, data);
    ReachNext(io, t, Party(Reply(data)));
    var io1 := IoNext(io, t, Party(Reply(data)));
    io' := Through(io1, t, Resp, Enqueue(Id(io.s.Task(t).id)));
    ReachThere(io, io1, io');
  }

  /** handle_mmio and the reclaim: one callback, one slot and one buffer free. */
  lemma Reclaims(io: Io, t: Tid) returns (io': Io, slot: nat)
    requires IoInv(io) && AtDriver(io.s, t)
    ensures IoInv(io') && CanReach(io, io') && (forall c :: io'.s.L(c) == io.s.L(c))
    ensures io'.s.Task(t) == Resting && forall u | u != t :: io'.s.Task(u) == io.s.Task(u)
    ensures slot < SLOTS && |io.acks| == SLOTS && io.acks[slot].Some? && io'.acks == io.acks[slot := None]
    ensures io.s.Task(t).id in io.s.lent && io'.s.lent == io.s.lent - {io.s.Task(t).id}
    ensures io'.calls == IoNext(io, t, Finish).calls
  {
    FinishFindsSlot(io, t);
    ReclaimFrees(io.s, t);
    ReachNext(io, t, Finish);
    io', slot := IoNext(io, t, Finish), io.starts[io.ticket[io.s.Task(t).id]].slot;
  }
}
