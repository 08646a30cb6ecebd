/** A run in which two consumers of the request ring overlap, and a request is
    refused although its sender has a buffer in hand. */
module Overlap {
  import opened Words
  import opened Ring
  import opened RingSafety
  import opened RingAlone
  import opened Ownership
  import opened Mmio
  import opened Calls

  function Level(n: nat): Bound { Bound(Marker(n, n), Marker(n, n)) }

  /** The request ring with k requests in it so far, and the slots from k on
      free; thread 0 makes the requests. */
  ghost predicate Requested(io: Io, k: nat, cons: Bound, lent: nat) {
    && IoInv(io) && io.s.Task(0).Resting? && |io.acks| == SLOTS && |io.s.lent| == lent
    && io.s.req.w.q.prod == Level(k) && io.s.req.w.q.cons == cons
    && forall i | k <= i < SLOTS :: io.acks[i].None?
  }

  function Any(slot: nat): Ioreq { Ioreq(slot, 1, 2, 0, 0, Zero(), Zero(), Zero(), Zero()) }

  lemma FillsOne(io: Io, k: nat, cons: Bound, lent: nat) returns (io': Io)
    requires Requested(io, k, cons, lent) && k < SIZE && cons.head.pos == 0
    ensures Requested(io', k + 1, cons, lent + 1) && CanReach(io, io')
    ensures Around(io.s, io'.s, Req, 0) && forall i | 0 <= i < k :: io'.acks[i] == io.acks[i]
  {
    var x;
    io', x := Starts(io, 0, Any(k));
  }

  lemma {:induction false} FillsUp(io: Io, k: nat, cons: Bound, lent: nat, j: nat) returns (io': Io)
    requires Requested(io, k, cons, lent) && k <= SIZE && cons.head.pos == 0 && j < k && io.acks[j].None?
    ensures Requested(io', SIZE, cons, lent + (SIZE - k)) && CanReach(io, io') && io'.acks[j].None?
    decreases SIZE - k
  {
    if k == SIZE {
      ReachHere(io);
      return io;
    }
    var io1 := FillsOne(io, k, cons, lent);
    var io2 := FillsUp(io1, k + 1, cons, lent + 1, j);
    ReachThere(io, io1, io2);
    return io2;
  }

  /** Two requests; consumer 1 claims the first and stops. */
  lemma FirstClaim() returns (io: Io)
    ensures IoInv(IoInit()) && CanReach(IoInit(), io)
    ensures Requested(io, 2, Bound(Marker(1, 1), Marker(0, 0)), 2)
    ensures io.s.Task(2).Resting? && io.s.Task(3).Resting?
    ensures io.s.resp.w.q.prod == Level(0) && io.s.resp.w.q.cons == Level(0)
  {
    IoInitInv();
    var io0 := IoInit();
    var io1 := FillsOne(io0, 0, Level(0), 0);
    var io2 := FillsOne(io1, 1, Level(0), 1);
    ReachThere(io0, io1, io2);
    io := Stalls(io2, 1, Req);
    ReachThere(io0, io2, io);
    assert io.s.L(Resp) == io2.s.L(Resp) == io1.s.L(Resp) == io0.s.L(Resp);
  }

  /** Consumer 2 takes the other and answers it. */
  lemma Answers(io: Io) returns (io': Io)
    requires Requested(io, 2, Bound(Marker(1, 1), Marker(0, 0)), 2)
    requires io.s.Task(2).Resting? && io.s.Task(3).Resting?
    requires io.s.resp.w.q.prod == Level(0) && io.s.resp.w.q.cons == Level(0)
    ensures CanReach(io, io') && Requested(io', 2, Bound(Marker(2, 2), Marker(0, 1)), 2) && io'.s.Task(3).Resting?
    ensures io'.s.resp.w.q.prod == Level(1) && io'.s.resp.w.q.cons == Level(0)
  {
    var io1 := Receives(io, 2, Req);
    assert io1.s.L(Resp) == io.s.L(Resp);
    io' := Replies(io1, 2, Zero());
    ReachThere(io, io1, io');
    assert io'.s.L(Req) == io1.s.L(Req);
  }

  /** The driver takes the answer and reclaims the buffer. */
  lemma Settles(io: Io) returns (io': Io, j: nat)
    requires Requested(io, 2, Bound(Marker(2, 2), Marker(0, 1)), 2) && io.s.Task(3).Resting?
    requires io.s.resp.w.q.prod == Level(1) && io.s.resp.w.q.cons == Level(0)
    ensures CanReach(io, io') && j < 2
    ensures Requested(io', 2, Bound(Marker(2, 2), Marker(0, 1)), 1) && io'.acks[j].None?
  {
    var io1 := Receives(io, 3, Resp);
    assert io1.s.L(Req) == io.s.L(Req);
    io', j := Reclaims(io1, 3);
    ReachThere(io, io1, io');
    assert io'.s.L(Req) == io1.s.L(Req);
  }

  lemma Overtakes() returns (io: Io, j: nat)
    ensures IoInv(IoInit()) && CanReach(IoInit(), io) && j < 2
    ensures Requested(io, 2, Bound(Marker(2, 2), Marker(0, 1)), 1) && io.acks[j].None?
  {
    var io1 := FirstClaim();
    var io2 := Answers(io1);
    ReachThere(IoInit(), io1, io2);
    io, j := Settles(io2);
    ReachThere(IoInit(), io2, io);
  }

  /** A request into a full ring is refused with the buffer in hand. */
  lemma RunsInto(io: Io, cons: Bound, j: nat) returns (io': Io)
    requires Requested(io, SIZE, cons, 31) && cons.head.pos == 0 && j < SLOTS && io.acks[j].None?
    ensures IoInv(io') && CanReach(io, io')
    ensures io'.s.Task(0).Sending? && io'.s.Task(0).from.None? && Refused(io'.s.req.w.q, 0)
    ensures io'.s.req.w.q.cons == cons
    ensures |io'.acks| == |io'.current| == SLOTS && io'.acks[j].Some?
    ensures io'.s.Task(0).id < |io'.ticket| && io'.current[j] == io'.ticket[io'.s.Task(0).id]
  {
    var io1 := StartBegins(io, 0, Any(j));
    FreshStart(io.s.req.w.q, 0, Enqueue(Id(io1.s.Task(0).id)));
    io' := GoOn(io1, 0);
    ReachThere(io, io1, io');
  }

  /** And its slot is then stuck. */
  lemma GetsStuck(io: Io, j: nat)
    requires IoInv(io) && io.s.Task(0).Sending? && io.s.Task(0).from.None? && Refused(io.s.req.w.q, 0)
    requires j < SLOTS && io.acks[j].Some?
    requires io.s.Task(0).id < |io.ticket| && io.current[j] == io.ticket[io.s.Task(0).id]
    ensures Stuck(IoNext(io, 0, Party(Go)), j)
  {
    var x := io.s.Task(0).id;
    assert FromOk(io.s, 0) && CarryOk(io.s, 0, x);
    assert Placed(io.s, x);
    GoRefused(io.s, 0);
    assert io.ticket[x] in GaveBack(io, SysNext(io.s, 0, Go));
  }

  /** Two consumers that overlap are enough: a run that ends with a request about
      to be refused, its buffer lent and in the hands of its sender, while the
      head of the consumers lags behind their commits; the refusal then costs
      the slot for ever. */
  lemma OverlapRefuses() returns (acts: seq<(Tid, IoAct)>, slot: nat)
    ensures IoInv(IoInit())
    ensures var io := IoRun(IoInit(), acts);
            && io.s.Task(0).Sending? && Refused(io.s.L(io.s.Task(0).c).w.q, 0)
            && io.s.req.w.q.cons.head.pos != io.s.req.w.q.cons.head.count
            && Stuck(IoNext(io, 0, Party(Go)), slot)
  {
    var io2, j := Overtakes();
    var io3 := FillsUp(io2, 2, Bound(Marker(2, 2), Marker(0, 1)), 1, j);
    ReachThere(IoInit(), io2, io3);
    var io4 := RunsInto(io3, Bound(Marker(2, 2), Marker(0, 1)), j);
    ReachThere(IoInit(), io3, io4);
    GetsStuck(io4, j);
    assert FromOk(io4.s, 0);
    acts :| IoRun(IoInit(), acts) == io4;
    slot := j;
  }

  /** The same run as one of the ownership protocol alone. */
  lemma RefusedRun() returns (acts: Actions)
    ensures SysInv(Init3())
    ensures var s := SysRun(Init3(), acts);
            && s.Task(0).Sending? && Refused(s.L(s.Task(0).c).w.q, 0)
            && s.req.w.q.cons.head.pos != s.req.w.q.cons.head.count
  {
    InitInv();
    var above, slot := OverlapRefuses();
    acts := IoIsSys(IoInit(), above);
  }
}
