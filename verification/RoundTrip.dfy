/** One request on its whole way: started, received by the first device,
    forwarded to the second, answered, and called back. */
module RoundTrip {
  import opened Words
  import opened Ring
  import opened RingSafety
  import opened Ownership
  import opened Mmio
  import opened Calls

  ghost predicate Counts(s: Sys, c: Chan, prod: nat, cons: nat) {
    && s.L(c).w.q.prod == Bound(Marker(prod, prod), Marker(prod, prod))
    && s.L(c).w.q.cons == Bound(Marker(cons, cons), Marker(cons, cons))
  }

  /** Nothing but one request for st, in buffer x, not called back yet; threads
      from n on rest; and the response ring has passed p messages in, none out. */
  ghost predicate Only(io: Io, st: Ioreq, x: nat, n: nat, p: nat) {
    && IoInv(io) && io.s.lent == {x} && |io.s.msgs| == SIZE && |io.ticket| == |io.acks| == SLOTS && x < SIZE
    && io.ticket[x] == 0 && io.starts == [st] && io.calls == []
    && (forall k | 0 <= k < SLOTS && k != st.slot :: io.acks[k].None?)
    && (forall t | t >= n :: io.s.Task(t) == Resting) && Counts(io.s, Resp, p, 0)
  }

  /** Nobody has asked for anything yet. */
  ghost predicate Unused(io: Io) {
    && IoInv(io) && io.s.lent == {} && |io.s.msgs| == SIZE && |io.ticket| == |io.acks| == SLOTS
    && io.starts == [] && io.calls == [] && io.answers == map[]
    && (forall k | 0 <= k < SLOTS :: io.acks[k].None?) && (forall t :: io.s.Task(t) == Resting)
    && forall c {:trigger Counts(io.s, c, 0, 0)} :: Counts(io.s, c, 0, 0)
  }

  lemma InitUnused()
    ensures Unused(IoInit())
  {
    IoInitInv();
    forall c ensures Counts(IoInit().s, c, 0, 0) {}
  }

  /** The request is in the ring. */
  lemma FirstRequest(io: Io, st: Ioreq) returns (io': Io, x: nat)
    requires st.slot < SLOTS && Unused(io)
    ensures CanReach(io, io') && Only(io', st, x, 0, 0)
    ensures io'.s.msgs[x] == st.Message() && io'.answers == map[]
    ensures Counts(io'.s, Req, 1, 0) && Counts(io'.s, Fwd, 0, 0)
  {
    assert Counts(io.s, Req, 0, 0) && Counts(io.s, Fwd, 0, 0) && Counts(io.s, Resp, 0, 0);
    io', x := Starts(io, 0, st);
    assert io'.s.L(Fwd) == io.s.L(Fwd) && io'.s.L(Resp) == io.s.L(Resp);
  }

  /** The first device has it. */
  lemma Received(st: Ioreq) returns (io: Io, x: nat)
    requires st.slot < SLOTS
    ensures IoInv(IoInit()) && CanReach(IoInit(), io) && Only(io, st, x, 2, 0)
    ensures io.s.Task(1) == Holding(x, Req) && io.s.msgs[x] == st.Message() && io.answers == map[]
    ensures Counts(io.s, Fwd, 0, 0)
  {
    InitUnused();
    var io1;
    io1, x := FirstRequest(IoInit(), st);
    io := Receives(io1, 1, Req);
    assert io.s.L(Fwd) == io1.s.L(Fwd) && io.s.L(Resp) == io1.s.L(Resp);
    ReachThere(IoInit(), io1, io);
  }

  /** It forwards it to the second. */
  lemma PassedOn(io: Io, st: Ioreq, x: nat) returns (io': Io)
    requires Only(io, st, x, 2, 0) && io.s.Task(1) == Holding(x, Req) && Counts(io.s, Fwd, 0, 0)
    ensures CanReach(io, io') && Only(io', st, x, 3, 0) && io'.s.Task(2) == Holding(x, Fwd)
    ensures io'.s.msgs == io.s.msgs && io'.answers == io.answers
  {
    var io1 := Forwards(io, 1);
    assert io1.s.L(Resp) == io.s.L(Resp) && Counts(io1.s, Fwd, 1, 0);
    io' := Receives(io1, 2, Fwd);
    assert io'.s.L(Resp) == io1.s.L(Resp);
    ReachThere(io, io1, io');
  }

  /** From the initial state to the forward ring and out of it: the second device
      holds the message with the contents that were requested. */
  lemma Forwarded(st: Ioreq) returns (io: Io, x: nat)
    requires st.slot < SLOTS
    ensures IoInv(IoInit()) && CanReach(IoInit(), io) && Only(io, st, x, 3, 0)
    ensures io.s.Task(2) == Holding(x, Fwd) && io.s.msgs[x] == st.Message() && io.answers == map[]
  {
    var io1;
    io1, x := Received(st);
    io := PassedOn(io1, st, x);
    ReachThere(IoInit(), io1, io);
  }

  /** The same as a run of the ownership protocol. */
  lemma ForwardedRun(st: Ioreq) returns (acts: Actions, x: nat)
    requires st.slot < SLOTS
    ensures SysInv(Init3())
    ensures var s := SysRun(Init3(), acts);
            s.Task(2) == Holding(x, Fwd) && x < |s.msgs| && s.msgs[x] == st.Message()
  {
    InitInv();
    var io;
    io, x := Forwarded(st);
    var above :| IoRun(IoInit(), above) == io;
    acts := IoIsSys(IoInit(), above);
  }

  /** The second device answers, and the driver has the response. */
  lemma Answered(io: Io, st: Ioreq, x: nat, data: Word) returns (io': Io)
    requires Only(io, st, x, 3, 0) && io.s.Task(2) == Holding(x, Fwd)
    ensures CanReach(io, io') && IoInv(io') && io'.s.lent == {x} && io'.s.Task(3) == Holding(x, Resp)
    ensures |io'.ticket| == SLOTS && io'.ticket[x] == 0 && io'.starts == [st] && io'.calls == []
    ensures 0 in io'.answers && io'.answers[0] == data && io'.acks == io.acks
    ensures |io'.acks| == SLOTS && forall k | 0 <= k < SLOTS && k != st.slot :: io'.acks[k].None?
  {
    var io1 := Replies(io, 2, data);
    assert Counts(io1.s, Resp, 1, 0);
    io' := Receives(io1, 3, Resp);
    ReachThere(io, io1, io');
  }

  lemma CalledBackOnce(io: Io, st: Ioreq, x: nat, data: Word) returns (io': Io)
    requires IoInv(io) && io.s.lent == {x} && io.s.Task(3) == Holding(x, Resp) && x < SIZE
    requires |io.ticket| == SLOTS && io.ticket[x] == 0 && io.starts == [st] && io.calls == []
    requires 0 in io.answers && io.answers[0] == data
    requires |io.acks| == SLOTS && forall k | 0 <= k < SLOTS && k != st.slot :: io.acks[k].None?
    ensures CanReach(io, io')
    ensures io'.calls == [Call(0, if st.direction == 0 then st.readFn else st.writeFn, st.cookie, data)]
    ensures io'.s.lent == {} && |io'.acks| == 32 && forall k | 0 <= k < 32 :: io'.acks[k].None?
  {
    FinishCallsBack(io, 3);
    var slot;
    io', slot := Reclaims(io, 3);
  }

  /** And back: for every request and every answer there is a run in which the
      request is called back, with its own callback and cookie and that answer,
      and its buffer and its slot are free again. */
  lemma CalledBackRun(st: Ioreq, data: Word) returns (acts: seq<(Tid, IoAct)>)
    requires st.slot < SLOTS
    ensures IoInv(IoInit())
    ensures var io := IoRun(IoInit(), acts);
            && io.calls == [Call(0, if st.direction == 0 then st.readFn else st.writeFn, st.cookie, data)]
            && io.s.lent == {} && |io.acks| == 32 && forall k | 0 <= k < 32 :: io.acks[k].None?
  {
    var io1, x := Forwarded(st);
    var io2 := Answered(io1, st, x, data);
    ReachThere(IoInit(), io1, io2);
    var io3 := CalledBackOnce(io2, st, x, data);
    ReachThere(IoInit(), io2, io3);
    acts :| IoRun(IoInit(), acts) == io3;
  }
}
