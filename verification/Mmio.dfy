/** The MMIO request table on top of the rpc rings: 32 slots, each with at most
    one request outstanding, whose number travels in word 0 of the message. */
module Mmio {
  import opened Words
  import opened Ring
  import opened RingSafety
  import opened Ownership
  import Codec

  const SLOTS: nat := 32

  /** The arguments of one ioreq_start; callbacks and cookies are addresses. */
  datatype Ioreq = Ioreq(slot: nat, readFn: nat, writeFn: nat, cookie: nat, direction: nat,
                         addrSpace: Word, addr: Word, len: Word, data: Word)
  {
    function Callback(): nat { if direction == Codec.DIR_READ then readFn else writeFn }

    function Message(): Msg {
      Msg(Codec.WithOp(Codec.MmioMr0(FromNat(direction), addrSpace, FromNat(slot), len), Codec.OP_MMIO),
          addr, data, Zero())
    }
  }

  datatype Ack = Ack(callback: nat, cookie: nat)

  /** A callback that was invoked; ticket says for which request. */
  datatype Call = Call(ticket: nat, callback: nat, cookie: nat, data: Word)

  /** The system with the slot table, and its history: every request started
      so far (its index is its ticket), the buffer lent for each, the ticket of
      the request in each buffer and in each slot, the data the device gave for
      each ticket, the callbacks made, the callback that served each ticket, and
      the tickets whose enqueue was refused. */
  datatype Io = Io(s: Sys, acks: seq<Option<Ack>>, starts: seq<Ioreq>, buffer: seq<nat>, ticket: seq<nat>,
                   current: seq<nat>, answers: map<nat, Word>, calls: seq<Call>, served: map<nat, nat>,
                   refused: set<nat>)

  datatype IoAct = Begin(st: Ioreq) | Party(a: Act) | Finish

  // ----------------------------------------------------------- the invariant

  /** Message x is on its way back to the driver. */
  ghost predicate Replying(s: Sys, x: nat)
    requires |s.loc| == SIZE && x < SIZE
  {
    match s.loc[x]
    case Free => false
    case Queued(c, _) => c == Resp
    case Held(t) => s.Task(t) == Holding(x, Resp) || (s.Task(t).Sending? && s.Task(t).c == Resp)
  }

  /** What a field of word 0 says about a request. */
  function FieldOf(st: Ioreq, f: Codec.Field): nat {
    if f == Codec.OP then Codec.OP_MMIO
    else if f == Codec.SLOT then st.slot
    else if f == Codec.DIRECTION then Val(FromNat(st.direction)) % 2
    else if f == Codec.ADDR_SPACE then Val(st.addrSpace) % 256
    else Val(st.len) % 16
  }

  /** Word 0 decodes to the given request. */
  ghost predicate Header(mr0: Word, st: Ioreq) {
    forall f {:trigger Codec.Get(mr0, f)} | Codec.IsMr0Field(f) :: Val(Codec.Get(mr0, f)) == FieldOf(st, f)
  }

  ghost predicate Sized(io: Io) {
    |io.acks| == |io.ticket| == |io.current| == SLOTS && |io.buffer| == |io.starts|
  }

  ghost predicate BookSized(io: Io) {
    Sized(io) && |io.s.msgs| == |io.s.loc| == SIZE
  }

  /** A lent buffer belongs to the request of its ticket, whose slot is busy
      with that request's own callback and cookie. */
  ghost predicate LentOk(io: Io, x: nat)
    requires Sized(io) && |io.s.msgs| == SIZE && x < SIZE
  {
    x in io.s.lent ==>
      && io.ticket[x] < |io.starts|
      && var st := io.starts[io.ticket[x]];
      && st.slot < SLOTS
      && io.acks[st.slot] == Some(Ack(st.Callback(), st.cookie))
      && io.current[st.slot] == io.ticket[x]
      && Header(io.s.msgs[x].mr0, st) && io.s.msgs[x].mr1 == st.addr && io.s.msgs[x].mr3 == Zero()
      && io.ticket[x] !in io.refused
      && (forall k | 0 <= k < |io.calls| :: io.calls[k].ticket != io.ticket[x])
  }

  /** Word 2 carries the request's data until the device answers, and the
      answer from then on. */
  ghost predicate AnswerOk(io: Io, x: nat)
    requires Sized(io) && |io.s.msgs| == |io.s.loc| == SIZE && x < SIZE
  {
    x in io.s.lent ==>
      && (Replying(io.s, x) ==> io.ticket[x] in io.answers)
      && (io.ticket[x] < |io.starts| ==>
            io.s.msgs[x].mr2
            == if io.ticket[x] in io.answers then io.answers[io.ticket[x]] else io.starts[io.ticket[x]].data)
  }

  ghost predicate DistinctTickets(io: Io)
    requires Sized(io)
  {
    forall x, y | x in io.s.lent && y in io.s.lent && x < SIZE && y < SIZE && x != y :: io.ticket[x] != io.ticket[y]
  }

  /** Every callback made is the one registered for its ticket, with that
      request's cookie and the data the device gave for it. */
  ghost predicate CallOk(io: Io, k: nat)
    requires k < |io.calls|
  {
    var call := io.calls[k];
    && call.ticket < |io.starts| && call.ticket !in io.refused
    && call.callback == io.starts[call.ticket].Callback()
    && call.cookie == io.starts[call.ticket].cookie
    && call.ticket in io.answers && call.data == io.answers[call.ticket]
  }

  ghost predicate CallsOk(io: Io) {
    && (forall k {:trigger CallOk(io, k)} | 0 <= k < |io.calls| :: CallOk(io, k))
    && (forall j, k | 0 <= j < k < |io.calls| :: io.calls[j].ticket != io.calls[k].ticket)
  }

  /** The request with ticket n waits in its buffer. */
  ghost predicate Pending(io: Io, n: nat)
    requires Sized(io) && n < |io.starts|
  {
    io.buffer[n] in io.s.lent && io.buffer[n] < SIZE && io.ticket[io.buffer[n]] == n
  }

  /** A busy slot's request waits in its buffer, or its enqueue was refused. */
  ghost predicate SlotOk(io: Io, slot: nat)
    requires Sized(io) && slot < SLOTS
  {
    io.acks[slot].Some? ==>
      && io.current[slot] < |io.starts| && io.starts[io.current[slot]].slot == slot
      && (io.current[slot] in io.refused || Pending(io, io.current[slot]))
  }

  /** No request is lost. */
  ghost predicate TicketOk(io: Io, n: nat)
    requires Sized(io) && n < |io.starts|
  {
    || n in io.refused
    || Pending(io, n)
    || (n in io.served && io.served[n] < |io.calls| && io.calls[io.served[n]].ticket == n)
  }

  ghost predicate FromOk(s: Sys, t: Tid) {
    s.Task(t).Sending? ==> s.Task(t).from != Some(Resp) && (s.Task(t).from.None? ==> s.Task(t).c == Req)
  }

  ghost predicate Books(io: Io)
    requires Sized(io) && |io.s.msgs| == |io.s.loc| == SIZE
  {
    && (forall x {:trigger LentOk(io, x)} | 0 <= x < SIZE :: LentOk(io, x))
    && (forall x {:trigger AnswerOk(io, x)} | 0 <= x < SIZE :: AnswerOk(io, x))
    && (forall k {:trigger SlotOk(io, k)} | 0 <= k < SLOTS :: SlotOk(io, k))
    && (forall n {:trigger TicketOk(io, n)} | 0 <= n < |io.starts| :: TicketOk(io, n))
    && (forall t {:trigger FromOk(io.s, t)} :: FromOk(io.s, t))
    && DistinctTickets(io) && CallsOk(io) && (forall n | n in io.refused :: n < |io.starts|)
    && (forall n | n in io.answers :: n < |io.starts|)
  }

  ghost predicate IoInv(io: Io) {
    SysInv(io.s) && Sized(io) && Books(io)
  }

  // --------------------------------------------------------------- the steps

  ghost predicate CanLend(s: Sys) { exists x: nat :: LeastFree(s.lent, x) }

  /** ioreq_start on a slot without an outstanding request. A slot number out
      of range is refused; a busy slot trips the assertion, so it is not a step. */
  ghost function DoBegin(io: Io, t: Tid, st: Ioreq): Io
    requires IoInv(io)
  {
    if st.slot >= SLOTS || io.acks[st.slot].Some? || !io.s.Task(t).Resting? || !CanLend(io.s) then io
    else Registered(io, t, st, st.Message())
  }

  ghost function Registered(io: Io, t: Tid, st: Ioreq, msg: Msg): Io
    requires Shape(io.s) && Sized(io) && st.slot < SLOTS && CanLend(io.s)
  {
    io.(s := SysNext(io.s, t, Request(msg)),
        acks := io.acks[st.slot := Some(Ack(st.Callback(), st.cookie))],
        starts := io.starts + [st],
        buffer := io.buffer + [Lent(io.s.lent)],
        ticket := io.ticket[Lent(io.s.lent) := |io.starts|],
        current := io.current[st.slot := |io.starts|])
  }

  /** Tickets whose buffers went back to the free list without a response. */
  ghost function GaveBack(io: Io, s': Sys): set<nat>
    requires Sized(io)
  {
    set x | x in io.s.lent && x < SIZE && x !in s'.lent :: io.ticket[x]
  }

  /** A step of the rings, of the device, or of the driver's receive. */
  ghost function DoParty(io: Io, t: Tid, a: Act): Io
    requires IoInv(io)
  {
    var task := io.s.Task(t);
    io.(s := SysNext(io.s, t, a),
        answers := if a.Reply? && AtDevice(io.s, t) then io.answers[io.ticket[task.id] := a.data] else io.answers,
        refused := io.refused + GaveBack(io, SysNext(io.s, t, a)))
  }

  /** handle_mmio and ioreq_finish on a received response, then the reclaim. */
  ghost function DoFinish(io: Io, t: Tid): Io
    requires IoInv(io) && AtDriver(io.s, t)
  {
    var x := io.s.Task(t).id;
    var slot := Val(Codec.Get(io.s.msgs[x].mr0, Codec.SLOT));
    if slot >= SLOTS || io.acks[slot].None? then io
    else
      io.(s := SysNext(io.s, t, Reclaim),
          acks := io.acks[slot := None],
          served := io.served[io.ticket[x] := |io.calls|],
          calls := io.calls + [Call(io.ticket[x], io.acks[slot].value.callback, io.acks[slot].value.cookie,
                                    io.s.msgs[x].mr2)])
  }

  ghost function IoNext(io: Io, t: Tid, a: IoAct): Io
    requires IoInv(io)
  {
    match a
    case Begin(st) => DoBegin(io, t, st)
    case Party(p) => if p.Request? || p.Reclaim? then io else DoParty(io, t, p)
    case Finish => if AtDriver(io.s, t) then DoFinish(io, t) else io
  }

  // ------------------------------------------------------------ lending

  /** The slot a lent buffer's request was started on. */
  function SlotOf(io: Io, x: nat): nat
    requires x < |io.ticket|
  {
    if io.ticket[x] < |io.starts| then io.starts[io.ticket[x]].slot else 0
  }

  lemma OwnSlot(io: Io, x: nat, y: nat)
    requires BookSized(io) && Books(io) && x in io.s.lent && x < SIZE && y in io.s.lent && y < SIZE
    ensures SlotOf(io, x) < SLOTS && io.acks[SlotOf(io, x)].Some?
    ensures x != y ==> SlotOf(io, x) != SlotOf(io, y)
  {
    assert LentOk(io, x) && LentOk(io, y);
  }

  lemma FewLent(io: Io, slot: nat)
    requires BookSized(io) && Books(io)
    requires (forall x | x in io.s.lent :: x < SIZE) && slot < SLOTS && io.acks[slot].None?
    ensures |io.s.lent| < SLOTS
  {
    var f: map<nat, nat> := map x | x in io.s.lent :: SlotOf(io, x);
    forall x | x in io.s.lent ensures f[x] < SLOTS && f[x] != slot { OwnSlot(io, x, x); }
    forall x, y | x in io.s.lent && y in io.s.lent && x != y ensures f[x] != f[y] { OwnSlot(io, x, y); }
    FitsBetween(io.s.lent, f, 0, SLOTS, slot);
  }

  /** Each lent buffer has its own busy slot, so a free slot means a free
      buffer: rpcmsg_lend_buffer never returns NULL to ioreq_start. */
  lemma LendNeverFails(io: Io, slot: nat)
    requires IoInv(io) && slot < SLOTS && io.acks[slot].None?
    ensures CanLend(io.s)
  {
    FewLent(io, slot);
    SomeFree(io.s.lent, SIZE);
    var x: nat :| IsLeast(io.s.lent, x) && x < SIZE;
    assert LeastFree(io.s.lent, x);
  }

  ghost predicate IsLeast(lent: set<nat>, x: nat) {
    x !in lent && forall y: nat | y < x :: y in lent
  }

  lemma SomeFree(lent: set<nat>, n: nat)
    requires |lent| < n
    ensures exists x: nat :: IsLeast(lent, x) && x < n
  {
    if forall y: nat | y < n :: y in lent {
      var f := map y | y in Range(0, n) :: y;
      Pigeonhole(Range(0, n), f, lent);
      RangeSize(0, n);
    } else {
      var y: nat :| y < n && y !in lent;
      Least(lent, y);
    }
  }

  lemma {:induction false} Least(lent: set<nat>, z: nat)
    requires z !in lent
    ensures exists x: nat :: IsLeast(lent, x) && x <= z
  {
    if y: nat :| y < z && y !in lent { Least(lent, y); } else { assert IsLeast(lent, z); }
  }

  // ------------------------------------------------- preservation: ioreq_start

  lemma RequestEffect(s: Sys, t: Tid, msg: Msg)
    requires SysInv(s) && s.Task(t).Resting? && CanLend(s)
    ensures var x := Lent(s.lent); var s' := SysNext(s, t, Request(msg));
            && s'.lent == s.lent + {x} && s'.msgs == s.msgs[x := msg] && s'.loc == s.loc[x := Held(t)]
            && s'.tasks == s.tasks[t := Sending(Req, x, None)]
  {
    assert LinkOk(s.L(Req));
  }

  /** io' is io after ioreq_start has registered st and lent buffer x0 to t. */
  ghost predicate Begun(io: Io, io': Io, t: Tid, st: Ioreq, msg: Msg, x0: nat) {
    && BookSized(io) && BookSized(io') && x0 < SIZE && x0 !in io.s.lent
    && st.slot < SLOTS && io.acks[st.slot].None? && Header(msg.mr0, st) && msg.mr1 == st.addr && msg.mr2 == st.data
       && msg.mr3 == Zero()
       && io.s.Task(t).Resting?
    && io'.s.lent == io.s.lent + {x0} && io'.s.msgs == io.s.msgs[x0 := msg] && io'.s.loc == io.s.loc[x0 := Held(t)]
    && io'.s.tasks == io.s.tasks[t := Sending(Req, x0, None)]
    && io'.acks == io.acks[st.slot := Some(Ack(st.Callback(), st.cookie))]
    && io'.starts == io.starts + [st] && io'.ticket == io.ticket[x0 := |io.starts|]
    && io'.current == io.current[st.slot := |io.starts|] && io'.buffer == io.buffer + [x0]
    && io'.answers == io.answers && io'.calls == io.calls && io'.served == io.served && io'.refused == io.refused
    && (forall n | n in io.refused :: n < |io.starts|)
    && (forall n | n in io.answers :: n < |io.starts|)
  }

  lemma BeginLent(io: Io, io': Io, t: Tid, st: Ioreq, msg: Msg, x0: nat, x: nat)
    requires Begun(io, io', t, st, msg, x0) && Books(io) && x < SIZE
    ensures LentOk(io', x)
  {
    assert LentOk(io, x);
    if x == x0 {
      forall k | 0 <= k < |io.calls| ensures io.calls[k].ticket != |io.starts| { assert CallOk(io, k); }
    }
  }

  lemma BeginAnswer(io: Io, io': Io, t: Tid, st: Ioreq, msg: Msg, x0: nat, x: nat)
    requires Begun(io, io', t, st, msg, x0) && Books(io) && x < SIZE
    requires io.s.loc[x] != Held(t)
    ensures AnswerOk(io', x)
  {
    assert LentOk(io, x) && AnswerOk(io, x);
  }

  lemma BeginBooks(io: Io, io': Io, t: Tid, st: Ioreq, msg: Msg, x0: nat)
    requires Begun(io, io', t, st, msg, x0) && Books(io)
    requires forall x | 0 <= x < SIZE :: io.s.loc[x] != Held(t)
    ensures Books(io')
  {
    forall x | 0 <= x < SIZE ensures LentOk(io', x) { BeginLent(io, io', t, st, msg, x0, x); }
    forall x | 0 <= x < SIZE ensures AnswerOk(io', x) { BeginAnswer(io, io', t, st, msg, x0, x); }
    forall k | 0 <= k < SLOTS ensures SlotOk(io', k) { assert SlotOk(io, k); }
    forall n | 0 <= n < |io'.starts| ensures TicketOk(io', n) { if n < |io.starts| { assert TicketOk(io, n); } }
    forall u ensures FromOk(io'.s, u) { assert FromOk(io.s, u); }
    forall k | 0 <= k < |io'.calls| ensures CallOk(io', k) { assert CallOk(io, k); }
    forall x, y | x in io'.s.lent && y in io'.s.lent && x < SIZE && y < SIZE && x != y
      ensures io'.ticket[x] != io'.ticket[y]
    {
      assert LentOk(io, x) && LentOk(io, y);
    }
  }

  lemma BeginKeeps(io: Io, t: Tid, st: Ioreq)
    requires IoInv(io)
    ensures IoInv(DoBegin(io, t, st))
  {
    if st.slot < SLOTS && io.acks[st.slot].None? && io.s.Task(t).Resting? && CanLend(io.s) {
      MessageDecodes(st);
      RegisterKeeps(io, t, st, st.Message());
    }
  }

  lemma MessageDecodes(st: Ioreq)
    requires st.slot < SLOTS
    ensures Header(st.Message().mr0, st) && st.Message().mr1 == st.addr && st.Message().mr2 == st.data
  {
    Codec.SlotRoundTrip(FromNat(st.direction), st.addrSpace, st.slot, st.len, Codec.OP_MMIO);
    Codec.Mr0Decodes(FromNat(st.direction), st.addrSpace, FromNat(st.slot), st.len, Codec.OP_MMIO);
  }

  lemma RegisterKeeps(io: Io, t: Tid, st: Ioreq, msg: Msg)
    requires IoInv(io) && st.slot < SLOTS && io.acks[st.slot].None? && io.s.Task(t).Resting? && CanLend(io.s)
    requires Header(msg.mr0, st) && msg.mr1 == st.addr && msg.mr2 == st.data && msg.mr3 == Zero()
    ensures IoInv(Registered(io, t, st, msg))
  {
    SysStep(io.s, t, Request(msg));
    RequestEffect(io.s, t, msg);
    forall x | 0 <= x < SIZE ensures io.s.loc[x] != Held(t) { assert Placed(io.s, x); }
    BeginBooks(io, Registered(io, t, st, msg), t, st, msg, Lent(io.s.lent));
  }

  // ------------------------------------- preservation: rings, device, receive

  /** What an action of a party does to the buffers. */
  ghost predicate PartyMoves(s: Sys, s': Sys, t: Tid, a: Act) {
    && |s.msgs| == |s.loc| == |s'.msgs| == |s'.loc| == SIZE
    && s'.lent <= s.lent
    && (forall x | 0 <= x < SIZE && !(a.Reply? && AtDevice(s, t) && s.Task(t).id == x) ::
          s'.msgs[x] == s.msgs[x] && (Replying(s', x) ==> Replying(s, x)))
    && (a.Reply? && AtDevice(s, t) ==> s'.msgs[s.Task(t).id] == s.msgs[s.Task(t).id].(mr2 := a.data))
    && (forall u :: FromOk(s', u))
  }

  lemma EnterEffect(s: Sys, t: Tid, c: Chan, task: Task, op: Op)
    requires LinkOk(s.L(c)) && |s.msgs| == |s.loc| == SIZE
    ensures var s' := Enter(s, t, c, task, op);
            s'.lent == s.lent && s'.msgs == s.msgs && s'.loc == s.loc && s'.tasks == s.tasks[t := task]
  {
  }

  lemma ReceiveMoves(s: Sys, t: Tid, c: Chan)
    requires SysInv(s) && (forall u :: FromOk(s, u))
    ensures PartyMoves(s, SysNext(s, t, Receive(c)), t, Receive(c))
  {
    if s.Task(t).Resting? {
      assert LinkOk(s.L(c));
      EnterEffect(s, t, c, Receiving(c), Dequeue);
      var s' := SysNext(s, t, Receive(c));
      forall u ensures FromOk(s', u) { assert FromOk(s, u); }
    }
  }

  lemma ForwardMoves(s: Sys, t: Tid)
    requires SysInv(s) && (forall u :: FromOk(s, u))
    ensures PartyMoves(s, SysNext(s, t, Forward), t, Forward)
  {
    if AtDevice(s, t) {
      assert LinkOk(s.L(Fwd));
      EnterEffect(s, t, Fwd, Sending(Fwd, s.Task(t).id, Some(s.Task(t).source)), Enqueue(Id(s.Task(t).id)));
      var s' := SysNext(s, t, Forward);
      forall u ensures FromOk(s', u) { assert FromOk(s, u); }
    }
  }

  lemma ReplyMoves(s: Sys, t: Tid, data: Word)
    requires SysInv(s) && (forall u :: FromOk(s, u))
    ensures PartyMoves(s, SysNext(s, t, Reply(data)), t, Reply(data))
  {
    if AtDevice(s, t) {
      var x0 := s.Task(t).id;
      var s1 := s.(msgs := s.msgs[x0 := s.msgs[x0].(mr2 := data)]);
      assert LinkOk(s.L(Resp));
      EnterEffect(s1, t, Resp, Sending(Resp, x0, Some(s.Task(t).source)), Enqueue(Id(x0)));
      var s' := SysNext(s, t, Reply(data));
      forall u ensures FromOk(s', u) { assert FromOk(s, u); }
      forall x | 0 <= x < SIZE && x != x0 && Replying(s', x) ensures Replying(s, x) {
        assert Placed(s, x) && CarryOk(s, t, x0);
      }
    }
  }

  lemma HandMoves(s: Sys, t: Tid, u: Tid)
    requires SysInv(s) && (forall v :: FromOk(s, v))
    ensures PartyMoves(s, SysNext(s, t, Hand(u)), t, Hand(u))
  {
    if CanHand(s, t, u) {
      var s' := SysNext(s, t, Hand(u));
      forall v ensures FromOk(s', v) { assert FromOk(s, v); }
      assert CarryOk(s, t, s.Task(t).id);
      forall x | 0 <= x < SIZE && Replying(s', x) ensures Replying(s, x) { assert Placed(s, x); }
    }
  }

  /** What a thread has in hand after a step inside a ring. */
  lemma GoOwn(s: Sys, t: Tid)
    requires SysInv(s) && (s.Task(t).Sending? || s.Task(t).Receiving?)
    ensures var s' := DoGo(s, t);
            && (s'.Task(t) == s.Task(t) || s'.Task(t).Resting? || s'.Task(t).Holding?)
            && (s'.Task(t).Holding? ==>
                  || (s.Task(t).Sending? && s.Task(t).from == Some(s'.Task(t).source))
                  || (s.Task(t) == Receiving(s'.Task(t).source)
                      && s'.Task(t).id < SIZE && s.loc[s'.Task(t).id].Queued? && s.loc[s'.Task(t).id].c == s.Task(t).c))
  {
    var c := s.Task(t).c;
    assert LinkOk(s.L(c)) && Tied(s, c, t);
    var w := s.L(c).w;
    RingOutcome(w, t);
    if s.Task(t).Receiving? && Commits(w.q, t, Cons) {
      LiveTaken(w, t, Dequeue, w.q.threads[t].pos);
      assert LiveOk(s, c, w.q.threads[t].pos);
    }
  }

  lemma GoMoves(s: Sys, t: Tid)
    requires SysInv(s) && (forall u :: FromOk(s, u))
    ensures PartyMoves(s, SysNext(s, t, Go), t, Go)
  {
    if s.Task(t).Sending? || s.Task(t).Receiving? {
      var s' := DoGo(s, t);
      GoOwn(s, t);
      GoFrame(s, t);
      GoSizes(s, t);
      GoInv(s, t);
      forall u ensures FromOk(s', u) { assert FromOk(s, u); }
      forall x | 0 <= x < SIZE && Replying(s', x) ensures Replying(s, x) {
        GoLoc(s, t, x);
        GoReplying(s, s', t, x);
      }
    }
  }

  lemma GoLoc(s: Sys, t: Tid, x: nat)
    requires SysInv(s) && (s.Task(t).Sending? || s.Task(t).Receiving?) && x < SIZE
    ensures |DoGo(s, t).loc| == SIZE
    ensures var place := DoGo(s, t).loc[x];
            || place == s.loc[x] || place == Held(t) || place.Free?
            || (place.Queued? && s.Task(t).Sending? && place.c == s.Task(t).c && s.loc[x] == Held(t))
  {
    var c := s.Task(t).c;
    assert LinkOk(s.L(c)) && Tied(s, c, t);
    if s.Task(t).Sending? { assert CarryOk(s, t, s.Task(t).id); }
  }

  /** A message gets onto its way back only by a reply. */
  lemma GoReplying(s: Sys, s': Sys, t: Tid, x: nat)
    requires |s.msgs| == |s.loc| == |s'.msgs| == |s'.loc| == SIZE && AllPlaced(s) && AllPlaced(s') && FromOk(s, t)
             && x < SIZE
    requires forall u | u != t :: s'.Task(u) == s.Task(u)
    requires s.Task(t).Sending? || s.Task(t).Receiving?
    requires s'.Task(t) == s.Task(t) || s'.Task(t).Resting? || s'.Task(t).Holding?
    requires s'.Task(t).Holding? ==>
               || (s.Task(t).Sending? && s.Task(t).from == Some(s'.Task(t).source))
               || (s.Task(t) == Receiving(s'.Task(t).source)
                   && s'.Task(t).id < SIZE && s.loc[s'.Task(t).id].Queued? && s.loc[s'.Task(t).id].c == s.Task(t).c)
    requires s'.loc[x] == s.loc[x] || s'.loc[x] == Held(t) || s'.loc[x].Free?
             || (s'.loc[x].Queued? && s.Task(t).Sending? && s'.loc[x].c == s.Task(t).c && s.loc[x] == Held(t))
    requires s'.Task(t) == s.Task(t) && s'.loc[x] == Held(t) ==> s.loc[x] == Held(t)
    requires Replying(s', x)
    ensures Replying(s, x)
  {
    assert Placed(s, x) && Placed(s', x);
  }

  lemma PartyKeeps(io: Io, t: Tid, a: Act)
    requires IoInv(io) && !a.Request? && !a.Reclaim?
    ensures IoInv(DoParty(io, t, a))
  {
    forall u ensures FromOk(io.s, u) {}
    match a {
      case Receive(c) => ReceiveMoves(io.s, t, c);
      case Forward => ForwardMoves(io.s, t);
      case Reply(data) => ReplyMoves(io.s, t, data);
      case Hand(u) => HandMoves(io.s, t, u);
      case Go => GoMoves(io.s, t);
    }
    SysStep(io.s, t, a);
    if AtDevice(io.s, t) {
      assert CarryOk(io.s, t, io.s.Task(t).id);
      assert Placed(io.s, io.s.Task(t).id);
    }
    PartyBooks(io, DoParty(io, t, a), t, a);
  }

  lemma PartyBooks(io: Io, io': Io, t: Tid, a: Act)
    requires BookSized(io) && Books(io) && PartyMoves(io.s, io'.s, t, a)
    requires a.Reply? && AtDevice(io.s, t) ==> io.s.Task(t).id in io.s.lent
    requires io'.acks == io.acks && io'.starts == io.starts && io'.ticket == io.ticket && io'.current == io.current
    requires io'.buffer == io.buffer && io'.calls == io.calls && io'.served == io.served
    requires io'.answers
             == if a.Reply? && AtDevice(io.s, t) then io.answers[io.ticket[io.s.Task(t).id] := a.data] else io.answers
    requires io'.refused == io.refused + GaveBack(io, io'.s)
    ensures Books(io')
  {
    if a.Reply? && AtDevice(io.s, t) { assert LentOk(io, io.s.Task(t).id); }
    forall n | n in GaveBack(io, io'.s)
      ensures n < |io.starts| && (forall k | 0 <= k < |io.calls| :: io.calls[k].ticket != n)
    {
      var x :| x in io.s.lent && x < SIZE && x !in io'.s.lent && io.ticket[x] == n;
      assert LentOk(io, x);
    }
    forall x | 0 <= x < SIZE ensures LentOk(io', x) { assert LentOk(io, x); }
    forall x | 0 <= x < SIZE ensures AnswerOk(io', x) { assert AnswerOk(io, x); }
    forall n | 0 <= n < |io.starts| ensures Pending(io, n) ==> Pending(io', n) || n in io'.refused {
      if Pending(io, n) && io.buffer[n] !in io'.s.lent { assert io.ticket[io.buffer[n]] in GaveBack(io, io'.s); }
    }
    forall k | 0 <= k < SLOTS ensures SlotOk(io', k) { assert SlotOk(io, k); }
    forall n | 0 <= n < |io.starts| ensures TicketOk(io', n) { assert TicketOk(io, n); }
    forall k | 0 <= k < |io'.calls| ensures CallOk(io', k) { assert CallOk(io, k); }
  }

  // ----------------------------------------------- preservation: ioreq_finish

  /** Every response that reaches the driver names a slot below 32 that is busy
      with the very request whose buffer it is. */
  lemma FinishFindsSlot(io: Io, t: Tid)
    requires IoInv(io) && AtDriver(io.s, t)
    ensures var x := io.s.Task(t).id; var mr0 := io.s.msgs[x].mr0;
            && x in io.s.lent && io.ticket[x] < |io.starts|
            && Val(Codec.Get(mr0, Codec.OP)) == 0
            && Val(Codec.Get(mr0, Codec.SLOT)) == io.starts[io.ticket[x]].slot < 32
            && io.acks[io.starts[io.ticket[x]].slot]
               == Some(Ack(io.starts[io.ticket[x]].Callback(), io.starts[io.ticket[x]].cookie))
            && io.ticket[x] in io.answers && io.s.msgs[x].mr2 == io.answers[io.ticket[x]]
  {
    var x := io.s.Task(t).id;
    assert CarryOk(io.s, t, x);
    assert Placed(io.s, x);
    assert LentOk(io, x) && AnswerOk(io, x);
  }

  /** What the device sees in a message it holds is the request that was
      started: its slot, direction, address space, length and address, and its
      data unless the device has already put an answer in its place. */
  lemma DeviceSeesRequest(io: Io, t: Tid)
    requires IoInv(io) && AtDevice(io.s, t)
    ensures var x := io.s.Task(t).id; var m := io.s.msgs[x]; var n := io.ticket[x];
            && n < |io.starts| && var st := io.starts[n];
            && st.slot < SLOTS && io.acks[st.slot].Some? && io.current[st.slot] == n
            && Val(Codec.Get(m.mr0, Codec.OP)) == 0
            && Val(Codec.Get(m.mr0, Codec.SLOT)) == st.slot
            && Val(Codec.Get(m.mr0, Codec.DIRECTION)) == Val(FromNat(st.direction)) % 2
            && Val(Codec.Get(m.mr0, Codec.ADDR_SPACE)) == Val(st.addrSpace) % 256
            && Val(Codec.Get(m.mr0, Codec.LENGTH)) == Val(st.len) % 16
            && m.mr1 == st.addr && m.mr3 == Zero()
            && m.mr2 == if n in io.answers then io.answers[n] else st.data
  {
    var x := io.s.Task(t).id;
    assert CarryOk(io.s, t, x);
    assert Placed(io.s, x);
    assert LentOk(io, x) && AnswerOk(io, x);
  }

  /** Device and driver agree on the direction: the callback in the slot is the
      read callback exactly if the direction field of the message in flight, be it
      the request or its response, decodes to 0. */
  lemma DirectionAgrees(io: Io, x: nat)
    requires IoInv(io) && x in io.s.lent
    ensures x < |io.ticket| && x < |io.s.msgs| && io.ticket[x] < |io.starts|
    ensures var st := io.starts[io.ticket[x]]; var d := Val(Codec.Get(io.s.msgs[x].mr0, Codec.DIRECTION));
            st.direction < 2 ==>
              && (d == 0 <==> st.direction == 0) && st.slot < |io.acks|
              && io.acks[st.slot] == Some(Ack(if d == 0 then st.readFn else st.writeFn, st.cookie))
  {
    assert LentOk(io, x);
    var st := io.starts[io.ticket[x]];
    if st.direction < 2 { Codec.SmallVal(st.direction); }
  }

  lemma FinishKeeps(io: Io, t: Tid)
    requires IoInv(io) && AtDriver(io.s, t)
    ensures IoInv(DoFinish(io, t))
  {
    FinishFindsSlot(io, t);
    SysStep(io.s, t, Reclaim);
    var x := io.s.Task(t).id;
    assert CarryOk(io.s, t, x);
    FinishBooks(io, DoFinish(io, t), t, x, io.starts[io.ticket[x]].slot);
  }

  lemma FinishBooks(io: Io, io': Io, t: Tid, x0: nat, slot: nat)
    requires BookSized(io) && Books(io) && x0 in io.s.lent && x0 < SIZE && io.s.loc[x0] == Held(t)
    requires io.ticket[x0] < |io.starts| && slot == io.starts[io.ticket[x0]].slot < SLOTS
    requires io.acks[slot] == Some(Ack(io.starts[io.ticket[x0]].Callback(), io.starts[io.ticket[x0]].cookie))
    requires io.ticket[x0] in io.answers && io.s.msgs[x0].mr2 == io.answers[io.ticket[x0]]
    requires io'.s == io.s.(lent := io.s.lent - {x0}, loc := io.s.loc[x0 := Free], tasks := io.s.tasks[t := Resting])
    requires io' == io.(s := io'.s, acks := io.acks[slot := None], served := io.served[io.ticket[x0] := |io.calls|],
                        calls := io.calls + [Call(io.ticket[x0], io.acks[slot].value.callback,
                                                  io.acks[slot].value.cookie, io.s.msgs[x0].mr2)])
    ensures Books(io')
  {
    assert LentOk(io, x0);
    forall x | 0 <= x < SIZE ensures LentOk(io', x) {
      assert LentOk(io, x);
      if x in io'.s.lent { OwnSlot(io, x, x0); }
    }
    forall x | 0 <= x < SIZE ensures AnswerOk(io', x) { assert AnswerOk(io, x); }
    forall k | 0 <= k < SLOTS ensures SlotOk(io', k) { assert SlotOk(io, k); }
    forall n | 0 <= n < |io.starts| ensures TicketOk(io', n) { assert TicketOk(io, n); }
    forall u ensures FromOk(io'.s, u) { assert FromOk(io.s, u); }
    forall k | 0 <= k < |io'.calls| ensures CallOk(io', k) {
      if k < |io.calls| { assert CallOk(io, k); }
    }
  }

  // ------------------------------------------------------------- end to end

  lemma IoStep(io: Io, t: Tid, a: IoAct)
    requires IoInv(io)
    ensures IoInv(IoNext(io, t, a))
  {
    match a
    case Begin(st) => BeginKeeps(io, t, st);
    case Party(p) => if !p.Request? && !p.Reclaim? { PartyKeeps(io, t, p); }
    case Finish => if AtDriver(io.s, t) { FinishKeeps(io, t); }
  }

  function IoInit(): Io {
    Io(Init3(), seq(SLOTS, _ => None), [], [], seq(SLOTS, _ => 0), seq(SLOTS, _ => 0), map[], [], map[], {})
  }

  lemma IoInitInv()
    ensures IoInv(IoInit())
  {
    InitInv();
    var io := IoInit();
    forall x | 0 <= x < SIZE ensures LentOk(io, x) && AnswerOk(io, x) {}
    forall k | 0 <= k < SLOTS ensures SlotOk(io, k) {}
    forall t ensures FromOk(io.s, t) {}
  }

  ghost function IoRun(io: Io, acts: seq<(Tid, IoAct)>): (r: Io)
    requires IoInv(io)
    ensures IoInv(r)
    decreases |acts|
  {
    if acts == [] then io
    else
      IoStep(io, acts[0].0, acts[0].1);
      IoRun(IoNext(io, acts[0].0, acts[0].1), acts[1..])
  }

  /** End to end: along every interleaving of requesters, ring steps, kernel and
      user device and driver, with replies in any order, each callback made
      belongs to one request that was started, is that request's own read or
      write callback with its own cookie, carries the data the device gave for
      that very request, and no request is called back twice. */
  lemma EndToEnd(acts: seq<(Tid, IoAct)>)
    ensures IoInv(IoInit())
    ensures var io := IoRun(IoInit(), acts);
            && (forall k | 0 <= k < |io.calls| ::
                  && io.calls[k].ticket < |io.starts|
                  && io.calls[k].callback == (if io.starts[io.calls[k].ticket].direction == 0
                                              then io.starts[io.calls[k].ticket].readFn
                                              else io.starts[io.calls[k].ticket].writeFn)
                  && io.calls[k].cookie == io.starts[io.calls[k].ticket].cookie
                  && io.calls[k].ticket in io.answers
                  && io.calls[k].data == io.answers[io.calls[k].ticket])
            && (forall j, k | 0 <= j < k < |io.calls| :: io.calls[j].ticket != io.calls[k].ticket)
  {
    IoInitInv();
    var io := IoRun(IoInit(), acts);
    forall k | 0 <= k < |io.calls|
      ensures && io.calls[k].ticket < |io.starts|
              && io.calls[k].callback == (if io.starts[io.calls[k].ticket].direction == 0
                                          then io.starts[io.calls[k].ticket].readFn
                                          else io.starts[io.calls[k].ticket].writeFn)
              && io.calls[k].cookie == io.starts[io.calls[k].ticket].cookie
              && io.calls[k].ticket in io.answers
              && io.calls[k].data == io.answers[io.calls[k].ticket]
    {
      assert CallOk(io, k);
    }
  }

  ghost predicate CalledBack(io: Io, n: nat) {
    exists k :: 0 <= k < |io.calls| && io.calls[k].ticket == n
  }

  /** No request is lost or duplicated: each one started is, at any time, in
      exactly one of three states - waiting in a lent buffer, called back, or
      refused by a full request ring. */
  lemma RequestsConserved(io: Io, n: nat)
    requires IoInv(io) && n < |io.starts|
    ensures Pending(io, n) || CalledBack(io, n) || n in io.refused
    ensures !(Pending(io, n) && CalledBack(io, n))
    ensures !(Pending(io, n) && n in io.refused)
    ensures !(CalledBack(io, n) && n in io.refused)
  {
    assert TicketOk(io, n);
    if Pending(io, n) { assert LentOk(io, io.buffer[n]); }
    if CalledBack(io, n) {
      var k :| 0 <= k < |io.calls| && io.calls[k].ticket == n;
      assert CallOk(io, k);
    }
  }

  /** ioreq_start on a free slot always gets its buffer and its ticket. */
  lemma BeginStarts(io: Io, t: Tid, st: Ioreq)
    requires IoInv(io) && st.slot < SLOTS && io.acks[st.slot].None? && io.s.Task(t).Resting?
    ensures IoNext(io, t, Begin(st)).starts == io.starts + [st]
    ensures IoInv(IoNext(io, t, Begin(st))) && Pending(IoNext(io, t, Begin(st)), |io.starts|)
  {
    LendNeverFails(io, st.slot);
    IoStep(io, t, Begin(st));
    RequestEffect(io.s, t, st.Message());
  }

  /** Every response the driver receives is answered with its callback. */
  lemma FinishCallsBack(io: Io, t: Tid)
    requires IoInv(io) && AtDriver(io.s, t)
    ensures var n := io.ticket[io.s.Task(t).id];
            && n < |io.starts| && n in io.answers && var st := io.starts[n];
            && IoNext(io, t, Finish).calls
               == io.calls + [Call(n, if st.direction == 0 then st.readFn else st.writeFn, st.cookie, io.answers[n])]
            && io.s.Task(t).id !in IoNext(io, t, Finish).s.lent
  {
    FinishFindsSlot(io, t);
  }

  /** Busy slots and lent buffers: every lent buffer belongs to exactly one busy
      slot, and a busy slot has a lent buffer unless its request was refused;
      with a single consumer of the request ring none ever is. */
  lemma BusySlotsAreLentBuffers(io: Io)
    requires IoInv(io)
    ensures forall x, y | x in io.s.lent && y in io.s.lent :: x < SIZE && y < SIZE
              && SlotOf(io, x) < SLOTS && io.acks[SlotOf(io, x)].Some? && (SlotOf(io, x) == SlotOf(io, y) ==> x == y)
    ensures forall k | 0 <= k < SLOTS && io.acks[k].Some? && io.current[k] !in io.refused ::
              exists x :: x in io.s.lent && x < SIZE && SlotOf(io, x) == k
  {
    forall x, y | x in io.s.lent && y in io.s.lent
      ensures x < SIZE && y < SIZE
      ensures SlotOf(io, x) < SLOTS && io.acks[SlotOf(io, x)].Some? && (SlotOf(io, x) == SlotOf(io, y) ==> x == y)
    {
      OwnSlot(io, x, y);
    }
    forall k | 0 <= k < SLOTS && io.acks[k].Some? && io.current[k] !in io.refused
      ensures exists x :: x in io.s.lent && x < SIZE && SlotOf(io, x) == k
    {
      assert SlotOk(io, k);
      assert SlotOf(io, io.buffer[io.current[k]]) == k;
    }
  }

  /** Slot k still holds the callback of a request that was refused. */
  ghost predicate Stuck(io: Io, k: nat) {
    k < SLOTS && |io.acks| == |io.current| == SLOTS && io.acks[k].Some? && io.current[k] in io.refused
  }

  /** ioreq_start registers the callback before it makes the request and does not
      take it back when that is refused: no later step frees the slot. */
  lemma StuckStays(io: Io, t: Tid, a: IoAct, k: nat)
    requires IoInv(io) && Stuck(io, k)
    ensures Stuck(IoNext(io, t, a), k)
    ensures IoNext(io, t, a).acks[k] == io.acks[k]
  {
    if a.Finish? && AtDriver(io.s, t) {
      FinishFindsSlot(io, t);
      assert LentOk(io, io.s.Task(t).id);
    }
  }

  /** Over whole runs. */
  lemma {:induction false} StuckForEver(io: Io, acts: seq<(Tid, IoAct)>, k: nat)
    requires IoInv(io) && Stuck(io, k)
    ensures Stuck(IoRun(io, acts), k) && IoRun(io, acts).acks[k] == io.acks[k]
    decreases |acts|
  {
    if acts != [] {
      IoStep(io, acts[0].0, acts[0].1);
      StuckStays(io, acts[0].0, acts[0].1, k);
      StuckForEver(IoNext(io, acts[0].0, acts[0].1), acts[1..], k);
    }
  }

  lemma NoRequestRefused(io: Io, t: Tid, a: IoAct)
    requires IoInv(io) && OneTaker(io.s.req.w)
    ensures IoNext(io, t, a).refused == io.refused
  {
    match a
    case Begin(st) =>
    case Finish =>
    case Party(p) =>
      if !p.Request? && !p.Reclaim? {
        NothingGivenBack(io.s, t, p);
        assert GaveBack(io, SysNext(io.s, t, p)) == {};
      }
  }

  lemma NothingGivenBack(s: Sys, t: Tid, a: Act)
    requires SysInv(s) && OneTaker(s.req.w) && FromOk(s, t) && !a.Request? && !a.Reclaim?
    ensures SysNext(s, t, a).lent == s.lent
  {
    if a.Go? && (s.Task(t).Sending? || s.Task(t).Receiving?) {
      var c := s.Task(t).c;
      assert LinkOk(s.L(c)) && Tied(s, c, t);
      RingOutcome(s.L(c).w, t);
      if s.Task(t).Sending? { NeverFull(s, t); }
    }
  }

  lemma StepTakers(w: World, t: Tid, op: Op)
    requires Inv(w)
    ensures w.takers <= Step(w, t, op).takers
  {
  }

  lemma EnterTakers(s: Sys, t: Tid, c: Chan, task: Task, op: Op)
    requires LinkOk(s.L(c))
    ensures s.req.w.takers <= Enter(s, t, c, task, op).req.w.takers
  {
    StepTakers(s.L(c).w, t, op);
  }

  lemma GoTakers(s: Sys, t: Tid)
    requires Shape(s) && (s.Task(t).Sending? || s.Task(t).Receiving?)
    ensures s.req.w.takers <= DoGo(s, t).req.w.takers
  {
    assert LinkOk(s.L(s.Task(t).c));
    StepTakers(s.L(s.Task(t).c).w, t, Dequeue);
  }

  /** Claims of the request ring are only ever added. */
  lemma SysTakersGrow(s: Sys, t: Tid, a: Act)
    requires SysInv(s)
    ensures s.req.w.takers <= SysNext(s, t, a).req.w.takers
  {
    match a
    case Request(msg) =>
      if s.Task(t).Resting? && CanLend(s) {
        assert LinkOk(s.L(Req));
        var x := Lent(s.lent);
        EnterTakers(Lend(s, t, x, msg), t, Req, Sending(Req, x, None), Enqueue(Id(x)));
      }
    case Receive(c) =>
      if s.Task(t).Resting? { assert LinkOk(s.L(c)); EnterTakers(s, t, c, Receiving(c), Dequeue); }
    case Forward =>
    case Reply(data) =>
    case Reclaim =>
    case Hand(u) =>
    case Go =>
      if s.Task(t).Sending? || s.Task(t).Receiving? { GoTakers(s, t); }
  }

  lemma TakersGrow(io: Io, t: Tid, a: IoAct)
    requires IoInv(io)
    ensures io.s.req.w.takers <= IoNext(io, t, a).s.req.w.takers
  {
    match a
    case Begin(st) => SysTakersGrow(io.s, t, Request(st.Message()));
    case Party(p) => SysTakersGrow(io.s, t, p);
    case Finish => SysTakersGrow(io.s, t, Reclaim);
  }

  lemma {:induction false} RunTakersGrow(io: Io, acts: seq<(Tid, IoAct)>)
    requires IoInv(io)
    ensures io.s.req.w.takers <= IoRun(io, acts).s.req.w.takers
    decreases |acts|
  {
    if acts != [] {
      IoStep(io, acts[0].0, acts[0].1);
      TakersGrow(io, acts[0].0, acts[0].1);
      RunTakersGrow(IoNext(io, acts[0].0, acts[0].1), acts[1..]);
    }
  }

  /** Over a whole run in which the request ring had a single consumer, no
      request was ever refused. */
  lemma {:induction false} NeverRefused(io: Io, acts: seq<(Tid, IoAct)>)
    requires IoInv(io) && OneTaker(IoRun(io, acts).s.req.w)
    ensures IoRun(io, acts).refused == io.refused
    decreases |acts|
  {
    if acts != [] {
      RunTakersGrow(io, acts);
      assert OneTaker(io.s.req.w) by { PrefixOneTaker(io.s.req.w, IoRun(io, acts).s.req.w); }
      IoStep(io, acts[0].0, acts[0].1);
      NoRequestRefused(io, acts[0].0, acts[0].1);
      NeverRefused(IoNext(io, acts[0].0, acts[0].1), acts[1..]);
    }
  }

  lemma PrefixOneTaker(w: World, w': World)
    requires OneTaker(w') && w.takers <= w'.takers
    ensures OneTaker(w)
  {
    forall p, r | 0 <= p < |w.takers| && 0 <= r < |w.takers| ensures w.takers[p] == w.takers[r] {
      assert w'.takers[p] == w'.takers[r];
    }
  }

  /** Every run with the slot table is a run of the ownership protocol. */
  lemma {:induction false} IoIsSys(io: Io, acts: seq<(Tid, IoAct)>) returns (below: Actions)
    requires IoInv(io)
    ensures SysRun(io.s, below) == IoRun(io, acts).s
    decreases |acts|
  {
    if acts == [] { return []; }
    var t, a := acts[0].0, acts[0].1;
    IoStep(io, t, a);
    below := IoIsSys(IoNext(io, t, a), acts[1..]);
    var own := if a.Begin? then Request(a.st.Message()) else if a.Party? then a.a else Reclaim;
    if IoNext(io, t, a).s != io.s {
      assert SysNext(io.s, t, own) == IoNext(io, t, a).s;
      assert ([(t, own)] + below)[1..] == below;
      below := [(t, own)] + below;
    }
  }
}
