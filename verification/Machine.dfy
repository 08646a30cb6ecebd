/** The system as the machine has it: three rings of uint32_t markers, the lend
    bitmap, the messages and the slot table, without any history. As long as
    snapshots stay young it moves in step with the model over unbounded
    counters, so the theorems about the latter hold of it. */
module Machine {
  import opened Words
  import opened Ring
  import opened RingSafety
  import opened RingWrap
  import opened Ownership
  import Mmio
  import Codec
  import Dispatch

  datatype Machine = Machine(req: Queue, fwd: Queue, resp: Queue, lent: set<nat>, msgs: seq<Msg>, tasks: map<Tid, Task>)
  {
    function Q(c: Chan): Queue { match c case Req => req case Fwd => fwd case Resp => resp }

    function SetQ(c: Chan, q: Queue): Machine {
      match c case Req => this.(req := q) case Fwd => this.(fwd := q) case Resp => this.(resp := q)
    }

    function Task(t: Tid): Task { if t in tasks then tasks[t] else Resting }
  }

  /** What the machine has of a state of the model. */
  function Image(s: Sys): Machine {
    Machine(Wrap(s.req.w.q), Wrap(s.fwd.w.q), Wrap(s.resp.w.q), s.lent, s.msgs, s.tasks)
  }

  ghost predicate Sound(m: Machine) {
    |m.msgs| == SIZE && forall c {:trigger m.Q(c)} :: WellFormed(m.Q(c))
  }

  // --------------------------------------------------------------- the steps

  function CallIn(m: Machine, t: Tid, c: Chan, task: Task, op: Op): Machine
    requires WellFormed(m.Q(c))
  {
    m.SetQ(c, Next(Wrapped, m.Q(c), t, op)).(tasks := m.tasks[t := task])
  }

  ghost function MachineRequest(m: Machine, t: Tid, msg: Msg): Machine
    requires Sound(m) && m.Task(t).Resting? && exists x: nat :: LeastFree(m.lent, x)
  {
    var x := Lent(m.lent);
    assert WellFormed(m.Q(Req));
    CallIn(m.(lent := m.lent + {x}, msgs := m.msgs[x := msg]), t, Req, Sending(Req, x, None), Enqueue(Id(x)))
  }

  /** One step of the ring operation thread t is in. */
  function MachineGo(m: Machine, t: Tid): Machine
    requires (m.Task(t).Sending? || m.Task(t).Receiving?) && WellFormed(m.Q(m.Task(t).c))
  {
    MachineGone(m, t, Next(Wrapped, m.Q(m.Task(t).c), t, Dequeue))
  }

  /** The same, q' being the ring after the step: what the caller does when its
      operation has returned. */
  function MachineGone(m: Machine, t: Tid, q': Queue): Machine
    requires m.Task(t).Sending? || m.Task(t).Receiving?
  {
    var task := m.Task(t);
    if t in q'.threads && q'.threads[t].Done? then
      var r := q'.threads[t].result;
      m.SetQ(task.c, q').(
      tasks := m.tasks[t := Returned(task, r)],
      lent := if r.Failed? && task.Sending? && task.id < SIZE && task.from.None? then m.lent - {task.id} else m.lent)
    else
      m.SetQ(task.c, q')
  }

  predicate HasRequest(m: Machine, t: Tid) { m.Task(t).Holding? && m.Task(t).source != Resp && m.Task(t).id < SIZE }
  predicate HasResponse(m: Machine, t: Tid) { m.Task(t).Holding? && m.Task(t).source == Resp && m.Task(t).id < SIZE }

  ghost function MachineNext(m: Machine, t: Tid, a: Act): Machine
    requires Sound(m)
  {
    var task := m.Task(t);
    match a
    case Request(msg) =>
      if task.Resting? && exists x: nat :: LeastFree(m.lent, x) then MachineRequest(m, t, msg) else m
    case Receive(c) =>
      if task.Resting? then CallIn(m, t, c, Receiving(c), Dequeue) else m
    case Forward =>
      if HasRequest(m, t) then CallIn(m, t, Fwd, Sending(Fwd, task.id, Some(task.source)), Enqueue(Id(task.id))) else m
    case Reply(data) =>
      if HasRequest(m, t) then
        assert WellFormed(m.Q(Resp));
        CallIn(m.(msgs := m.msgs[task.id := m.msgs[task.id].(mr2 := data)]), t, Resp,
             Sending(Resp, task.id, Some(task.source)), Enqueue(Id(task.id)))
      else m
    case Reclaim =>
      if HasResponse(m, t) then m.(lent := m.lent - {task.id}, tasks := m.tasks[t := Resting]) else m
    case Hand(u) =>
      if task.Holding? && task.id < SIZE && u != t && m.Task(u).Resting? then
        m.(tasks := m.tasks[t := Resting][u := task])
      else m
    case Go =>
      if task.Sending? || task.Receiving? then MachineGo(m, t) else m
  }

  // ------------------------------------------------------------- refinement

  /** No snapshot of thread t is too old. */
  ghost predicate YoungIn(s: Sys, t: Tid) {
    forall c {:trigger s.L(c)} :: Young(s.L(c).w.q, t)
  }

  lemma ImageSound(s: Sys)
    requires Shape(s)
    ensures Sound(Image(s)) && forall c :: Image(s).Q(c) == Wrap(s.L(c).w.q)
  {
    forall c ensures WellFormed(Image(s).Q(c)) {
      assert LinkOk(s.L(c));
      WrapWellFormed(s.L(c).w.q);
    }
  }

  lemma CallAgrees(s: Sys, t: Tid, c: Chan, task: Task, op: Op)
    requires LinkOk(s.L(c)) && Young(s.L(c).w.q, t)
    ensures WellFormed(Image(s).Q(c))
    ensures CallIn(Image(s), t, c, task, op) == Image(Enter(s, t, c, task, op))
  {
    StepAgrees(s.L(c).w, t, op);
  }

  lemma GoneAgrees(s: Sys, t: Tid, w': World)
    requires (s.Task(t).Sending? || s.Task(t).Receiving?) && |s.loc| == |s.msgs| == SIZE
    ensures MachineGone(Image(s), t, Wrap(w'.q)) == Image(GoneTo(s, t, w'))
  {
  }

  lemma GoAgrees(s: Sys, t: Tid)
    requires Shape(s) && (s.Task(t).Sending? || s.Task(t).Receiving?) && Young(s.L(s.Task(t).c).w.q, t)
    ensures WellFormed(Image(s).Q(s.Task(t).c))
    ensures MachineGo(Image(s), t) == Image(DoGo(s, t))
  {
    assert LinkOk(s.L(s.Task(t).c));
    StepAgrees(s.L(s.Task(t).c).w, t, Dequeue);
    GoneAgrees(s, t, Step(s.L(s.Task(t).c).w, t, Dequeue));
  }

  lemma RequestAgrees(s: Sys, t: Tid, msg: Msg)
    requires Shape(s) && s.Task(t).Resting? && (exists x: nat :: LeastFree(s.lent, x)) && Young(s.L(Req).w.q, t)
    ensures Sound(Image(s)) && MachineRequest(Image(s), t, msg) == Image(DoRequest(s, t, msg))
  {
    ImageSound(s);
    assert LinkOk(s.L(Req));
    var x := Lent(s.lent);
    CallAgrees(Lend(s, t, x, msg), t, Req, Sending(Req, x, None), Enqueue(Id(x)));
  }

  lemma ReceiveAgrees(s: Sys, t: Tid, c: Chan)
    requires Shape(s) && s.Task(t).Resting? && Young(s.L(c).w.q, t)
    ensures Sound(Image(s)) && MachineNext(Image(s), t, Receive(c)) == Image(SysNext(s, t, Receive(c)))
  {
    ImageSound(s);
    assert LinkOk(s.L(c));
    CallAgrees(s, t, c, Receiving(c), Dequeue);
  }

  lemma ForwardAgrees(s: Sys, t: Tid)
    requires Shape(s) && AtDevice(s, t) && Young(s.L(Fwd).w.q, t)
    ensures Sound(Image(s)) && MachineNext(Image(s), t, Forward) == Image(SysNext(s, t, Forward))
  {
    ImageSound(s);
    assert LinkOk(s.L(Fwd));
    CallAgrees(s, t, Fwd, Sending(Fwd, s.Task(t).id, Some(s.Task(t).source)), Enqueue(Id(s.Task(t).id)));
  }

  lemma ReplyAgrees(s: Sys, t: Tid, data: Word)
    requires Shape(s) && AtDevice(s, t) && Young(s.L(Resp).w.q, t)
    ensures Sound(Image(s)) && MachineNext(Image(s), t, Reply(data)) == Image(SysNext(s, t, Reply(data)))
  {
    ImageSound(s);
    var x := s.Task(t).id;
    assert LinkOk(s.L(Resp));
    CallAgrees(s.(msgs := s.msgs[x := s.msgs[x].(mr2 := data)]), t, Resp,
               Sending(Resp, x, Some(s.Task(t).source)), Enqueue(Id(x)));
  }

  /** The commuting square for the whole system. */
  lemma MachineAgrees(s: Sys, t: Tid, a: Act)
    requires Shape(s) && YoungIn(s, t)
    ensures Sound(Image(s)) && MachineNext(Image(s), t, a) == Image(SysNext(s, t, a))
  {
    ImageSound(s);
    assert Young(s.L(Req).w.q, t) && Young(s.L(Fwd).w.q, t) && Young(s.L(Resp).w.q, t);
    match a
    case Request(msg) =>
      if s.Task(t).Resting? && exists x: nat :: LeastFree(s.lent, x) { RequestAgrees(s, t, msg); }
    case Receive(c) =>
      if s.Task(t).Resting? { ReceiveAgrees(s, t, c); }
    case Forward =>
      if AtDevice(s, t) { ForwardAgrees(s, t); }
    case Reply(data) =>
      if AtDevice(s, t) { ReplyAgrees(s, t, data); }
    case Reclaim =>
    case Hand(u) =>
    case Go =>
      if s.Task(t).Sending? || s.Task(t).Receiving? { GoAgrees(s, t); }
  }

  // ---------------------------------------------------------- the slot table

  /** The VMM's side with its slot table, and the callbacks made so far. */
  datatype Vmm = Vmm(m: Machine, acks: seq<Option<Mmio.Ack>>, calls: seq<Dispatch.Invocation>)

  function Stripped(calls: seq<Mmio.Call>): (r: seq<Dispatch.Invocation>)
    ensures |r| == |calls|
    ensures forall k | 0 <= k < |calls| ::
              r[k] == Dispatch.Invocation(calls[k].callback, calls[k].cookie, calls[k].data)
  {
    seq(|calls|, k requires 0 <= k < |calls| => Dispatch.Invocation(calls[k].callback, calls[k].cookie, calls[k].data))
  }

  function VmmOf(io: Mmio.Io): Vmm { Vmm(Image(io.s), io.acks, Stripped(io.calls)) }

  ghost predicate VmmSound(d: Vmm) { Sound(d.m) && |d.acks| == Mmio.SLOTS }

  ghost function VmmStart(d: Vmm, t: Tid, st: Mmio.Ioreq): Vmm
    requires VmmSound(d)
  {
    if || st.slot >= Mmio.SLOTS || d.acks[st.slot].Some? || !d.m.Task(t).Resting?
       || !exists x: nat :: LeastFree(d.m.lent, x)
    then d
    else d.(m := MachineNext(d.m, t, Request(st.Message())),
            acks := d.acks[st.slot := Some(Mmio.Ack(st.Callback(), st.cookie))])
  }

  ghost function VmmFinish(d: Vmm, t: Tid): Vmm
    requires VmmSound(d) && HasResponse(d.m, t)
  {
    var msg := d.m.msgs[d.m.Task(t).id];
    var slot := Val(Codec.Get(msg.mr0, Codec.SLOT));
    if slot >= Mmio.SLOTS || d.acks[slot].None? then d
    else d.(m := MachineNext(d.m, t, Reclaim), acks := d.acks[slot := None],
            calls := d.calls + [Dispatch.Invocation(d.acks[slot].value.callback, d.acks[slot].value.cookie, msg.mr2)])
  }

  ghost function VmmNext(d: Vmm, t: Tid, a: Mmio.IoAct): Vmm
    requires VmmSound(d)
  {
    match a
    case Begin(st) => VmmStart(d, t, st)
    case Party(p) => if p.Request? || p.Reclaim? then d else d.(m := MachineNext(d.m, t, p))
    case Finish => if HasResponse(d.m, t) then VmmFinish(d, t) else d
  }

  lemma StrippedMore(calls: seq<Mmio.Call>, x: Mmio.Call)
    ensures Stripped(calls + [x]) == Stripped(calls) + [Dispatch.Invocation(x.callback, x.cookie, x.data)]
  {
  }

  lemma StartAgrees(io: Mmio.Io, t: Tid, st: Mmio.Ioreq)
    requires Mmio.IoInv(io) && YoungIn(io.s, t)
    ensures VmmSound(VmmOf(io)) && VmmStart(VmmOf(io), t, st) == VmmOf(Mmio.DoBegin(io, t, st))
  {
    MachineAgrees(io.s, t, Request(st.Message()));
  }

  lemma FinishAgrees(io: Mmio.Io, t: Tid)
    requires Mmio.IoInv(io) && YoungIn(io.s, t) && AtDriver(io.s, t)
    ensures VmmSound(VmmOf(io)) && VmmFinish(VmmOf(io), t) == VmmOf(Mmio.DoFinish(io, t))
  {
    MachineAgrees(io.s, t, Reclaim);
    var x := io.s.Task(t).id;
    var slot := Val(Codec.Get(io.s.msgs[x].mr0, Codec.SLOT));
    if slot < Mmio.SLOTS && io.acks[slot].Some? {
      StrippedMore(io.calls, Mmio.Call(io.ticket[x], io.acks[slot].value.callback, io.acks[slot].value.cookie,
                                       io.s.msgs[x].mr2));
    }
  }

  /** The commuting square with the slot table. */
  lemma VmmAgrees(io: Mmio.Io, t: Tid, a: Mmio.IoAct)
    requires Mmio.IoInv(io) && YoungIn(io.s, t)
    ensures VmmSound(VmmOf(io)) && VmmNext(VmmOf(io), t, a) == VmmOf(Mmio.IoNext(io, t, a))
  {
    ImageSound(io.s);
    match a
    case Begin(st) => StartAgrees(io, t, st);
    case Party(p) => MachineAgrees(io.s, t, p);
    case Finish => if AtDriver(io.s, t) { FinishAgrees(io, t); }
  }

  // -------------------------------------------------------------- whole runs

  ghost predicate YoungIoRun(io: Mmio.Io, acts: seq<(Tid, Mmio.IoAct)>)
    requires Mmio.IoInv(io)
    decreases |acts|
  {
    acts == [] ||
    (Mmio.IoStep(io, acts[0].0, acts[0].1);
     YoungIn(io.s, acts[0].0) && YoungIoRun(Mmio.IoNext(io, acts[0].0, acts[0].1), acts[1..]))
  }

  /** d' is where the machine is after the actions. */
  ghost predicate VmmRuns(d: Vmm, acts: seq<(Tid, Mmio.IoAct)>, d': Vmm)
    decreases |acts|
  {
    if acts == [] then d == d'
    else VmmSound(d) && VmmRuns(VmmNext(d, acts[0].0, acts[0].1), acts[1..], d')
  }

  lemma {:induction false} VmmRunAgrees(io: Mmio.Io, acts: seq<(Tid, Mmio.IoAct)>)
    requires Mmio.IoInv(io) && YoungIoRun(io, acts)
    ensures VmmRuns(VmmOf(io), acts, VmmOf(Mmio.IoRun(io, acts)))
    decreases |acts|
  {
    if acts != [] {
      Mmio.IoStep(io, acts[0].0, acts[0].1);
      VmmAgrees(io, acts[0].0, acts[0].1);
      VmmRunAgrees(Mmio.IoNext(io, acts[0].0, acts[0].1), acts[1..]);
    }
  }

  /** The tails of all rings are below n. */
  predicate Below(s: Sys, n: int) {
    RingBelow(s.req.w.q, n) && RingBelow(s.fwd.w.q, n) && RingBelow(s.resp.w.q, n)
  }

  predicate RingBelow(q: Queue, n: int) { q.prod.tail.pos < n && q.cons.tail.pos < n }

  lemma BelowYoung(s: Sys, t: Tid)
    requires Shape(s) && Below(s, 0x1_0000_0000 - 32)
    ensures YoungIn(s, t)
  {
    forall c ensures Young(s.L(c).w.q, t) { assert LinkOk(s.L(c)); }
  }

  lemma EnterBelow(s: Sys, t: Tid, c: Chan, task: Task, op: Op, n: int)
    requires LinkOk(s.L(c)) && Below(s, n)
    ensures Below(Enter(s, t, c, task, op), n + 1)
  {
    TailsGrow(s.L(c).w, t, op, Prod);
    TailsGrow(s.L(c).w, t, op, Cons);
  }

  lemma GoneBelow(s: Sys, t: Tid, w': World, n: int)
    requires Inside(s, t) && |s.loc| == |s.msgs| == SIZE && Below(s, n) && RingBelow(w'.q, n + 1)
    ensures Below(GoneTo(s, t, w'), n + 1)
  {
  }

  lemma GoBelow(s: Sys, t: Tid, n: int)
    requires Shape(s) && Below(s, n) && Inside(s, t)
    ensures Below(DoGo(s, t), n + 1)
  {
    var c := s.Task(t).c;
    assert LinkOk(s.L(c));
    TailsGrow(s.L(c).w, t, Dequeue, Prod);
    TailsGrow(s.L(c).w, t, Dequeue, Cons);
    GoneBelow(s, t, Step(s.L(c).w, t, Dequeue), n);
  }

  lemma SysBelow(s: Sys, t: Tid, a: Act, n: int)
    requires Shape(s) && Below(s, n)
    ensures Below(SysNext(s, t, a), n + 1)
  {
    match a
    case Request(msg) =>
      if s.Task(t).Resting? && exists x: nat :: LeastFree(s.lent, x) {
        var x := Lent(s.lent);
        assert LinkOk(s.L(Req)) && Below(Lend(s, t, x, msg), n);
        EnterBelow(Lend(s, t, x, msg), t, Req, Sending(Req, x, None), Enqueue(Id(x)), n);
      }
    case Receive(c) =>
      assert LinkOk(s.L(c));
      EnterBelow(s, t, c, Receiving(c), Dequeue, n);
    case Forward =>
      if AtDevice(s, t) {
        assert LinkOk(s.L(Fwd));
        EnterBelow(s, t, Fwd, Sending(Fwd, s.Task(t).id, Some(s.Task(t).source)), Enqueue(Id(s.Task(t).id)), n);
      }
    case Reply(data) =>
      if AtDevice(s, t) {
        var x := s.Task(t).id;
        var s1 := s.(msgs := s.msgs[x := s.msgs[x].(mr2 := data)]);
        assert LinkOk(s.L(Resp)) && Below(s1, n);
        EnterBelow(s1, t, Resp, Sending(Resp, x, Some(s.Task(t).source)), Enqueue(Id(x)), n);
      }
    case Reclaim =>
    case Hand(u) =>
    case Go =>
      if Inside(s, t) { GoBelow(s, t, n); }
  }

  lemma IoBelow(io: Mmio.Io, t: Tid, a: Mmio.IoAct, n: int)
    requires Mmio.IoInv(io) && Below(io.s, n)
    ensures Below(Mmio.IoNext(io, t, a).s, n + 1)
  {
    match a
    case Begin(st) => SysBelow(io.s, t, Request(st.Message()), n);
    case Party(p) => SysBelow(io.s, t, p, n);
    case Finish => SysBelow(io.s, t, Reclaim, n);
  }

  /** A run of fewer than 2^32 - 32 actions from the start is young. */
  lemma {:induction false} ShortIoRunsAreYoung(io: Mmio.Io, acts: seq<(Tid, Mmio.IoAct)>)
    requires Mmio.IoInv(io) && Below(io.s, 0x1_0000_0000 - 32 - |acts|)
    ensures YoungIoRun(io, acts)
    decreases |acts|
  {
    if acts != [] {
      var t, a := acts[0].0, acts[0].1;
      BelowYoung(io.s, t);
      Mmio.IoStep(io, t, a);
      IoBelow(io, t, a, 0x1_0000_0000 - 32 - |acts|);
      ShortIoRunsAreYoung(Mmio.IoNext(io, t, a), acts[1..]);
    }
  }

  /** End to end over uint32_t rings: whatever the interleaving, the callbacks the
      machine has made when it has taken the actions are those of distinct
      requests, each its request's own, with its own cookie and its own answer. */
  lemma EndToEndOnMachine(acts: seq<(Tid, Mmio.IoAct)>)
    requires (Mmio.IoInitInv(); YoungIoRun(Mmio.IoInit(), acts))
    ensures Mmio.IoInv(Mmio.IoInit())
    ensures var io := Mmio.IoRun(Mmio.IoInit(), acts);
            var d := VmmOf(io);
            && VmmRuns(VmmOf(Mmio.IoInit()), acts, d) && |d.calls| == |io.calls|
            && (forall k | 0 <= k < |d.calls| ::
                  && io.calls[k].ticket < |io.starts| && io.calls[k].ticket in io.answers
                  && var st := io.starts[io.calls[k].ticket];
                  d.calls[k] == Dispatch.Invocation(if st.direction == 0 then st.readFn else st.writeFn, st.cookie,
                                                    io.answers[io.calls[k].ticket]))
            && (forall j, k | 0 <= j < k < |io.calls| :: io.calls[j].ticket != io.calls[k].ticket)
  {
    Mmio.EndToEnd(acts);
    VmmRunAgrees(Mmio.IoInit(), acts);
  }

  /** So the hypothesis on ages holds of every run from the start with fewer than
      2^32 - 32 actions. */
  lemma StartIsYoung(acts: seq<(Tid, Mmio.IoAct)>)
    requires |acts| < 0x1_0000_0000 - 32
    ensures Mmio.IoInv(Mmio.IoInit()) && YoungIoRun(Mmio.IoInit(), acts)
  {
    Mmio.IoInitInv();
    ShortIoRunsAreYoung(Mmio.IoInit(), acts);
  }
}
