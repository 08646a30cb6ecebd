/** Request, forward and reply: 32 message buffers are lent, their ids travel
    through up to three rings and are reclaimed. Any number of threads on
    either end of each ring, interleaved at every shared access. */
module Ownership {
  import opened Words
  import opened Ring
  import opened RingSafety

  datatype Option<+T> = None | Some(value: T)

  datatype Chan = Req | Fwd | Resp

  /** A ring and, by position, the contents of the messages sent through it. */
  datatype Link = Link(w: World, sent: seq<Msg>)

  /** Where a thread stands between calls into the rings: nothing in hand,
      inside an enqueue (from is where the message came from, if anywhere),
      inside a dequeue, or in possession of a received message. */
  datatype Task =
    | Resting
    | Sending(c: Chan, id: nat, from: Option<Chan>)
    | Receiving(c: Chan)
    | Holding(id: nat, source: Chan)

  datatype Loc = Free | Held(t: Tid) | Queued(c: Chan, p: nat)

  datatype Sys = Sys(req: Link, fwd: Link, resp: Link, lent: set<nat>, msgs: seq<Msg>,
                     tasks: map<Tid, Task>, loc: seq<Loc>)
  {
    function L(c: Chan): Link { match c case Req => req case Fwd => fwd case Resp => resp }

    function SetL(c: Chan, l: Link): Sys {
      match c case Req => this.(req := l) case Fwd => this.(fwd := l) case Resp => this.(resp := l)
    }

    function Task(t: Tid): Task { if t in tasks then tasks[t] else Resting }
  }

  /** What a thread may do next. Hand passes a received message on inside a
      party, without a ring: a receiver may put messages aside, or to a worker,
      and go on receiving. Go continues the ring operation a thread is in. */
  datatype Act = Request(msg: Msg) | Receive(c: Chan) | Forward | Reply(data: Word) | Reclaim | Hand(to: Tid) | Go

  /** The id rpcmsg_lend_buffer hands out. */
  ghost predicate LeastFree(lent: set<nat>, x: nat) {
    x < SIZE && x !in lent && forall y: nat | y < x :: y in lent
  }

  function Init3(): Sys {
    var l := Link(Start(false), []);
    Sys(l, l, l, {}, seq(SIZE, _ => ZeroMsg()), map[], seq(SIZE, _ => Free))
  }

  // ----------------------------------------------------------- the invariant

  /** Position p of a ring still carries its message: not yet claimed by a
      consumer, or claimed by one that has not committed. */
  ghost predicate Live(w: World, p: nat) {
    && p < |w.log|
    && (p >= |w.takers| || (Flies(w.q, Cons, w.takers[p]) && w.q.threads[w.takers[p]].pos == p))
  }

  /** With a single consumer, commits never hide behind an earlier dequeue. */
  ghost predicate OneTaker(w: World) {
    forall p, r | 0 <= p < |w.takers| && 0 <= r < |w.takers| :: w.takers[p] == w.takers[r]
  }

  ghost predicate Tidy(w: World) {
    OneTaker(w) ==> w.q.cons.head.pos == w.q.cons.head.count
  }

  ghost predicate LinkOk(l: Link) {
    Inv(l.w) && !l.w.q.events && |l.sent| == |l.w.log| && Tidy(l.w)
  }

  /** A thread is inside ring c exactly as its task says. */
  ghost predicate Tied(s: Sys, c: Chan, t: Tid) {
    var q := s.L(c).w.q;
    && (s.Task(t).Sending? && s.Task(t).c == c ==>
          !Idle(q, t) && q.threads[t].op == Enqueue(Id(s.Task(t).id)) && s.Task(t).id < SIZE)
    && (s.Task(t) == Receiving(c) ==> !Idle(q, t) && q.threads[t].op == Dequeue)
    && (!Idle(q, t) ==> (s.Task(t).Sending? && s.Task(t).c == c) || s.Task(t) == Receiving(c))
  }

  /** Thread t has message id in its hands: received it, or lent it, and not
      yet reserved a position for it. */
  ghost predicate Carries(s: Sys, t: Tid, x: nat) {
    || (s.Task(t).Holding? && s.Task(t).id == x)
    || (s.Task(t).Sending? && s.Task(t).id == x && !Flies(s.L(s.Task(t).c).w.q, Prod, t))
  }

  /** The place recorded for id x is where it is. */
  ghost predicate Placed(s: Sys, x: nat)
    requires x < |s.loc|
  {
    match s.loc[x]
    case Free => x !in s.lent
    case Held(t) => x in s.lent && Carries(s, t, x)
    case Queued(c, p) => x in s.lent && Live(s.L(c).w, p) && s.L(c).w.log[p] == Id(x)
  }

  /** Nothing is anywhere else, and queued contents are as they were sent. */
  ghost predicate LiveOk(s: Sys, c: Chan, p: nat)
    requires |s.loc| == |s.msgs| == SIZE
  {
    Live(s.L(c).w, p) ==>
      && p < |s.L(c).sent|
      && s.L(c).w.log[p].Id? && s.L(c).w.log[p].id < SIZE
      && s.loc[s.L(c).w.log[p].id] == Queued(c, p)
      && s.msgs[s.L(c).w.log[p].id] == s.L(c).sent[p]
  }

  ghost predicate CarryOk(s: Sys, t: Tid, x: nat)
    requires |s.loc| == SIZE
  {
    Carries(s, t, x) ==> x < SIZE && s.loc[x] == Held(t)
  }

  ghost predicate Shape(s: Sys) {
    && |s.loc| == |s.msgs| == SIZE
    && (forall x | x in s.lent :: x < SIZE)
    && forall c {:trigger LinkOk(s.L(c))} :: LinkOk(s.L(c))
  }

  ghost predicate AllTied(s: Sys) {
    forall c, t {:trigger Tied(s, c, t)} :: Tied(s, c, t)
  }

  ghost predicate AllPlaced(s: Sys)
    requires |s.loc| == |s.msgs| == SIZE
  {
    && (forall x {:trigger Placed(s, x)} | 0 <= x < SIZE :: Placed(s, x))
    && (forall c, p: nat {:trigger LiveOk(s, c, p)} :: LiveOk(s, c, p))
    && (forall t, x {:trigger CarryOk(s, t, x)} :: CarryOk(s, t, x))
  }

  ghost predicate SysInv(s: Sys) {
    Shape(s) && AllTied(s) && AllPlaced(s)
  }

  // --------------------------------------------------------------- the steps

  /** Entering a ring operation: the call's first move. */
  function Enter(s: Sys, t: Tid, c: Chan, task: Task, op: Op): Sys
    requires LinkOk(s.L(c))
  {
    s.SetL(c, Link(Step(s.L(c).w, t, op), s.L(c).sent)).(tasks := s.tasks[t := task])
  }

  ghost function Lent(lent: set<nat>): (x: nat)
    requires exists x: nat :: LeastFree(lent, x)
    ensures LeastFree(lent, x)
  {
    var x: nat :| LeastFree(lent, x); x
  }

  /** rpcmsg_request: lend the least free buffer, fill it, start to enqueue. */
  ghost function DoRequest(s: Sys, t: Tid, msg: Msg): Sys
    requires Shape(s) && s.Task(t).Resting? && exists x: nat :: LeastFree(s.lent, x)
  {
    assert LinkOk(s.L(Req));
    Enter(Lend(s, t, Lent(s.lent), msg), t, Req, Sending(Req, Lent(s.lent), None), Enqueue(Id(Lent(s.lent))))
  }

  /** What the caller has when its ring operation returns. */
  function Returned(task: Task, r: Result): Task {
    match task
    case Sending(c, x, from) => if r.Finished? || from.None? then Resting else Holding(x, from.value)
    case Receiving(c) => if r.Finished? && r.item.Id? then Holding(r.item.id, c) else Resting
    case _ => task
  }

  /** One step of the ring operation thread t is in. */
  ghost function DoGo(s: Sys, t: Tid): Sys
    requires Shape(s) && (s.Task(t).Sending? || s.Task(t).Receiving?)
  {
    assert LinkOk(s.L(s.Task(t).c));
    GoneTo(s, t, Step(s.L(s.Task(t).c).w, t, Dequeue))
  }

  /** The same, w' being the ring after the step. */
  function GoneTo(s: Sys, t: Tid, w': World): Sys
    requires (s.Task(t).Sending? || s.Task(t).Receiving?) && |s.loc| == |s.msgs| == SIZE
  {
    var task := s.Task(t);
    var c := task.c;
    var l := s.L(c);
    var done := t in w'.q.threads && w'.q.threads[t].Done?;
    var sending := task.Sending? && task.id < SIZE;
    var reserves := sending && Reserving(l.w.q, t, Prod);
    var lost := done && w'.q.threads[t].result.Failed? && sending && task.from.None?;
    var got := done && task.Receiving? && w'.q.threads[t].result.Finished? && w'.q.threads[t].result.item.Id?
               && w'.q.threads[t].result.item.id < SIZE;
    s.SetL(c, Link(w', if reserves then l.sent + [s.msgs[task.id]] else l.sent))
    .(tasks := if done then s.tasks[t := Returned(task, w'.q.threads[t].result)] else s.tasks,
      lent := if lost then s.lent - {task.id} else s.lent,
      loc := if reserves then s.loc[task.id := Queued(c, |l.w.log|)]
             else if lost then s.loc[task.id := Free]
             else if got then s.loc[w'.q.threads[t].result.item.id := Held(t)]
             else s.loc)
  }

  /** The device side holds a request; the driver side holds a response. */
  predicate AtDevice(s: Sys, t: Tid) { s.Task(t).Holding? && s.Task(t).source != Resp && s.Task(t).id < SIZE }
  predicate AtDriver(s: Sys, t: Tid) { s.Task(t).Holding? && s.Task(t).source == Resp && s.Task(t).id < SIZE }

  predicate CanHand(s: Sys, t: Tid, u: Tid) {
    s.Task(t).Holding? && s.Task(t).id < SIZE && u != t && s.Task(u).Resting?
  }

  ghost function SysNext(s: Sys, t: Tid, a: Act): Sys
    requires Shape(s)
  {
    match a
    case Request(msg) =>
      if s.Task(t).Resting? && exists x: nat :: LeastFree(s.lent, x) then DoRequest(s, t, msg) else s
    case Receive(c) =>
      if s.Task(t).Resting? then Enter(s, t, c, Receiving(c), Dequeue) else s
    case Forward =>
      if AtDevice(s, t) then
        Enter(s, t, Fwd, Sending(Fwd, s.Task(t).id, Some(s.Task(t).source)), Enqueue(Id(s.Task(t).id)))
      else s
    case Reply(data) =>
      if AtDevice(s, t) then
        assert LinkOk(s.L(Resp));
        Enter(s.(msgs := s.msgs[s.Task(t).id := s.msgs[s.Task(t).id].(mr2 := data)]), t, Resp,
              Sending(Resp, s.Task(t).id, Some(s.Task(t).source)), Enqueue(Id(s.Task(t).id)))
      else s
    case Reclaim =>
      if AtDriver(s, t) then
        s.(lent := s.lent - {s.Task(t).id}, loc := s.loc[s.Task(t).id := Free], tasks := s.tasks[t := Resting])
      else s
    case Hand(u) =>
      if CanHand(s, t, u) then s.(tasks := s.tasks[t := Resting][u := s.Task(t)], loc := s.loc[s.Task(t).id := Held(u)])
      else s
    case Go =>
      if s.Task(t).Sending? || s.Task(t).Receiving? then DoGo(s, t) else s
  }

  // --------------------------------------------------- what one ring step does

  /** Other threads' locals are not touched. */
  lemma OthersKeep(w: World, t: Tid, op: Op, u: Tid)
    requires Inv(w) && u != t
    ensures u in Step(w, t, op).q.threads <==> u in w.q.threads
    ensures u in w.q.threads ==> Step(w, t, op).q.threads[u] == w.q.threads[u]
  {
  }

  lemma LiveKept(w: World, t: Tid, op: Op, p: nat)
    requires Inv(w) && !Reserving(w.q, t, Prod) && !Commits(w.q, t, Cons)
    ensures Step(w, t, op).log == w.log
    ensures Live(Step(w, t, op), p) <==> Live(w, p)
  {
    var w' := Step(w, t, op);
    if p < |w.takers| {
      var u := w.takers[p];
      if u != t { OthersKeep(w, t, op, u); }
      else if !Reserving(w.q, t, Cons) { OwnFlight(w, t, op); }
    }
  }

  /** A thread in flight stays in flight at its position until it commits. */
  lemma OwnFlight(w: World, t: Tid, op: Op)
    requires Inv(w) && !Reserving(w.q, t, Cons) && !Commits(w.q, t, Cons)
    ensures Flies(Step(w, t, op).q, Cons, t) == Flies(w.q, Cons, t)
    ensures Flies(w.q, Cons, t) ==> Step(w, t, op).q.threads[t].pos == w.q.threads[t].pos
  {
  }

  lemma LiveAdded(w: World, t: Tid, op: Op, p: nat)
    requires Inv(w) && Reserving(w.q, t, Prod)
    ensures Step(w, t, op).log == w.log + [w.q.threads[t].op.item]
    ensures Live(Step(w, t, op), p) <==> Live(w, p) || p == |w.log|
  {
    if p < |w.takers| && w.takers[p] != t { OthersKeep(w, t, op, w.takers[p]); }
  }

  lemma LiveTaken(w: World, t: Tid, op: Op, p: nat)
    requires Inv(w) && Commits(w.q, t, Cons)
    ensures Step(w, t, op).log == w.log && w.q.threads[t].pos < |w.log|
    ensures Live(w, w.q.threads[t].pos)
    ensures Step(w, t, op).q.threads[t] == Done(Dequeue, Finished(w.q.threads[t].pos, w.log[w.q.threads[t].pos]))
    ensures Live(Step(w, t, op), p) <==> Live(w, p) && p != w.q.threads[t].pos
  {
    assert Faithful(w, t, w.q.threads[t]);
    if p < |w.takers| && w.takers[p] != t { OthersKeep(w, t, op, w.takers[p]); }
  }

  lemma TidyStep(w: World, t: Tid, op: Op)
    requires Inv(w) && Tidy(w)
    ensures Tidy(Step(w, t, op))
  {
    var w' := Step(w, t, op);
    if OneTaker(w') {
      forall p, r | 0 <= p < |w.takers| && 0 <= r < |w.takers| ensures w.takers[p] == w.takers[r] {
        assert w'.takers[p] == w'.takers[r];
      }
      if Commits(w.q, t, Cons) {
        OnlyFlyer(w, t);
        assert LocalOk(w.q, w.q.threads[t]);
      } else {
        HeadKept(w.q, t, op);
      }
    }
  }

  lemma HeadKept(q: Queue, t: Tid, op: Op)
    requires WellFormed(q) && !Commits(q, t, Cons)
    ensures Next(Exact, q, t, op).cons.head == q.cons.head
  {
  }

  /** With one consumer ever, a committing consumer is alone in flight. */
  lemma OnlyFlyer(w: World, t: Tid)
    requires Inv(w) && OneTaker(w) && Flies(w.q, Cons, t)
    ensures w.q.cons.tail.count == w.q.cons.head.count + 1
  {
    assert Faithful(w, t, w.q.threads[t]);
    forall u | u in Flying(w.q, Cons) ensures u == t {
      assert Flies(w.q, Cons, u) && Faithful(w, u, w.q.threads[u]);
      assert w.takers[w.q.threads[u].pos] == w.takers[w.q.threads[t].pos];
    }
    assert Flying(w.q, Cons) == {t};
    assert Counted(w.q, Cons);
  }

  lemma LinkStep(l: Link, t: Tid, op: Op, sent: seq<Msg>)
    requires LinkOk(l) && |sent| == |Step(l.w, t, op).log|
    ensures LinkOk(Link(Step(l.w, t, op), sent))
  {
    StepInv(l.w, t, op);
    TidyStep(l.w, t, op);
    assert Next(Exact, l.w.q, t, op).events == l.w.q.events by { EventsKept(l.w.q, t, op); }
  }

  lemma EventsKept(q: Queue, t: Tid, op: Op)
    requires WellFormed(q)
    ensures Next(Exact, q, t, op).events == q.events
  {
  }

  // ------------------------------------------------------------ frames

  /** Ring by ring, thread by thread: everything but thread t, and everything
      but ring c for t, is as before. */
  ghost predicate OnlyRing(s: Sys, s': Sys, c: Chan, t: Tid) {
    && (forall d | d != c :: s'.L(d) == s.L(d))
    && (forall u | u != t :: s'.Task(u) == s.Task(u))
    && (forall u | u != t :: (u in s'.L(c).w.q.threads <==> u in s.L(c).w.q.threads))
    && (forall u | u != t && u in s.L(c).w.q.threads :: s'.L(c).w.q.threads[u] == s.L(c).w.q.threads[u])
  }

  lemma TiedFrame(s: Sys, s': Sys, c: Chan, t: Tid)
    requires AllTied(s) && OnlyRing(s, s', c, t)
    requires Tied(s', c, t)
    requires (s.Task(t).Sending? || s.Task(t).Receiving?) ==> s.Task(t).c == c
    requires (s'.Task(t).Sending? || s'.Task(t).Receiving?) ==> s'.Task(t).c == c
    ensures AllTied(s')
  {
    forall d, u ensures Tied(s', d, u) {
      assert Tied(s, d, u);
    }
  }

  lemma OthersCarry(s: Sys, s': Sys, c: Chan, t: Tid, u: Tid, x: nat)
    requires OnlyRing(s, s', c, t) && u != t
    ensures Carries(s', u, x) == Carries(s, u, x)
  {
  }

  /** Histories only grow, and other rings are not touched. */
  ghost predicate Extends(s: Sys, s': Sys, c: Chan, t: Tid) {
    && OnlyRing(s, s', c, t)
    && |s'.loc| == |s'.msgs| == |s.loc| == |s.msgs| == SIZE
    && s.L(c).w.log <= s'.L(c).w.log && s.L(c).sent <= s'.L(c).sent
  }

  ghost predicate SameLive(w: World, w': World) {
    forall p: nat :: Live(w', p) <==> Live(w, p)
  }

  /** A step that moves no message. */
  lemma PlaceSame(s: Sys, s': Sys, c: Chan, t: Tid)
    requires Extends(s, s', c, t) && AllPlaced(s)
    requires s'.loc == s.loc && s'.lent == s.lent && s'.msgs == s.msgs
    requires SameLive(s.L(c).w, s'.L(c).w)
    requires forall x: nat :: Carries(s', t, x) <==> Carries(s, t, x)
    ensures AllPlaced(s')
  {
    forall d, p: nat ensures LiveOk(s', d, p) { assert LiveOk(s, d, p); }
    forall u, x: nat ensures CarryOk(s', u, x) {
      assert CarryOk(s, u, x);
      if u != t { OthersCarry(s, s', c, t, u, x); }
    }
    forall x | 0 <= x < SIZE ensures Placed(s', x) {
      assert Placed(s, x);
      PlacedSame(s, s', c, t, x);
    }
  }

  lemma PlacedSame(s: Sys, s': Sys, c: Chan, t: Tid, x: nat)
    requires Extends(s, s', c, t) && AllPlaced(s) && x < SIZE
    requires s'.loc[x] == s.loc[x] && (x in s'.lent <==> x in s.lent)
    requires s.loc[x] == Held(t) ==> Carries(s', t, x)
    requires s.loc[x].Queued? && s.loc[x].c == c ==> Live(s'.L(c).w, s.loc[x].p)
    ensures Placed(s', x)
  {
    assert Placed(s, x);
    if s.loc[x].Held? && s.loc[x].t != t { OthersCarry(s, s', c, t, s.loc[x].t, x); }
  }

  /** A step that moves message x0, or changes its contents, and nothing else;
      before and after it is free, in t's hands or in ring c. */
  ghost predicate MovesOne(s: Sys, s': Sys, c: Chan, t: Tid, x0: nat)
    requires |s.loc| == |s'.loc| == |s.msgs| == |s'.msgs| == SIZE && x0 < SIZE
  {
    && (s.loc[x0] == Free || s.loc[x0] == Held(t) || (s.loc[x0].Queued? && s.loc[x0].c == c))
    && (s'.loc[x0] == Free || s'.loc[x0] == Held(t) || (s'.loc[x0].Queued? && s'.loc[x0].c == c))
    && s'.loc == s.loc[x0 := s'.loc[x0]] && s'.msgs == s.msgs[x0 := s'.msgs[x0]]
    && (forall x | x != x0 :: x in s'.lent <==> x in s.lent)
    && (x0 in s'.lent <==> !s'.loc[x0].Free?)
    && (s'.loc[x0].Queued? ==>
          && s'.loc[x0].p < |s'.L(c).w.log| && s'.L(c).w.log[s'.loc[x0].p] == Id(x0)
          && s'.loc[x0].p < |s'.L(c).sent| && s'.L(c).sent[s'.loc[x0].p] == s'.msgs[x0])
  }

  lemma PlaceOne(s: Sys, s': Sys, c: Chan, t: Tid, x0: nat)
    requires Extends(s, s', c, t) && AllPlaced(s) && x0 < SIZE && MovesOne(s, s', c, t, x0)
    requires forall p: nat :: Live(s'.L(c).w, p) <==>
               (Live(s.L(c).w, p) && s.L(c).w.log[p] != Id(x0)) || s'.loc[x0] == Queued(c, p)
    requires forall x: nat :: Carries(s', t, x) <==> (x != x0 && Carries(s, t, x)) || (x == x0 && s'.loc[x0] == Held(t))
    ensures AllPlaced(s')
  {
    forall d, p: nat ensures LiveOk(s', d, p) { LiveOne(s, s', c, t, x0, d, p); }
    forall u, x: nat ensures CarryOk(s', u, x) {
      assert CarryOk(s, u, x);
      if u != t { OthersCarry(s, s', c, t, u, x); }
    }
    forall x | 0 <= x < SIZE ensures Placed(s', x) {
      if x != x0 {
        assert Placed(s, x);
        PlacedSame(s, s', c, t, x);
      }
    }
  }

  lemma LiveOne(s: Sys, s': Sys, c: Chan, t: Tid, x0: nat, d: Chan, p: nat)
    requires Extends(s, s', c, t) && AllPlaced(s) && x0 < SIZE && MovesOne(s, s', c, t, x0)
    requires Live(s'.L(c).w, p) <==>
               (Live(s.L(c).w, p) && s.L(c).w.log[p] != Id(x0)) || s'.loc[x0] == Queued(c, p)
    ensures LiveOk(s', d, p)
  {
    assert LiveOk(s, d, p);
  }

  // ------------------------------------------------------------- the steps

  lemma Begins(w: World, t: Tid, op: Op)
    requires Inv(w) && Idle(w.q, t) && Legal(w.q.events, op)
    ensures Step(w, t, op) == w.(q := w.q.Put(t, LoadTail(op)))
    ensures SameLive(w, Step(w, t, op))
  {
    forall p: nat ensures Live(Step(w, t, op), p) <==> Live(w, p) { LiveKept(w, t, op, p); }
  }

  ghost predicate CallMatches(task: Task, c: Chan, op: Op) {
    || (task.Sending? && task.c == c && task.id < SIZE && op == Enqueue(Id(task.id)))
    || (task == Receiving(c) && op == Dequeue)
  }

  /** Entering a ring operation, from outside all rings. */
  lemma EnterTied(s: Sys, t: Tid, c: Chan, task: Task, op: Op)
    requires LinkOk(s.L(c)) && AllTied(s) && !s.Task(t).Sending? && !s.Task(t).Receiving? && CallMatches(task, c, op)
    ensures AllTied(Enter(s, t, c, task, op))
    ensures OnlyRing(s, Enter(s, t, c, task, op), c, t)
    ensures !Flies(Enter(s, t, c, task, op).L(c).w.q, Prod, t)
  {
    assert Tied(s, c, t);
    Begins(s.L(c).w, t, op);
    TiedFrame(s, Enter(s, t, c, task, op), c, t);
  }

  lemma EnterLink(s: Sys, t: Tid, c: Chan, task: Task, op: Op)
    requires LinkOk(s.L(c)) && AllTied(s) && !s.Task(t).Sending? && !s.Task(t).Receiving? && CallMatches(task, c, op)
    ensures LinkOk(Enter(s, t, c, task, op).L(c))
    ensures Enter(s, t, c, task, op).L(c).w.log == s.L(c).w.log && Enter(s, t, c, task, op).L(c).sent == s.L(c).sent
    ensures SameLive(s.L(c).w, Enter(s, t, c, task, op).L(c).w)
  {
    assert Tied(s, c, t);
    Begins(s.L(c).w, t, op);
    LinkStep(s.L(c), t, op, s.L(c).sent);
  }

  lemma EnterShape(s: Sys, t: Tid, c: Chan, task: Task, op: Op)
    requires Shape(s) && AllTied(s) && !s.Task(t).Sending? && !s.Task(t).Receiving? && CallMatches(task, c, op)
    ensures Shape(Enter(s, t, c, task, op)) && AllTied(Enter(s, t, c, task, op))
    ensures Extends(s, Enter(s, t, c, task, op), c, t)
    ensures SameLive(s.L(c).w, Enter(s, t, c, task, op).L(c).w)
    ensures !Flies(Enter(s, t, c, task, op).L(c).w.q, Prod, t)
  {
    EnterTied(s, t, c, task, op);
    EnterLink(s, t, c, task, op);
  }

  /** Entering with what one holds, or with nothing, moves no message. */
  lemma EnterPlaced(s: Sys, s': Sys, t: Tid, c: Chan, task: Task)
    requires Extends(s, s', c, t) && AllPlaced(s) && SameLive(s.L(c).w, s'.L(c).w)
    requires s'.loc == s.loc && s'.lent == s.lent && s'.msgs == s.msgs && s'.Task(t) == task
    requires if s.Task(t).Holding?
             then task.Sending? && task.c == c && task.id == s.Task(t).id && !Flies(s'.L(c).w.q, Prod, t)
             else s.Task(t).Resting? && task.Receiving?
    ensures AllPlaced(s')
  {
    PlaceSame(s, s', c, t);
  }

  lemma EnterInv(s: Sys, t: Tid, c: Chan, task: Task, op: Op)
    requires Shape(s) && AllTied(s) && AllPlaced(s) && CallMatches(task, c, op)
    requires if s.Task(t).Holding? then task.Sending? && task.id == s.Task(t).id
             else s.Task(t).Resting? && task.Receiving?
    ensures SysInv(Enter(s, t, c, task, op))
  {
    EnterShape(s, t, c, task, op);
    EnterPlaced(s, Enter(s, t, c, task, op), t, c, task);
  }

  lemma ReplyInv(s: Sys, t: Tid, data: Word)
    requires SysInv(s) && AtDevice(s, t)
    ensures SysInv(SysNext(s, t, Reply(data)))
  {
    var x := s.Task(t).id;
    assert CarryOk(s, t, x);
    var s1 := s.(msgs := s.msgs[x := s.msgs[x].(mr2 := data)]);
    SetMessage(s, s1, t, x);
    forall c ensures LinkOk(s1.L(c)) { assert LinkOk(s.L(c)); }
    EnterInv(s1, t, Resp, Sending(Resp, x, Some(s.Task(t).source)), Enqueue(Id(x)));
  }

  /** Writing a message one holds disturbs nobody. */
  lemma SetMessage(s: Sys, s1: Sys, t: Tid, x: nat)
    requires |s.loc| == |s.msgs| == |s1.msgs| == SIZE && AllTied(s) && AllPlaced(s) && x < SIZE && s.loc[x] == Held(t)
    requires s1 == s.(msgs := s.msgs[x := s1.msgs[x]])
    ensures AllTied(s1) && AllPlaced(s1)
  {
    forall d, u ensures Tied(s1, d, u) { assert Tied(s, d, u); }
    forall d, p: nat ensures LiveOk(s1, d, p) { assert LiveOk(s, d, p); }
    forall u, y: nat ensures CarryOk(s1, u, y) { assert CarryOk(s, u, y); }
    forall y | 0 <= y < SIZE ensures Placed(s1, y) { assert Placed(s, y); }
  }

  lemma ReclaimInv(s: Sys, t: Tid)
    requires SysInv(s) && AtDriver(s, t)
    ensures SysInv(SysNext(s, t, Reclaim))
  {
    var x := s.Task(t).id;
    var s' := SysNext(s, t, Reclaim);
    assert CarryOk(s, t, x);
    assert Placed(s, x);
    forall p: nat ensures Live(s.L(Resp).w, p) ==> s.L(Resp).w.log[p] != Id(x) { assert LiveOk(s, Resp, p); }
    forall c ensures LinkOk(s'.L(c)) { assert LinkOk(s.L(c)); }
    forall d ensures Tied(s', d, t) { assert Tied(s, d, t); }
    TiedFrame(s, s', Resp, t);
    PlaceOne(s, s', Resp, t, x);
  }

  lemma HandInv(s: Sys, t: Tid, u: Tid)
    requires SysInv(s) && CanHand(s, t, u)
    ensures SysInv(SysNext(s, t, Hand(u)))
  {
    var x, s' := s.Task(t).id, SysNext(s, t, Hand(u));
    assert CarryOk(s, t, x);
    forall c ensures LinkOk(s'.L(c)) { assert LinkOk(s.L(c)); }
    HandTied(s, s', t, u);
    HandPlaced(s, s', t, u, x);
  }

  lemma HandTied(s: Sys, s': Sys, t: Tid, u: Tid)
    requires AllTied(s) && (forall c :: s'.L(c) == s.L(c)) && s'.tasks == s.tasks[t := Resting][u := s.Task(t)]
    requires s.Task(t).Holding? && s.Task(u).Resting? && u != t
    ensures AllTied(s')
  {
    forall c, v ensures Tied(s', c, v) { assert Tied(s, c, v); }
  }

  lemma HandPlaced(s: Sys, s': Sys, t: Tid, u: Tid, x: nat)
    requires |s.loc| == |s.msgs| == SIZE && AllPlaced(s) && x < SIZE && s.loc[x] == Held(t)
    requires s.Task(t).Holding? && s.Task(t).id == x && s.Task(u).Resting? && u != t
    requires s' == s.(tasks := s.tasks[t := Resting][u := s.Task(t)], loc := s.loc[x := Held(u)])
    ensures AllPlaced(s')
  {
    assert Placed(s, x);
    forall c, p: nat ensures LiveOk(s', c, p) { assert LiveOk(s, c, p); }
    forall v, y: nat ensures CarryOk(s', v, y) { assert CarryOk(s, v, y); }
    forall y | 0 <= y < SIZE ensures Placed(s', y) { assert Placed(s, y); }
  }

  /** Nobody queues a message that is free or in somebody's hands. */
  lemma NotQueued(s: Sys, c: Chan, x: nat)
    requires |s.loc| == |s.msgs| == SIZE && AllPlaced(s) && x < SIZE && !s.loc[x].Queued?
    ensures forall p: nat :: Live(s.L(c).w, p) ==> s.L(c).w.log[p] != Id(x)
  {
    forall p: nat | Live(s.L(c).w, p) ensures s.L(c).w.log[p] != Id(x) { assert LiveOk(s, c, p); }
  }

  /** The buffer that is lent, filled and put into t's hands. */
  function Lend(s: Sys, t: Tid, x: nat, msg: Msg): Sys
    requires |s.loc| == |s.msgs| == SIZE && x < SIZE
  {
    s.(lent := s.lent + {x}, msgs := s.msgs[x := msg], loc := s.loc[x := Held(t)])
  }

  lemma LendShape(s: Sys, t: Tid, x: nat, msg: Msg)
    requires Shape(s) && AllTied(s) && x < SIZE
    ensures Shape(Lend(s, t, x, msg)) && AllTied(Lend(s, t, x, msg))
  {
    forall d, u ensures Tied(Lend(s, t, x, msg), d, u) { assert Tied(s, d, u); }
    forall c ensures LinkOk(Lend(s, t, x, msg).L(c)) { assert LinkOk(s.L(c)); }
  }

  lemma RequestInv(s: Sys, t: Tid, msg: Msg)
    requires SysInv(s) && s.Task(t).Resting? && exists x: nat :: LeastFree(s.lent, x)
    ensures SysInv(DoRequest(s, t, msg))
  {
    var x := Lent(s.lent);
    var s1 := Lend(s, t, x, msg);
    assert Placed(s, x);
    LendShape(s, t, x, msg);
    EnterShape(s1, t, Req, Sending(Req, x, None), Enqueue(Id(x)));
    NotQueued(s, Req, x);
    PlaceOne(s, DoRequest(s, t, msg), Req, t, x);
  }

  // ----------------------------------------------- steps inside a ring call

  predicate Refused(q: Queue, t: Tid) {
    t in q.threads && q.threads[t].CheckRoom? && Blocked(Exact, q, q.threads[t].op, q.threads[t].ot.pos)
  }

  /** A ring operation returns by committing or by being refused. */
  lemma RingOutcome(w: World, t: Tid)
    requires Inv(w) && !Idle(w.q, t)
    ensures t in Step(w, t, Dequeue).q.threads
    ensures var l := w.q.threads[t]; var l' := Step(w, t, Dequeue).q.threads[t];
            && l'.op == l.op
            && (l'.Done? <==> Commits(w.q, t, l.op.Side()) || Refused(w.q, t))
            && (Commits(w.q, t, l.op.Side()) ==> l'.result == Finished(l.pos, l.item))
            && (Refused(w.q, t) ==> l'.result == Failed)
            && (InFlight(l') <==> (InFlight(l) && !l'.Done?) || Reserving(w.q, t, l.op.Side()))
  {
  }

  lemma SentGrows(w: World, t: Tid)
    requires Inv(w) && !Idle(w.q, t)
    ensures |Step(w, t, Dequeue).log| == |w.log| + if Reserving(w.q, t, Prod) then 1 else 0
    ensures Reserving(w.q, t, Prod) ==> w.q.threads[t].op.Enqueue?
  {
  }

  lemma GoneLink(s: Sys, t: Tid)
    requires Shape(s) && (s.Task(t).Sending? || s.Task(t).Receiving?) && Tied(s, s.Task(t).c, t)
    ensures var l := s.L(s.Task(t).c);
            && WellFormed(l.w.q) && (Reserving(l.w.q, t, Prod) ==> s.Task(t).Sending? && s.Task(t).id < |s.msgs|)
            && DoGo(s, t).L(s.Task(t).c)
               == Link(Step(l.w, t, Dequeue),
                       if Reserving(l.w.q, t, Prod) then l.sent + [s.msgs[s.Task(t).id]] else l.sent)
  {
    assert LinkOk(s.L(s.Task(t).c));
  }

  lemma GoLink(s: Sys, t: Tid)
    requires Shape(s) && AllTied(s) && (s.Task(t).Sending? || s.Task(t).Receiving?)
    ensures LinkOk(DoGo(s, t).L(s.Task(t).c))
  {
    var c := s.Task(t).c;
    assert LinkOk(s.L(c)) && Tied(s, c, t);
    var sent := if Reserving(s.L(c).w.q, t, Prod) then s.L(c).sent + [s.msgs[s.Task(t).id]] else s.L(c).sent;
    SentGrows(s.L(c).w, t);
    LinkStep(s.L(c), t, Dequeue, sent);
    GoneLink(s, t);
  }

  lemma GoFrame(s: Sys, t: Tid)
    requires Shape(s) && AllTied(s) && (s.Task(t).Sending? || s.Task(t).Receiving?)
    ensures OnlyRing(s, DoGo(s, t), s.Task(t).c, t)
  {
    var c := s.Task(t).c;
    assert LinkOk(s.L(c));
    forall u | u != t
      ensures u in DoGo(s, t).L(c).w.q.threads <==> u in s.L(c).w.q.threads
      ensures u in s.L(c).w.q.threads ==> DoGo(s, t).L(c).w.q.threads[u] == s.L(c).w.q.threads[u]
    {
      OthersKeep(s.L(c).w, t, Dequeue, u);
    }
  }

  lemma GoTied(s: Sys, t: Tid)
    requires Shape(s) && AllTied(s) && (s.Task(t).Sending? || s.Task(t).Receiving?)
    ensures AllTied(DoGo(s, t))
  {
    var c := s.Task(t).c;
    assert LinkOk(s.L(c)) && Tied(s, c, t);
    RingOutcome(s.L(c).w, t);
    GoFrame(s, t);
    TiedFrame(s, DoGo(s, t), c, t);
  }

  lemma GoSizes(s: Sys, t: Tid)
    requires Shape(s) && AllTied(s) && (s.Task(t).Sending? || s.Task(t).Receiving?)
    ensures var s', c := DoGo(s, t), s.Task(t).c;
            && |s'.loc| == |s'.msgs| == SIZE && s'.lent <= s.lent
            && s.L(c).w.log <= s'.L(c).w.log && s.L(c).sent <= s'.L(c).sent
  {
    assert LinkOk(s.L(s.Task(t).c));
  }

  lemma GoShape(s: Sys, t: Tid)
    requires Shape(s) && AllTied(s) && (s.Task(t).Sending? || s.Task(t).Receiving?)
    ensures Shape(DoGo(s, t)) && Extends(s, DoGo(s, t), s.Task(t).c, t)
  {
    GoLink(s, t);
    GoFrame(s, t);
    GoSizes(s, t);
    ShapeFrom(s, DoGo(s, t), s.Task(t).c, t);
  }

  lemma ShapeFrom(s: Sys, s': Sys, c: Chan, t: Tid)
    requires Shape(s) && OnlyRing(s, s', c, t) && LinkOk(s'.L(c))
    requires |s'.loc| == |s'.msgs| == SIZE && s'.lent <= s.lent
    ensures Shape(s')
  {
    forall d ensures LinkOk(s'.L(d)) {
      if d != c { assert LinkOk(s.L(d)); }
    }
  }

  /** The producer's reservation puts its message into the ring. */
  lemma GoReserve(s: Sys, t: Tid)
    requires SysInv(s) && s.Task(t).Sending? && Reserving(s.L(s.Task(t).c).w.q, t, Prod)
    ensures AllPlaced(DoGo(s, t))
  {
    var c, x := s.Task(t).c, s.Task(t).id;
    var s' := DoGo(s, t);
    assert LinkOk(s.L(c)) && Tied(s, c, t);
    GoShape(s, t);
    ReserveGone(s, t);
    forall p: nat ensures Live(s'.L(c).w, p) <==> Live(s.L(c).w, p) || p == |s.L(c).w.log| {
      LiveAdded(s.L(c).w, t, Dequeue, p);
    }
    ReservePlaced(s, s', c, t, x);
  }

  ghost predicate Reserved(s: Sys, s': Sys, c: Chan, t: Tid, x: nat) {
    && x < |s.loc| && x < |s.msgs| && Carries(s, t, x)
    && s.Task(t).Sending? && s.Task(t).id == x && s'.Task(t) == s.Task(t) && s.Task(t).c == c
    && Flies(s'.L(c).w.q, Prod, t)
    && s'.lent == s.lent && s'.msgs == s.msgs && s'.loc == s.loc[x := Queued(c, |s.L(c).w.log|)]
    && s'.L(c).w.log == s.L(c).w.log + [Id(x)] && s'.L(c).sent == s.L(c).sent + [s.msgs[x]]
    && |s.L(c).sent| == |s.L(c).w.log|
  }

  lemma ReserveGone(s: Sys, t: Tid)
    requires Shape(s) && s.Task(t).Sending? && Reserving(s.L(s.Task(t).c).w.q, t, Prod) && Tied(s, s.Task(t).c, t)
    ensures Reserved(s, DoGo(s, t), s.Task(t).c, t, s.Task(t).id)
  {
    assert LinkOk(s.L(s.Task(t).c));
    RingOutcome(s.L(s.Task(t).c).w, t);
  }

  lemma ReservePlaced(s: Sys, s': Sys, c: Chan, t: Tid, x: nat)
    requires Extends(s, s', c, t) && AllPlaced(s) && Reserved(s, s', c, t, x)
    requires forall p: nat :: Live(s'.L(c).w, p) <==> Live(s.L(c).w, p) || p == |s.L(c).w.log|
    ensures AllPlaced(s')
  {
    assert CarryOk(s, t, x);
    assert Placed(s, x);
    NotQueued(s, c, x);
    PlaceOne(s, s', c, t, x);
  }

  /** The consumer's commit puts the message into its hands. */
  lemma GoTake(s: Sys, t: Tid)
    requires SysInv(s) && s.Task(t).Receiving? && Commits(s.L(s.Task(t).c).w.q, t, Cons)
    ensures AllPlaced(DoGo(s, t))
  {
    var c := s.Task(t).c;
    var w := s.L(c).w;
    var s' := DoGo(s, t);
    assert LinkOk(s.L(c)) && Tied(s, c, t);
    var p0 := w.q.threads[t].pos;
    LiveTaken(w, t, Dequeue, p0);
    assert LiveOk(s, c, p0);
    GoShape(s, t);
    forall p: nat ensures Live(s'.L(c).w, p) <==> Live(w, p) && p != p0 { LiveTaken(w, t, Dequeue, p); }
    TakePlaced(s, s', c, t, p0);
  }

  lemma TakePlaced(s: Sys, s': Sys, c: Chan, t: Tid, p0: nat)
    requires Extends(s, s', c, t) && AllPlaced(s) && s.Task(t) == Receiving(c)
    requires Live(s.L(c).w, p0) && s.L(c).w.log[p0].Id? && s.L(c).w.log[p0].id < SIZE
    requires s'.Task(t) == Holding(s.L(c).w.log[p0].id, c) && s'.lent == s.lent && s'.msgs == s.msgs
    requires s'.loc == s.loc[s.L(c).w.log[p0].id := Held(t)]
    requires forall p: nat :: Live(s'.L(c).w, p) <==> Live(s.L(c).w, p) && p != p0
    ensures AllPlaced(s')
  {
    var x := s.L(c).w.log[p0].id;
    assert LiveOk(s, c, p0);
    assert Placed(s, x);
    forall p: nat ensures Live(s'.L(c).w, p) <==>
               (Live(s.L(c).w, p) && s.L(c).w.log[p] != Id(x)) || s'.loc[x] == Queued(c, p) {
      assert LiveOk(s, c, p);
    }
    PlaceOne(s, s', c, t, x);
  }

  /** A refused request gives its buffer back; a refused forward or reply
      leaves the message with its holder. */
  lemma GoRefused(s: Sys, t: Tid)
    requires SysInv(s) && s.Task(t).Sending? && Refused(s.L(s.Task(t).c).w.q, t)
    ensures AllPlaced(DoGo(s, t))
    ensures GivenUp(s, DoGo(s, t), t, s.Task(t).id)
  {
    var c, x := s.Task(t).c, s.Task(t).id;
    var s' := DoGo(s, t);
    assert LinkOk(s.L(c)) && Tied(s, c, t);
    assert CarryOk(s, t, x);
    GoShape(s, t);
    RefusedGone(s, t);
    forall p: nat ensures Live(s'.L(c).w, p) <==> Live(s.L(c).w, p) { LiveKept(s.L(c).w, t, Dequeue, p); }
    RefusedPlaced(s, s', c, t, x);
  }

  /** Where message x is after thread t was refused: free if it came from
      nowhere, else back in t's hands. */
  ghost predicate GivenUp(s: Sys, s': Sys, t: Tid, x: nat) {
    && s.Task(t).Sending? && x < |s.loc| && |s'.loc| == |s.loc| && s'.msgs == s.msgs
    && if s.Task(t).from.None? then
         x !in s'.lent && s'.loc == s.loc[x := Free] && s'.lent == s.lent - {x} && s'.Task(t) == Resting
       else
         s'.loc == s.loc && s'.lent == s.lent && s'.Task(t) == Holding(x, s.Task(t).from.value) && s'.loc[x] == Held(t)
  }

  lemma RefusedGone(s: Sys, t: Tid)
    requires Shape(s) && s.Task(t).Sending? && Refused(s.L(s.Task(t).c).w.q, t) && Tied(s, s.Task(t).c, t)
    requires s.Task(t).id < SIZE && s.loc[s.Task(t).id] == Held(t)
    ensures GivenUp(s, DoGo(s, t), t, s.Task(t).id)
  {
    assert LinkOk(s.L(s.Task(t).c));
    RingOutcome(s.L(s.Task(t).c).w, t);
  }

  lemma RefusedPlaced(s: Sys, s': Sys, c: Chan, t: Tid, x: nat)
    requires Extends(s, s', c, t) && AllPlaced(s) && GivenUp(s, s', t, x) && x < SIZE && s.loc[x] == Held(t)
    requires s.Task(t).id == x && SameLive(s.L(c).w, s'.L(c).w)
    ensures AllPlaced(s')
  {
    assert Placed(s, x);
    NotQueued(s, c, x);
    PlaceOne(s, s', c, t, x);
  }

  /** All other steps move no message. */
  lemma GoQuiet(s: Sys, t: Tid)
    requires SysInv(s) && (s.Task(t).Sending? || s.Task(t).Receiving?)
    requires s.Task(t).Sending? ==> !Reserving(s.L(s.Task(t).c).w.q, t, Prod) && !Refused(s.L(s.Task(t).c).w.q, t)
    requires s.Task(t).Receiving? ==> !Commits(s.L(s.Task(t).c).w.q, t, Cons)
    ensures AllPlaced(DoGo(s, t))
  {
    var c := s.Task(t).c;
    var s' := DoGo(s, t);
    assert LinkOk(s.L(c)) && Tied(s, c, t);
    forall p: nat ensures Live(s'.L(c).w, p) <==> Live(s.L(c).w, p) { LiveKept(s.L(c).w, t, Dequeue, p); }
    GoShape(s, t);
    QuietCarry(s, t);
    PlaceSame(s, s', c, t);
  }

  lemma QuietCarry(s: Sys, t: Tid)
    requires Shape(s) && AllTied(s) && (s.Task(t).Sending? || s.Task(t).Receiving?)
    requires s.Task(t).Sending? ==> !Reserving(s.L(s.Task(t).c).w.q, t, Prod) && !Refused(s.L(s.Task(t).c).w.q, t)
    requires s.Task(t).Receiving? ==> !Commits(s.L(s.Task(t).c).w.q, t, Cons)
    ensures forall x: nat :: Carries(DoGo(s, t), t, x) <==> Carries(s, t, x)
    ensures DoGo(s, t).loc == s.loc && DoGo(s, t).lent == s.lent && DoGo(s, t).msgs == s.msgs
  {
    var c := s.Task(t).c;
    assert LinkOk(s.L(c)) && Tied(s, c, t);
    RingOutcome(s.L(c).w, t);
  }

  lemma GoInv(s: Sys, t: Tid)
    requires SysInv(s) && (s.Task(t).Sending? || s.Task(t).Receiving?)
    ensures SysInv(DoGo(s, t))
  {
    GoShape(s, t);
    GoTied(s, t);
    var q := s.L(s.Task(t).c).w.q;
    if s.Task(t).Sending? {
      if Reserving(q, t, Prod) { GoReserve(s, t); }
      else if Refused(q, t) { GoRefused(s, t); }
      else { GoQuiet(s, t); }
    } else {
      if Commits(q, t, Cons) { GoTake(s, t); } else { GoQuiet(s, t); }
    }
  }

  /** Every action of every thread keeps the books. */
  lemma SysStep(s: Sys, t: Tid, a: Act)
    requires SysInv(s)
    ensures SysInv(SysNext(s, t, a))
  {
    match a
    case Request(msg) =>
      if s.Task(t).Resting? && exists x: nat :: LeastFree(s.lent, x) { RequestInv(s, t, msg); }
    case Receive(c) =>
      if s.Task(t).Resting? { EnterInv(s, t, c, Receiving(c), Dequeue); }
    case Forward =>
      if AtDevice(s, t) {
        EnterInv(s, t, Fwd, Sending(Fwd, s.Task(t).id, Some(s.Task(t).source)), Enqueue(Id(s.Task(t).id)));
      }
    case Reply(data) =>
      if AtDevice(s, t) { ReplyInv(s, t, data); }
    case Reclaim =>
      if AtDriver(s, t) { ReclaimInv(s, t); }
    case Hand(u) =>
      if CanHand(s, t, u) { HandInv(s, t, u); }
    case Go =>
      if s.Task(t).Sending? || s.Task(t).Receiving? { GoInv(s, t); }
  }

  lemma InitInv()
    ensures SysInv(Init3())
  {
    StartInv(false);
    var s := Init3();
    forall c ensures LinkOk(s.L(c)) {}
    forall c, t ensures Tied(s, c, t) {}
    forall x | 0 <= x < SIZE ensures Placed(s, x) {}
    forall c, p: nat ensures LiveOk(s, c, p) {}
    forall t, x: nat ensures CarryOk(s, t, x) {}
  }

  // ------------------------------------------------- what each action achieves

  predicate Inside(s: Sys, t: Tid) { s.Task(t).Sending? || s.Task(t).Receiving? }

  /** Other rings and other threads' tasks are as before. */
  ghost predicate Around(s: Sys, s': Sys, c: Chan, t: Tid) {
    && (forall d | d != c :: s'.L(d) == s.L(d))
    && (forall u | u != t :: s'.Task(u) == s.Task(u))
  }

  /** Thread t is now inside ring c, at the start of operation op, and nothing
      else about rings and tasks has changed. */
  ghost predicate Enters(s: Sys, s': Sys, t: Tid, c: Chan, task: Task, op: Op) {
    && Around(s, s', c, t) && s'.Task(t) == task
    && s'.L(c).w.q == s.L(c).w.q.Put(t, LoadTail(op))
  }

  lemma EnterRing(s: Sys, t: Tid, c: Chan, task: Task, op: Op)
    requires LinkOk(s.L(c)) && Idle(s.L(c).w.q, t) && Legal(false, op)
    ensures Enters(s, Enter(s, t, c, task, op), t, c, task, op)
  {
    Begins(s.L(c).w, t, op);
  }

  lemma RestingIdle(s: Sys, t: Tid, c: Chan)
    requires SysInv(s) && !Inside(s, t)
    ensures LinkOk(s.L(c)) && Idle(s.L(c).w.q, t)
  {
    assert LinkOk(s.L(c)) && Tied(s, c, t);
  }

  /** rpcmsg_request: the least free buffer is lent, filled with the message and
      on its way into the request ring. */
  lemma RequestSends(s: Sys, t: Tid, msg: Msg)
    requires SysInv(s) && s.Task(t).Resting? && exists x: nat :: LeastFree(s.lent, x)
    ensures var s' := SysNext(s, t, Request(msg));
            && s'.Task(t).Sending? && var x := s'.Task(t).id;
            && x < 32 && x !in s.lent && (forall y: nat | y < x :: y in s.lent)
            && Enters(s, s', t, Req, Sending(Req, x, None), Enqueue(Id(x)))
            && s'.lent == s.lent + {x} && s'.msgs == s.msgs[x := msg] && s'.loc == s.loc[x := Held(t)]
  {
    var x := Lent(s.lent);
    RestingIdle(s, t, Req);
    EnterRing(Lend(s, t, x, msg), t, Req, Sending(Req, x, None), Enqueue(Id(x)));
  }

  /** rpcmsg_receive: on its way out of ring c. */
  lemma ReceiveEnters(s: Sys, t: Tid, c: Chan)
    requires SysInv(s) && s.Task(t).Resting?
    ensures var s' := SysNext(s, t, Receive(c));
            && Enters(s, s', t, c, Receiving(c), Dequeue)
            && s'.lent == s.lent && s'.msgs == s.msgs && s'.loc == s.loc
  {
    RestingIdle(s, t, c);
    EnterRing(s, t, c, Receiving(c), Dequeue);
  }

  /** rpcmsg_forward: the message held is on its way into the forward ring, its
      contents as they were. */
  lemma ForwardSends(s: Sys, t: Tid)
    requires SysInv(s) && AtDevice(s, t)
    ensures var s', x := SysNext(s, t, Forward), s.Task(t).id;
            && Enters(s, s', t, Fwd, Sending(Fwd, x, Some(s.Task(t).source)), Enqueue(Id(x)))
            && s'.lent == s.lent && s'.msgs == s.msgs && s'.loc == s.loc
  {
    RestingIdle(s, t, Fwd);
    EnterRing(s, t, Fwd, Sending(Fwd, s.Task(t).id, Some(s.Task(t).source)), Enqueue(Id(s.Task(t).id)));
  }

  /** driver_rpc_ack_mmio_finish: the message held is on its way into the response
      ring, with the answer in word 2 and the other words as they were. */
  lemma ReplySends(s: Sys, t: Tid, data: Word)
    requires SysInv(s) && AtDevice(s, t)
    ensures var s', x := SysNext(s, t, Reply(data)), s.Task(t).id;
            && Enters(s, s', t, Resp, Sending(Resp, x, Some(s.Task(t).source)), Enqueue(Id(x)))
            && s'.lent == s.lent && s'.loc == s.loc && x < |s.msgs|
            && s'.msgs == s.msgs[x := Msg(s.msgs[x].mr0, s.msgs[x].mr1, data, s.msgs[x].mr3)]
  {
    var x := s.Task(t).id;
    RestingIdle(s, t, Resp);
    var s1 := s.(msgs := s.msgs[x := s.msgs[x].(mr2 := data)]);
    EnterRing(s1, t, Resp, Sending(Resp, x, Some(s.Task(t).source)), Enqueue(Id(x)));
  }

  /** A message handed on inside a party changes hands and nothing else. */
  lemma HandPasses(s: Sys, t: Tid, u: Tid)
    requires SysInv(s) && s.Task(t).Holding? && s.Task(u).Resting?
    ensures var s', x := SysNext(s, t, Hand(u)), s.Task(t).id;
            && s'.Task(u) == s.Task(t) && s'.Task(t) == Resting
            && (forall v | v != t && v != u :: s'.Task(v) == s.Task(v)) && (forall c :: s'.L(c) == s.L(c))
            && s'.lent == s.lent && s'.msgs == s.msgs && x < |s.loc| && s'.loc == s.loc[x := Held(u)]
  {
    assert CarryOk(s, t, s.Task(t).id);
  }

  /** rpcmsg_reclaim_buffer: a response in hand becomes a free buffer. */
  lemma ReclaimFrees(s: Sys, t: Tid)
    requires SysInv(s) && AtDriver(s, t)
    ensures var s', x := SysNext(s, t, Reclaim), s.Task(t).id;
            && x in s.lent && s'.lent == s.lent - {x} && s'.msgs == s.msgs && s'.Task(t) == Resting
            && (forall u | u != t :: s'.Task(u) == s.Task(u)) && (forall c :: s'.L(c) == s.L(c))
  {
    assert CarryOk(s, t, s.Task(t).id);
    assert Placed(s, s.Task(t).id);
  }

  // --------------------------------------------------------- what follows

  type Actions = seq<(Tid, Act)>

  ghost function SysRun(s: Sys, acts: Actions): (r: Sys)
    requires SysInv(s)
    ensures SysInv(r)
    decreases |acts|
  {
    if acts == [] then s
    else
      SysStep(s, acts[0].0, acts[0].1);
      SysRun(SysNext(s, acts[0].0, acts[0].1), acts[1..])
  }

  ghost predicate IsAt(s: Sys, x: nat, place: Loc) {
    match place
    case Free => x !in s.lent
    case Held(t) => Carries(s, t, x)
    case Queued(c, p) => Live(s.L(c).w, p) && s.L(c).w.log[p] == Id(x)
  }

  /** Conservation: in every reachable state each of the 32 ids is in exactly
      one place, and its bit is clear exactly when that place is the free list. */
  lemma ExactlyOnePlace(acts: Actions, x: nat)
    requires x < 32
    ensures SysInv(Init3())
    ensures var s := SysRun(Init3(), acts);
            && (forall place :: IsAt(s, x, place) <==> place == s.loc[x])
            && (x !in s.lent <==> s.loc[x] == Free)
  {
    InitInv();
    var s := SysRun(Init3(), acts);
    assert Placed(s, x);
    forall place ensures IsAt(s, x, place) <==> place == s.loc[x] {
      match place
      case Free =>
      case Held(t) => assert CarryOk(s, t, x);
      case Queued(c, p) => assert LiveOk(s, c, p);
    }
  }

  /** Only the thread that holds a message, or that has just been lent its
      buffer, ever changes its contents. */
  lemma OnlyHolderWrites(s: Sys, t: Tid, a: Act, x: nat)
    requires SysInv(s) && x < SIZE
    ensures s.loc[x].Queued? || (s.loc[x].Held? && s.loc[x].t != t) ==> SysNext(s, t, a).msgs[x] == s.msgs[x]
    ensures SysNext(s, t, a).msgs[x] != s.msgs[x] ==> SysNext(s, t, a).loc[x] == Held(t)
  {
    SysStep(s, t, a);
    match a
    case Request(msg) =>
      assert Placed(s, x);
    case Reply(data) =>
      if AtDevice(s, t) { assert CarryOk(s, t, s.Task(t).id); }
    case _ =>
  }

  /** The receiver gets the message that was sent at the position it claimed,
      contents included, and is then the only one to hold it. */
  lemma ReceivedAsSent(s: Sys, t: Tid)
    requires SysInv(s) && s.Task(t).Receiving? && Commits(s.L(s.Task(t).c).w.q, t, Cons)
    ensures var c := s.Task(t).c; var p := s.L(c).w.q.threads[t].pos; var s' := SysNext(s, t, Go);
            && p < |s.L(c).w.log| && p < |s.L(c).sent| && s.L(c).w.log[p].Id? && s.L(c).w.log[p].id < SIZE
            && s'.Task(t) == Holding(s.L(c).w.log[p].id, c)
            && s'.loc[s.L(c).w.log[p].id] == Held(t)
            && s'.msgs[s.L(c).w.log[p].id] == s.L(c).sent[p]
  {
    var c := s.Task(t).c;
    assert LinkOk(s.L(c)) && Tied(s, c, t);
    var p := s.L(c).w.q.threads[t].pos;
    LiveTaken(s.L(c).w, t, Dequeue, p);
    assert LiveOk(s, c, p);
    RingOutcome(s.L(c).w, t);
  }

  // ------------------------------------------------------------- never full

  lemma {:induction false} Pigeonhole<T>(s: set<T>, f: map<T, nat>, r: set<nat>)
    requires forall a | a in s :: a in f && f[a] in r
    requires forall a, b | a in s && b in s && a != b :: f[a] != f[b]
    ensures |s| <= |r|
    decreases s
  {
    if s != {} {
      var a :| a in s;
      Pigeonhole(s - {a}, f, r - {f[a]});
    }
  }

  function Range(lo: nat, hi: nat): (r: set<nat>)
    ensures forall i: nat :: i in r <==> lo <= i < hi
    decreases hi
  {
    if lo >= hi then {} else Range(lo, hi - 1) + {hi - 1}
  }

  lemma {:induction false} RangeSize(lo: nat, hi: nat)
    requires lo <= hi
    ensures |Range(lo, hi)| == hi - lo
  {
    if lo < hi {
      RangeSize(lo, hi - 1);
    }
  }

  /** No commit hides behind an unfinished earlier dequeue: then everything
      from the consumers' head on is still in the ring. */
  lemma AllLive(w: World, p0: nat)
    requires Inv(w) && w.q.cons.head.pos == w.q.cons.head.count
    requires w.q.cons.head.pos <= p0 < w.q.prod.tail.pos
    ensures Live(w, p0)
  {
    assert Counted(w.q, Cons);
    if p0 < w.q.cons.tail.pos && !Live(w, p0) {
      var f := map t | t in Flying(w.q, Cons) :: w.q.threads[t].pos;
      forall t | t in Flying(w.q, Cons)
        ensures w.q.cons.head.pos <= f[t] < w.q.cons.tail.pos && f[t] != p0 && w.takers[f[t]] == t
      {
        ClaimedAt(w, t);
      }
      FitsBetween(Flying(w.q, Cons), f, w.q.cons.head.pos, w.q.cons.tail.pos, p0);
      assert false;
    }
  }

  lemma ClaimedAt(w: World, t: Tid)
    requires Inv(w) && Flies(w.q, Cons, t)
    ensures var p := w.q.threads[t].pos;
            w.q.cons.head.pos <= p < w.q.cons.tail.pos == |w.takers| && w.takers[p] == t && Live(w, p)
  {
    assert LocalOk(w.q, w.q.threads[t]) && Faithful(w, t, w.q.threads[t]);
  }

  lemma FitsBetween<T>(s: set<T>, f: map<T, nat>, lo: nat, hi: nat, hole: nat)
    requires lo <= hole < hi
    requires forall a | a in s :: a in f && lo <= f[a] < hi && f[a] != hole
    requires forall a, b | a in s && b in s && a != b :: f[a] != f[b]
    ensures |s| < hi - lo
  {
    Pigeonhole(s, f, Range(lo, hi) - {hole});
    RangeSize(lo, hi);
  }

  predicate QueuedIn(s: Sys, c: Chan, x: nat)
    requires x < |s.loc|
  {
    s.loc[x].Queued? && s.loc[x].c == c
  }

  /** While no commit hides, an id outside a ring leaves room in it. */
  lemma QueuedDistinct(s: Sys, c: Chan, x: nat)
    requires SysInv(s) && x < SIZE && !QueuedIn(s, c, x)
    requires s.L(c).w.q.cons.head.pos == s.L(c).w.q.cons.head.count
    ensures s.L(c).w.q.prod.tail.pos - s.L(c).w.q.cons.head.pos < SIZE
  {
    var w := s.L(c).w;
    assert LinkOk(s.L(c));
    var ps := Range(w.q.cons.head.pos, w.q.prod.tail.pos);
    forall p | p in ps ensures w.log[p].Id? && w.log[p].id < SIZE && s.loc[w.log[p].id] == Queued(c, p) {
      AllLive(w, p);
      assert LiveOk(s, c, p);
    }
    var f := map p | p in ps :: w.log[p].id;
    FitsBetween(ps, f, 0, SIZE, x);
    RangeSize(w.q.cons.head.pos, w.q.prod.tail.pos);
  }

  /** A commit ahead of an earlier one leaves a hole: a position that still
      counts as used although its message has left the ring. */
  lemma HiddenCommit(w: World)
    requires Inv(w) && w.q.cons.head.pos != w.q.cons.head.count
    ensures exists p: nat :: w.q.cons.head.pos <= p < w.q.cons.tail.pos && !Live(w, p)
  {
    assert Counted(w.q, Cons);
    if forall p: nat | w.q.cons.head.pos <= p < w.q.cons.tail.pos :: Live(w, p) {
      var ps := Range(w.q.cons.head.pos, w.q.cons.tail.pos);
      var f: map<nat, nat> := map p | p in ps :: w.takers[p];
      forall p | p in ps ensures f[p] in Flying(w.q, Cons) && w.q.threads[f[p]].pos == p { assert Live(w, p); }
      Pigeonhole(ps, f, Flying(w.q, Cons));
      RangeSize(w.q.cons.head.pos, w.q.cons.tail.pos);
      assert false;
    }
  }

  lemma LiveInside(s: Sys, c: Chan, x: nat)
    requires SysInv(s) && x < SIZE && QueuedIn(s, c, x)
    ensures var w, p := s.L(c).w, s.loc[x].p;
            Live(w, p) && w.log[p] == Id(x) && w.q.cons.head.pos <= p < w.q.prod.tail.pos
  {
    var w, p := s.L(c).w, s.loc[x].p;
    assert LinkOk(s.L(c));
    assert Placed(s, x);
    if p < |w.takers| { ClaimedAt(w, w.takers[p]); }
  }

  function PlaceIn(s: Sys, x: nat): nat {
    if x < |s.loc| && s.loc[x].Queued? then s.loc[x].p else 0
  }

  lemma HoleOutside(s: Sys, c: Chan, n: nat)
    requires SysInv(s) && n == SIZE && s.L(c).w.q.prod.tail.pos - s.L(c).w.q.cons.head.pos == n
    requires s.L(c).w.q.cons.head.pos != s.L(c).w.q.cons.head.count
    ensures exists x: nat :: x < SIZE && !QueuedIn(s, c, x)
  {
    var w := s.L(c).w;
    assert LinkOk(s.L(c));
    HiddenCommit(w);
    var hole: nat :| w.q.cons.head.pos <= hole < w.q.cons.tail.pos && !Live(w, hole);
    if forall x: nat | x < SIZE :: QueuedIn(s, c, x) {
      var ids := Range(0, n);
      var f: map<nat, nat> := map x: nat | x in ids :: PlaceIn(s, x);
      forall x: nat | x in ids
        ensures w.q.cons.head.pos <= f[x] < w.q.prod.tail.pos && f[x] != hole && w.log[f[x]] == Id(x)
      {
        LiveInside(s, c, x);
      }
      FitsBetween(ids, f, w.q.cons.head.pos, w.q.prod.tail.pos, hole);
      RangeSize(0, n);
      assert false;
    }
  }

  /** The exact condition. A ring that is full holds all 32 ids, so that nobody
      is left who could be refused, if and only if no dequeue of it has
      committed ahead of an earlier one. */
  lemma FullExactly(s: Sys, c: Chan)
    requires SysInv(s) && s.L(c).w.q.prod.tail.pos - s.L(c).w.q.cons.head.pos == SIZE
    ensures (forall x: nat | x < SIZE :: QueuedIn(s, c, x)) <==>
              s.L(c).w.q.cons.head.pos == s.L(c).w.q.cons.head.count
  {
    if s.L(c).w.q.cons.head.pos != s.L(c).w.q.cons.head.count {
      HoleOutside(s, c, SIZE);
    } else if x: nat :| x < SIZE && !QueuedIn(s, c, x) {
      QueuedDistinct(s, c, x);
      assert false;
    }
  }

  /** Never full: a thread that has a message in hand finds room, whatever the
      others do, as long as no dequeue of that ring has committed ahead of an
      earlier one. A ring with a single consumer is always in that state. */
  lemma NeverFull(s: Sys, t: Tid)
    requires SysInv(s) && s.Task(t).Sending?
    ensures OneTaker(s.L(s.Task(t).c).w) ==>
              s.L(s.Task(t).c).w.q.cons.head.pos == s.L(s.Task(t).c).w.q.cons.head.count
    ensures s.L(s.Task(t).c).w.q.cons.head.pos == s.L(s.Task(t).c).w.q.cons.head.count ==>
              !Refused(s.L(s.Task(t).c).w.q, t)
  {
    var c, x := s.Task(t).c, s.Task(t).id;
    var w := s.L(c).w;
    assert LinkOk(s.L(c)) && Tied(s, c, t);
    assert LocalOk(w.q, w.q.threads[t]);
    if Refused(w.q, t) && w.q.cons.head.pos == w.q.cons.head.count {
      assert CarryOk(s, t, x);
      QueuedDistinct(s, c, x);
      assert false;
    }
  }
}
