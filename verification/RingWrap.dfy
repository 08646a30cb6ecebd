/** The ring as it is: every marker and every local is a uint32_t that wraps.
    As long as no snapshot gets too old, each of its decisions is the decision
    of the ring over unbounded counters. */
module RingWrap {
  import opened Words
  import opened Ring
  import opened RingSafety

  function Low(x: nat): nat { x % WRAP }

  function LowM(m: Marker): Marker { Marker(Low(m.pos), Low(m.count)) }

  function LowB(b: Bound): Bound { Bound(LowM(b.tail), LowM(b.head)) }

  function LowL(l: Local): Local {
    match l
    case LoadTail(o) => l
    case Wait(o, ot) => Wait(o, LowM(ot))
    case CheckRoom(o, ot) => CheckRoom(o, LowM(ot))
    case Reserve(o, ot) => Reserve(o, LowM(ot))
    case Access(o, p, k, id, buf) => Access(o, Low(p), k, id, buf)
    case LoadHead(o, p, x) => LoadHead(o, Low(p), x)
    case ReloadTail(o, p, x, oh) => ReloadTail(o, Low(p), x, LowM(oh))
    case Publish(o, p, x, oh, t) => Publish(o, Low(p), x, LowM(oh), LowM(t))
    case Done(o, r) => if r.Finished? then Done(o, Finished(Low(r.pos), r.item)) else l
  }

  /** The state of the uint32_t ring that a state over unbounded counters stands for. */
  function Wrap(q: Queue): Queue {
    Queue(LowB(q.prod), LowB(q.cons), q.ring, q.msgs, q.events, map t | t in q.threads :: LowL(q.threads[t]))
  }

  /** Operations since the snapshot was taken, below which no decision changes. */
  const MAX_AGE: nat := WRAP - SIZE

  /** Thread t's snapshot is young enough for its next step. */
  ghost predicate Young(q: Queue, t: Tid) {
    t in q.threads ==>
      var l := q.threads[t];
      var b := q.B(l.op.Side());
      && (l.Wait? || l.CheckRoom? || l.Reserve? ==> b.tail.pos - l.ot.pos < MAX_AGE)
      && (l.Publish? ==> b.head.count - l.oh.count < WRAP)
  }

  // -------------------------------------------------------------- arithmetic

  lemma LowSub(x: int, y: nat)
    ensures (x - Low(y)) % WRAP == (x - y) % WRAP
  {
    assert y == WRAP * (y / WRAP) + Low(y);
    Multiple(x - y, y / WRAP);
  }

  lemma LowAdd(x: nat, y: int)
    ensures (Low(x) + y) % WRAP == (x + y) % WRAP
  {
    assert x == WRAP * (x / WRAP) + Low(x);
    Multiple(Low(x) + y, x / WRAP);
  }

  lemma {:induction false} Multiple(x: int, k: nat)
    ensures (x + WRAP * k) % WRAP == x % WRAP
  {
    if k > 0 {
      Multiple(x, k - 1);
      assert x + WRAP * k == (x + WRAP * (k - 1)) + WRAP;
    }
  }

  lemma LowEqual(x: nat, y: nat)
    requires x <= y < x + WRAP
    ensures Low(x) == Low(y) <==> x == y
  {
  }

  lemma LowInc(x: nat)
    ensures Inc(Wrapped, Low(x)) == Low(Inc(Exact, x))
  {
    LowAdd(x, 1);
  }

  lemma LowSlot(x: nat)
    ensures Low(x) % SIZE == x % SIZE
  {
  }

  // --------------------------------------------------------------- decisions

  lemma DistanceAgrees(pos: nat, head: nat)
    requires head < pos + MAX_AGE && pos <= head + HTD_MAX + 1
    ensures TooFar(Wrapped, Low(pos), Low(head)) == TooFar(Exact, pos, head)
  {
    LowSub(Low(pos), head);
    var h: int := head;
    LowAdd(pos, -h);
    if pos < head {
      assert (pos - head) % WRAP == pos - head + WRAP;
    }
  }

  lemma SpaceAgrees(consHead: nat, pos: nat)
    requires pos <= SIZE + consHead && consHead < pos + MAX_AGE
    ensures NoRoom(Wrapped, Low(consHead), Low(pos)) == NoRoom(Exact, consHead, pos)
  {
    LowSub(SIZE + Low(consHead), pos);
    LowAdd(consHead, SIZE - pos);
  }

  lemma EmptinessAgrees(prodHead: nat, pos: nat)
    requires pos <= prodHead < pos + WRAP
    ensures Nothing(Wrapped, Low(prodHead), Low(pos)) == Nothing(Exact, prodHead, pos)
  {
    LowSub(Low(prodHead), pos);
    var p: int := pos;
    LowAdd(prodHead, -p);
  }

  lemma NewHeadAgrees(oh: Marker, t: Marker)
    requires oh.count < t.count <= oh.count + WRAP
    ensures NewHead(Wrapped, LowM(oh), LowM(t)) == LowM(NewHead(Exact, oh, t))
  {
    LowInc(oh.count);
    LowEqual(oh.count + 1, t.count);
  }

  /** The age bound is sharp: among snapshots of one age below 2^32, the uint32_t
      space test is right about every ring exactly when the age is below
      2^32 - 32. One operation older and a ring with room is reported full. */
  lemma AgeBoundSharp(age: nat)
    requires age < 0x1_0000_0000
    ensures (forall consHead: nat, tail: nat :: SpaceTestRight(consHead, tail, age)) <==> age < 0x1_0000_0000 - 32
  {
    if age < MAX_AGE {
      forall consHead: nat, tail: nat ensures SpaceTestRight(consHead, tail, age) {
        if consHead <= tail <= consHead + SIZE && age <= tail { SpaceAgrees(consHead, tail - age); }
      }
    } else {
      var tail, consHead := WRAP, WRAP - (age - MAX_AGE);
      LowSub(SIZE + Low(consHead), tail - age);
      LowAdd(consHead, SIZE - (tail - age));
      assert SIZE + consHead - (tail - age) == WRAP;
      assert !SpaceTestRight(consHead, tail, age);
    }
  }

  predicate SpaceTestRight(consHead: nat, tail: nat, age: nat) {
    consHead <= tail <= consHead + SIZE && age <= tail ==>
      NoRoom(Wrapped, Low(consHead), Low(tail - age)) == NoRoom(Exact, consHead, tail - age)
  }

  /** rpcmsg_tail_wait of the uint32_t ring in plain numbers. */
  lemma WaitExactly32(q: Queue, t: Tid, op: Op)
    requires WellFormed(q) && t in q.threads && q.threads[t].Wait?
    ensures var l := q.threads[t];
            Next(Wrapped, q, t, op)
            == q.Put(t, if (l.ot.pos - q.B(l.op.Side()).head.pos) % 0x1_0000_0000 <= 8 then CheckRoom(l.op, l.ot)
                        else LoadTail(l.op))
  {
  }

  // -------------------------------------------------------------- refinement

  lemma WrapWellFormed(q: Queue)
    requires WellFormed(q)
    ensures WellFormed(Wrap(q))
  {
  }

  lemma WrapPut(q: Queue, t: Tid, l: Local)
    ensures Wrap(q.Put(t, l)) == Wrap(q).Put(t, LowL(l))
  {
  }

  lemma LookAgrees(w: World, t: Tid)
    requires Inv(w) && Quiet(w.q, t) && Young(w.q, t)
    ensures var l := w.q.threads[t];
            Look(Wrapped, Wrap(w.q), LowB(w.q.B(l.op.Side())), LowL(l)) == LowL(Look(Exact, w.q, w.q.B(l.op.Side()), l))
  {
    var l := w.q.threads[t];
    assert LocalOk(w.q, l);
    if l.Wait? {
      DistanceAgrees(l.ot.pos, w.q.B(l.op.Side()).head.pos);
    } else if l.CheckRoom? {
      if l.op.Enqueue? { SpaceAgrees(w.q.cons.head.pos, l.ot.pos); }
      else { EmptinessAgrees(w.q.prod.head.pos, l.ot.pos); }
    }
  }

  /** Both compare-and-swaps succeed in the uint32_t ring exactly when they do
      over unbounded counters. */
  lemma SwapsAgree(w: World, t: Tid)
    requires Inv(w) && t in w.q.threads && Young(w.q, t)
    ensures var l := w.q.threads[t]; var b := w.q.B(l.op.Side());
            && (l.Reserve? ==> (LowM(b.tail) == LowM(l.ot) <==> b.tail == l.ot))
            && (l.Publish? ==> (LowM(b.head) == LowM(l.oh) <==> b.head == l.oh))
  {
    var l := w.q.threads[t];
    var b := w.q.B(l.op.Side());
    assert LocalOk(w.q, l);
    if l.Reserve? { LowEqual(l.ot.pos, b.tail.pos); LowEqual(l.ot.count, b.tail.count); }
    if l.Publish? { LowEqual(l.oh.count, b.head.count); }
  }

  lemma AccessAgrees(q: Queue, t: Tid)
    requires WellFormed(q) && t in q.threads && q.threads[t].Access?
    ensures WellFormed(Wrap(q))
    ensures AccessStep(Wrap(q), t, LowL(q.threads[t])) == Wrap(AccessStep(q, t, q.threads[t]))
  {
    WrapWellFormed(q);
    LowSlot(q.threads[t].pos);
    var l' := AccessStep(q, t, q.threads[t]).threads[t];
    assert AccessStep(Wrap(q), t, LowL(q.threads[t])).threads == Wrap(q).threads[t := LowL(l')];
    assert Wrap(AccessStep(q, t, q.threads[t])).threads == Wrap(q).threads[t := LowL(l')];
  }

  lemma QuietAgrees(w: World, t: Tid)
    requires Inv(w) && Quiet(w.q, t) && Young(w.q, t)
    ensures WellFormed(Wrap(w.q))
    ensures Move(Wrapped, Wrap(w.q), t, LowL(w.q.threads[t])) == Wrap(Move(Exact, w.q, t, w.q.threads[t]))
  {
    WrapWellFormed(w.q);
    SwapsAgree(w, t);
    LookAgrees(w, t);
    WrapPut(w.q, t, Look(Exact, w.q, w.q.B(w.q.threads[t].op.Side()), w.q.threads[t]));
  }

  lemma ReserveAgrees(w: World, t: Tid)
    requires Inv(w) && ReadyToReserve(w.q, t)
    ensures WellFormed(Wrap(w.q))
    ensures Move(Wrapped, Wrap(w.q), t, LowL(w.q.threads[t])) == Wrap(Move(Exact, w.q, t, w.q.threads[t]))
  {
    var l := w.q.threads[t];
    WrapWellFormed(w.q);
    LowInc(l.ot.pos);
    LowInc(l.ot.count);
    WrapPut(w.q.SetTail(l.op.Side(), Marker(l.ot.pos + 1, l.ot.count + 1)), t,
        Access(l.op, l.ot.pos, FirstAccess(l.op), 0, ZeroMsg()));
  }

  lemma PublishAgrees(w: World, t: Tid)
    requires Inv(w) && ReadyToPublish(w.q, t)
    ensures WellFormed(Wrap(w.q))
    ensures Move(Wrapped, Wrap(w.q), t, LowL(w.q.threads[t])) == Wrap(Move(Exact, w.q, t, w.q.threads[t]))
  {
    var l := w.q.threads[t];
    WrapWellFormed(w.q);
    assert LocalOk(w.q, l);
    NewHeadAgrees(l.oh, l.t);
    WrapPut(w.q.SetHead(l.op.Side(), NewHead(Exact, l.oh, l.t)), t, Done(l.op, Finished(l.pos, l.item)));
  }

  /** The commuting square: one step of the uint32_t ring is one step of the
      unbounded ring, seen through Wrap. */
  lemma StepAgrees(w: World, t: Tid, op: Op)
    requires Inv(w) && Young(w.q, t)
    ensures WellFormed(Wrap(w.q))
    ensures Next(Wrapped, Wrap(w.q), t, op) == Wrap(Step(w, t, op).q)
  {
    WrapWellFormed(w.q);
    if Idle(w.q, t) {
      WrapPut(w.q, t, LoadTail(op));
    } else if w.q.threads[t].Access? {
      AccessAgrees(w.q, t);
    } else {
      if Quiet(w.q, t) { QuietAgrees(w, t); }
      else if w.q.threads[t].Reserve? { ReserveAgrees(w, t); }
      else { PublishAgrees(w, t); }
    }
  }

  /** No thread ever takes a step from a snapshot older than the bound. */
  ghost predicate YoungRun(w: World, sched: Schedule)
    requires Inv(w)
    decreases |sched|
  {
    sched == [] ||
    (StepInv(w, sched[0].0, sched[0].1);
     Young(w.q, sched[0].0) && YoungRun(Step(w, sched[0].0, sched[0].1), sched[1..]))
  }

  /** c is where the uint32_t ring is after following the schedule from q. */
  ghost predicate Follows(q: Queue, sched: Schedule, c: Queue)
    decreases |sched|
  {
    if sched == [] then q == c
    else WellFormed(q) && Follows(Next(Wrapped, q, sched[0].0, sched[0].1), sched[1..], c)
  }

  /** Whole runs: the uint32_t ring is always the wrapped image of the unbounded
      ring, so every theorem about the latter speaks about the former. */
  lemma {:induction false} RunAgrees(w: World, sched: Schedule)
    requires Inv(w) && YoungRun(w, sched)
    ensures Follows(Wrap(w.q), sched, Wrap(Run(w, sched).q))
    decreases |sched|
  {
    if sched != [] {
      StepAgrees(w, sched[0].0, sched[0].1);
      StepInv(w, sched[0].0, sched[0].1);
      RunAgrees(Step(w, sched[0].0, sched[0].1), sched[1..]);
    }
  }

  lemma TailsGrow(w: World, t: Tid, op: Op, side: Side)
    requires Inv(w)
    ensures Step(w, t, op).q.B(side).tail.pos <= w.q.B(side).tail.pos + 1
  {
  }

  /** The hypothesis on ages costs nothing before the counters wrap: a run of
      fewer than 2^32 - 32 steps from the start cannot violate it. */
  lemma {:induction false} ShortRunsAreYoung(w: World, sched: Schedule)
    requires Inv(w)
    requires w.q.prod.tail.pos + |sched| < 0x1_0000_0000 - 32 && w.q.cons.tail.pos + |sched| < 0x1_0000_0000 - 32
    ensures YoungRun(w, sched)
    decreases |sched|
  {
    if sched != [] {
      var t, op := sched[0].0, sched[0].1;
      StepInv(w, t, op);
      TailsGrow(w, t, op, Prod);
      TailsGrow(w, t, op, Cons);
      ShortRunsAreYoung(Step(w, t, op), sched[1..]);
    }
  }

  /** So the uint32_t ring follows the unbounded one over every run from the
      start with fewer than 2^32 - 32 steps. */
  lemma ShortRunAgrees(events: bool, sched: Schedule)
    requires |sched| < 0x1_0000_0000 - 32
    ensures Inv(Start(events)) && Follows(Init(events), sched, Wrap(Run(Start(events), sched).q))
  {
    StartInv(events);
    ShortRunsAreYoung(Start(events), sched);
    RunAgrees(Start(events), sched);
    assert Wrap(Init(events)) == Init(events);
  }
}
