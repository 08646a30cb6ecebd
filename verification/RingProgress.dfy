/** What the ring's waits, failures and retries mean: how many threads can be
    in flight, why nobody waits for ever, how often a commit can be retried and
    when "full" and "empty" are reported. */
module RingProgress {
  import opened Ring
  import opened RingSafety

  // --------------------------------------------------- in-flight accounting

  /** The count gap is the number of threads in flight, at most 9 of them, and
      the positions of head and tail meet exactly when there is none. */
  lemma InFlightBound(w: World, side: Side)
    requires Inv(w)
    ensures |Flying(w.q, side)| == w.q.B(side).tail.count - w.q.B(side).head.count <= 9
    ensures w.q.B(side).head.pos == w.q.B(side).tail.pos <==> Flying(w.q, side) == {}
  {
    assert Counted(w.q, side);
    assert Flying(w.q, side) == {} <==> |Flying(w.q, side)| == 0;
  }

  /** rpcmsg_tail_wait in plain numbers: a thread is let through to the space
      test exactly if its tail snapshot is between the head and eight past it;
      otherwise it loads the tail again. Nothing else changes. */
  lemma WaitExactly(w: World, t: Tid, op: Op)
    requires Inv(w) && t in w.q.threads && w.q.threads[t].Wait?
    ensures var l := w.q.threads[t]; var h := w.q.B(l.op.Side()).head.pos;
            Step(w, t, op).q
            == w.q.Put(t, if h <= l.ot.pos <= h + 8 then CheckRoom(l.op, l.ot) else LoadTail(l.op))
  {
  }

  /** Steps a thread in flight still needs when it runs alone. */
  function Rest(q: Queue, l: Local): (n: nat)
    ensures n <= 8
  {
    var current := (l.ReloadTail? || l.Publish?) && l.oh == q.B(l.op.Side()).head;
    match l
    case Access(_, _, k, _, _) => if k <= 4 then 8 - k else 4
    case LoadHead(_, _, _) => 3
    case ReloadTail(_, _, _, _) => if current then 2 else 4
    case Publish(_, _, _, _, _) => if current then 1 else 3
    case _ => 0
  }

  /** All that thread u changes while it is in flight on a side: its own locals,
      the slots, and the head of the side. */
  ghost predicate Beside(q: Queue, q': Queue, u: Tid, side: Side) {
    && (forall v | v != u :: v in q'.threads <==> v in q.threads)
    && (forall v | v != u && v in q.threads :: q'.threads[v] == q.threads[v])
    && q'.B(side).tail == q.B(side).tail && q'.B(Other(side)) == q.B(Other(side))
  }

  lemma SoloStep(w: World, u: Tid, op: Op)
    requires Inv(w) && u in w.q.threads && InFlight(w.q.threads[u])
    ensures u in Step(w, u, op).q.threads
    ensures var l' := Step(w, u, op).q.threads[u];
            || (l'.Done? && l'.result.Finished?)
            || (InFlight(l') && l'.op == w.q.threads[u].op && Rest(Step(w, u, op).q, l') < Rest(w.q, w.q.threads[u]))
  {
  }

  lemma SoloBeside(q: Queue, u: Tid, op: Op)
    requires WellFormed(q) && u in q.threads && InFlight(q.threads[u])
    ensures Beside(q, Next(Exact, q, u, op), u, q.threads[u].op.Side())
  {
  }

  ghost function Alone(u: Tid, n: nat): Schedule {
    seq(n, _ => (u, Dequeue))
  }

  /** One step of a thread that runs alone, seen from the runs that follow it. */
  lemma SoloOnce(w: World, u: Tid) returns (w': World)
    requires Inv(w) && u in w.q.threads && InFlight(w.q.threads[u])
    ensures Inv(w') && u in w'.q.threads && Beside(w.q, w'.q, u, w.q.threads[u].op.Side())
    ensures || (w'.q.threads[u].Done? && w'.q.threads[u].result.Finished?)
            || (InFlight(w'.q.threads[u]) && w'.q.threads[u].op == w.q.threads[u].op
                && Rest(w'.q, w'.q.threads[u]) < Rest(w.q, w.q.threads[u]))
    ensures Run(w, Alone(u, 1)) == w' && forall m: nat :: Run(w, Alone(u, m + 1)) == Run(w', Alone(u, m))
  {
    SoloStep(w, u, Dequeue);
    SoloBeside(w.q, u, Dequeue);
    StepInv(w, u, Dequeue);
    w' := Step(w, u, Dequeue);
    forall m: nat ensures Run(w, Alone(u, m + 1)) == Run(w', Alone(u, m)) {
      assert Alone(u, m + 1)[1..] == Alone(u, m);
    }
    assert Run(w, Alone(u, 0 + 1)) == Run(w', Alone(u, 0));
  }

  /** A thread in flight never waits for anybody: left alone it commits within
      eight steps, whatever stale snapshot it holds. */
  lemma {:induction false} SoloFinish(w: World, u: Tid) returns (n: nat, w': World)
    requires Inv(w) && u in w.q.threads && InFlight(w.q.threads[u])
    ensures n <= Rest(w.q, w.q.threads[u])
    ensures w' == Run(w, Alone(u, n)) && u in w'.q.threads
    ensures w'.q.threads[u].Done? && w'.q.threads[u].result.Finished?
    ensures Beside(w.q, w'.q, u, w.q.threads[u].op.Side())
    decreases Rest(w.q, w.q.threads[u])
  {
    var w1 := SoloOnce(w, u);
    if w1.q.threads[u].Done? { return 1, w1; }
    var m, w2 := SoloFinish(w1, u);
    BesideTrans(w.q, w1.q, w2.q, u, w.q.threads[u].op.Side());
    return m + 1, w2;
  }

  lemma BesideTrans(q: Queue, q1: Queue, q2: Queue, u: Tid, side: Side)
    requires Beside(q, q1, u, side) && Beside(q1, q2, u, side)
    ensures Beside(q, q2, u, side)
  {
  }

  lemma RunNext(w: World, x: (Tid, Op), rest: Schedule, sched: Schedule)
    requires Inv(w) && sched == [x] + rest
    ensures Inv(Step(w, x.0, x.1)) && Run(w, sched) == Run(Step(w, x.0, x.1), rest)
  {
    StepInv(w, x.0, x.1);
    assert sched[1..] == rest;
  }

  lemma Heads<T>(a: seq<T>, b: seq<T>)
    requires a != []
    ensures a == [a[0]] + a[1..] && a + b == [a[0]] + (a[1..] + b)
  {
  }

  lemma RunFirst(w: World, a: Schedule, b: Schedule) returns (w': World)
    requires Inv(w) && a != []
    ensures Inv(w') && Run(w, a) == Run(w', a[1..]) && Run(w, a + b) == Run(w', a[1..] + b)
  {
    Heads(a, b);
    RunNext(w, a[0], a[1..], a);
    RunNext(w, a[0], a[1..] + b, a + b);
    w' := Step(w, a[0].0, a[0].1);
  }

  lemma {:induction false} RunBoth(w: World, a: Schedule, b: Schedule)
    requires Inv(w)
    ensures Run(w, a + b) == Run(Run(w, a), b)
    decreases |a|
  {
    if a == [] {
      assert a + b == b;
    } else {
      var w' := RunFirst(w, a, b);
      RunBoth(w', a[1..], b);
    }
  }

  /** Those not in flight on a side are left alone, and so is its tail. */
  ghost predicate Behind(q: Queue, q': Queue, side: Side) {
    && (forall v | v in q.threads && !Flies(q, side, v) :: v in q'.threads && q'.threads[v] == q.threads[v])
    && q'.B(side).tail == q.B(side).tail
  }

  lemma OneFewer(q: Queue, q': Queue, u: Tid, side: Side)
    requires Flies(q, side, u) && Beside(q, q', u, side) && u in q'.threads && q'.threads[u].Done?
    ensures |Flying(q, side)| == |Flying(q', side)| + 1 && Behind(q, q', side)
    ensures forall v :: Flies(q', side, v) ==> Flies(q, side, v)
  {
    MoreFlying(q', q, side, u);
  }

  /** The threads in flight on a side can all finish, one after the other, in
      eight steps each. */
  lemma {:induction false} AllFinish(w: World, side: Side) returns (sched: Schedule)
    requires Inv(w)
    ensures |sched| <= 8 * |Flying(w.q, side)|
    ensures Flying(Run(w, sched).q, side) == {} && Behind(w.q, Run(w, sched).q, side)
    decreases |Flying(w.q, side)|
  {
    if Flying(w.q, side) == {} {
      sched := [];
    } else {
      var u :| u in Flying(w.q, side);
      var n, w1 := SoloFinish(w, u);
      OneFewer(w.q, w1.q, u, side);
      var rest := AllFinish(w1, side);
      sched := Alone(u, n) + rest;
      RunBoth(w, Alone(u, n), rest);
    }
  }

  /** No deadlock: if a thread that has just loaded the tail must go on waiting
      in rpcmsg_tail_wait, then another thread is in flight on its side, and the
      threads in flight, none of which waits for anybody, can release it in at
      most eight steps each: its next look at the head lets it through. */
  lemma NoDeadlock(w: World, t: Tid, op: Op) returns (sched: Schedule)
    requires Inv(w) && t in w.q.threads && w.q.threads[t].Wait?
    requires w.q.threads[t].ot == w.q.B(w.q.threads[t].op.Side()).tail
    requires w.q.threads[t].ot.pos > w.q.B(w.q.threads[t].op.Side()).head.pos + 8
    ensures exists u :: u != t && u in Flying(w.q, w.q.threads[t].op.Side())
    ensures |sched| <= 8 * |Flying(w.q, w.q.threads[t].op.Side())| <= 72
    ensures t in Run(w, sched).q.threads && Run(w, sched).q.threads[t] == w.q.threads[t]
    ensures Run(w, sched + [(t, op)]).q.threads
            == Run(w, sched).q.threads[t := CheckRoom(w.q.threads[t].op, w.q.threads[t].ot)]
  {
    var side := w.q.threads[t].op.Side();
    InFlightBound(w, side);
    var u :| u in Flying(w.q, side);
    sched := AllFinish(w, side);
    var w' := Run(w, sched);
    assert !Flies(w.q, side, t);
    InFlightBound(w', side);
    RunBoth(w, sched, [(t, op)]);
    LetThrough(w', t, op);
  }

  lemma LetThrough(w: World, t: Tid, op: Op)
    requires Inv(w) && t in w.q.threads && w.q.threads[t].Wait?
    requires !TooFar(Exact, w.q.threads[t].ot.pos, w.q.B(w.q.threads[t].op.Side()).head.pos)
    ensures Run(w, [(t, op)]).q.threads == w.q.threads[t := CheckRoom(w.q.threads[t].op, w.q.threads[t].ot)]
  {
    StepInv(w, t, op);
    assert Run(w, [(t, op)]) == Run(Step(w, t, op), []) by { assert [(t, op)][1..] == []; }
  }

  // ---------------------------------------------------------- commit retries

  /** Commits that succeed on a side along a schedule. */
  ghost function CommitsMade(w: World, sched: Schedule, side: Side): nat
    requires Inv(w)
    decreases |sched|
  {
    if sched == [] then 0
    else
      StepInv(w, sched[0].0, sched[0].1);
      (if Commits(w.q, sched[0].0, side) then 1 else 0)
      + CommitsMade(Step(w, sched[0].0, sched[0].1), sched[1..], side)
  }

  lemma HeadCounts(q: Queue, t: Tid, op: Op, side: Side)
    requires WellFormed(q)
    ensures Next(Exact, q, t, op).B(side).head.count == q.B(side).head.count + if Commits(q, t, side) then 1 else 0
  {
  }

  lemma {:induction false} RunCounts(w: World, sched: Schedule, side: Side)
    requires Inv(w)
    ensures Run(w, sched).q.B(side).head.count == w.q.B(side).head.count + CommitsMade(w, sched, side)
    decreases |sched|
  {
    if sched != [] {
      HeadCounts(w.q, sched[0].0, sched[0].1, side);
      StepInv(w, sched[0].0, sched[0].1);
      RunCounts(Step(w, sched[0].0, sched[0].1), sched[1..], side);
    }
  }

  /** A commit attempt fails if and only if a commit succeeded on its side since
      the thread loaded the head. */
  lemma RetryMeansProgress(w: World, sched: Schedule, t: Tid)
    requires Inv(w) && t in w.q.threads && w.q.threads[t].ReloadTail?
    requires w.q.threads[t].oh == w.q.B(w.q.threads[t].op.Side()).head
    requires var q' := Run(w, sched).q;
             && t in q'.threads && q'.threads[t].Publish?
             && q'.threads[t].op == w.q.threads[t].op && q'.threads[t].oh == w.q.threads[t].oh
    ensures var side := w.q.threads[t].op.Side();
            !Commits(Run(w, sched).q, t, side) <==> CommitsMade(w, sched, side) > 0
  {
    RunCounts(w, sched, w.q.threads[t].op.Side());
    assert LocalOk(Run(w, sched).q, Run(w, sched).q.threads[t]);
  }

  /** Reservations that succeed on a side along a schedule. */
  ghost function ReservationsMade(w: World, sched: Schedule, side: Side): nat
    requires Inv(w)
    decreases |sched|
  {
    if sched == [] then 0
    else
      StepInv(w, sched[0].0, sched[0].1);
      (if Reserving(w.q, sched[0].0, side) then 1 else 0)
      + ReservationsMade(Step(w, sched[0].0, sched[0].1), sched[1..], side)
  }

  lemma TailCounts(q: Queue, t: Tid, op: Op, side: Side)
    requires WellFormed(q)
    ensures Next(Exact, q, t, op).B(side).tail.count == q.B(side).tail.count + if Reserving(q, t, side) then 1 else 0
  {
  }

  lemma {:induction false} RunReserves(w: World, sched: Schedule, side: Side)
    requires Inv(w)
    ensures Run(w, sched).q.B(side).tail.count == w.q.B(side).tail.count + ReservationsMade(w, sched, side)
    decreases |sched|
  {
    if sched != [] {
      TailCounts(w.q, sched[0].0, sched[0].1, side);
      StepInv(w, sched[0].0, sched[0].1);
      RunReserves(Step(w, sched[0].0, sched[0].1), sched[1..], side);
    }
  }

  /** A reservation is lost if and only if another one succeeded on its side since
      the thread loaded the tail. The thread that lost goes back to its wait with
      the tail that beat it. */
  lemma LostMeansProgress(w: World, sched: Schedule, t: Tid, op: Op)
    requires Inv(w) && t in w.q.threads && w.q.threads[t].Wait?
    requires w.q.threads[t].ot == w.q.B(w.q.threads[t].op.Side()).tail
    requires var q' := Run(w, sched).q;
             t in q'.threads && q'.threads[t] == Reserve(w.q.threads[t].op, w.q.threads[t].ot)
    ensures var side := w.q.threads[t].op.Side();
            !Reserving(Run(w, sched).q, t, side) <==> ReservationsMade(w, sched, side) > 0
    ensures var q, l := Run(w, sched).q, w.q.threads[t];
            !Reserving(q, t, l.op.Side()) ==>
              Step(Run(w, sched), t, op).q == q.Put(t, Wait(l.op, q.B(l.op.Side()).tail))
  {
    var w', l := Run(w, sched), w.q.threads[t];
    RunReserves(w, sched, l.op.Side());
    assert LocalOk(w'.q, w'.q.threads[t]);
  }

  predicate IsStale(q: Queue, side: Side, t: Tid) {
    && t in q.threads && q.threads[t].op.Side() == side
    && (q.threads[t].ReloadTail? || q.threads[t].Publish?)
    && q.threads[t].oh != q.B(side).head
  }

  ghost function Stale(q: Queue, side: Side): set<Tid> {
    set t | t in q.threads && IsStale(q, side, t)
  }

  function Triangle(n: nat): nat {
    if n == 0 then 0 else n + Triangle(n - 1)
  }

  lemma TriangleIs(n: nat)
    ensures 2 * Triangle(n) == n * (n + 1)
  {
  }

  lemma {:induction false} TriangleSmall(n: nat)
    requires n <= 9
    ensures Triangle(n) <= 45
  {
    TriangleGrows(n, 9);
    assert Triangle(4) == 10;
    assert Triangle(9) == 45;
  }

  lemma {:induction false} TriangleGrows(m: nat, n: nat)
    requires m <= n
    ensures Triangle(m) <= Triangle(n)
  {
    if m < n { TriangleGrows(m, n - 1); }
  }

  /** Commit attempts that can still happen on a side without new reservations. */
  ghost function Budget(q: Queue, side: Side): nat {
    Triangle(|Flying(q, side)|) + |Stale(q, side)|
  }

  predicate Attempts(q: Queue, side: Side, t: Tid) {
    t in q.threads && q.threads[t].Publish? && q.threads[t].op.Side() == side
  }

  lemma Smaller<T>(a: set<T>, b: set<T>)
    requires a <= b
    ensures |a| <= |b|
  {
    assert b == a + (b - a);
  }

  lemma StaleFlies(q: Queue, side: Side)
    ensures Stale(q, side) <= Flying(q, side)
  {
    forall u | u in Stale(q, side) ensures u in Flying(q, side) { assert IsStale(q, side, u) && Flies(q, side, u); }
  }

  /** A successful commit pays for every snapshot it turns stale. */
  lemma CommitPays(w: World, t: Tid, op: Op, side: Side)
    requires Inv(w) && Attempts(w.q, side, t) && w.q.threads[t].oh == w.q.B(side).head
    ensures Budget(Step(w, t, op).q, side) + 1 <= Budget(w.q, side)
  {
    var q' := Step(w, t, op).q;
    assert |Flying(w.q, side)| == |Flying(q', side)| + 1 by { MoreFlying(q', w.q, side, t); }
    StaleFlies(q', side);
    Smaller(Stale(q', side), Flying(q', side));
  }

  /** A failed commit refreshes its snapshot. */
  lemma RetryPays(w: World, t: Tid, op: Op, side: Side)
    requires Inv(w) && Attempts(w.q, side, t) && w.q.threads[t].oh != w.q.B(side).head
    ensures Budget(Step(w, t, op).q, side) + 1 <= Budget(w.q, side)
  {
    var q' := Step(w, t, op).q;
    SameFlying(w.q, q', side);
    assert t in Stale(w.q, side);
    Smaller(Stale(q', side) + {t}, Stale(w.q, side));
  }

  lemma OthersQuiet(q: Queue, t: Tid, op: Op, side: Side)
    requires WellFormed(q) && !Attempts(q, side, t) && !Reserving(q, t, side)
    ensures Next(Exact, q, t, op).B(side).head == q.B(side).head
    ensures Flies(Next(Exact, q, t, op), side, t) == Flies(q, side, t)
    ensures IsStale(Next(Exact, q, t, op), side, t) ==> IsStale(q, side, t)
  {
  }

  lemma OnlyOwnLocals(q: Queue, t: Tid, op: Op)
    requires WellFormed(q)
    ensures forall u | u != t :: u in Next(Exact, q, t, op).threads <==> u in q.threads
    ensures forall u | u in q.threads && u != t :: Next(Exact, q, t, op).threads[u] == q.threads[u]
  {
  }

  lemma OthersFree(w: World, t: Tid, op: Op, side: Side)
    requires Inv(w) && !Attempts(w.q, side, t) && !Reserving(w.q, t, side)
    ensures Budget(Step(w, t, op).q, side) <= Budget(w.q, side)
  {
    var q' := Next(Exact, w.q, t, op);
    OthersQuiet(w.q, t, op, side);
    OnlyOwnLocals(w.q, t, op);
    NoLarger(w.q, q', side);
  }

  lemma NoLarger(q: Queue, q': Queue, side: Side)
    requires forall u :: Flies(q', side, u) == Flies(q, side, u)
    requires forall u :: IsStale(q', side, u) ==> IsStale(q, side, u)
    ensures Budget(q', side) <= Budget(q, side)
  {
    SameFlying(q, q', side);
    Smaller(Stale(q', side), Stale(q, side));
  }

  ghost predicate NoReservation(w: World, sched: Schedule, side: Side)
    requires Inv(w)
    decreases |sched|
  {
    sched == [] ||
    (StepInv(w, sched[0].0, sched[0].1);
     !Reserving(w.q, sched[0].0, side) && NoReservation(Step(w, sched[0].0, sched[0].1), sched[1..], side))
  }

  /** Compare-and-swap attempts on a side's head along a schedule. */
  ghost function CommitAttempts(w: World, sched: Schedule, side: Side): nat
    requires Inv(w)
    decreases |sched|
  {
    if sched == [] then 0
    else
      StepInv(w, sched[0].0, sched[0].1);
      (if Attempts(w.q, side, sched[0].0) then 1 else 0)
      + CommitAttempts(Step(w, sched[0].0, sched[0].1), sched[1..], side)
  }

  lemma {:induction false} AttemptsWithinBudget(w: World, sched: Schedule, side: Side)
    requires Inv(w) && NoReservation(w, sched, side)
    ensures CommitAttempts(w, sched, side) + Budget(Run(w, sched).q, side) <= Budget(w.q, side)
    decreases |sched|
  {
    if sched != [] {
      var t, op := sched[0].0, sched[0].1;
      StepInv(w, t, op);
      if Attempts(w.q, side, t) {
        if w.q.threads[t].oh == w.q.B(side).head { CommitPays(w, t, op, side); } else { RetryPays(w, t, op, side); }
      } else {
        OthersFree(w, t, op, side);
      }
      AttemptsWithinBudget(Step(w, t, op), sched[1..], side);
    }
  }

  /** n threads in flight, of which s hold a snapshot that is already stale,
      make at most n(n+1)/2 + s commit attempts under any schedule without new
      reservations, hence never more than 54. */
  lemma CommitBound(w: World, sched: Schedule, side: Side)
    requires Inv(w) && NoReservation(w, sched, side)
    ensures var n := |Flying(w.q, side)|;
            2 * CommitAttempts(w, sched, side) <= n * (n + 1) + 2 * |Stale(w.q, side)|
    ensures CommitAttempts(w, sched, side) <= 54
  {
    AttemptsWithinBudget(w, sched, side);
    var n := |Flying(w.q, side)|;
    TriangleIs(n);
    InFlightBound(w, side);
    StaleFlies(w.q, side);
    Smaller(Stale(w.q, side), Flying(w.q, side));
    TriangleSmall(n);
  }

  lemma Unfold(w: World, t: Tid, op: Op, rest: Schedule, side: Side)
    requires Inv(w)
    ensures Inv(Step(w, t, op))
    ensures CommitAttempts(w, [(t, op)] + rest, side)
            == (if Attempts(w.q, side, t) then 1 else 0) + CommitAttempts(Step(w, t, op), rest, side)
    ensures NoReservation(w, [(t, op)] + rest, side)
            <==> !Reserving(w.q, t, side) && NoReservation(Step(w, t, op), rest, side)
    ensures Run(w, [(t, op)] + rest) == Run(Step(w, t, op), rest)
  {
    StepInv(w, t, op);
    assert ([(t, op)] + rest)[1..] == rest;
  }

  lemma Reloads(q: Queue, t: Tid, side: Side)
    requires WellFormed(q) && Flies(q, side, t) && q.threads[t].ReloadTail? && q.threads[t].oh == q.B(side).head
    ensures var q' := Next(Exact, q, t, Dequeue);
            Flying(q', side) == Flying(q, side) && Attempts(q', side, t) && q'.threads[t].oh == q'.B(side).head
  {
    SameFlying(q, Next(Exact, q, t, Dequeue), side);
  }

  /** From a fresh snapshot one attempt is enough. */
  lemma FreshCommits(w: World, t: Tid, side: Side) returns (sched: Schedule)
    requires Inv(w) && Flying(w.q, side) == {t} && t in w.q.threads
    requires w.q.threads[t].ReloadTail? && w.q.threads[t].oh == w.q.B(side).head
    ensures NoReservation(w, sched, side) && CommitAttempts(w, sched, side) == 1
    ensures Flying(Run(w, sched).q, side) == {}
  {
    assert Flies(w.q, side, t);
    Reloads(w.q, t, side);
    Unfold(w, t, Dequeue, [(t, Dequeue)], side);
    LastAttempt(Step(w, t, Dequeue), t, side);
    sched := [(t, Dequeue)] + [(t, Dequeue)];
  }

  lemma LastAttempt(w: World, t: Tid, side: Side)
    requires Inv(w) && Flying(w.q, side) == {t} && Attempts(w.q, side, t) && w.q.threads[t].oh == w.q.B(side).head
    ensures NoReservation(w, [(t, Dequeue)], side) && CommitAttempts(w, [(t, Dequeue)], side) == 1
    ensures Flying(Run(w, [(t, Dequeue)]).q, side) == {}
  {
    Unfold(w, t, Dequeue, [], side);
    assert [(t, Dequeue)] + [] == [(t, Dequeue)];
    MoreFlying(Step(w, t, Dequeue).q, w.q, side, t);
  }

  /** The extra attempt is real: a thread alone in flight whose snapshot is
      stale fails once before it commits, twice the attempts of n(n+1)/2. */
  lemma StaleCostsOne(w: World, t: Tid, side: Side) returns (sched: Schedule)
    requires Inv(w) && Flying(w.q, side) == {t} && Attempts(w.q, side, t) && w.q.threads[t].oh != w.q.B(side).head
    ensures NoReservation(w, sched, side) && CommitAttempts(w, sched, side) == 2
    ensures Flying(Run(w, sched).q, side) == {}
  {
    var w1 := Step(w, t, Dequeue);
    StepInv(w, t, Dequeue);
    SameFlying(w.q, w1.q, side);
    var rest := FreshCommits(w1, t, side);
    Unfold(w, t, Dequeue, rest, side);
    sched := [(t, Dequeue)] + rest;
  }

  // ---------------------------------------------------------- full and empty

  /** rpcmsg_queue_full and rpcmsg_queue_empty. */
  predicate QueueFull(q: Queue) { SIZE + q.cons.tail.pos == q.prod.tail.pos }
  predicate QueueEmpty(q: Queue) { q.prod.head.pos == q.cons.head.pos }

  /** An acquire with a fresh tail reports failure. */
  predicate AcquireFails(q: Queue, op: Op) { Blocked(Exact, q, op, q.B(op.Side()).tail.pos) }

  /** An acquire fails truthfully even from a stale snapshot: "full" only if all
      32 slots are held at the moment of the check, "empty" only if every
      committed entry has already been claimed; and then the snapshot was fresh. */
  lemma TruthfulFailure(w: World, t: Tid, op: Op)
    requires Inv(w) && t in w.q.threads && w.q.threads[t].CheckRoom?
    ensures Step(w, t, op).q.threads[t].Done? ==>
              && w.q.threads[t].ot.pos == w.q.B(w.q.threads[t].op.Side()).tail.pos
              && (if w.q.threads[t].op.Enqueue? then w.q.prod.tail.pos - w.q.cons.head.pos == 32
                  else w.q.cons.tail.pos == w.q.prod.head.pos)
  {
    assert LocalOk(w.q, w.q.threads[t]);
  }

  /** The two predicates are the acquire tests plus "no consumer is in flight". */
  lemma FullAndEmptyExactly(w: World, x: Item)
    requires Inv(w)
    ensures QueueFull(w.q) <==> AcquireFails(w.q, Enqueue(x)) && Flying(w.q, Cons) == {}
    ensures QueueEmpty(w.q) <==> AcquireFails(w.q, Dequeue) && Flying(w.q, Cons) == {}
  {
    InFlightBound(w, Cons);
  }

  /** While the queue is full nobody can reserve, from any snapshot; likewise
      for consumers while it is empty. */
  lemma FullBlocks(w: World, t: Tid, op: Op)
    requires Inv(w)
    ensures AcquireFails(w.q, Enqueue(Id(0))) ==> Step(w, t, op).q.prod.tail == w.q.prod.tail
    ensures AcquireFails(w.q, Dequeue) ==> Step(w, t, op).q.cons.tail == w.q.cons.tail
  {
    if !Idle(w.q, t) { assert LocalOk(w.q, w.q.threads[t]); }
  }
}
