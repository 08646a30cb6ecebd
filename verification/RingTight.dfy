/** The bound on commit attempts is attained from every state, which says
    exactly when the bound n(n+1)/2 holds. */
module RingTight {
  import opened Ring
  import opened RingSafety
  import opened RingProgress
  import RingAlone

  // ----------------------------------------------------- schedules that cost k

  /** Without a reservation on the side, sched leads from w to w' and makes k
      commit attempts. */
  ghost predicate Costs(w: World, sched: Schedule, side: Side, k: nat, w': World) {
    && Inv(w) && NoReservation(w, sched, side)
    && CommitAttempts(w, sched, side) == k && Run(w, sched) == w'
  }

  function Price(q: Queue, side: Side, t: Tid): nat { if Attempts(q, side, t) then 1 else 0 }

  lemma CostsMore(w: World, x: (Tid, Op), rest: Schedule, side: Side, k: nat, w': World)
    requires Inv(w) && !Reserving(w.q, x.0, side) && Costs(Step(w, x.0, x.1), rest, side, k, w')
    ensures Costs(w, [x] + rest, side, Price(w.q, side, x.0) + k, w')
  {
    Unfold(w, x.0, x.1, rest, side);
  }

  lemma CostsNothing(w: World, side: Side)
    requires Inv(w)
    ensures Costs(w, [], side, 0, w)
  {
  }

  lemma Peel(w: World, a: Schedule, b: Schedule, side: Side, k: nat, w1: World) returns (w': World, d: nat)
    requires Costs(w, a, side, k, w1) && a != []
    ensures d <= k && Costs(w', a[1..], side, k - d, w1)
    ensures forall j: nat, w2 :: Costs(w', a[1..] + b, side, j, w2) ==> Costs(w, a + b, side, d + j, w2)
  {
    Heads(a, b);
    Unfold(w, a[0].0, a[0].1, a[1..], side);
    w', d := Step(w, a[0].0, a[0].1), Price(w.q, side, a[0].0);
    forall j: nat, w2 | Costs(w', a[1..] + b, side, j, w2) ensures Costs(w, a + b, side, d + j, w2) {
      CostsMore(w, a[0], a[1..] + b, side, j, w2);
    }
  }

  lemma {:induction false} CostsBoth(w: World, a: Schedule, k: nat, w1: World, b: Schedule, m: nat, w2: World,
      side: Side)
    requires Costs(w, a, side, k, w1) && Costs(w1, b, side, m, w2)
    ensures Costs(w, a + b, side, k + m, w2)
    decreases |a|
  {
    if a == [] {
      assert a + b == b;
    } else {
      var w', d := Peel(w, a, b, side, k, w1);
      CostsBoth(w', a[1..], k - d, w1, b, m, w2, side);
    }
  }

  // -------------------------------------------------------- the costly schedule

  /** The threads in flight that are not about to commit. */
  ghost function NotYet(q: Queue, side: Side): set<Tid> {
    set t | t in q.threads && Flies(q, side, t) && !q.threads[t].Publish?
  }

  /** Thread u has moved on towards its commit, and nobody else notices. */
  ghost predicate MovedOn(q: Queue, q': Queue, u: Tid, side: Side) {
    && (forall v | v != u :: v in q'.threads <==> v in q.threads)
    && (forall v | v != u && v in q.threads :: q'.threads[v] == q.threads[v])
    && q'.B(side) == q.B(side) && Flies(q, side, u) && Flies(q', side, u)
    && (IsStale(q', side, u) <==> IsStale(q, side, u))
  }

  lemma MovedTrans(q: Queue, q1: Queue, q2: Queue, u: Tid, side: Side)
    requires MovedOn(q, q1, u, side) && MovedOn(q1, q2, u, side)
    ensures MovedOn(q, q2, u, side)
  {
  }

  lemma MovedSets(q: Queue, q': Queue, u: Tid, side: Side)
    requires MovedOn(q, q', u, side) && !q.threads[u].Publish? && q'.threads[u].Publish?
    ensures Flying(q', side) == Flying(q, side) && Stale(q', side) == Stale(q, side)
    ensures NotYet(q', side) == NotYet(q, side) - {u} && u in NotYet(q, side)
  {
    assert forall v :: Flies(q', side, v) == Flies(q, side, v);
    assert forall v :: IsStale(q', side, v) == IsStale(q, side, v);
  }

  lemma WalkStep(q: Queue, u: Tid, side: Side)
    requires WellFormed(q) && Flies(q, side, u) && !q.threads[u].Publish?
    ensures var q' := Next(Exact, q, u, Dequeue);
            && MovedOn(q, q', u, side)
            && RingAlone.Ahead(q'.threads[u]) < RingAlone.Ahead(q.threads[u])
  {
  }

  /** Thread u goes to its commit without attempting it. */
  lemma {:induction false} Walk(w: World, u: Tid, side: Side) returns (sched: Schedule, w': World)
    requires Inv(w) && Flies(w.q, side, u) && !w.q.threads[u].Publish?
    ensures Costs(w, sched, side, 0, w') && MovedOn(w.q, w'.q, u, side) && w'.q.threads[u].Publish?
    decreases RingAlone.Ahead(w.q.threads[u])
  {
    WalkStep(w.q, u, side);
    StepInv(w, u, Dequeue);
    var w1 := Step(w, u, Dequeue);
    var rest: Schedule, w2 := [], w1;
    if w1.q.threads[u].Publish? {
      CostsNothing(w1, side);
    } else {
      rest, w2 := Walk(w1, u, side);
      MovedTrans(w.q, w1.q, w2.q, u, side);
    }
    CostsMore(w, (u, Dequeue), rest, side, 0, w2);
    return [(u, Dequeue)] + rest, w2;
  }

  /** A stale thread fails and is fresh again. */
  lemma FailStep(q: Queue, u: Tid, side: Side)
    requires WellFormed(q) && Attempts(q, side, u) && IsStale(q, side, u)
    ensures var q' := Next(Exact, q, u, Dequeue);
            && Flying(q', side) == Flying(q, side)
            && |Stale(q', side)| + 1 == |Stale(q, side)| && Budget(q', side) + 1 == Budget(q, side)
  {
    var q' := Next(Exact, q, u, Dequeue);
    OnlyOwnLocals(q, u, Dequeue);
    assert forall v :: Flies(q', side, v) == Flies(q, side, v);
    assert forall v :: IsStale(q', side, v) == (v != u && IsStale(q, side, v));
    assert Flying(q', side) == Flying(q, side);
    assert Stale(q', side) == Stale(q, side) - {u} && u in Stale(q, side);
  }

  /** A commit makes every other thread that is about to commit stale. */
  lemma SpoilStep(q: Queue, u: Tid, side: Side)
    requires WellFormed(q) && Flies(q, side, u) && NotYet(q, side) == {} && Stale(q, side) == {}
    ensures var q' := Next(Exact, q, u, Dequeue);
            && Attempts(q, side, u)
            && |Flying(q', side)| + 1 == |Flying(q, side)| && Budget(q', side) + 1 == Budget(q, side)
  {
    var q' := Next(Exact, q, u, Dequeue);
    OnlyOwnLocals(q, u, Dequeue);
    assert u !in NotYet(q, side) && u !in Stale(q, side);
    forall v ensures Flies(q', side, v) == (v != u && Flies(q, side, v)) && IsStale(q', side, v) == Flies(q', side, v) {
      if Flies(q, side, v) { assert v !in NotYet(q, side) && v !in Stale(q, side); }
    }
    assert Flying(q', side) == Flying(q, side) - {u} && u in Flying(q, side);
    assert Stale(q', side) == Flying(q', side);
  }

  /** From every state the budget of commit attempts can be used up: gather all
      threads in flight before their commits, let the stale ones fail, let one
      commit, which spoils it for the others, and begin again. */
  lemma {:induction false} Tight(w: World, side: Side) returns (sched: Schedule, w': World)
    requires Inv(w)
    ensures Costs(w, sched, side, Budget(w.q, side), w') && Flying(w'.q, side) == {}
    decreases |Flying(w.q, side)|, |Stale(w.q, side)|, 1, |NotYet(w.q, side)|, 1
  {
    if u :| u in NotYet(w.q, side) {
      sched, w' := TightWalk(w, u, side);
    } else if u :| u in Stale(w.q, side) {
      assert u !in NotYet(w.q, side);
      FailStep(w.q, u, side);
      sched, w' := TightAfter(w, u, side);
    } else if u :| u in Flying(w.q, side) {
      SpoilStep(w.q, u, side);
      sched, w' := TightAfter(w, u, side);
    } else {
      CostsNothing(w, side);
      return [], w;
    }
  }

  lemma {:induction false} TightWalk(w: World, u: Tid, side: Side) returns (sched: Schedule, w': World)
    requires Inv(w) && u in NotYet(w.q, side)
    ensures Costs(w, sched, side, Budget(w.q, side), w') && Flying(w'.q, side) == {}
    decreases |Flying(w.q, side)|, |Stale(w.q, side)|, 1, |NotYet(w.q, side)|, 0
  {
    var first, w1 := Walk(w, u, side);
    MovedSets(w.q, w1.q, u, side);
    var rest, w2 := Tight(w1, side);
    CostsBoth(w, first, 0, w1, rest, Budget(w1.q, side), w2, side);
    return first + rest, w2;
  }

  lemma {:induction false} TightAfter(w: World, u: Tid, side: Side) returns (sched: Schedule, w': World)
    requires Inv(w) && Attempts(w.q, side, u)
    requires var q' := Next(Exact, w.q, u, Dequeue);
             && Budget(q', side) + 1 == Budget(w.q, side)
             && (|| |Flying(q', side)| < |Flying(w.q, side)|
                 || (|Flying(q', side)| == |Flying(w.q, side)| && |Stale(q', side)| < |Stale(w.q, side)|))
    ensures Costs(w, sched, side, Budget(w.q, side), w') && Flying(w'.q, side) == {}
    decreases |Flying(w.q, side)|, |Stale(w.q, side)|, 0, 0, 0
  {
    StepInv(w, u, Dequeue);
    var w1 := Step(w, u, Dequeue);
    var rest, w2 := Tight(w1, side);
    CostsMore(w, (u, Dequeue), rest, side, Budget(w1.q, side), w2);
    return [(u, Dequeue)] + rest, w2;
  }

  /** The exact condition: n threads in flight never make more than n(n+1)/2
      commit attempts, under any schedule without new reservations, if and only
      if no head snapshot is stale at the start. */
  lemma BoundExactly(w: World, side: Side)
    requires Inv(w)
    ensures var n := |Flying(w.q, side)|;
            (forall sched: Schedule | NoReservation(w, sched, side) ::
                2 * CommitAttempts(w, sched, side) <= n * (n + 1))
            <==> Stale(w.q, side) == {}
  {
    var n := |Flying(w.q, side)|;
    TriangleIs(n);
    if Stale(w.q, side) == {} {
      forall sched: Schedule | NoReservation(w, sched, side) ensures 2 * CommitAttempts(w, sched, side) <= n * (n + 1) {
        CommitBound(w, sched, side);
      }
    } else {
      var sched, w' := Tight(w, side);
      assert NoReservation(w, sched, side) && CommitAttempts(w, sched, side) == Triangle(n) + |Stale(w.q, side)|;
    }
  }

  // --------------------------------------------------------- a failing input

  /** An idle thread starts an operation and stops before its commit. */
  lemma Park(w: World, t: Tid, op: Op) returns (sched: Schedule, w': World)
    requires Inv(w) && Idle(w.q, t) && Legal(w.q.events, op)
    requires w.q.B(op.Side()).head.pos <= w.q.B(op.Side()).tail.pos <= w.q.B(op.Side()).head.pos + 8
    requires !Blocked(Exact, w.q, op, w.q.B(op.Side()).tail.pos)
    ensures w' == Run(w, sched) && Inv(w') && t in w'.q.threads
    ensures w'.q.threads[t].Publish? && w'.q.threads[t].op == op && RingAlone.Fresh(w'.q, w'.q.threads[t])
    ensures var b := w.q.B(op.Side());
            w'.q.B(op.Side()) == Bound(Marker(b.tail.pos + 1, b.tail.count + 1), b.head)
    ensures RingAlone.OnlyMine(w.q, w'.q, t, op.Side())
  {
    var w1 := Entered(w, t, op);
    RingAlone.FreshStart(w.q, t, op);
    var rest, w2 := RingAlone.Arrives(w1, t);
    RingAlone.MineTrans(w.q, w1.q, w2.q, t, op.Side());
    return [(t, op)] + rest, w2;
  }

  lemma Entered(w: World, t: Tid, op: Op) returns (w': World)
    requires Inv(w) && Idle(w.q, t) && Legal(w.q.events, op)
    ensures Inv(w') && w'.q == w.q.Put(t, LoadTail(op))
    ensures forall rest: Schedule :: Run(w, [(t, op)] + rest) == Run(w', rest)
  {
    StepInv(w, t, op);
    w' := Step(w, t, op);
    forall rest: Schedule ensures Run(w, [(t, op)] + rest) == Run(w', rest) {
      RunNext(w, (t, op), rest, [(t, op)] + rest);
    }
  }

  /** Such a state is reached from the empty ring: thread 0 stops before its
      commit while thread 1 reserves and commits. From there two attempts of the
      one thread in flight are possible, one more than n(n+1)/2. */
  lemma StaleReached() returns (sched: Schedule, more: Schedule)
    ensures Inv(Start(false))
    ensures var w := Run(Start(false), sched);
            && Flying(w.q, Prod) == {0} && Stale(w.q, Prod) == {0} && Attempts(w.q, Prod, 0)
            && NoReservation(w, more, Prod) && CommitAttempts(w, more, Prod) == 2
  {
    StartInv(false);
    var a, w1 := Park(Start(false), 0, Enqueue(Id(0)));
    var b, w2 := Park(w1, 1, Enqueue(Id(1)));
    RunNext(w2, (1, Dequeue), [], [(1, Dequeue)]);
    var w3 := Step(w2, 1, Dequeue);
    RunBoth(Start(false), a, b + [(1, Dequeue)]);
    RunBoth(w1, b, [(1, Dequeue)]);
    sched := a + (b + [(1, Dequeue)]);
    Overtaken(w1.q, w2.q, w3.q);
    more := StaleCostsOne(w3, 0, Prod);
  }

  /** What thread 0 is left with when thread 1 has committed. */
  lemma Overtaken(q1: Queue, q2: Queue, q3: Queue)
    requires WellFormed(q2) && q3 == Next(Exact, q2, 1, Dequeue)
    requires RingAlone.OnlyMine(Init(false), q1, 0, Prod) && RingAlone.OnlyMine(q1, q2, 1, Prod)
    requires 0 in q1.threads && q1.threads[0].Publish? && q1.threads[0].op.Enqueue?
             && RingAlone.Fresh(q1, q1.threads[0])
    requires 1 in q2.threads && q2.threads[1].Publish? && q2.threads[1].op.Enqueue?
             && RingAlone.Fresh(q2, q2.threads[1])
    requires q1.prod.head == M0 && q2.prod.head == M0 && q2.prod.tail == Marker(2, 2)
    ensures Flying(q3, Prod) == {0} && Stale(q3, Prod) == {0} && Attempts(q3, Prod, 0)
    ensures q3.threads[0].oh != q3.prod.head
  {
    RingAlone.CommitStep(q2, 1);
    assert q3.prod.head == Marker(0, 1);
    assert forall v :: Flies(q3, Prod, v) <==> v == 0;
    assert forall v :: IsStale(q3, Prod, v) <==> v == 0;
    assert Flying(q3, Prod) == {0} && Stale(q3, Prod) == {0};
  }

  // ------------------------------------------------------ as many as there can be

  /** n threads reserve, one after the other, and none commits. */
  lemma {:induction false} Crowd(n: nat) returns (sched: Schedule, w: World)
    requires n <= 9
    ensures Inv(Start(false)) && w == Run(Start(false), sched) && Inv(w)
    ensures w.q.prod == Bound(Marker(n, n), M0) && w.q.cons == Bound(M0, M0) && !w.q.events
    ensures forall t | t >= n :: t !in w.q.threads
  {
    StartInv(false);
    if n == 0 { return [], Start(false); }
    var a, w1 := Crowd(n - 1);
    var b, w2 := Park(w1, n - 1, Enqueue(Id(0)));
    RunBoth(Start(false), a, b);
    return a + b, w2;
  }

  /** The bound on threads in flight is attained: nine can be at once. */
  lemma NineAtOnce() returns (sched: Schedule)
    ensures Inv(Start(false)) && |Flying(Run(Start(false), sched).q, Prod)| == 9
  {
    var w;
    sched, w := Crowd(9);
    InFlightBound(w, Prod);
  }
}
