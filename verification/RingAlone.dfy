/** A thread that runs on while the others rest: with snapshots that are all
    fresh it goes straight through its operation, and where it ends up can be
    told from where it starts. */
module RingAlone {
  import opened Ring
  import opened RingSafety
  import opened RingProgress

  predicate Unreserved(l: Local) { l.LoadTail? || l.Wait? || l.CheckRoom? || l.Reserve? }

  /** Nothing thread t knows is out of date, and it need not wait. */
  predicate Fresh(q: Queue, l: Local) {
    var b := q.B(l.op.Side());
    && (Unreserved(l) ==> !TooFar(Exact, b.tail.pos, b.head.pos))
    && (l.Wait? || l.CheckRoom? || l.Reserve? ==> l.ot == b.tail)
    && (l.Reserve? ==> !Blocked(Exact, q, l.op, b.tail.pos))
    && (l.ReloadTail? || l.Publish? ==> l.oh == b.head)
    && (l.Publish? ==> l.t == b.tail)
  }

  /** Steps to the end of the operation, at most. */
  function Ahead(l: Local): nat {
    match l
    case LoadTail(_) => 12
    case Wait(_, _) => 11
    case CheckRoom(_, _) => 10
    case Reserve(_, _) => 9
    case Access(_, _, k, _, _) => if k <= 4 then 8 - k else 4
    case LoadHead(_, _, _) => 3
    case ReloadTail(_, _, _, _) => 2
    case Publish(_, _, _, _, _) => 1
    case Done(_, _) => 0
  }

  /** The acquire will fail. */
  predicate Doomed(q: Queue, l: Local) {
    Unreserved(l) && Blocked(Exact, q, l.op, q.B(l.op.Side()).tail.pos)
  }

  /** The thread's own side once its entry is reserved. */
  function Goal(q: Queue, l: Local): Bound {
    var b := q.B(l.op.Side());
    if Unreserved(l) && !Doomed(q, l) then Bound(Marker(b.tail.pos + 1, b.tail.count + 1), b.head) else b
  }

  /** The end of the road: about to commit, or about to be refused. */
  predicate Arrived(q: Queue, l: Local) {
    l.Publish? || (l.CheckRoom? && Blocked(Exact, q, l.op, l.ot.pos))
  }

  /** All but thread t, and its side's tail, is as before. */
  ghost predicate OnlyMine(q: Queue, q': Queue, t: Tid, side: Side) {
    && (forall u | u != t :: u in q'.threads <==> u in q.threads)
    && (forall u | u != t && u in q.threads :: q'.threads[u] == q.threads[u])
    && q'.B(Other(side)) == q.B(Other(side)) && q'.B(side).head == q.B(side).head && q'.events == q.events
  }

  lemma FreshStep(q: Queue, t: Tid)
    requires WellFormed(q) && !Idle(q, t) && Fresh(q, q.threads[t]) && !Arrived(q, q.threads[t])
    ensures var q', l := Next(Exact, q, t, Dequeue), q.threads[t];
            && OnlyMine(q, q', t, l.op.Side()) && !Idle(q', t)
            && var l' := q'.threads[t];
            && l'.op == l.op && Fresh(q', l') && Ahead(l') < Ahead(l)
            && Goal(q', l') == Goal(q, l) && Doomed(q', l') == Doomed(q, l)
  {
  }

  lemma CommitStep(q: Queue, t: Tid)
    requires WellFormed(q) && !Idle(q, t) && q.threads[t].Publish? && Fresh(q, q.threads[t])
    ensures var q', l := Next(Exact, q, t, Dequeue), q.threads[t];
            && (forall u | u != t :: u in q'.threads <==> u in q.threads)
            && (forall u | u != t && u in q.threads :: q'.threads[u] == q.threads[u])
            && t in q'.threads && q'.threads[t] == Done(l.op, Finished(l.pos, l.item))
            && q'.B(Other(l.op.Side())) == q.B(Other(l.op.Side()))
            && var b := q.B(l.op.Side());
            q'.B(l.op.Side()) == Bound(b.tail, NewHead(Exact, b.head, b.tail))
  {
  }

  /** A thread that starts an operation on a side where it need not wait. */
  lemma FreshStart(q: Queue, t: Tid, op: Op)
    requires !TooFar(Exact, q.B(op.Side()).tail.pos, q.B(op.Side()).head.pos)
    ensures var q', l, b := q.Put(t, LoadTail(op)), LoadTail(op), q.B(op.Side());
            && Fresh(q', l) && OnlyMine(q, q', t, op.Side())
            && (Doomed(q', l) <==> Blocked(Exact, q, op, b.tail.pos))
            && Goal(q', l) == if Doomed(q', l) then b else Bound(Marker(b.tail.pos + 1, b.tail.count + 1), b.head)
  {
  }

  lemma MineTrans(q: Queue, q1: Queue, q2: Queue, t: Tid, side: Side)
    requires OnlyMine(q, q1, t, side) && OnlyMine(q1, q2, t, side)
    ensures OnlyMine(q, q2, t, side)
  {
  }

  /** A fresh thread left alone arrives. */
  lemma {:induction false} Arrives(w: World, t: Tid) returns (sched: Schedule, w': World)
    requires Inv(w) && !Idle(w.q, t) && Fresh(w.q, w.q.threads[t])
    ensures w' == Run(w, sched) && Inv(w') && !Idle(w'.q, t)
    ensures Arrived(w'.q, w'.q.threads[t]) && Fresh(w'.q, w'.q.threads[t]) && w'.q.threads[t].op == w.q.threads[t].op
    ensures w'.q.threads[t].Publish? <==> !Doomed(w.q, w.q.threads[t])
    ensures w'.q.B(w.q.threads[t].op.Side()) == Goal(w.q, w.q.threads[t])
    ensures OnlyMine(w.q, w'.q, t, w.q.threads[t].op.Side())
    decreases Ahead(w.q.threads[t])
  {
    if Arrived(w.q, w.q.threads[t]) { return [], w; }
    FreshStep(w.q, t);
    RunNext(w, (t, Dequeue), [], [(t, Dequeue)]);
    var w1 := Step(w, t, Dequeue);
    var rest, w2 := Arrives(w1, t);
    RunNext(w, (t, Dequeue), rest, [(t, Dequeue)] + rest);
    MineTrans(w.q, w1.q, w2.q, t, w.q.threads[t].op.Side());
    return [(t, Dequeue)] + rest, w2;
  }
}
