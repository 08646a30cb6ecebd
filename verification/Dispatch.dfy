/** The driver's dispatch loop: rpc_run drains the response ring, then the event
    queue, stopping each at the first message whose handler reports an error. */
module Dispatch {
  import opened Words
  import opened Ring
  import opened Ownership
  import opened RpcQueue
  import RingSafety
  import Codec
  import Bitmap
  import Mmio

  datatype Invocation = Invocation(callback: nat, cookie: nat, data: Word)

  /** What handlers change: the slot table, the callbacks made through it, and
      the messages given to the handlers of the other operations. */
  datatype Effect = Effect(acks: seq<Option<Mmio.Ack>>, calls: seq<Invocation>, others: seq<Msg>)

  /** What rpc_process reads from a message before it picks a handler. */
  datatype View = View(op: nat, slot: nat, data: Word, msg: Msg)

  function Decode(m: Msg): View {
    View(Val(Codec.Get(m.mr0, Codec.OP)), Val(Codec.Get(m.mr0, Codec.SLOT)), m.mr2, m)
  }

  function Views(view: Msg -> View, ms: seq<Msg>): (vs: seq<View>)
    ensures |vs| == |ms| && forall i | 0 <= i < |ms| :: vs[i] == view(ms[i])
  {
    seq(|ms|, i requires 0 <= i < |ms| => view(ms[i]))
  }

  lemma ViewsTail(view: Msg -> View, ms: seq<Msg>)
    requires ms != []
    ensures Views(view, ms[1..]) == Views(view, ms)[1..]
  {
    var l, r := Views(view, ms[1..]), Views(view, ms)[1..];
    forall i | 0 <= i < |ms| - 1 ensures l[i] == r[i] {
      assert ms[1..][i] == ms[i + 1];
    }
  }

  /** ioreq_finish asserts a registered callback. */
  predicate Armed(e: Effect, v: View) {
    v.op == Codec.OP_MMIO ==> v.slot < |e.acks| && e.acks[v.slot].Some?
  }

  /** rpc_process on one message: handle_mmio takes MMIO messages, the rest goes
      down the callback table. */
  function Process(e: Effect, v: View): Effect {
    if v.op != Codec.OP_MMIO then
      Effect(e.acks, e.calls, e.others + [v.msg])
    else if Armed(e, v) then
      var ack := e.acks[v.slot].value;
      Effect(e.acks[v.slot := None], e.calls + [Invocation(ack.callback, ack.cookie, v.data)], e.others)
    else
      e
  }

  function ProcessAll(e: Effect, vs: seq<View>): Effect
    decreases |vs|
  {
    if vs == [] then e else ProcessAll(Process(e, vs[0]), vs[1..])
  }

  /** No assertion of ioreq_finish fails along the way. */
  ghost predicate AllArmed(e: Effect, vs: seq<View>)
    decreases |vs|
  {
    vs == [] || (Armed(e, vs[0]) && AllArmed(Process(e, vs[0]), vs[1..]))
  }

  /** Whether the handler of a message succeeds may depend on everything that
      was handled before it. */
  type Verdict = (Effect, View) -> bool

  /** No handler fails along the way. */
  ghost predicate AllHandled(ok: Verdict, e: Effect, vs: seq<View>)
    decreases |vs|
  {
    vs == [] || (ok(e, vs[0]) && AllHandled(ok, Process(e, vs[0]), vs[1..]))
  }

  /** How many messages are handled without error before the first failure. */
  function Good(ok: Verdict, e: Effect, vs: seq<View>): (n: nat)
    ensures n <= |vs|
    decreases |vs|
  {
    if vs == [] || !ok(e, vs[0]) then 0 else 1 + Good(ok, Process(e, vs[0]), vs[1..])
  }

  /** Messages that are dequeued: the good ones and the one that failed. */
  function Seen(ok: Verdict, e: Effect, vs: seq<View>): (n: nat)
    ensures n <= |vs|
  {
    if Good(ok, e, vs) < |vs| then Good(ok, e, vs) + 1 else |vs|
  }

  /** Good is the length of the longest prefix without a failure. */
  lemma {:induction false} GoodIsLongest(ok: Verdict, e: Effect, vs: seq<View>, n: nat)
    requires n <= |vs|
    ensures AllHandled(ok, e, vs[..n]) <==> n <= Good(ok, e, vs)
    decreases |vs|
  {
    if n > 0 {
      assert vs[..n][1..] == vs[1..][..n - 1];
      GoodIsLongest(ok, Process(e, vs[0]), vs[1..], n - 1);
    }
  }

  /** What one loop of rpc_run does to a queue of messages: it stops after the
      first failure. */
  function Drained(ok: Verdict, e: Effect, vs: seq<View>): Effect
    decreases |vs|
  {
    if vs == [] then e
    else if ok(e, vs[0]) then Drained(ok, Process(e, vs[0]), vs[1..])
    else Process(e, vs[0])
  }

  lemma {:induction false} DrainedIs(ok: Verdict, e: Effect, vs: seq<View>)
    ensures Drained(ok, e, vs) == ProcessAll(e, vs[..Seen(ok, e, vs)])
    decreases |vs|
  {
    if vs != [] {
      var n := Seen(ok, e, vs);
      assert vs[..n][0] == vs[0] && vs[..n][1..] == vs[1..][..n - 1];
      if ok(e, vs[0]) { DrainedIs(ok, Process(e, vs[0]), vs[1..]); }
    }
  }

  function Ids(ids: seq<nat>): set<nat> { set x | x in ids }

  lemma TakeNext(lent: set<nat>, ids: seq<nat>, n: nat)
    requires n < |ids|
    ensures lent - Ids(ids[..n + 1]) == lent - Ids(ids[..n]) - {ids[n]}
    ensures ids[n..][1..] == ids[n + 1..] && ids[n..][0] == ids[n]
  {
    assert ids[..n + 1] == ids[..n] + [ids[n]];
  }

  class Driver {
    const resp: IdQueue
    const messages: array<Msg>
    const state: array<Word>
    const events: EventQueue
    var effect: Effect

    /** io_proxy_init: the driver's view of an iobuf. */
    constructor (resp: IdQueue, messages: array<Msg>, state: array<Word>, events: EventQueue)
      requires resp.Valid() && events.Valid() && resp != events.queue
      requires messages.Length == SIZE && SIZE <= state.Length * BITS
      ensures Valid() && this.resp == resp && this.messages == messages && this.state == state && this.events == events
      ensures effect == Effect(seq(Mmio.SLOTS, _ => None), [], [])
    {
      this.resp, this.messages, this.state, this.events := resp, messages, state, events;
      effect := Effect(seq(Mmio.SLOTS, _ => None), [], []);
    }

    ghost predicate Valid()
      reads this, resp, resp.ring, messages, state, events, events.queue, events.queue.ring, events.messages
    {
      && resp.Valid() && events.Valid() && resp != events.queue
      && messages.Length == SIZE && SIZE <= state.Length * BITS
    }

    ghost function Lent(): set<nat>
      reads state
    {
      Bitmap.SetOf(state[..], SIZE)
    }

    /** The pending responses: the messages the ids in the ring stand for. */
    ghost function Responses(view: Msg -> View): (ms: seq<View>)
      requires Valid()
      reads this, resp, resp.ring, messages, state, events, events.queue, events.queue.ring, events.messages
      ensures |ms| == |resp.Contents()|
    {
      Views(view, Lookup(resp.Contents(), messages[..]))
    }

    /** One response: received, processed and, if that went well, its buffer
        reclaimed. */
    method NextResponse(view: Msg -> View, ok: Verdict) returns (got: bool, good: bool)
      requires Valid() && (resp.Contents() != [] ==> Armed(effect, Responses(view)[0]))
      modifies this`effect, resp`cons, state
      ensures Valid() && (got <==> old(resp.Contents()) != [])
      ensures !got ==> effect == old(effect) && Lent() == old(Lent()) && resp.Contents() == []
      ensures got ==>
                && good == ok(old(effect), old(Responses(view))[0])
                && effect == Process(old(effect), old(Responses(view))[0])
                && Responses(view) == old(Responses(view))[1..] && resp.Contents() == old(resp.Contents())[1..]
                && Lent() == if good then old(Lent()) - {old(resp.Contents())[0]} else old(Lent())
    {
      var id := resp.Dequeue();
      got, good := id.Some?, false;
      if got {
        assert Responses(view) == old(Responses(view))[1..];
        var v := view(messages[id.value]);
        good := ok(effect, v);
        effect := Process(effect, v);
        if good {
          Bitmap.ReclaimBuffer(state, id.value);
        }
      }
    }

    /** The first loop: each response is handled and its buffer reclaimed, in
        ring order; a failing one is dequeued but its buffer stays lent. */
    method DrainResponses(view: Msg -> View, ok: Verdict) returns (rc: int)
      requires Valid() && AllArmed(effect, Responses(view))
      modifies this`effect, resp`cons, state
      ensures Valid()
      ensures var ms, ids, e0 := old(Responses(view)), old(resp.Contents()), old(effect);
              && effect == Drained(ok, e0, ms)
              && resp.Contents() == ids[Seen(ok, e0, ms)..]
              && Lent() == old(Lent()) - Ids(ids[..Good(ok, e0, ms)])
              && (rc == 0 <==> Good(ok, e0, ms) == |ms|)
    {
      ghost var ms, ids, e0, lent := Responses(view), resp.Contents(), effect, Lent();
      ghost var n := 0;
      rc := 0;
      while true
        invariant Valid() && rc == 0 && n <= |ids| && resp.Contents() == ids[n..]
        invariant AllArmed(effect, Responses(view))
        invariant Drained(ok, effect, Responses(view)) == Drained(ok, e0, ms)
        invariant n + Good(ok, effect, Responses(view)) == Good(ok, e0, ms)
        invariant Lent() == lent - Ids(ids[..n])
        decreases |ids| - n
      {
        if n < |ids| { TakeNext(lent, ids, n); }
        var got, good := NextResponse(view, ok);
        if !got { break; }
        if !good {
          rc := -1;
          break;
        }
        n := n + 1;
      }
    }

    method NextEvent(view: Msg -> View, ok: Verdict) returns (got: bool, good: bool)
      requires Valid() && (events.Events() != [] ==> Armed(effect, view(events.Events()[0])))
      modifies this`effect, events.queue`cons
      ensures Valid() && (got <==> old(events.Events()) != [])
      ensures !got ==> effect == old(effect) && events.Events() == []
      ensures got ==>
                && good == ok(old(effect), view(old(events.Events())[0]))
                && effect == Process(old(effect), view(old(events.Events())[0]))
                && events.Events() == old(events.Events())[1..]
    {
      var event := events.Rx();
      got, good := event.Some?, false;
      if got {
        var v := view(event.value);
        good := ok(effect, v);
        effect := Process(effect, v);
      }
    }

    /** The second loop, over a copy of each event. */
    method DrainEvents(view: Msg -> View, ok: Verdict, rc0: int) returns (rc: int)
      requires Valid() && AllArmed(effect, Views(view, events.Events()))
      modifies this`effect, events.queue`cons
      ensures Valid()
      ensures var es, e0 := Views(view, old(events.Events())), old(effect);
              && effect == Drained(ok, e0, es)
              && events.Events() == old(events.Events())[Seen(ok, e0, es)..]
              && (rc == 0 <==> Good(ok, e0, es) == |es| && (rc0 == 0 || es != []))
    {
      ghost var raw, es, e0 := events.Events(), Views(view, events.Events()), effect;
      ghost var n := 0;
      rc := rc0;
      while true
        invariant Valid() && n <= |raw| && events.Events() == raw[n..] && rc == if n == 0 then rc0 else 0
        invariant AllArmed(effect, Views(view, events.Events()))
        invariant Drained(ok, effect, Views(view, events.Events())) == Drained(ok, e0, es)
        invariant n + Good(ok, effect, Views(view, events.Events())) == Good(ok, e0, es)
        decreases |raw| - n
      {
        if n < |raw| {
          ViewsTail(view, raw[n..]);
          assert raw[n..][1..] == raw[n + 1..];
        }
        var got, good := NextEvent(view, ok);
        if !got { break; }
        if !good {
          rc := -1;
          break;
        }
        rc, n := 0, n + 1;
      }
    }

    /** Both loops, for any reading of a message. */
    method DrainBoth(view: Msg -> View, ok: Verdict) returns (rc: int)
      requires Valid() && AllArmed(effect, Responses(view))
      requires forall n: nat | n <= |Responses(view)| ::
                 AllArmed(ProcessAll(effect, Responses(view)[..n]), Views(view, events.Events()))
      modifies this`effect, resp`cons, state, events.queue`cons
      ensures Valid()
      ensures var ms, es, ids := old(Responses(view)), Views(view, old(events.Events())), old(resp.Contents());
              var e0 := old(effect);
              var e1 := ProcessAll(e0, ms[..Seen(ok, e0, ms)]);
              && effect == ProcessAll(e1, es[..Seen(ok, e1, es)])
              && resp.Contents() == ids[Seen(ok, e0, ms)..]
              && events.Events() == old(events.Events())[Seen(ok, e1, es)..]
              && Lent() == old(Lent()) - Ids(ids[..Good(ok, e0, ms)])
              && (rc == 0 <==> Good(ok, e1, es) == |es| && (Good(ok, e0, ms) == |ms| || es != []))
    {
      DrainedIs(ok, effect, Responses(view));
      rc := DrainResponses(view, ok);
      DrainedIs(ok, effect, Views(view, events.Events()));
      rc := DrainEvents(view, ok, rc);
    }

    /** rpc_run. The result is that of the last message handled: an event that
        succeeds hides an earlier failure among the responses. If no handler
        fails, both queues are drained and every response's buffer is free. */
    method Run(ok: Verdict) returns (rc: int)
      requires Valid() && AllArmed(effect, Responses(Decode))
      requires forall n: nat | n <= |Responses(Decode)| ::
                 AllArmed(ProcessAll(effect, Responses(Decode)[..n]), Views(Decode, events.Events()))
      modifies this`effect, resp`cons, state, events.queue`cons
      ensures Valid()
      ensures var ms, es, ids := old(Responses(Decode)), Views(Decode, old(events.Events())), old(resp.Contents());
              var e0 := old(effect);
              var e1 := ProcessAll(e0, ms[..Seen(ok, e0, ms)]);
              && effect == ProcessAll(e1, es[..Seen(ok, e1, es)])
              && resp.Contents() == ids[Seen(ok, e0, ms)..]
              && events.Events() == old(events.Events())[Seen(ok, e1, es)..]
              && Lent() == old(Lent()) - Ids(ids[..Good(ok, e0, ms)])
              && (rc == 0 <==> Good(ok, e1, es) == |es| && (Good(ok, e0, ms) == |ms| || es != []))
              && (AllHandled(ok, e0, ms + es) ==>
                    rc == 0 && resp.Contents() == [] && events.Events() == [] && Lent() == old(Lent()) - Ids(ids))
              && Delivers(e0, Lookup(ids, old(messages[..]))[..Seen(ok, e0, ms)]
                              + old(events.Events())[..Seen(ok, e1, es)], effect)
    {
      ghost var ms, es := Responses(Decode), Views(Decode, events.Events());
      DeliversRun(ok, effect, Lookup(resp.Contents(), messages[..]), events.Events());
      if AllHandled(ok, effect, ms + es) { AllGood(ok, effect, ms, es); }
      rc := DrainBoth(Decode, ok);
    }
  }

  ghost function Lookup(ids: seq<nat>, messages: seq<Msg>): (ms: seq<Msg>)
    requires |messages| == SIZE && forall i | 0 <= i < |ids| :: ids[i] < SIZE
    ensures |ms| == |ids| && forall i | 0 <= i < |ids| :: ms[i] == messages[ids[i]]
  {
    seq(|ids|, i requires 0 <= i < |ids| => messages[ids[i]])
  }

  lemma {:induction false} InTwo(ok: Verdict, e: Effect, vs: seq<View>, ws: seq<View>)
    ensures ProcessAll(e, vs + ws) == ProcessAll(ProcessAll(e, vs), ws)
    ensures AllHandled(ok, e, vs + ws) <==> AllHandled(ok, e, vs) && AllHandled(ok, ProcessAll(e, vs), ws)
    decreases |vs|
  {
    if vs == [] {
      assert vs + ws == ws;
    } else {
      InTwo(ok, Process(e, vs[0]), vs[1..], ws);
      assert (vs + ws)[1..] == vs[1..] + ws;
    }
  }

  /** Without handler errors a run drains everything: all messages of both
      queues are good and all are seen. */
  lemma AllGood(ok: Verdict, e: Effect, ms: seq<View>, es: seq<View>)
    requires AllHandled(ok, e, ms + es)
    ensures Good(ok, e, ms) == Seen(ok, e, ms) == |ms| && ms[..|ms|] == ms
    ensures Good(ok, ProcessAll(e, ms), es) == Seen(ok, ProcessAll(e, ms), es) == |es|
  {
    InTwo(ok, e, ms, es);
    GoodIsLongest(ok, e, ms, |ms|);
    GoodIsLongest(ok, ProcessAll(e, ms), es, |es|);
    assert ms[..|ms|] == ms && es[..|es|] == es;
  }

  // ---------------------------------------------- what the callbacks amount to

  predicate IsMmio(v: View) { v.op == Codec.OP_MMIO }

  /** The MMIO messages of a sequence, and the others. */
  function MmioOf(vs: seq<View>): seq<View> {
    if vs == [] then [] else (if IsMmio(vs[0]) then [vs[0]] else []) + MmioOf(vs[1..])
  }

  function OthersOf(vs: seq<View>): seq<Msg> {
    if vs == [] then [] else (if IsMmio(vs[0]) then [] else [vs[0].msg]) + OthersOf(vs[1..])
  }

  /** Each message names a busy slot, and no two the same. */
  ghost predicate OwnSlots(e: Effect, vs: seq<View>) {
    && (forall i | 0 <= i < |vs| :: vs[i].slot < |e.acks| && e.acks[vs[i].slot].Some?)
    && (forall i, j | 0 <= i < j < |vs| :: vs[i].slot != vs[j].slot)
  }

  lemma OwnSlotsFront(e: Effect, v: View, vs: seq<View>)
    requires IsMmio(v)
    ensures OwnSlots(e, [v] + vs) <==> Armed(e, v) && OwnSlots(Process(e, v), vs)
  {
    assert ([v] + vs)[0] == v;
    if OwnSlots(e, [v] + vs) { OwnSlotsLess(e, Process(e, v), v, vs); }
    if Armed(e, v) && OwnSlots(Process(e, v), vs) { OwnSlotsMore(e, Process(e, v), v, vs); }
  }

  lemma OwnSlotsLess(e: Effect, e': Effect, v: View, vs: seq<View>)
    requires OwnSlots(e, [v] + vs) && v.slot < |e.acks| && e'.acks == e.acks[v.slot := None]
    ensures OwnSlots(e', vs)
  {
    var ws := [v] + vs;
    forall i | 0 <= i < |vs| ensures vs[i].slot < |e'.acks| && e'.acks[vs[i].slot].Some? {
      assert ws[i + 1] == vs[i] && ws[0].slot != ws[i + 1].slot;
    }
    forall i, j | 0 <= i < j < |vs| ensures vs[i].slot != vs[j].slot {
      assert ws[i + 1] == vs[i] && ws[j + 1] == vs[j];
    }
  }

  lemma OwnSlotsMore(e: Effect, e': Effect, v: View, vs: seq<View>)
    requires OwnSlots(e', vs) && v.slot < |e.acks| && e.acks[v.slot].Some? && e'.acks == e.acks[v.slot := None]
    ensures OwnSlots(e, [v] + vs)
  {
    var ws := [v] + vs;
    forall i | 0 <= i < |ws|
      ensures ws[i].slot < |e.acks| && e.acks[ws[i].slot].Some? && (i > 0 ==> ws[i].slot != v.slot)
    {
      if i > 0 { assert ws[i] == vs[i - 1]; }
    }
    forall i, j | 0 <= i < j < |ws| ensures ws[i].slot != ws[j].slot {
      if i > 0 { assert ws[i] == vs[i - 1] && ws[j] == vs[j - 1]; }
    }
  }

  /** No assertion of ioreq_finish fails exactly if the MMIO messages name busy
      slots, each its own. */
  lemma {:induction false} ArmedExactly(e: Effect, vs: seq<View>)
    ensures AllArmed(e, vs) <==> OwnSlots(e, MmioOf(vs))
    decreases |vs|
  {
    if vs != [] {
      ArmedExactly(Process(e, vs[0]), vs[1..]);
      if IsMmio(vs[0]) {
        OwnSlotsFront(e, vs[0], MmioOf(vs[1..]));
      } else {
        assert MmioOf(vs) == MmioOf(vs[1..]);
      }
    }
  }

  /** The slots a sequence of MMIO messages empties. */
  ghost predicate Emptied(vs: seq<View>, slot: nat) { exists i | 0 <= i < |vs| :: vs[i].slot == slot }

  lemma EmptiedFront(v: View, vs: seq<View>, slot: nat)
    ensures Emptied([v] + vs, slot) <==> v.slot == slot || Emptied(vs, slot)
  {
    var ws := [v] + vs;
    if Emptied(ws, slot) && v.slot != slot {
      var i :| 0 <= i < |ws| && ws[i].slot == slot;
      assert vs[i - 1].slot == slot;
    }
    if v.slot == slot { assert ws[0].slot == slot; }
    if Emptied(vs, slot) {
      var i :| 0 <= i < |vs| && vs[i].slot == slot;
      assert ws[i + 1].slot == slot;
    }
  }

  /** The slot table after a drain: emptied slots are free, others untouched. */
  ghost predicate TableOk(e: Effect, vs: seq<View>, acks: seq<Option<Mmio.Ack>>) {
    && |acks| == |e.acks|
    && forall k | 0 <= k < |e.acks| :: acks[k] == if Emptied(vs, k) then None else e.acks[k]
  }

  /** The callbacks owed to MMIO messages: what their slots hold, and their data. */
  function Owed(e: Effect, vs: seq<View>): (r: seq<Invocation>)
    requires forall i | 0 <= i < |vs| :: vs[i].slot < |e.acks| && e.acks[vs[i].slot].Some?
    ensures |r| == |vs|
  {
    seq(|vs|, i requires 0 <= i < |vs| =>
      Invocation(e.acks[vs[i].slot].value.callback, e.acks[vs[i].slot].value.cookie, vs[i].data))
  }

  lemma OwedFront(e: Effect, e': Effect, v: View, vs: seq<View>)
    requires OwnSlots(e, [v] + vs) && OwnSlots(e', vs)
    requires v.slot < |e.acks| && e.acks[v.slot].Some? && e'.acks == e.acks[v.slot := None]
    ensures Owed(e, [v] + vs)
            == [Invocation(e.acks[v.slot].value.callback, e.acks[v.slot].value.cookie, v.data)] + Owed(e', vs)
  {
    var ws, l, r := [v] + vs, Owed(e, [v] + vs), Owed(e', vs);
    assert ws[0] == v;
    forall i | 0 <= i < |vs| ensures l[i + 1] == r[i] {
      assert ws[i + 1] == vs[i] && ws[0].slot != ws[i + 1].slot;
    }
  }

  lemma TableFront(e: Effect, e': Effect, v: View, vs: seq<View>, acks: seq<Option<Mmio.Ack>>)
    requires v.slot < |e.acks| && e'.acks == e.acks[v.slot := None] && TableOk(e', vs, acks)
    ensures TableOk(e, [v] + vs, acks)
  {
    forall k | 0 <= k < |e.acks| ensures acks[k] == if Emptied([v] + vs, k) then None else e.acks[k] {
      EmptiedFront(v, vs, k);
    }
  }

  lemma CalledFirst(e: Effect, v: View, vs: seq<View>, r: Effect)
    requires IsMmio(v) && OwnSlots(e, [v] + vs) && OwnSlots(Process(e, v), vs)
    requires r.calls == Process(e, v).calls + Owed(Process(e, v), vs) && TableOk(Process(e, v), vs, r.acks)
    ensures r.calls == e.calls + Owed(e, [v] + vs) && TableOk(e, [v] + vs, r.acks)
  {
    assert ([v] + vs)[0] == v;
    OwedFront(e, Process(e, v), v, vs);
    TableFront(e, Process(e, v), v, vs, r.acks);
  }

  lemma SkippedFirst(e: Effect, v: View, vs: seq<View>, r: Effect)
    requires !IsMmio(v) && OwnSlots(e, vs) && OwnSlots(Process(e, v), vs)
    requires r.calls == Process(e, v).calls + Owed(Process(e, v), vs) && TableOk(Process(e, v), vs, r.acks)
    ensures r.calls == e.calls + Owed(e, vs) && TableOk(e, vs, r.acks)
  {
    assert Owed(Process(e, v), vs) == Owed(e, vs);
  }

  /** A whole sequence of messages: each MMIO message is called back once, in
      ring order, with the callback and cookie its slot held before; these slots
      are then free and the others untouched. */
  lemma {:induction false} CallsInOrder(e: Effect, vs: seq<View>)
    requires AllArmed(e, vs)
    ensures OwnSlots(e, MmioOf(vs))
    ensures ProcessAll(e, vs).calls == e.calls + Owed(e, MmioOf(vs))
    ensures TableOk(e, MmioOf(vs), ProcessAll(e, vs).acks)
    decreases |vs|
  {
    ArmedExactly(e, vs);
    if vs != [] {
      var v, rest, r := vs[0], MmioOf(vs[1..]), ProcessAll(e, vs);
      CallsInOrder(Process(e, v), vs[1..]);
      assert MmioOf(vs) == if IsMmio(v) then [v] + rest else rest;
      if IsMmio(v) { CalledFirst(e, v, rest, r); } else { SkippedFirst(e, v, rest, r); }
    }
  }

  /** All other messages go to their handlers, in ring order. */
  lemma {:induction false} OthersInOrder(e: Effect, vs: seq<View>)
    ensures ProcessAll(e, vs).others == e.others + OthersOf(vs)
    decreases |vs|
  {
    if vs != [] {
      OthersInOrder(Process(e, vs[0]), vs[1..]);
      if IsMmio(vs[0]) {
        assert OthersOf(vs) == OthersOf(vs[1..]);
      } else {
        Appended(e.others, vs[0].msg, OthersOf(vs[1..]));
      }
    }
  }

  lemma Appended<T>(s: seq<T>, x: T, r: seq<T>)
    ensures (s + [x]) + r == s + ([x] + r)
  {
  }

  // ------------------------------------------------------ in terms of messages

  predicate MmioMsg(m: Msg) { Val(Codec.Get(m.mr0, Codec.OP)) == 0 }

  /** The MMIO messages of a sequence, and the others. */
  function MmioMsgs(ms: seq<Msg>): seq<Msg> {
    if ms == [] then [] else (if MmioMsg(ms[0]) then [ms[0]] else []) + MmioMsgs(ms[1..])
  }

  function OtherMsgs(ms: seq<Msg>): seq<Msg> {
    if ms == [] then [] else (if MmioMsg(ms[0]) then [] else [ms[0]]) + OtherMsgs(ms[1..])
  }

  /** The callback owed to message m: what the slot in its word 0 holds, with the
      data in its word 2. */
  ghost predicate OwedTo(acks: seq<Option<Mmio.Ack>>, m: Msg, call: Invocation) {
    var slot := Val(Codec.Get(m.mr0, Codec.SLOT));
    slot < |acks| && acks[slot].Some? && call == Invocation(acks[slot].value.callback, acks[slot].value.cookie, m.mr2)
  }

  /** What handling the messages ms has to show: one callback for each MMIO
      message, in order, and every other message as it is, in order. */
  ghost predicate Delivers(e: Effect, ms: seq<Msg>, e': Effect) {
    && |e'.calls| == |e.calls| + |MmioMsgs(ms)| && e.calls <= e'.calls
    && (forall i | 0 <= i < |MmioMsgs(ms)| :: OwedTo(e.acks, MmioMsgs(ms)[i], e'.calls[|e.calls| + i]))
    && e'.others == e.others + OtherMsgs(ms)
  }

  lemma {:induction false} Decoded(ms: seq<Msg>)
    ensures MmioOf(Views(Decode, ms)) == Views(Decode, MmioMsgs(ms))
    ensures OthersOf(Views(Decode, ms)) == OtherMsgs(ms)
    decreases |ms|
  {
    if ms != [] {
      Decoded(ms[1..]);
      ViewsTail(Decode, ms);
      if MmioMsg(ms[0]) { ViewsFront(Decode, ms[0], MmioMsgs(ms[1..])); }
    }
  }

  lemma ViewsFront(view: Msg -> View, m: Msg, ms: seq<Msg>)
    ensures Views(view, [m] + ms) == [view(m)] + Views(view, ms)
  {
    var l, r := Views(view, [m] + ms), [view(m)] + Views(view, ms);
    forall i | 0 <= i < |l| ensures l[i] == r[i] { assert ([m] + ms)[i] == if i == 0 then m else ms[i - 1]; }
  }

  lemma DeliveredAll(e: Effect, ms: seq<Msg>)
    requires AllArmed(e, Views(Decode, ms))
    ensures Delivers(e, ms, ProcessAll(e, Views(Decode, ms)))
  {
    var vs := Views(Decode, ms);
    CallsInOrder(e, vs);
    OthersInOrder(e, vs);
    Decoded(ms);
  }

  lemma {:induction false} ArmedBoth(e: Effect, vs: seq<View>, ws: seq<View>)
    ensures AllArmed(e, vs + ws) <==> AllArmed(e, vs) && AllArmed(ProcessAll(e, vs), ws)
    ensures ProcessAll(e, vs + ws) == ProcessAll(ProcessAll(e, vs), ws)
    decreases |vs|
  {
    if vs == [] {
      assert vs + ws == ws;
    } else {
      ArmedBoth(Process(e, vs[0]), vs[1..], ws);
      assert (vs + ws)[1..] == vs[1..] + ws;
    }
  }

  lemma ViewsParts(view: Msg -> View, a: seq<Msg>, n: nat, b: seq<Msg>, m: nat)
    requires n <= |a| && m <= |b|
    ensures Views(view, a[..n] + b[..m]) == Views(view, a)[..n] + Views(view, b)[..m]
    ensures Views(view, a) == Views(view, a)[..n] + Views(view, a)[n..]
    ensures Views(view, b) == Views(view, b)[..m] + Views(view, b)[m..]
  {
  }

  /** Both loops of rpc_run, the first over n responses and the second over m
      events. */
  lemma DeliveredBoth(e: Effect, a: seq<Msg>, n: nat, b: seq<Msg>, m: nat)
    requires n <= |a| && m <= |b| && AllArmed(e, Views(Decode, a))
    requires AllArmed(ProcessAll(e, Views(Decode, a)[..n]), Views(Decode, b))
    ensures Delivers(e, a[..n] + b[..m], ProcessAll(ProcessAll(e, Views(Decode, a)[..n]), Views(Decode, b)[..m]))
  {
    var vs, ws := Views(Decode, a), Views(Decode, b);
    ViewsParts(Decode, a, n, b, m);
    ArmedBoth(e, vs[..n], vs[n..]);
    ArmedBoth(ProcessAll(e, vs[..n]), ws[..m], ws[m..]);
    ArmedBoth(e, vs[..n], ws[..m]);
    DeliveredAll(e, a[..n] + b[..m]);
  }

  lemma DeliversRun(ok: Verdict, e: Effect, a: seq<Msg>, b: seq<Msg>)
    requires AllArmed(e, Views(Decode, a))
    requires forall n: nat | n <= |a| :: AllArmed(ProcessAll(e, Views(Decode, a)[..n]), Views(Decode, b))
    ensures var n := Seen(ok, e, Views(Decode, a));
            var e1 := ProcessAll(e, Views(Decode, a)[..n]);
            var m := Seen(ok, e1, Views(Decode, b));
            Delivers(e, a[..n] + b[..m], ProcessAll(e1, Views(Decode, b)[..m]))
  {
    var n := Seen(ok, e, Views(Decode, a));
    DeliveredBoth(e, a, n, b, Seen(ok, ProcessAll(e, Views(Decode, a)[..n]), Views(Decode, b)));
  }

  /** One response at the driver: rpc_process does to the slot table what the
      finish of the request protocol does, and makes the same callback. */
  lemma ProcessFinishes(io: Mmio.Io, t: Tid, e: Effect)
    requires Mmio.IoInv(io) && AtDriver(io.s, t) && e.acks == io.acks && io.s.Task(t).id < |io.s.msgs|
    ensures var io', e' := Mmio.IoNext(io, t, Mmio.Finish), Process(e, Decode(io.s.msgs[io.s.Task(t).id]));
            && e'.acks == io'.acks && |io'.calls| == |io.calls| + 1 && io.calls <= io'.calls
            && var c := io'.calls[|io.calls|];
            e'.calls == e.calls + [Invocation(c.callback, c.cookie, c.data)] && e'.others == e.others
  {
    Mmio.FinishFindsSlot(io, t);
  }

  // ------------------------------------------------ ready for the dispatch loop

  /** The ids in the response ring when nobody is inside it. */
  function Waiting(q: Queue): (ids: seq<nat>)
    requires |q.ring| == SIZE && q.cons.tail.pos <= q.prod.tail.pos
    ensures |ids| == q.prod.tail.pos - q.cons.tail.pos
  {
    Window(q.ring, q.cons.tail.pos, q.prod.tail.pos - q.cons.tail.pos)
  }

  /** A response in the ring is an MMIO message for the slot of its request. */
  lemma ResponseAt(io: Mmio.Io, p: nat)
    requires Mmio.IoInv(io) && RingSafety.Quiescent(io.s.resp.w.q)
    requires io.s.resp.w.q.cons.tail.pos <= p < io.s.resp.w.q.prod.tail.pos
    ensures |io.s.resp.w.q.ring| == |io.s.msgs| == |io.s.loc| == SIZE
    ensures var x := io.s.resp.w.q.ring[p % SIZE];
            && x < SIZE && x in io.s.lent && io.s.loc[x] == Queued(Resp, p)
            && IsMmio(Decode(io.s.msgs[x])) && Decode(io.s.msgs[x]).slot == Mmio.SlotOf(io, x)
  {
    var w := io.s.resp.w;
    assert LinkOk(io.s.L(Resp));
    RingSafety.Conservation(w);
    RingSafety.CommittedPrefix(w);
    assert RingSafety.Holds(w.q, w.log[p], p) && Fits(w.q.events, w.log[p]);
    assert LiveOk(io.s, Resp, p);
    assert Placed(io.s, w.log[p].id) && Mmio.LentOk(io, w.log[p].id);
  }

  lemma {:induction false} NoneArmed(e: Effect, vs: seq<View>)
    requires forall i | 0 <= i < |vs| :: !IsMmio(vs[i])
    ensures AllArmed(e, vs)
    decreases |vs|
  {
    if vs != [] { NoneArmed(Process(e, vs[0]), vs[1..]); }
  }

  lemma {:induction false} AllMmio(vs: seq<View>)
    requires forall i | 0 <= i < |vs| :: IsMmio(vs[i])
    ensures MmioOf(vs) == vs
    decreases |vs|
  {
    if vs != [] { AllMmio(vs[1..]); }
  }

  /** Messages for the slots of distinct lent buffers. */
  lemma ForOwnSlots(io: Mmio.Io, e: Effect, ids: seq<nat>, vs: seq<View>)
    requires Mmio.BookSized(io) && Mmio.Books(io) && e.acks == io.acks && |vs| == |ids|
    requires forall i | 0 <= i < |ids| ::
               ids[i] < SIZE && ids[i] in io.s.lent && IsMmio(vs[i]) && vs[i].slot == Mmio.SlotOf(io, ids[i])
    requires forall i, j | 0 <= i < j < |ids| :: ids[i] != ids[j]
    ensures AllArmed(e, vs)
  {
    forall i, j | 0 <= i < |ids| && 0 <= j < |ids|
      ensures vs[i].slot < |e.acks| && e.acks[vs[i].slot].Some? && (i < j ==> vs[i].slot != vs[j].slot)
    {
      Mmio.OwnSlot(io, ids[i], ids[j]);
    }
    AllMmio(vs);
    ArmedExactly(e, vs);
  }

  lemma WaitingOk(io: Mmio.Io)
    requires Mmio.IoInv(io) && RingSafety.Quiescent(io.s.resp.w.q)
    ensures WellFormed(io.s.resp.w.q) && io.s.resp.w.q.cons.tail.pos <= io.s.resp.w.q.prod.tail.pos
    ensures |io.s.msgs| == |io.s.loc| == SIZE
    ensures var ids := Waiting(io.s.resp.w.q);
            && (forall i | 0 <= i < |ids| ::
                  && ids[i] < SIZE && ids[i] in io.s.lent
                  && IsMmio(Decode(io.s.msgs[ids[i]])) && Decode(io.s.msgs[ids[i]]).slot == Mmio.SlotOf(io, ids[i]))
            && (forall i, j | 0 <= i < j < |ids| :: ids[i] != ids[j])
  {
    assert LinkOk(io.s.L(Resp));
    var q := io.s.resp.w.q;
    var ids := Waiting(q);
    forall i | 0 <= i < |ids|
      ensures && ids[i] < SIZE && ids[i] in io.s.lent && io.s.loc[ids[i]] == Queued(Resp, q.cons.tail.pos + i)
              && IsMmio(Decode(io.s.msgs[ids[i]])) && Decode(io.s.msgs[ids[i]]).slot == Mmio.SlotOf(io, ids[i])
    {
      ResponseAt(io, q.cons.tail.pos + i);
    }
  }

  /** In every reachable state of the request protocol with nobody inside the
      response ring, the driver may run: no assertion fails on the responses
      that wait there, nor on any events that are not MMIO messages. */
  lemma ReadyToRun(io: Mmio.Io, e: Effect, es: seq<View>)
    requires Mmio.IoInv(io) && RingSafety.Quiescent(io.s.resp.w.q) && e.acks == io.acks
    requires forall i | 0 <= i < |es| :: !IsMmio(es[i])
    ensures WellFormed(io.s.resp.w.q) && io.s.resp.w.q.cons.tail.pos <= io.s.resp.w.q.prod.tail.pos
    ensures |io.s.msgs| == SIZE && forall x | x in Waiting(io.s.resp.w.q) :: x < SIZE
    ensures var ms := Views(Decode, Lookup(Waiting(io.s.resp.w.q), io.s.msgs));
            AllArmed(e, ms) && forall n: nat | n <= |ms| :: AllArmed(ProcessAll(e, ms[..n]), es)
  {
    WaitingOk(io);
    var ids := Waiting(io.s.resp.w.q);
    var ms := Views(Decode, Lookup(ids, io.s.msgs));
    ForOwnSlots(io, e, ids, ms);
    forall n: nat | n <= |ms| ensures AllArmed(ProcessAll(e, ms[..n]), es) { NoneArmed(ProcessAll(e, ms[..n]), es); }
  }
}
