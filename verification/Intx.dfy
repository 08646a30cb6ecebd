/** PCI interrupts: a bitmap per INTx line stands for the wired-OR of all the
    devices on it, and the line is driven only when that changes. */
module Intx {
  import opened Words

  const PINS: nat := 4
  const PCI_SLOTS: nat := 32
  const MAX_DEVICES: nat := PCI_SLOTS - 1

  /** The C int 1 << source, converted to uint64_t: bit 31 is the sign and is
      copied into bits 32 to 63. */
  function IntShift(source: nat): Word
    requires source < 32
  {
    seq(BITS, i => if i < 31 then i == source else source == 31)
  }

  /** So source 31 is the one that shares its bits: the line has room for 32
      sources, not for 64. */
  lemma ShiftExact(source: nat)
    requires source < 32
    ensures (forall i | 0 <= i < BITS :: IntShift(source)[i] <==> i == source) <==> source != 31
  {
    if source == 31 { assert IntShift(source)[32]; }
  }

  /** Calls of vm_set_irq_level come in pairs: high, low, high, ... */
  ghost predicate Alternates(calls: seq<bool>) {
    forall i | 0 <= i < |calls| :: calls[i] == (i % 2 == 0)
  }

  /** The level last driven; lines start low. */
  function Driven(calls: seq<bool>): bool { calls != [] && calls[|calls| - 1] }

  /** What a line that is told its level after every change does: it is driven
      on an edge and left alone otherwise. */
  function Follow(calls: seq<bool>, level: bool): seq<bool> {
    if Driven(calls) == level then calls else calls + [level]
  }

  class SharedIrqLine {
    var sources: Word
    var calls: seq<bool>

    /** Bits 31 to 63 move together, and the line follows the bitmap. */
    ghost predicate Valid()
      reads this
    {
      && (forall i | 31 <= i < BITS :: sources[i] == sources[31])
      && Alternates(calls) && Driven(calls) == (Asserted() != {})
    }

    ghost function Asserted(): set<nat>
      reads this
    {
      LowBits(sources)
    }

    /** shared_irq_line_init */
    constructor ()
      ensures Valid() && Asserted() == {} && calls == []
    {
      sources := Zero();
      calls := [];
    }

    /** shared_irq_line_change. Sources 32 to 63 would shift an int out of its
        width, which C leaves undefined. */
    method Change(source: nat, active: bool) returns (rc: int)
      requires Valid() && (source < 32 || source >= 64)
      modifies this
      ensures Valid()
      ensures rc == if source >= 64 then -1 else 0
      ensures source >= 64 ==> sources == old(sources) && calls == old(calls)
      ensures source < 32 ==> Asserted() == if active then old(Asserted()) + {source} else old(Asserted()) - {source}
      ensures source < 32 ==> calls == Follow(old(calls), Asserted() != {})
    {
      if source >= 64 { return -1; }
      var saved := sources;
      if active {
        sources := Or(sources, IntShift(source));
      } else {
        sources := And(sources, Not(IntShift(source)));
      }
      NonZero(saved);
      NonZero(sources);
      assert Asserted() == if active then old(Asserted()) + {source} else old(Asserted()) - {source};
      if (true in saved) == (true in sources) { return 0; }
      calls := calls + [true in sources];
      return 0;
    }
  }

  function LowBits(w: Word): set<nat> { set s: nat | s < 32 && w[s] }

  /** A word whose upper half copies bit 31 is zero exactly if its low half is. */
  lemma NonZero(w: Word)
    requires forall i | 31 <= i < BITS :: w[i] == w[31]
    ensures true in w <==> LowBits(w) != {}
  {
    if true in w {
      var i :| 0 <= i < BITS && w[i];
      assert (if i < 32 then i else 31) in LowBits(w);
    }
    if s :| s in LowBits(w) {
      assert w[s] in w;
    }
  }

  // ------------------------------------------------------------- PCI devices

  /** PCI_DEVFN(n, 0) */
  function Devfn(n: nat): nat { n % 32 * 8 }

  /** Section 9.1 of the PCI-to-PCI Bridge Architecture Specification. */
  function Swizzle(slot: nat, pin: nat): nat { (slot + pin) % PINS }

  /** A registered device: its slot on the guest's bus, its number in the
      backend, and the backend. */
  datatype Device = Device(slot: nat, backend: nat, proxy: nat)

  /** pcidev_find as a function of the device list. */
  function Find(devs: seq<Device>, proxy: nat, backend: nat): (k: nat)
    ensures k <= |devs|
    ensures k < |devs| ==> devs[k].proxy == proxy && devs[k].backend == backend
    ensures forall i | 0 <= i < k :: !(devs[i].proxy == proxy && devs[i].backend == backend)
  {
    if devs == [] || (devs[0].proxy == proxy && devs[0].backend == backend) then 0
    else 1 + Find(devs[1..], proxy, backend)
  }

  const IRQ_CLR: nat := 0
  const IRQ_SET: nat := 1
  const IRQ_PULSE: nat := 2

  /** Messages for handle_pci. A registration comes with the guest slot that the
      bus assigned; mr1 and mr2 are the message words as numbers. */
  datatype Message = Register(proxy: nat, mr1: nat, slot: nat) | SetIrq(proxy: nat, mr1: nat, mr2: nat)

  /** What the devices themselves say: who is registered and whose interrupt is
      asserted, by guest slot. */
  datatype Wires = Wires(devs: seq<Device>, high: set<nat>)

  function U32(x: nat): nat { x % 0x1_0000_0000 }

  /** The meaning of a message, without any line or bitmap. */
  function Meaning(w: Wires, m: Message): Wires {
    match m
    case Register(proxy, mr1, slot) =>
      if |w.devs| >= MAX_DEVICES then w else w.(devs := w.devs + [Device(slot, Devfn(mr1), proxy)])
    case SetIrq(proxy, mr1, mr2) =>
      var k := Find(w.devs, proxy, Devfn(mr1));
      if U32(mr1) >= PCI_SLOTS || k == |w.devs| then w
      else if U32(mr2) == IRQ_SET then w.(high := w.high + {w.devs[k].slot})
      else if U32(mr2) == IRQ_CLR || U32(mr2) == IRQ_PULSE then w.(high := w.high - {w.devs[k].slot})
      else w
  }

  /** The bus gives every device a slot of its own. */
  ghost predicate FreshSlot(w: Wires, m: Message) {
    m.Register? ==> m.slot < PCI_SLOTS && forall k | 0 <= k < |w.devs| :: w.devs[k].slot != m.slot
  }

  /** Some registered device whose guest slot is congruent to the line's number
      modulo 4 has its interrupt asserted. */
  ghost predicate WiredOr(w: Wires, line: nat) {
    exists k | 0 <= k < |w.devs| :: w.devs[k].slot % 4 == line && w.devs[k].slot in w.high
  }

  /** The states the wires go through: a pulse is two changes. */
  function Trace(w: Wires, m: Message): seq<Wires> {
    if m.SetIrq? && U32(m.mr1) < PCI_SLOTS && U32(m.mr2) == IRQ_PULSE
        && Find(w.devs, m.proxy, Devfn(m.mr1)) < |w.devs| then
      [w.(high := w.high + {w.devs[Find(w.devs, m.proxy, Devfn(m.mr1))].slot}), Meaning(w, m)]
    else
      [Meaning(w, m)]
  }

  /** Line i, told the wired-OR of each state in turn. */
  ghost function FollowAll(calls: seq<bool>, ws: seq<Wires>, i: nat): seq<bool>
    decreases |ws|
  {
    if ws == [] then calls else FollowAll(Follow(calls, WiredOr(ws[0], i)), ws[1..], i)
  }

  lemma {:induction false} FollowBoth(calls: seq<bool>, a: seq<Wires>, b: seq<Wires>, i: nat)
    ensures FollowAll(calls, a + b, i) == FollowAll(FollowAll(calls, a, i), b, i)
    decreases |a|
  {
    if a == [] {
      assert a + b == b;
    } else {
      FollowBoth(Follow(calls, WiredOr(a[0], i)), a[1..], b, i);
      assert (a + b)[1..] == a[1..] + b;
    }
  }

  lemma FollowOne(calls: seq<bool>, w: Wires, i: nat)
    ensures FollowAll(calls, [w], i) == Follow(calls, WiredOr(w, i))
  {
    assert [w][1..] == [];
  }

  lemma FollowTwo(calls: seq<bool>, v: Wires, w: Wires, i: nat)
    ensures FollowAll(calls, [v, w], i) == Follow(Follow(calls, WiredOr(v, i)), WiredOr(w, i))
  {
    FollowBoth(calls, [v], [w], i);
    assert [v] + [w] == [v, w];
    FollowOne(calls, v, i);
    FollowOne(Follow(calls, WiredOr(v, i)), w, i);
  }

  const RC_ERROR: int := -1
  const RC_NONE: int := 0
  const RC_HANDLED: int := 1

  /** What handle_pci answers. */
  function Answer(w: Wires, m: Message): int {
    match m
    case Register(_, _, _) => if |w.devs| >= MAX_DEVICES then RC_ERROR else RC_HANDLED
    case SetIrq(proxy, mr1, mr2) =>
      if U32(mr1) >= PCI_SLOTS then RC_NONE
      else if Find(w.devs, proxy, Devfn(mr1)) == |w.devs| || U32(mr2) > IRQ_PULSE then RC_ERROR
      else RC_HANDLED
  }

  /** The asserted slots on line i. */
  ghost function OnLine(high: set<nat>, i: nat): set<nat> { set s | s in high && s % 4 == i }

  ghost predicate WiresOk(w: Wires) {
    && (forall k | 0 <= k < |w.devs| :: w.devs[k].slot < PCI_SLOTS)
    && (forall j, k | 0 <= j < k < |w.devs| :: w.devs[j].slot != w.devs[k].slot)
    && (forall s | s in w.high :: exists k | 0 <= k < |w.devs| :: w.devs[k].slot == s)
  }

  lemma LineIsWiredOr(w: Wires, i: nat)
    requires WiresOk(w)
    ensures OnLine(w.high, i) != {} <==> WiredOr(w, i)
  {
    if s :| s in OnLine(w.high, i) {
      var k :| 0 <= k < |w.devs| && w.devs[k].slot == s;
    }
    if WiredOr(w, i) {
      var k :| 0 <= k < |w.devs| && w.devs[k].slot % 4 == i && w.devs[k].slot in w.high;
      assert w.devs[k].slot in OnLine(w.high, i);
    }
  }

  /** Raising or lowering one slot concerns its own line only. */
  lemma OneOnLine(high: set<nat>, slot: nat, level: bool)
    ensures var high' := if level then high + {slot} else high - {slot};
            && OnLine(high', slot % 4)
               == (if level then OnLine(high, slot % 4) + {slot} else OnLine(high, slot % 4) - {slot})
            && forall j | 0 <= j < PINS && j != slot % 4 :: OnLine(high', j) == OnLine(high, j)
  {
  }

  lemma AllWiredOr(w: Wires)
    requires WiresOk(w)
    ensures forall i | 0 <= i < PINS :: OnLine(w.high, i) != {} <==> WiredOr(w, i)
  {
    forall i | 0 <= i < PINS ensures OnLine(w.high, i) != {} <==> WiredOr(w, i) { LineIsWiredOr(w, i); }
  }

  lemma MeaningOk(w: Wires, m: Message)
    requires WiresOk(w) && FreshSlot(w, m)
    ensures WiresOk(Meaning(w, m))
  {
    var w' := Meaning(w, m);
    forall s | s in w'.high ensures exists k | 0 <= k < |w'.devs| :: w'.devs[k].slot == s {
      if s in w.high {
        var k :| 0 <= k < |w.devs| && w.devs[k].slot == s;
        assert w'.devs[k].slot == s;
      } else {
        var k := Find(w.devs, m.proxy, Devfn(m.mr1));
        assert w'.devs[k].slot == s;
      }
    }
  }

  // ------------------------------------------------ messages in plain numbers

  /** Device number n of a backend is backend function 8n; numbers 0 to 31 have
      functions of their own. */
  lemma DevfnDistinct(m: nat, n: nat)
    requires m < 32 && n < 32
    ensures Devfn(n) == 8 * n && (Devfn(m) == Devfn(n) <==> m == n)
  {
  }

  /** The device that a message from this backend means. */
  predicate Means(w: Wires, m: Message, k: nat) {
    && m.SetIrq? && m.mr1 < 32 && k < |w.devs| && w.devs[k].proxy == m.proxy && w.devs[k].backend == 8 * m.mr1
    && forall j | 0 <= j < k :: !(w.devs[j].proxy == m.proxy && w.devs[j].backend == 8 * m.mr1)
  }

  lemma MeansFound(w: Wires, m: Message, k: nat)
    requires Means(w, m, k)
    ensures Find(w.devs, m.proxy, Devfn(m.mr1)) == k && U32(m.mr1) == m.mr1
  {
    DevfnDistinct(m.mr1, m.mr1);
  }

  /** Word 2 of an interrupt message: after 1 the device is asserted, after 0 or 2
      it is not, and nobody else is affected; anything else is an error. */
  lemma SetIrqMeans(w: Wires, m: Message, k: nat)
    requires Means(w, m, k) && m.mr2 < 0x1_0000_0000
    ensures Meaning(w, m).devs == w.devs
    ensures m.mr2 == 1 ==> Meaning(w, m).high == w.high + {w.devs[k].slot}
    ensures m.mr2 == 0 || m.mr2 == 2 ==> Meaning(w, m).high == w.high - {w.devs[k].slot}
    ensures m.mr2 > 2 ==> Meaning(w, m) == w
    ensures Answer(w, m) == if m.mr2 <= 2 then 1 else -1
  {
    MeansFound(w, m, k);
  }

  /** A message for no registered device is an error without effect; interrupt
      numbers from 32 on are not for the PCI bus. */
  lemma SetIrqMisses(w: Wires, m: Message)
    requires m.SetIrq? && m.mr1 < 0x1_0000_0000 && forall k :: !Means(w, m, k)
    ensures Meaning(w, m) == w && Answer(w, m) == if m.mr1 < 32 then -1 else 0
  {
    if m.mr1 < 32 {
      DevfnDistinct(m.mr1, m.mr1);
      var k := Find(w.devs, m.proxy, Devfn(m.mr1));
      assert !Means(w, m, k);
    }
  }

  /** Registration: the 31st device is the last. */
  lemma RegisterMeans(w: Wires, m: Message)
    requires m.Register? && m.mr1 < 32
    ensures |w.devs| < 31 ==> Meaning(w, m) == Wires(w.devs + [Device(m.slot, 8 * m.mr1, m.proxy)], w.high)
    ensures |w.devs| >= 31 ==> Meaning(w, m) == w
    ensures Answer(w, m) == if |w.devs| < 31 then 1 else -1
  {
    DevfnDistinct(m.mr1, m.mr1);
  }

  lemma UpAndDown(w: Wires, k: nat)
    requires k < |w.devs| && !WiredOr(w, w.devs[k].slot % 4)
    ensures WiredOr(Wires(w.devs, w.high + {w.devs[k].slot}), w.devs[k].slot % 4)
    ensures !WiredOr(Wires(w.devs, w.high - {w.devs[k].slot}), w.devs[k].slot % 4)
  {
    var up := Wires(w.devs, w.high + {w.devs[k].slot});
    assert up.devs[k].slot % 4 == w.devs[k].slot % 4 && up.devs[k].slot in up.high;
  }

  /** The edges the guest sees on line slot % 4 when it was low: one for a set,
      both for a pulse, none for a clear. */
  lemma EdgesSeen(w: Wires, m: Message, k: nat, calls: seq<bool>)
    requires WiresOk(w) && Means(w, m, k) && m.mr2 <= 2
    requires !WiredOr(w, w.devs[k].slot % 4) && !Driven(calls)
    ensures FollowAll(calls, Trace(w, m), w.devs[k].slot % 4)
            == calls + (if m.mr2 == 1 then [true] else if m.mr2 == 2 then [true, false] else [])
  {
    var i, slot := w.devs[k].slot % 4, w.devs[k].slot;
    var up, down := Wires(w.devs, w.high + {slot}), Wires(w.devs, w.high - {slot});
    MeansFound(w, m, k);
    SetIrqMeans(w, m, k);
    UpAndDown(w, k);
    if m.mr2 == 2 {
      assert Trace(w, m) == [up, down];
      FollowTwo(calls, up, down, i);
      TwoMore(calls);
    } else if m.mr2 == 1 {
      assert Trace(w, m) == [up];
      FollowOne(calls, up, i);
    } else {
      assert Trace(w, m) == [down];
      FollowOne(calls, down, i);
      assert calls + [] == calls;
    }
  }

  lemma TwoMore(calls: seq<bool>)
    requires !Driven(calls)
    ensures Follow(Follow(calls, true), false) == calls + [true, false]
  {
    assert calls + [true] + [false] == calls + [true, false];
  }

  class PciBus {
    const lines: seq<SharedIrqLine>
    var devs: seq<Device>
    ghost var high: set<nat>

    ghost predicate Valid()
      reads this, lines
    {
      && |lines| == PINS && (forall i, j | 0 <= i < j < PINS :: lines[i] != lines[j])
      && (forall i | 0 <= i < PINS :: lines[i].Valid() && lines[i].Asserted() == OnLine(high, i))
      && WiresOk(Now())
    }

    ghost function Now(): Wires
      reads this
    {
      Wires(devs, high)
    }

    /** irq_init: four lines, no device. */
    constructor ()
      ensures Valid() && Now() == Wires([], {}) && fresh(lines)
      ensures forall i | 0 <= i < PINS :: lines[i].calls == []
    {
      var a := new SharedIrqLine();
      var b := new SharedIrqLine();
      var c := new SharedIrqLine();
      var d := new SharedIrqLine();
      lines := [a, b, c, d];
      devs, high := [], {};
    }

    /** pcidev_find */
    method FindDevice(proxy: nat, backend: nat) returns (k: nat)
      ensures k == Find(devs, proxy, backend)
    {
      k := 0;
      while k < |devs|
        invariant k <= |devs|
        invariant Find(devs, proxy, backend) == k + Find(devs[k..], proxy, backend)
      {
        if devs[k].proxy == proxy && devs[k].backend == backend { return; }
        assert devs[k..][1..] == devs[k + 1..];
        k := k + 1;
      }
    }

    /** shared_irq_line_change on the line the swizzle gives a registered slot. */
    method Drive(slot: nat, level: bool) returns (rc: int)
      requires Valid() && exists k | 0 <= k < |devs| :: devs[k].slot == slot
      modifies this`high, lines
      ensures Valid() && rc == 0
      ensures high == if level then old(high) + {slot} else old(high) - {slot}
      ensures forall i | 0 <= i < PINS :: lines[i].calls == Follow(old(lines[i].calls), OnLine(high, i) != {})
      ensures forall i | 0 <= i < PINS && i != slot % 4 :: lines[i].calls == old(lines[i].calls)
    {
      var i := Swizzle(slot, 0);
      rc := lines[i].Change(slot, level);
      high := if level then high + {slot} else high - {slot};
      OneOnLine(old(high), slot, level);
    }

    /** pcidev_intx_set: the device's bit, and only that, on its line. */
    method SetLevel(proxy: nat, backend: nat, level: bool) returns (rc: int)
      requires Valid()
      modifies this`high, lines
      ensures Valid()
      ensures var k := Find(devs, proxy, backend);
              if k == |devs| then rc == -1 && high == old(high)
              else rc == 0 && high == if level then old(high) + {devs[k].slot} else old(high) - {devs[k].slot}
      ensures forall i | 0 <= i < PINS :: lines[i].calls == Follow(old(lines[i].calls), WiredOr(Now(), i))
      ensures var k := Find(devs, proxy, backend);
              k < |devs| ==>
                var i := devs[k].slot % 4;
                && (forall j | 0 <= j < PINS && j != i :: lines[j].calls == old(lines[j].calls))
                && (level ==> lines[i].calls == Follow(old(lines[i].calls), true))
    {
      AllWiredOr(Now());
      var k := FindDevice(proxy, backend);
      if k == |devs| { return -1; }
      rc := Drive(devs[k].slot, level);
      AllWiredOr(Now());
      assert level ==> devs[k].slot in high;
    }

    /** RPC_IRQ_PULSE: up, and if that went well down again. */
    method Pulse(proxy: nat, backend: nat) returns (rc: int)
      requires Valid()
      modifies this`high, lines
      ensures Valid()
      ensures var k, w0 := Find(devs, proxy, backend), old(Now());
              if k == |devs| then
                && rc == -1 && Now() == w0
                && forall i | 0 <= i < PINS :: lines[i].calls == Follow(old(lines[i].calls), WiredOr(w0, i))
              else
                var up := w0.(high := w0.high + {devs[k].slot});
                && rc == 0 && Now() == w0.(high := w0.high - {devs[k].slot})
                && forall i | 0 <= i < PINS ::
                     lines[i].calls == Follow(Follow(old(lines[i].calls), WiredOr(up, i)), WiredOr(Now(), i))
    {
      rc := SetLevel(proxy, backend, true);
      if rc != 0 { return; }
      ghost var up := Now();
      rc := SetLevel(proxy, backend, false);
      assert Now() == old(Now()).(high := old(high) - {devs[Find(devs, proxy, backend)].slot});
    }

    /** handle_pci_intx, for an interrupt number of a PCI device. */
    method HandleIntx(m: Message) returns (err: int)
      requires Valid() && m.SetIrq? && U32(m.mr1) < PCI_SLOTS
      modifies this`high, lines
      ensures Valid() && Now() == Meaning(old(Now()), m)
      ensures err == 0 <==> Answer(old(Now()), m) == RC_HANDLED
      ensures forall i | 0 <= i < PINS :: lines[i].calls == FollowAll(old(lines[i].calls), Trace(old(Now()), m), i)
    {
      AllWiredOr(Now());
      err := -1;
      ghost var w0 := Now();
      if U32(m.mr2) == IRQ_SET {
        err := SetLevel(m.proxy, Devfn(m.mr1), true);
      } else if U32(m.mr2) == IRQ_CLR {
        err := SetLevel(m.proxy, Devfn(m.mr1), false);
      } else if U32(m.mr2) == IRQ_PULSE {
        err := Pulse(m.proxy, Devfn(m.mr1));
        if err == 0 {
          ghost var up := Trace(w0, m)[0];
          assert Trace(w0, m) == [up, Now()];
          forall i | 0 <= i < PINS ensures lines[i].calls == FollowAll(old(lines[i].calls), [up, Now()], i) {
            FollowTwo(old(lines[i].calls), up, Now(), i);
          }
          return;
        }
      }
      assert Now() == Meaning(w0, m) && Trace(w0, m) == [Now()];
      forall i | 0 <= i < PINS ensures lines[i].calls == FollowAll(old(lines[i].calls), [Now()], i) {
        FollowOne(old(lines[i].calls), Now(), i);
      }
    }

    /** handle_pci: every line is told the wired-OR of each state in turn. */
    method Handle(m: Message) returns (rc: int)
      requires Valid() && FreshSlot(Now(), m)
      modifies this, lines
      ensures Valid() && Now() == Meaning(old(Now()), m) && rc == Answer(old(Now()), m)
      ensures forall i | 0 <= i < PINS :: lines[i].calls == FollowAll(old(lines[i].calls), Trace(old(Now()), m), i)
    {
      if m.SetIrq? && U32(m.mr1) < PCI_SLOTS {
        var err := HandleIntx(m);
        return if err != 0 then RC_ERROR else RC_HANDLED;
      }
      MeaningOk(Now(), m);
      rc := RC_NONE;
      if m.Register? && |devs| >= MAX_DEVICES {
        rc := RC_ERROR;
      } else if m.Register? {
        devs := devs + [Device(m.slot, Devfn(m.mr1), m.proxy)];
        rc := RC_HANDLED;
      }
      AllWiredOr(Now());
      forall i | 0 <= i < PINS ensures lines[i].calls == FollowAll(old(lines[i].calls), [Now()], i) {
        FollowOne(old(lines[i].calls), Now(), i);
      }
    }

    /** Any sequence of messages. Each line is driven exactly on the edges of the
        wired-OR of its devices, and ends at its level. */
    method Run(ms: seq<Message>)
      requires Valid() && FreshRun(Now(), ms)
      modifies this, lines
      ensures Valid() && Now() == MeaningAll(old(Now()), ms)
      ensures forall i | 0 <= i < PINS :: (Driven(lines[i].calls) <==> WiredOr(Now(), i)) && Alternates(lines[i].calls)
      ensures forall i | 0 <= i < PINS :: lines[i].calls == FollowAll(old(lines[i].calls), TraceAll(old(Now()), ms), i)
    {
      var n := 0;
      while n < |ms|
        invariant n <= |ms| && Valid() && FreshRun(Now(), ms[n..])
        invariant MeaningAll(old(Now()), ms) == MeaningAll(Now(), ms[n..])
        invariant forall i | 0 <= i < PINS ::
                    FollowAll(old(lines[i].calls), TraceAll(old(Now()), ms), i)
                        == FollowAll(lines[i].calls, TraceAll(Now(), ms[n..]), i)
      {
        assert ms[n..][1..] == ms[n + 1..];
        forall i | 0 <= i < PINS {
          FollowBoth(lines[i].calls, Trace(Now(), ms[n]), TraceAll(Meaning(Now(), ms[n]), ms[n + 1..]), i);
        }
        var _ := Handle(ms[n]);
        n := n + 1;
      }
      AllWiredOr(Now());
    }
  }

  /** All the states the wires go through. */
  function TraceAll(w: Wires, ms: seq<Message>): seq<Wires>
    decreases |ms|
  {
    if ms == [] then [] else Trace(w, ms[0]) + TraceAll(Meaning(w, ms[0]), ms[1..])
  }

  function MeaningAll(w: Wires, ms: seq<Message>): Wires
    decreases |ms|
  {
    if ms == [] then w else MeaningAll(Meaning(w, ms[0]), ms[1..])
  }

  ghost predicate FreshRun(w: Wires, ms: seq<Message>)
    decreases |ms|
  {
    ms == [] || (FreshSlot(w, ms[0]) && FreshRun(Meaning(w, ms[0]), ms[1..]))
  }
}
