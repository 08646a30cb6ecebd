/** The bit-field macros and the layout of message word 0. */
module Codec {
  import opened Words

  datatype Field = Field(width: nat, shift: nat)

  predicate InWord(f: Field) { f.shift + f.width <= BITS }

  predicate Disjoint(f: Field, g: Field) {
    f.shift + f.width <= g.shift || g.shift + g.width <= f.shift
  }

  /** MASK(n); MaskIs below says that it is (1 << n) - 1. */
  function Mask(n: nat): Word { seq(BITS, i => i < n) }

  function FieldMask(f: Field): Word { Shl(Mask(f.width), f.shift) }

  /** BIT_FIELD_GET and BIT_FIELD_SET. */
  function Get(v: Word, f: Field): Word { And(Shr(v, f.shift), Mask(f.width)) }

  function Set(v: Word, f: Field, n: Word): Word {
    Or(And(v, Not(FieldMask(f))), And(Shl(n, f.shift), FieldMask(f)))
  }

  /** Reading a field back gives the value modulo 2^width. */
  lemma GetSet(v: Word, f: Field, n: Word)
    requires InWord(f)
    ensures Val(Get(Set(v, f, n), f)) == Val(n) % Pow2(f.width)
  {
    SameBits(Get(Set(v, f, n), f), And(n, Mask(f.width)));
    MaskedVal(n, f.width);
  }

  /** Writing a field leaves every disjoint field alone. */
  lemma GetSetOther(v: Word, f: Field, g: Field, n: Word)
    requires InWord(f) && InWord(g) && Disjoint(f, g)
    ensures Get(Set(v, f, n), g) == Get(v, g)
  {
    SameBits(Get(Set(v, f, n), g), Get(v, g));
  }

  /** Writing back what a field holds changes nothing. */
  lemma SetGet(v: Word, f: Field)
    requires InWord(f)
    ensures Set(v, f, Get(v, f)) == v
  {
    SameBits(Set(v, f, Get(v, f)), v);
  }

  // ------------------------------------------------------------------ values

  lemma {:induction false} ValSplit(b: seq<bool>, n: nat)
    requires n <= |b|
    ensures Val(b) == Val(b[..n]) + Pow2(n) * Val(b[n..])
    ensures Val(b[..n]) < Pow2(n)
  {
    if n == 0 {
      assert b[0..] == b;
    } else {
      ValSplit(b[1..], n - 1);
      assert b[1..][..n - 1] == b[..n][1..];
      assert b[1..][n - 1..] == b[n..];
      Doubled(Pow2(n - 1), Val(b[n..]));
    }
  }

  lemma Doubled(a: nat, b: nat)
    ensures 2 * (a * b) == (2 * a) * b
  {
  }

  lemma {:induction false} ValZeros(b: seq<bool>)
    requires forall i | 0 <= i < |b| :: !b[i]
    ensures Val(b) == 0
  {
    if b != [] { ValZeros(b[1..]); }
  }

  lemma ModFromSplit(v: nat, low: nat, high: nat, m: nat)
    requires 0 < m && v == low + m * high && low < m
    ensures v % m == low
  {
    var q, r := v / m, v % m;
    assert v == m * q + r;
    if q < high {
      AtLeast(m, q, high);
    } else if high < q {
      AtLeast(m, high, q);
    }
  }

  lemma {:induction false} AtLeast(m: nat, a: nat, b: nat)
    requires a < b
    ensures m * b >= m * a + m
  {
    assert m * b == m * (b - 1) + m;
    if a < b - 1 { AtLeast(m, a, b - 1); }
  }

  /** Masking keeps the value modulo 2^n. */
  lemma MaskedVal(v: Word, n: nat)
    requires n <= BITS
    ensures Val(And(v, Mask(n))) == Val(v) % Pow2(n)
  {
    var m := And(v, Mask(n));
    ValSplit(v, n);
    assert Val(m) == Val(v[..n]) by {
      ValSplit(m, n);
      assert m[..n] == v[..n];
      ValZeros(m[n..]);
      assert Pow2(n) * Val(m[n..]) == 0;
    }
    ModFromSplit(Val(v), Val(v[..n]), Val(v[n..]), Pow2(n));
  }

  lemma {:induction false} ValOnes(b: seq<bool>)
    requires forall i | 0 <= i < |b| :: b[i]
    ensures Val(b) == Pow2(|b|) - 1
  {
    if b != [] { ValOnes(b[1..]); }
  }

  lemma MaskIs(n: nat)
    requires n <= BITS
    ensures Val(Mask(n)) == Pow2(n) - 1
  {
    var low, high := Mask(n)[..n], Mask(n)[n..];
    ValSplit(Mask(n), n);
    ValOnes(low);
    ValZeros(high);
    assert Val(Mask(n)) == Val(low) + Pow2(n) * 0;
  }

  /** The number of a string of bits in three parts. */
  lemma ValParts(a: seq<bool>, b: seq<bool>, c: seq<bool>)
    ensures Val(a + b + c) == Val(a) + Pow2(|a|) * (Val(b) + Pow2(|b|) * Val(c))
  {
    var v := a + b + c;
    ValSplit(v, |a|);
    assert v[..|a|] == a && v[|a|..] == b + c;
    ValSplit(b + c, |b|);
    assert (b + c)[..|b|] == b && (b + c)[|b|..] == c;
  }

  predicate Clear(v: Word, f: Field)
    requires InWord(f)
  {
    forall i | f.shift <= i < f.shift + f.width :: !v[i]
  }

  /** Writing a field replaces its bits and leaves those below and above. */
  lemma SetParts(v: Word, f: Field, n: Word)
    requires InWord(f)
    ensures Set(v, f, n) == v[..f.shift] + n[..f.width] + v[f.shift + f.width..]
    ensures v == v[..f.shift] + v[f.shift..f.shift + f.width] + v[f.shift + f.width..]
  {
    var l, r := Set(v, f, n), v[..f.shift] + n[..f.width] + v[f.shift + f.width..];
    forall i | 0 <= i < BITS ensures l[i] == r[i] {}
  }

  /** Writing a field that was clear adds the value, shifted into place. */
  lemma SetAdds(v: Word, f: Field, n: Word)
    requires InWord(f) && Clear(v, f)
    ensures Val(Set(v, f, n)) == Val(v) + Pow2(f.shift) * (Val(n) % Pow2(f.width))
  {
    var lo, hi := v[..f.shift], v[f.shift + f.width..];
    var was, now := v[f.shift..f.shift + f.width], n[..f.width];
    SetParts(v, f, n);
    ValParts(lo, now, hi);
    ValParts(lo, was, hi);
    ValZeros(was);
    assert Val(now) == Val(n) % Pow2(f.width) by {
      ValSplit(n, f.width);
      ModFromSplit(Val(n), Val(now), Val(n[f.width..]), Pow2(f.width));
    }
    Distribute(Pow2(f.shift), Val(now), Pow2(f.width) * Val(hi));
  }

  lemma Distribute(a: nat, b: nat, c: nat)
    ensures a * (b + c) == a * b + a * (0 + c)
  {
  }

  lemma StaysClear(v: Word, f: Field, n: Word, g: Field)
    requires InWord(f) && InWord(g) && Disjoint(f, g) && Clear(v, g)
    ensures Clear(Set(v, f, n), g)
  {
  }

  // ----------------------------------------------------------- the mr0 layout

  const OP := Field(6, 0)
  const SLOT := Field(6, 6)
  const DIRECTION := Field(1, 12)
  const ADDR_SPACE := Field(8, 13)
  const LENGTH := Field(4, 21)

  const OP_MMIO: nat := 0
  const DIR_READ: nat := 0

  /** mr0 as driver_rpc_req_mmio_start builds it and driver_rpc_request
      completes it with the operation. */
  function MmioMr0(direction: Word, addrSpace: Word, slot: Word, len: Word): Word {
    Set(Set(Set(Set(Zero(), DIRECTION, direction), ADDR_SPACE, addrSpace), LENGTH, len), SLOT, slot)
  }

  function WithOp(mr0: Word, op: nat): Word { Set(mr0, OP, FromNat(op)) }

  /** Every field decodes to what was packed, modulo its width. */
  lemma Mr0Decodes(direction: Word, addrSpace: Word, slot: Word, len: Word, op: nat)
    ensures var mr0 := WithOp(MmioMr0(direction, addrSpace, slot, len), op);
            && Val(Get(mr0, OP)) == Val(FromNat(op)) % 64
            && Val(Get(mr0, SLOT)) == Val(slot) % 64
            && Val(Get(mr0, DIRECTION)) == Val(direction) % 2
            && Val(Get(mr0, ADDR_SPACE)) == Val(addrSpace) % 256
            && Val(Get(mr0, LENGTH)) == Val(len) % 16
  {
    var a := Set(Zero(), DIRECTION, direction);
    var b := Set(a, ADDR_SPACE, addrSpace);
    var c := Set(b, LENGTH, len);
    var d := Set(c, SLOT, slot);
    assert Val(Get(Set(d, OP, FromNat(op)), OP)) == Val(FromNat(op)) % 64 by { Powers(); GetSet(d, OP, FromNat(op)); }
    assert Val(Get(d, SLOT)) == Val(slot) % 64 by { Powers(); GetSet(c, SLOT, slot); }
    assert Val(Get(c, LENGTH)) == Val(len) % 16 by { Powers(); GetSet(b, LENGTH, len); }
    assert Val(Get(b, ADDR_SPACE)) == Val(addrSpace) % 256 by { Powers(); GetSet(a, ADDR_SPACE, addrSpace); }
    assert Val(Get(a, DIRECTION)) == Val(direction) % 2 by { Powers(); GetSet(Zero(), DIRECTION, direction); }
    Untouched(a, ADDR_SPACE, addrSpace, DIRECTION);
    Untouched(b, LENGTH, len, DIRECTION);
    Untouched(c, SLOT, slot, DIRECTION);
    Untouched(d, OP, FromNat(op), DIRECTION);
    Untouched(d, OP, FromNat(op), SLOT);
    Untouched(c, SLOT, slot, LENGTH);
    Untouched(d, OP, FromNat(op), LENGTH);
    Untouched(b, LENGTH, len, ADDR_SPACE);
    Untouched(c, SLOT, slot, ADDR_SPACE);
    Untouched(d, OP, FromNat(op), ADDR_SPACE);
  }

  /** Word 0 as a number: the operation in bits 0 to 5, the slot from bit
      6, the direction in bit 12, the address space from bit 13, the length from
      bit 21, and nothing above. */
  lemma Mr0Number(direction: Word, addrSpace: Word, slot: Word, len: Word, op: nat)
    requires op < 64
    ensures Val(WithOp(MmioMr0(direction, addrSpace, slot, len), op))
            == op + 0x40 * (Val(slot) % 64) + 0x1000 * (Val(direction) % 2)
               + 0x2000 * (Val(addrSpace) % 256) + 0x20_0000 * (Val(len) % 16)
  {
    var a := Set(Zero(), DIRECTION, direction);
    var b := Set(a, ADDR_SPACE, addrSpace);
    var c := Set(b, LENGTH, len);
    var d := Set(c, SLOT, slot);
    ZeroVal();
    AllClear(direction, addrSpace, slot, len);
    assert Val(a) == 0x1000 * (Val(direction) % 2) by { SetAdds(Zero(), DIRECTION, direction); Powers(); MorePowers(); }
    assert Val(b) == Val(a) + 0x2000 * (Val(addrSpace) % 256) by {
      SetAdds(a, ADDR_SPACE, addrSpace);
      Powers();
      MorePowers();
    }
    assert Val(c) == Val(b) + 0x20_0000 * (Val(len) % 16) by { SetAdds(b, LENGTH, len); Powers(); MorePowers(); }
    assert Val(d) == Val(c) + 0x40 * (Val(slot) % 64) by { SetAdds(c, SLOT, slot); Powers(); }
    assert Val(Set(d, OP, FromNat(op))) == Val(d) + op by { SetAdds(d, OP, FromNat(op)); Powers(); SmallVal(op); }
  }

  /** Each field is clear when it is written. */
  lemma AllClear(direction: Word, addrSpace: Word, slot: Word, len: Word)
    ensures var a := Set(Zero(), DIRECTION, direction);
            var b := Set(a, ADDR_SPACE, addrSpace);
            var c := Set(b, LENGTH, len);
            && Clear(Zero(), DIRECTION) && Clear(a, ADDR_SPACE) && Clear(b, LENGTH) && Clear(c, SLOT)
            && Clear(Set(c, SLOT, slot), OP)
  {
    var a := Set(Zero(), DIRECTION, direction);
    var b := Set(a, ADDR_SPACE, addrSpace);
    var c := Set(b, LENGTH, len);
    StaysClear(Zero(), DIRECTION, direction, ADDR_SPACE);
    StaysClear(Zero(), DIRECTION, direction, LENGTH);
    StaysClear(Zero(), DIRECTION, direction, SLOT);
    StaysClear(Zero(), DIRECTION, direction, OP);
    StaysClear(a, ADDR_SPACE, addrSpace, LENGTH);
    StaysClear(a, ADDR_SPACE, addrSpace, SLOT);
    StaysClear(a, ADDR_SPACE, addrSpace, OP);
    StaysClear(b, LENGTH, len, SLOT);
    StaysClear(b, LENGTH, len, OP);
    StaysClear(c, SLOT, slot, OP);
  }

  lemma ZeroVal()
    ensures Val(Zero()) == 0
  {
    ValZeros(Zero());
  }

  lemma MorePowers()
    ensures Pow2(12) == 0x1000 && Pow2(13) == 0x2000 && Pow2(21) == 0x20_0000
  {
    assert Pow2(8) == 256;
    assert Pow2(12) == 0x1000;
    assert Pow2(16) == 0x1_0000;
  }

  predicate IsMr0Field(f: Field) {
    f == OP || f == SLOT || f == DIRECTION || f == ADDR_SPACE || f == LENGTH
  }

  /** The fields of mr0 do not overlap. */
  lemma Untouched(v: Word, f: Field, n: Word, g: Field)
    requires IsMr0Field(f) && IsMr0Field(g) && g != f
    ensures Get(Set(v, f, n), g) == Get(v, g)
  {
    GetSetOther(v, f, g, n);
  }

  lemma Powers()
    ensures Pow2(0) == 1 && Pow2(1) == 2 && Pow2(4) == 16 && Pow2(6) == 64 && Pow2(8) == 256
    ensures Pow2(BITS) > 64
  {
    assert Pow2(2) == 4;
    assert Pow2(6) == 64 by { assert Pow2(4) == 16; }
    PowGrows(6, BITS);
  }

  lemma {:induction false} PowGrows(n: nat, m: nat)
    requires n < m
    ensures Pow2(n) < Pow2(m)
  {
    if n + 1 < m { PowGrows(n, m - 1); }
  }

  /** The slot and operation a response carries are those of the request. */
  lemma SlotRoundTrip(direction: Word, addrSpace: Word, slot: nat, len: Word, op: nat)
    requires slot < 64 && op < 64
    ensures Val(Get(WithOp(MmioMr0(direction, addrSpace, FromNat(slot), len), op), SLOT)) == slot
    ensures Val(Get(WithOp(MmioMr0(direction, addrSpace, FromNat(slot), len), op), OP)) == op
  {
    SmallVal(slot);
    SmallVal(op);
    Mr0Decodes(direction, addrSpace, FromNat(slot), len, op);
  }

  lemma SmallVal(x: nat)
    requires x < 64
    ensures Val(FromNat(x)) == x == Val(FromNat(x)) % 64
  {
    Powers();
    ValFromNat(x);
    ModSmall(x);
  }

  lemma ModSmall(x: nat)
    requires x < 64
    ensures x % 64 == x
  {
  }
}
