/** Machine words, as the C code sees them: 64 bits, least significant first,
    with the bitwise operators of the language defined bit by bit. */
module Words {

  const BITS: nat := 64

  type Word = w: seq<bool> | |w| == BITS witness seq(BITS, _ => false)

  /** One message buffer: four machine words. */
  datatype Msg = Msg(mr0: Word, mr1: Word, mr2: Word, mr3: Word)

  function Zero(): Word { seq(BITS, _ => false) }
  function ZeroMsg(): Msg { Msg(Zero(), Zero(), Zero(), Zero()) }

  /** Word k of a message, in the order in which memcpy walks over it. */
  function At(m: Msg, k: nat): (w: Word)
    requires k < 4
  {
    if k == 0 then m.mr0 else if k == 1 then m.mr1 else if k == 2 then m.mr2 else m.mr3
  }

  function With(m: Msg, k: nat, w: Word): (r: Msg)
    requires k < 4
    ensures At(r, k) == w
    ensures forall j: nat | j < 4 && j != k :: At(r, j) == At(m, j)
  {
    if k == 0 then m.(mr0 := w) else if k == 1 then m.(mr1 := w)
    else if k == 2 then m.(mr2 := w) else m.(mr3 := w)
  }

  function Not(v: Word): Word { seq(BITS, i requires 0 <= i < BITS => !v[i]) }
  function And(v: Word, u: Word): Word { seq(BITS, i requires 0 <= i < BITS => v[i] && u[i]) }
  function Or(v: Word, u: Word): Word { seq(BITS, i requires 0 <= i < BITS => v[i] || u[i]) }
  function Shl(v: Word, s: nat): Word { seq(BITS, i requires 0 <= i < BITS => i >= s && v[i - s]) }
  function Shr(v: Word, s: nat): Word { seq(BITS, i requires 0 <= i < BITS => i + s < BITS && v[i + s]) }

  function Pow2(n: nat): (p: nat)
    ensures p > 0
  {
    if n == 0 then 1 else 2 * Pow2(n - 1)
  }

  /** The number a string of bits stands for. */
  function Val(b: seq<bool>): nat {
    if b == [] then 0 else (if b[0] then 1 else 0) + 2 * Val(b[1..])
  }

  /** The low n bits of a number: C's conversion to an n-bit unsigned type. */
  function Bits(n: nat, x: nat): (b: seq<bool>)
    ensures |b| == n
  {
    if n == 0 then [] else [x % 2 == 1] + Bits(n - 1, x / 2)
  }

  function FromNat(x: nat): Word { Bits(BITS, x) }

  /** Two words are equal as soon as they agree bit by bit. */
  lemma SameBits(v: Word, u: Word)
    requires forall i | 0 <= i < BITS :: v[i] == u[i]
    ensures v == u
  {
  }

  lemma {:induction false} ValBits(n: nat, x: nat)
    requires x < Pow2(n)
    ensures Val(Bits(n, x)) == x
  {
    if n > 0 {
      ValBits(n - 1, x / 2);
      assert Bits(n, x)[1..] == Bits(n - 1, x / 2);
    }
  }

  /** Converting a number below 2^64 to a word and back loses nothing. */
  lemma ValFromNat(x: nat)
    requires x < Pow2(BITS)
    ensures Val(FromNat(x)) == x
  {
    ValBits(BITS, x);
  }
}
