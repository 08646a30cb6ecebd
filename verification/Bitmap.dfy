/** The bitmap of lent message buffers, an array of machine words, as a finite
    set of numbers. */
module Bitmap {
  import opened Words
  import opened Ring
  import Ownership

  predicate Member(b: seq<Word>, i: nat) {
    i / BITS < |b| && b[i / BITS][i % BITS]
  }

  /** The set a bitmap of the given size stands for; bits past it do not count. */
  ghost function SetOf(b: seq<Word>, size: nat): set<nat> {
    set i: nat | i < size && Member(b, i)
  }

  /** Count of trailing zeros, as __builtin_ctzl defines it on a nonzero word. */
  function Ctz(v: seq<bool>): (n: nat)
    requires true in v
    ensures n < |v| && v[n] && forall j | 0 <= j < n :: !v[j]
  {
    if v[0] then 0 else 1 + Ctz(v[1..])
  }

  lemma WordIndex(i: nat, n: nat)
    requires n < BITS
    ensures (i * BITS + n) / BITS == i && (i * BITS + n) % BITS == n
  {
  }

  /** The least number below size that is not in the bitmap, or size. */
  method FindFirstZeroBit(addr: array<Word>, size: nat) returns (n: nat)
    requires size <= addr.Length * BITS
    ensures n <= size
    ensures forall j: nat | j < n :: Member(addr[..], j)
    ensures n < size ==> !Member(addr[..], n)
  {
    n := size;
    var i := 0;
    while i * BITS < n
      invariant n == size
      invariant i <= addr.Length
      invariant forall j: nat | j < i * BITS && j < size :: Member(addr[..], j)
    {
      var v := Not(addr[i]);
      if true in v {
        var z := Ctz(v);
        forall j: nat | j < i * BITS + z && j < size ensures Member(addr[..], j) {
          if j >= i * BITS {
            WordIndex(i, j - i * BITS);
            assert !v[j - i * BITS];
          }
        }
        WordIndex(i, z);
        n := if i * BITS + z < n then i * BITS + z else n;
        break;
      }
      forall j: nat | j < (i + 1) * BITS && j < size ensures Member(addr[..], j) {
        if j >= i * BITS {
          WordIndex(i, j - i * BITS);
          assert !v[j - i * BITS];
        }
      }
      i := i + 1;
    }
  }

  /** 1UL << n */
  function One(n: nat): Word { seq(BITS, i => i == n) }

  /** Two numbers are the same if they fall on the same bit of the same word. */
  lemma SameNumber(i: nat, j: nat)
    requires i / BITS == j / BITS && i % BITS == j % BITS
    ensures i == j
  {
  }

  /** Adds exactly nr to the bitmap. */
  method SetBit(nr: nat, addr: array<Word>)
    requires nr < addr.Length * BITS
    modifies addr
    ensures forall i: nat :: Member(addr[..], i) <==> old(Member(addr[..], i)) || i == nr
  {
    var k := nr / BITS;
    addr[k] := Or(addr[k], One(nr % BITS));
    forall i: nat ensures Member(addr[..], i) <==> old(Member(addr[..], i)) || i == nr {
      if i / BITS == k && i % BITS == nr % BITS { SameNumber(i, nr); }
    }
  }

  /** Removes exactly nr from the bitmap. */
  method ClearBit(nr: nat, addr: array<Word>)
    requires nr < addr.Length * BITS
    modifies addr
    ensures forall i: nat :: Member(addr[..], i) <==> old(Member(addr[..], i)) && i != nr
  {
    var k := nr / BITS;
    addr[k] := And(addr[k], Not(One(nr % BITS)));
    forall i: nat ensures Member(addr[..], i) <==> old(Member(addr[..], i)) && i != nr {
      if i / BITS == k && i % BITS == nr % BITS { SameNumber(i, nr); }
    }
  }

  /** rpcmsg_lend_buffer: lends the least free id, exactly when there is one. */
  method LendBuffer(state: array<Word>) returns (id: Ownership.Option<nat>)
    requires SIZE <= state.Length * BITS
    modifies state
    ensures id.None? ==>
              && SetOf(state[..], SIZE) == old(SetOf(state[..], SIZE))
              && forall x: nat | x < 32 :: x in SetOf(state[..], SIZE)
    ensures id.Some? ==>
              && id.value < 32 && id.value !in old(SetOf(state[..], SIZE))
              && (forall y: nat | y < id.value :: y in old(SetOf(state[..], SIZE)))
              && SetOf(state[..], SIZE) == old(SetOf(state[..], SIZE)) + {id.value}
    ensures id.None? ==> forall x: nat :: !Ownership.LeastFree(old(SetOf(state[..], SIZE)), x)
    ensures id.Some? ==> Ownership.LeastFree(old(SetOf(state[..], SIZE)), id.value)
  {
    var n := FindFirstZeroBit(state, SIZE);
    if n >= SIZE {
      id := Ownership.None;
    } else {
      SetBit(n, state);
      id := Ownership.Some(n);
    }
  }

  /** rpcmsg_reclaim_buffer: puts the id back. */
  method ReclaimBuffer(state: array<Word>, id: nat)
    requires SIZE <= state.Length * BITS && id < SIZE
    modifies state
    ensures SetOf(state[..], SIZE) == old(SetOf(state[..], SIZE)) - {id}
  {
    ClearBit(id, state);
  }

  /** rpcmsg_buffer_state_init: the empty set. */
  lemma EmptyBitmap(b: seq<Word>, size: nat)
    requires forall k | 0 <= k < |b| :: b[k] == Zero()
    ensures SetOf(b, size) == {}
  {
    forall i: nat ensures !Member(b, i) {}
  }
}
