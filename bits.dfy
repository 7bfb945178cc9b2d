/**
 * Bit-level vocabulary for the channel mask: logical right shift, single
 * bits, population count and the ascending list of set positions, all on
 * unbounded non-negative integers.
 */
module Bits {

  function Pow2(n: nat): (r: nat)
    ensures r >= 1
  {
    if n == 0 then 1 else 2 * Pow2(n - 1)
  }

  /** The powers of two the channel mask is measured against. */
  lemma Pow2Table()
    ensures Pow2(5) == 0x20 && Pow2(7) == 0x80
    ensures Pow2(31) == 0x8000_0000 && Pow2(32) == 0x1_0000_0000
  {
    assert Pow2(4) == 0x10;
    assert Pow2(8) == 0x100;
    assert Pow2(12) == 0x1000;
    assert Pow2(16) == 0x1_0000;
    assert Pow2(20) == 0x10_0000;
    assert Pow2(24) == 0x100_0000;
    assert Pow2(28) == 0x1000_0000;
  }

  /** Logical right shift `m >> k`. */
  function Shr(m: nat, k: nat): nat
  {
    if k == 0 then m else Shr(m / 2, k - 1)
  }

  /** Bit `k` of `m` is set. */
  predicate Bit(m: nat, k: nat)
  {
    Shr(m, k) % 2 == 1
  }

  /** Number of set bits, peeled off from the least significant end. */
  function Popcount(m: nat): nat
  {
    if m == 0 then 0 else m % 2 + Popcount(m / 2)
  }

  /** Positions of the set bits of `m` in `[lo, hi)`, ascending. */
  function SetBitsIn(m: nat, lo: nat, hi: nat): seq<nat>
    decreases hi - lo
  {
    if lo >= hi then []
    else (if Bit(m, lo) then [lo] else []) + SetBitsIn(m, lo + 1, hi)
  }

  /**
   * `SetBitsIn(m, lo, hi)` lists every set bit of `m` in `[lo, hi)`, only
   * those, strictly ascending.
   */
  lemma {:induction false} SetBitsInListsSetBits(m: nat, lo: nat, hi: nat)
    ensures var r := SetBitsIn(m, lo, hi);
      && (lo <= hi ==> |r| <= hi - lo)
      && (forall j :: 0 <= j < |r| ==> lo <= r[j] < hi && Bit(m, r[j]))
      && (forall k :: lo <= k < hi && Bit(m, k) ==> k in r)
      && (forall j, j' :: 0 <= j < j' < |r| ==> r[j] < r[j'])
    decreases hi - lo
  {
    if lo < hi {
      SetBitsInListsSetBits(m, lo + 1, hi);
    }
  }

  /** The positions of all set bits of a 32-bit word, ascending. */
  function SetBits(m: nat): seq<nat>
  {
    SetBitsIn(m, 0, 32)
  }

  lemma {:induction false} ShrSucc(m: nat, k: nat)
    ensures Shr(m, k + 1) == Shr(m, k) / 2
  {
    if k > 0 {
      ShrSucc(m / 2, k - 1);
    }
  }

  lemma {:induction false} ShrAdd(m: nat, a: nat, b: nat)
    ensures Shr(Shr(m, a), b) == Shr(m, a + b)
  {
    if a > 0 {
      ShrAdd(m / 2, a - 1, b);
    }
  }

  lemma {:induction false} ShrOfZero(k: nat)
    ensures Shr(0, k) == 0
  {
    if k > 0 {
      ShrOfZero(k - 1);
    }
  }

  lemma {:induction false} ShrBelowPow2(m: nat, n: nat)
    requires m < Pow2(n)
    ensures Shr(m, n) == 0
  {
    if n > 0 {
      ShrBelowPow2(m / 2, n - 1);
    }
  }

  /** A non-zero value has some set bit. */
  lemma {:induction false} SomeBitSet(x: nat) returns (j: nat)
    requires x > 0
    ensures Bit(x, j)
  {
    if x % 2 == 1 {
      j := 0;
    } else {
      var j' := SomeBitSet(x / 2);
      j := j' + 1;
    }
  }

  /** `m >> k` is zero exactly when no bit at position `k` or above is set. */
  lemma ShrZeroIff(m: nat, k: nat)
    ensures Shr(m, k) == 0 <==> forall j :: k <= j ==> !Bit(m, j)
  {
    if Shr(m, k) == 0 {
      forall j | k <= j ensures !Bit(m, j) {
        ShrAdd(m, k, j - k);
        ShrOfZero(j - k);
      }
    } else {
      var j := SomeBitSet(Shr(m, k));
      ShrAdd(m, k, j);
      assert Bit(m, k + j);
    }
  }

  /** A value below `2^n` has no set bit at position `n` or above. */
  lemma BitsBelowPow2(m: nat, n: nat)
    requires m < Pow2(n)
    ensures forall k :: n <= k ==> !Bit(m, k)
  {
    ShrBelowPow2(m, n);
    ShrZeroIff(m, n);
  }

  /** A set bit at the low end of the range heads the listing. */
  lemma SetBitsHead(m: nat, lo: nat, hi: nat)
    requires lo < hi && Bit(m, lo)
    ensures SetBitsIn(m, lo, hi) == [lo] + SetBitsIn(m, lo + 1, hi)
  {
  }

  /** Skipping a stretch of clear bits does not change the listing. */
  lemma {:induction false} SetBitsSkip(m: nat, lo: nat, mid: nat, hi: nat)
    requires lo <= mid <= hi
    requires forall k :: lo <= k < mid ==> !Bit(m, k)
    ensures SetBitsIn(m, lo, hi) == SetBitsIn(m, mid, hi)
    decreases mid - lo
  {
    if lo < mid {
      SetBitsSkip(m, lo + 1, mid, hi);
    }
  }

  /** Above the top set bit, the upper end of the range does not matter. */
  lemma {:induction false} SetBitsTrim(m: nat, lo: nat, n: nat, hi: nat)
    requires lo <= n <= hi && m < Pow2(n)
    ensures SetBitsIn(m, lo, hi) == SetBitsIn(m, lo, n)
    decreases n - lo
  {
    if lo < n {
      SetBitsTrim(m, lo + 1, n, hi);
    } else {
      BitsBelowPow2(m, n);
      SetBitsSkip(m, n, hi, hi);
    }
  }

  /** The listing has exactly as many entries as `m >> lo` has set bits. */
  lemma {:induction false} SetBitsCount(m: nat, lo: nat, hi: nat)
    requires lo <= hi && m < Pow2(hi)
    ensures |SetBitsIn(m, lo, hi)| == Popcount(Shr(m, lo))
    decreases hi - lo
  {
    if lo == hi {
      ShrBelowPow2(m, hi);
    } else {
      SetBitsCount(m, lo + 1, hi);
      ShrSucc(m, lo);
    }
  }

  /** `SetBits` lists `Popcount(m)` positions. */
  lemma SetBitsLength(m: nat)
    requires m < 0x1_0000_0000
    ensures |SetBits(m)| == Popcount(m)
  {
    Pow2Table();
    SetBitsCount(m, 0, 32);
  }

  lemma {:induction false} SetBitsSplit(m: nat, lo: nat, mid: nat, hi: nat)
    requires lo <= mid <= hi
    ensures SetBitsIn(m, lo, hi) == SetBitsIn(m, lo, mid) + SetBitsIn(m, mid, hi)
    decreases mid - lo
  {
    if lo < mid {
      SetBitsSplit(m, lo + 1, mid, hi);
    }
  }

  /**
   * Rank: a set bit `c` of `m` sits in the listing at the position equal to
   * the number of set bits below it.
   */
  lemma SetBitsRank(m: nat, c: nat, hi: nat)
    requires c < hi && Bit(m, c)
    ensures |SetBitsIn(m, 0, c)| < |SetBitsIn(m, 0, hi)|
    ensures SetBitsIn(m, 0, hi)[|SetBitsIn(m, 0, c)|] == c
  {
    SetBitsSplit(m, 0, c, hi);
    var a, b := SetBitsIn(m, 0, c), SetBitsIn(m, c, hi);
    assert b[0] == c;
    assert (a + b)[|a|] == b[0];
  }
}
