/**
 * The active-channel mask walker, `get_next_ch_idx` in
 * src/common/iio_pqm.c, and what repeated calls to it enumerate.
 *
 * The index travels as a `uint32_t`; its "before the first channel" and
 * "done" value `-1` (that is, 0xFFFFFFFF) is written `-1` here. The walker
 * shifts the mask right by `last + 1`, which C defines only for shift
 * amounts below 32, hence `last <= 30` wherever it is called.
 */
module ChannelWalk {
  import opened Bits
  import opened PqmDefs

  /**
   * The smallest position at or above `from` whose bit is set in `m`, or -1
   * when there is none. Recursion stops once `m >> from` is zero, so it
   * needs no width bound.
   */
  function NextSetBit(m: nat, from: nat): (r: int)
    decreases Shr(m, from)
    ensures r == -1 <==> forall k :: from <= k ==> !Bit(m, k)
    ensures r != -1 ==> from <= r && Bit(m, r)
    ensures r != -1 ==> forall k :: from <= k < r ==> !Bit(m, k)
  {
    ShrZeroIff(m, from);
    if Shr(m, from) == 0 then -1
    else if Shr(m, from) % 2 == 1 then from
    else
      ShrSucc(m, from);
      NextSetBit(m, from + 1)
  }

  /**
   * `get_next_ch_idx(ch_mask, last_idx, &new_idx)`: `more` is the function
   * result, `newIdx` what is stored through `new_idx`.
   */
  method GetNextChIdx(chMask: u32, lastIdx: int) returns (more: bool, newIdx: int)
    requires -1 <= lastIdx <= 30
    ensures more <==> newIdx != -1
    ensures newIdx == NextSetBit(chMask, lastIdx + 1)
  {
    var idx: nat := lastIdx + 1;
    var m := Shr(chMask, idx);
    if m == 0 {
      return false, -1;
    }
    while m % 2 == 0
      invariant m == Shr(chMask, idx) && m != 0
      invariant NextSetBit(chMask, idx) == NextSetBit(chMask, lastIdx + 1)
      decreases m
    {
      ShrSucc(chMask, idx);
      idx := idx + 1;
      m := m / 2;
    }
    return true, idx;
  }

  /** A set bit of a mask below `2^n` lies below position `n`. */
  lemma SetBitBelow(m: nat, n: nat, k: nat)
    requires m < Pow2(n) && Bit(m, k)
    ensures k < n
  {
    BitsBelowPow2(m, n);
  }

  /**
   * The indices produced by calling the walker again and again, starting
   * from `last` and feeding back each result, until it reports "done".
   */
  function Walk(mask: u32, last: int): (chs: seq<nat>)
    requires mask < 0x8000_0000 && -1 <= last <= 30
    ensures forall j :: 0 <= j < |chs| ==> last < chs[j] < 31 && Bit(mask, chs[j])
    decreases 31 - last
  {
    var next := NextSetBit(mask, last + 1);
    if next == -1 then []
    else
      Pow2Table();
      SetBitBelow(mask, 31, next);
      [next] + Walk(mask, next)
  }

  /**
   * Walking from `last` lists exactly the set bits above `last`, each once,
   * in ascending order.
   */
  lemma {:induction false} WalkEnumerates(mask: u32, last: int)
    requires mask < 0x8000_0000 && -1 <= last <= 30
    ensures Walk(mask, last) == SetBitsIn(mask, last + 1, 31)
    decreases 31 - last
  {
    var next := NextSetBit(mask, last + 1);
    if next == -1 {
      SetBitsSkip(mask, last + 1, 31, 31);
    } else {
      assert next < 31 by {
        Pow2Table();
        SetBitBelow(mask, 31, next);
      }
      WalkEnumerates(mask, next);
      calc {
        Walk(mask, last);
        [next] + Walk(mask, next);
        [next] + SetBitsIn(mask, next + 1, 31);
        { SetBitsHead(mask, next, 31); }
        SetBitsIn(mask, next, 31);
        { SetBitsSkip(mask, last + 1, next, 31); }
        SetBitsIn(mask, last + 1, 31);
      }
    }
  }

  /**
   * From the sentinel, the walk visits every set bit of the mask exactly
   * once, strictly ascending, and there are `Popcount(mask)` of them.
   */
  lemma WalkFromSentinel(mask: u32)
    requires mask < 0x8000_0000
    ensures Walk(mask, -1) == SetBits(mask)
    ensures |Walk(mask, -1)| == Popcount(mask)
    ensures forall j, j' :: 0 <= j < j' < |Walk(mask, -1)| ==> Walk(mask, -1)[j] < Walk(mask, -1)[j']
    ensures forall k :: Bit(mask, k) <==> k in Walk(mask, -1)
  {
    WalkEnumerates(mask, -1);
    Pow2Table();
    SetBitsTrim(mask, 0, 31, 32);
    SetBitsLength(mask);
    SetBitsInListsSetBits(mask, 0, 32);
    BitsBelowPow2(mask, 32);
  }

  /** An empty mask ends the walk on the first call. */
  lemma WalkEmptyMask()
    ensures NextSetBit(0, 0) == -1
    ensures Walk(0, -1) == []
  {
    ShrZeroIff(0, 0);
  }

  /** The bits of mask 0b0010101: channels 0, 2 and 4 set, nothing from 5 up. */
  lemma ExampleMaskBits(mask: u32)
    requires mask == 0x15
    ensures Bit(mask, 0) && !Bit(mask, 1) && Bit(mask, 2) && !Bit(mask, 3) && Bit(mask, 4)
    ensures forall k :: 5 <= k ==> !Bit(mask, k)
  {
    Pow2Table();
    assert Shr(mask, 1) == 10 && Shr(mask, 2) == 5 && Shr(mask, 3) == 2 && Shr(mask, 4) == 1;
    BitsBelowPow2(mask, 5);
  }

  /** Mask 0b0010101 (channels 0, 2 and 4) is walked as 0, 2, 4. */
  lemma WalkExample(mask: u32)
    requires mask == 0x15
    ensures Walk(mask, -1) == [0, 2, 4]
  {
    ExampleMaskBits(mask);
    var s0, s1, s3, s5 := SetBitsIn(mask, 0, 31), SetBitsIn(mask, 1, 31), SetBitsIn(mask, 3, 31), SetBitsIn(mask, 5, 31);
    assert s5 == [] by { SetBitsSkip(mask, 5, 31, 31); }
    assert s3 == [4] + s5 by {
      SetBitsSkip(mask, 3, 4, 31);
      SetBitsHead(mask, 4, 31);
    }
    assert s1 == [2] + s3 by {
      SetBitsSkip(mask, 1, 2, 31);
      SetBitsHead(mask, 2, 31);
    }
    assert s0 == [0] + s1 by { SetBitsHead(mask, 0, 31); }
    assert s0 == [0, 2, 4];
    WalkEnumerates(mask, -1);
  }
}
