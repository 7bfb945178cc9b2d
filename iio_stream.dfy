/**
 * Scan assembly and the two streaming entry points of the PQM IIO driver
 * (src/common/iio_pqm.c): `read_samples`, which fills a whole buffer, and
 * `pqm_trigger_handler`, which emits one scan per trigger at a cursor that
 * persists between calls.
 *
 * A scan holds one 32-bit sample per active channel, in ascending channel
 * order. The sample of channel `ch` at offset `i` comes from the external
 * buffer, read as a flat array of words at `ch * ext_buff_len + i`, or, when
 * no external buffer is configured, from `sine_lut[(ch + i * 7) % 112]`.
 */
module IioPqmStream {
  import opened Bits
  import opened PqmDefs
  import opened Pqm
  import opened ChannelWalk

  /** Where the samples of a descriptor come from. */
  datatype SampleSource = Synthetic | External(words: seq<u32>, len: u32)

  function SourceOf(desc: PqmDesc): (src: SampleSource)
    reads desc
    ensures src.Synthetic? <==> desc.extBuff.None?
  {
    match desc.extBuff
    case None => Synthetic
    case Some(words) => External(words, desc.extBuffLen)
  }

  /**
   * Offset `i` may be read from the source. The driver never checks it: an
   * external buffer must hold seven rows of `len` words and `i` must lie
   * inside a row (seven rows: one per channel, TOTAL_PQM_CHANNELS).
   */
  predicate Readable(src: SampleSource, i: nat)
  {
    src.External? ==> i < src.len && 7 * src.len <= |src.words|
  }

  /** The table index `(ch + i * 7) % 112`, computed in `uint32_t`. */
  function SynthIndex(ch: nat, i: nat): (k: nat)
    ensures k < 112
  {
    ((ch + i * 7) % 0x1_0000_0000) % 112
  }

  /** Where row `ch` of the external buffer starts: `ch * len` words in. */
  function RowStart(ch: nat, len: nat): nat
  {
    if ch == 0 then 0 else RowStart(ch - 1, len) + len
  }

  lemma {:induction false} RowStartIsProduct(ch: nat, len: nat)
    ensures RowStart(ch, len) == ch * len
  {
    if ch > 0 {
      RowStartIsProduct(ch - 1, len);
      assert (ch - 1) * len + len == ch * len;
    }
  }

  /** Every offset inside a row of one of the seven channels lies inside the buffer. */
  lemma RowOffsetInRange(ch: nat, len: nat, i: nat)
    requires ch < TOTAL_PQM_CHANNELS && i < len
    ensures RowStart(ch, len) + i < 7 * len
  {
    RowStartIsProduct(ch, len);
    assert ch * len + len == (ch + 1) * len;
    assert (ch + 1) * len <= 7 * len;
  }

  /** The sample of channel `ch` at offset `i`. */
  function Sample(src: SampleSource, ch: nat, i: nat): (s: u32)
    requires ch < TOTAL_PQM_CHANNELS && Readable(src, i)
    ensures src.Synthetic? ==> s == SineRow[SynthIndex(ch, i) % 7]
  {
    match src
    case Synthetic =>
      RepeatAt(16, SynthIndex(ch, i));
      SineLut[SynthIndex(ch, i)]
    case External(words, len) =>
      RowOffsetInRange(ch, len, i);
      words[RowStart(ch, len) + i]
  }

  /** An external sample is word `ch * ext_buff_len + i` of the flat buffer. */
  lemma ExternalSampleIsWord(words: seq<u32>, len: u32, ch: nat, i: nat)
    requires ch < TOTAL_PQM_CHANNELS && Readable(External(words, len), i)
    ensures ch * len + i < |words| && Sample(External(words, len), ch, i) == words[ch * len + i]
  {
    RowOffsetInRange(ch, len, i);
    RowStartIsProduct(ch, len);
  }

  /**
   * A mask with no bit at or above TOTAL_PQM_CHANNELS lists at most seven
   * channels, each one of the seven.
   */
  lemma ScanChannelsInRange(mask: u32)
    requires mask < 0x80
    ensures |SetBits(mask)| == Popcount(mask) <= TOTAL_PQM_CHANNELS
    ensures ChannelsInRange(SetBits(mask))
  {
    Pow2Table();
    SetBitsTrim(mask, 0, 7, 32);
    SetBitsInListsSetBits(mask, 0, 7);
    SetBitsLength(mask);
  }

  /** ... and the walker, started from the sentinel, lists exactly those channels. */
  lemma ScanChannels(mask: u32)
    requires mask < 0x80
    ensures |SetBits(mask)| == Popcount(mask) <= TOTAL_PQM_CHANNELS
    ensures ChannelsInRange(SetBits(mask))
    ensures Walk(mask, -1) == SetBits(mask)
  {
    ScanChannelsInRange(mask);
    WalkFromSentinel(mask);
  }

  /** Predicate: every listed channel is one of the seven. */
  predicate ChannelsInRange(chs: seq<nat>)
  {
    forall j :: 0 <= j < |chs| ==> chs[j] < TOTAL_PQM_CHANNELS
  }

  /** The samples of the listed channels at offset `i`, in list order. */
  function Samples(src: SampleSource, chs: seq<nat>, i: nat): (scan: seq<u32>)
    requires ChannelsInRange(chs) && Readable(src, i)
    ensures |scan| == |chs|
  {
    if chs == [] then []
    else Samples(src, chs[..|chs| - 1], i) + [Sample(src, chs[|chs| - 1], i)]
  }

  lemma {:induction false} SamplesAt(src: SampleSource, chs: seq<nat>, i: nat, j: nat)
    requires ChannelsInRange(chs) && Readable(src, i) && j < |chs|
    ensures Samples(src, chs, i)[j] == Sample(src, chs[j], i)
  {
    if j < |chs| - 1 {
      SamplesAt(src, chs[..|chs| - 1], i, j);
    }
  }

  /** A set bit of a scan mask names one of the seven channels. */
  lemma ActiveBelow(mask: u32, ch: nat)
    requires mask < 0x80 && Bit(mask, ch)
    ensures ch < TOTAL_PQM_CHANNELS
  {
    Pow2Table();
    SetBitBelow(mask, 7, ch);
  }

  /**
   * The scan at offset `i`: one sample per set bit of `mask`, lowest
   * channel first.
   */
  function ScanAt(mask: u32, src: SampleSource, i: nat): (scan: seq<u32>)
    requires mask < 0x80 && Readable(src, i)
    ensures |scan| == Popcount(mask) <= TOTAL_PQM_CHANNELS
  {
    ScanChannelsInRange(mask);
    Samples(src, SetBits(mask), i)
  }

  /**
   * The sample of active channel `c` sits at the position given by the
   * number of active channels below `c`.
   */
  lemma ScanSampleOfChannel(mask: u32, src: SampleSource, i: nat, c: nat)
    requires mask < 0x80 && Readable(src, i)
    requires c < TOTAL_PQM_CHANNELS && Bit(mask, c)
    ensures |SetBitsIn(mask, 0, c)| < |ScanAt(mask, src, i)|
    ensures ScanAt(mask, src, i)[|SetBitsIn(mask, 0, c)|] == Sample(src, c, i)
  {
    ScanChannelsInRange(mask);
    SetBitsRank(mask, c, 32);
    SamplesAt(src, SetBits(mask), i, |SetBitsIn(mask, 0, c)|);
  }

  /** An empty mask yields a scan of zero samples. */
  lemma EmptyMaskEmptyScan(src: SampleSource, i: nat)
    requires Readable(src, i)
    ensures ScanAt(0, src, i) == []
  {
    ScanChannelsInRange(0);
  }

  /** Quotient and remainder are unique. */
  lemma DivUnique(x: int, m: int, q: int, r: int)
    requires m > 0 && 0 <= r < m && x == q * m + r
    ensures x / m == q
  {
    var q', r' := x / m, x % m;
    assert x == q' * m + r';
    var d := q - q';
    assert d * m == r' - r;
  }

  lemma ModUnique(x: int, m: int, q: int, r: int)
    requires m > 0 && 0 <= r < m && x == q * m + r
    ensures x % m == r
  {
    var q', r' := x / m, x % m;
    assert x == q' * m + r';
    var d := q - q';
    assert d * m == r' - r;
  }

  /**
   * A synthetic sample depends on the channel only: every offset reads the
   * table entry of the channel itself (the table period, seven, divides
   * both the channel stride and the table size), as long as `ch + 7 * i`
   * does not wrap in 32 bits.
   */
  lemma SynthSampleIsChannelEntry(ch: nat, i: nat)
    requires ch < TOTAL_PQM_CHANNELS && ch + i * 7 < 0x1_0000_0000
    ensures Sample(Synthetic, ch, i) == SineRow[ch] == SineLut[ch]
  {
    var x := ch + i * 7;
    var k := SynthIndex(ch, i);
    var q := x / 112;
    assert x == q * 112 + k;
    assert x == (16 * q + k / 7) * 7 + k % 7;
    ModUnique(x, 7, 16 * q + k / 7, k % 7);
    ModUnique(x, 7, i, ch);
    SineLutPeriodic(k);
    SineLutPeriodic(ch);
  }

  /** Consequently every synthetic scan equals the one at offset 0. */
  lemma SynthScanIsConstant(mask: u32, i: nat)
    requires mask < 0x80 && i * 7 + 6 < 0x1_0000_0000
    ensures ScanAt(mask, Synthetic, i) == ScanAt(mask, Synthetic, 0)
  {
    ScanChannelsInRange(mask);
    var chs := SetBits(mask);
    var later, first := Samples(Synthetic, chs, i), Samples(Synthetic, chs, 0);
    forall j | 0 <= j < |chs|
      ensures later[j] == first[j]
    {
      SamplesAt(Synthetic, chs, i, j);
      SamplesAt(Synthetic, chs, 0, j);
      SynthSampleIsChannelEntry(chs[j], i);
      SynthSampleIsChannelEntry(chs[j], 0);
    }
    assert later == first;
  }
  /** The seven entries of a row of `sine_lut` are pairwise different. */
  lemma SineRowDistinct()
    ensures forall a, b :: 0 <= a < b < 7 ==> SineRow[a] != SineRow[b]
  {
  }

  /**
   * The no-wrap bound of `SynthScanIsConstant` is needed: at bulk offset
   * 613566757 the `uint32_t` sum `ch + 7 i` wraps to `ch + 3`, so every
   * channel reads the row entry three places on from its own.
   */
  lemma SynthWrapChangesSample(ch: nat)
    requires ch < TOTAL_PQM_CHANNELS
    ensures SynthIndex(ch, 613566757) == ch + 3
    ensures Sample(Synthetic, ch, 613566757) == SineRow[(ch + 3) % 7] != Sample(Synthetic, ch, 0)
  {
    WrappedIndex(ch);
    assert SynthIndex(ch, 0) == ch;
    SineRowDistinct();
  }

  lemma WrappedIndex(ch: nat)
    requires ch < TOTAL_PQM_CHANNELS
    ensures SynthIndex(ch, 613566757) == ch + 3
  {
    var sum := ch + 613566757 * 7;
    assert sum == (ch + 3) + 0x1_0000_0000;
    assert sum % 0x1_0000_0000 == ch + 3;
  }




  /** The scans at offsets `0 .. count - 1`, in order. */
  function BulkScans(mask: u32, src: SampleSource, count: nat): (scans: seq<seq<u32>>)
    requires mask < 0x80 && (count > 0 ==> Readable(src, count - 1))
    ensures |scans| == count
  {
    if count == 0 then [] else BulkScans(mask, src, count - 1) + [ScanAt(mask, src, count - 1)]
  }

  /** Scan `k` of a run is the scan at offset `k`. */
  lemma {:induction false} BulkScansAt(mask: u32, src: SampleSource, count: nat, k: nat)
    requires mask < 0x80 && k < count && Readable(src, count - 1)
    ensures BulkScans(mask, src, count)[k] == ScanAt(mask, src, k)
  {
    if k == count - 1 {
      var prefix, last := BulkScans(mask, src, k), ScanAt(mask, src, k);
      assert BulkScans(mask, src, k + 1) == prefix + [last];
      assert (prefix + [last])[k] == last;
    } else {
      var prefix, last := BulkScans(mask, src, count - 1), ScanAt(mask, src, count - 1);
      assert BulkScans(mask, src, count) == prefix + [last];
      BulkScansAt(mask, src, count - 1, k);
      assert (prefix + [last])[k] == prefix[k];
    }
  }

  /**
   * The receiving end of `iio_buffer_push_scan`: it records every scan it
   * is handed and the value it answered with, which is not modelled.
   */
  class IioBuffer {
    const size: u32
    const bytesPerScan: u32
    ghost var pushed: seq<seq<u32>>
    ghost var results: seq<int>

    constructor (size: u32, bytesPerScan: u32)
      ensures this.size == size && this.bytesPerScan == bytesPerScan
      ensures pushed == [] && results == []
    {
      this.size := size;
      this.bytesPerScan := bytesPerScan;
      pushed := [];
      results := [];
    }

    method PushScan(scan: seq<u32>) returns (ret: int)
      modifies this
      ensures pushed == old(pushed) + [scan]
      ensures results == old(results) + [ret]
    {
      ret := *;
      pushed := pushed + [scan];
      results := results + [ret];
    }
  }

  /** `struct iio_device_data`: the PQM descriptor and the buffer being filled. */
  class IioDeviceData {
    const dev: PqmDesc
    const buffer: IioBuffer

    constructor (dev: PqmDesc, buffer: IioBuffer)
      ensures this.dev == dev && this.buffer == buffer
    {
      this.dev := dev;
      this.buffer := buffer;
    }
  }

  /**
   * The channels the walk still has to yield once the walker holds `ch`:
   * `ch` itself and everything after it, or nothing at the sentinel.
   */
  function Ahead(mask: u32, ch: int): seq<nat>
    requires mask < 0x80 && -1 <= ch < TOTAL_PQM_CHANNELS
  {
    if ch == -1 then [] else [ch] + Walk(mask, ch)
  }

  /**
   * One call of the walker moves one channel from the part of the walk
   * still ahead to the part already done.
   */
  lemma WalkAdvance(mask: u32, done: seq<nat>, walk: seq<nat>, prev: nat)
    requires mask < 0x80 && prev < TOTAL_PQM_CHANNELS
    requires done + Ahead(mask, prev) == walk
    ensures |done| < |walk|
    ensures var next := NextSetBit(mask, prev + 1);
            && next < TOTAL_PQM_CHANNELS
            && (done + [prev]) + Ahead(mask, next) == walk
  {
    var next := NextSetBit(mask, prev + 1);
    if next != -1 {
      ActiveBelow(mask, next);
    }
    assert Walk(mask, prev) == Ahead(mask, next);
    assert done + ([prev] + Walk(mask, prev)) == (done + [prev]) + Walk(mask, prev);
  }

  /** Sampling one more channel appends its sample to the scan. */
  lemma SamplesSnoc(src: SampleSource, chs: seq<nat>, ch: nat, i: nat)
    requires ChannelsInRange(chs) && ch < TOTAL_PQM_CHANNELS && Readable(src, i)
    ensures ChannelsInRange(chs + [ch])
    ensures Samples(src, chs + [ch], i) == Samples(src, chs, i) + [Sample(src, ch, i)]
  {
    assert (chs + [ch])[..|chs|] == chs;
  }

  /**
   * One pass of the channel loop: store the sample of channel `ch` in slot
   * `k` and ask the walker for the channel after it.
   */
  method StoreAndAdvance(mask: u32, src: SampleSource, i: nat, buff: array<u32>, k: nat, ch: nat,
                         ghost done: seq<nat>, ghost walk: seq<nat>) returns (more: bool, next: int)
    requires mask < 0x80 && Readable(src, i) && buff.Length == TOTAL_PQM_CHANNELS
    requires |walk| <= TOTAL_PQM_CHANNELS && ch < TOTAL_PQM_CHANNELS
    requires k == |done| && ChannelsInRange(done) && done + Ahead(mask, ch) == walk
    requires buff[..k] == Samples(src, done, i)
    modifies buff
    ensures k < |walk| && (more <==> next != -1) && -1 <= next < TOTAL_PQM_CHANNELS
    ensures ChannelsInRange(done + [ch]) && (done + [ch]) + Ahead(mask, next) == walk
    ensures buff[..k + 1] == Samples(src, done + [ch], i)
  {
    WalkAdvance(mask, done, walk, ch);
    buff[k] := Sample(src, ch, i);
    SamplesSnoc(src, done, ch, i);
    assert buff[..k + 1] == buff[..k] + [buff[k]];
    more, next := GetNextChIdx(mask, ch);
  }

  /**
   * The channel loop both entry points run: walk the mask with
   * `get_next_ch_idx` from the walker index `ch0`, the sentinel, until it
   * reports "done", storing the sample of each channel it yields in the
   * next slot of `buff`. The final call stores the sentinel back, so the
   * index returned is again the sentinel, and a walker variable that
   * outlives one scan (as in `read_samples`) starts the next scan afresh.
   */
  method AssembleScan(mask: u32, src: SampleSource, i: nat, buff: array<u32>, ch0: int)
    returns (k: nat, chOut: int)
    requires mask < 0x80 && Readable(src, i) && buff.Length == TOTAL_PQM_CHANNELS
    requires ch0 == -1
    modifies buff
    ensures k == Popcount(mask) <= buff.Length && buff[..k] == ScanAt(mask, src, i)
    ensures chOut == -1
  {
    ghost var walk := Walk(mask, -1);
    assert |walk| <= TOTAL_PQM_CHANNELS by {
      ScanChannels(mask);
    }
    ghost var done: seq<nat> := [];
    k := 0;
    var more, ch := GetNextChIdx(mask, ch0);
    if more {
      ActiveBelow(mask, ch);
    }
    while more
      invariant more <==> ch != -1
      invariant -1 <= ch < TOTAL_PQM_CHANNELS
      invariant k == |done| && ChannelsInRange(done)
      invariant done + Ahead(mask, ch) == walk
      invariant buff[..k] == Samples(src, done, i)
      decreases |walk| - k
    {
      var c: nat := ch;
      more, ch := StoreAndAdvance(mask, src, i, buff, k, c, done, walk);
      done := done + [c];
      k := k + 1;
    }
    assert done == SetBits(mask) && k == Popcount(mask) by {
      ScanChannels(mask);
    }
    chOut := ch;
  }

  /**
   * How many whole scans fit in the buffer: `size / bytes_per_scan`,
   * counted by repeated subtraction.
   */
  function ScanCount(size: nat, bytesPerScan: nat): (n: nat)
    requires bytesPerScan > 0
    ensures n <= size
    decreases size
  {
    if size < bytesPerScan then 0 else 1 + ScanCount(size - bytesPerScan, bytesPerScan)
  }

  lemma {:induction false} ScanCountIsQuotient(size: nat, bytesPerScan: nat)
    requires bytesPerScan > 0
    ensures ScanCount(size, bytesPerScan) == size / bytesPerScan
    decreases size
  {
    if size < bytesPerScan {
      ModUnique(size, bytesPerScan, 0, size);
      assert size == 0 * bytesPerScan + size;
    } else {
      ScanCountIsQuotient(size - bytesPerScan, bytesPerScan);
      var q, r := (size - bytesPerScan) / bytesPerScan, (size - bytesPerScan) % bytesPerScan;
      assert size - bytesPerScan == q * bytesPerScan + r;
      assert size == (q + 1) * bytesPerScan + r;
      DivUnique(size, bytesPerScan, q + 1, r);
    }
  }

  /**
   * One pass of `read_samples`'s scan loop: assemble the scan at offset `i`
   * in the shared `buff`, with the shared walker index, and push it; the
   * push result is dropped.
   */
  method PushNextScan(mask: u32, src: SampleSource, i: nat, buff: array<u32>, ch0: int, buffer: IioBuffer)
    returns (ch: int)
    requires mask < 0x80 && Readable(src, i) && buff.Length == TOTAL_PQM_CHANNELS && ch0 == -1
    modifies buff, buffer
    ensures ch == -1
    ensures buffer.pushed == old(buffer.pushed) + [ScanAt(mask, src, i)]
  {
    var k;
    k, ch := AssembleScan(mask, src, i, buff, ch0);
    var _ := buffer.PushScan(buff[..k]);
  }

  /**
   * `read_samples`: push `size / bytes_per_scan` scans, at offsets 0, 1, ...,
   * and return their number; push results are ignored. The scan handed to
   * the sink is the filled prefix of the seven-word scan buffer.
   */
  method ReadSamples(devData: IioDeviceData?) returns (ret: int)
    requires devData != null ==> devData.buffer.bytesPerScan > 0
    requires devData != null ==> devData.dev.activeCh < 0x80
    requires devData != null && devData.dev.extBuff.Some? ==>
               ScanCount(devData.buffer.size, devData.buffer.bytesPerScan) <= devData.dev.extBuffLen
               && 7 * devData.dev.extBuffLen <= |devData.dev.extBuff.value|
    modifies if devData != null then {devData.buffer} else {}
    ensures devData == null ==> ret == -ENODEV
    ensures devData != null ==>
              var count := ScanCount(devData.buffer.size, devData.buffer.bytesPerScan);
              && ret == AsInt32(count)
              && devData.buffer.pushed
                 == old(devData.buffer.pushed) + BulkScans(devData.dev.activeCh, SourceOf(devData.dev), count)
  {
    if devData == null {
      return -ENODEV;
    }
    var desc := devData.dev;
    var buffer := devData.buffer;
    var mask := desc.activeCh;
    var src := SourceOf(desc);
    var count := ScanCount(buffer.size, buffer.bytesPerScan);
    var buff := new u32[TOTAL_PQM_CHANNELS];
    ghost var before := buffer.pushed;
    var ch: int := -1;
    var i: u32 := 0;
    while i < count
      invariant i <= count && ch == -1
      invariant buffer.pushed == before + BulkScans(mask, src, i)
    {
      ch := PushNextScan(mask, src, i, buff, ch, buffer);
      assert before + BulkScans(mask, src, i + 1) == (before + BulkScans(mask, src, i)) + [ScanAt(mask, src, i)];
      i := i + 1;
    }
    assert desc.activeCh == mask && SourceOf(desc) == src;
    return AsInt32(count);
  }

  /** The synthetic cursor step: it runs up to 112, the table size, then restarts. */
  function NextSynthCursor(i: u32): (n: u32)
    ensures i <= 112 ==> n <= 112
  {
    if i == SINE_LUT_LEN then 0 else (i + 1) % 0x1_0000_0000
  }

  /** The external cursor step: it restarts after the last offset, `len - 1`. */
  function NextExtCursor(i: u32, len: u32): (n: u32)
    requires len >= 1
    ensures i < len ==> n < len
  {
    if i == len - 1 then 0 else (i + 1) % 0x1_0000_0000
  }

  /** The offset the cursor holds after `n` steps. */
  function SynthCursorAfter(i: u32, n: nat): u32
  {
    if n == 0 then i else NextSynthCursor(SynthCursorAfter(i, n - 1))
  }

  function ExtCursorAfter(i: u32, len: u32, n: nat): u32
    requires len >= 1
  {
    if n == 0 then i else NextExtCursor(ExtCursorAfter(i, len, n - 1), len)
  }

  lemma ModSucc(x: nat, m: nat)
    requires m >= 1
    ensures (x % m + 1) % m == (x + 1) % m
  {
    var q, r := x / m, x % m;
    assert x == q * m + r;
    if r + 1 < m {
      ModUnique(x + 1, m, q, r + 1);
      ModUnique(r + 1, m, 0, r + 1);
    } else {
      assert x + 1 == (q + 1) * m + 0;
      ModUnique(x + 1, m, q + 1, 0);
    }
  }

  /** One trigger moves an in-range external cursor one place on, modulo `len`. */
  lemma ExtStep(c: u32, len: u32)
    requires c < len
    ensures NextExtCursor(c, len) == (c + 1) % len
  {
    if c + 1 < len {
      ModUnique(c + 1, len, 0, c + 1);
    } else {
      ModUnique(c + 1, len, 1, 0);
    }
  }

  /**
   * From an in-range start, the external cursor after `n` triggers is
   * `(i + n) mod len`: it stays in `[0, len)`.
   */
  lemma {:induction false} ExtCursorOrbit(i: u32, len: u32, n: nat)
    requires i < len
    ensures ExtCursorAfter(i, len, n) == (i + n) % len
  {
    if n > 0 {
      ExtCursorOrbit(i, len, n - 1);
      var c := ExtCursorAfter(i, len, n - 1);
      ExtStep(c, len);
      ModSucc(i + n - 1, len);
    } else {
      ModUnique(i, len, 0, i);
    }
  }

  /** The external cursor returns to where it started exactly every `len` triggers. */
  lemma ExtCursorPeriod(i: u32, len: u32, n: nat)
    requires i < len
    ensures ExtCursorAfter(i, len, n) == i <==> n % len == 0
  {
    ExtCursorOrbit(i, len, n);
    ModReturn(i, len, n);
  }

  /** Adding `n` to an in-range remainder gives it back exactly when `len` divides `n`. */
  lemma ModReturn(i: nat, len: nat, n: nat)
    requires i < len
    ensures (i + n) % len == i <==> n % len == 0
  {
    var q, r := n / len, n % len;
    assert n == q * len + r;
    assert i + n == q * len + (i + r);
    if i + r < len {
      ModUnique(i + n, len, q, i + r);
    } else {
      assert i + n == (q + 1) * len + (i + r - len);
      ModUnique(i + n, len, q + 1, i + r - len);
    }
  }

  /** From an offset up to 112, the synthetic cursor visits `0 .. 112`, period 113. */
  lemma {:induction false} SynthCursorOrbit(i: u32, n: nat)
    requires i <= 112
    ensures SynthCursorAfter(i, n) == (i + n) % 113
  {
    if n > 0 {
      SynthCursorOrbit(i, n - 1);
      var c := SynthCursorAfter(i, n - 1);
      assert c <= 112;
      if c < 112 {
        assert NextSynthCursor(c) == c + 1;
        ModUnique(c + 1, 113, 0, c + 1);
      } else {
        assert NextSynthCursor(c) == 0;
        ModUnique(c + 1, 113, 1, 0);
      }
      ModSucc(i + n - 1, 113);
    } else {
      ModUnique(i, 113, 0, i);
    }
  }

  /**
   * The channel loop of `pqm_trigger_handler`, run on its locals: a fresh
   * seven-slot `buff` and a walker index `ch` set to -1 on every call.
   */
  method LocalScan(mask: u32, src: SampleSource, i: nat) returns (scan: seq<u32>)
    requires mask < 0x80 && Readable(src, i)
    ensures scan == ScanAt(mask, src, i)
  {
    var buff := new u32[TOTAL_PQM_CHANNELS];
    var ch: int := -1;
    var k;
    k, ch := AssembleScan(mask, src, i, buff, ch);
    scan := buff[..k];
  }

  /** The triggered-mode state: the scan cursor kept between calls. */
  class PqmTrigger {
    var i: u32   // `static uint32_t i` of pqm_trigger_handler

    constructor ()
      ensures i == 0
    {
      i := 0;
    }

    /**
     * `pqm_trigger_handler`: assemble one scan at the cursor, advance the
     * cursor, then push the scan and return what the sink returns. The
     * cursor moves on whatever the push reports.
     */
    method TriggerHandler(devData: IioDeviceData?) returns (ret: int)
      requires devData != null ==> devData.dev.activeCh < 0x80
      requires devData != null && devData.dev.extBuff.Some? ==>
                 i < devData.dev.extBuffLen
                 && 7 * devData.dev.extBuffLen <= |devData.dev.extBuff.value|
      modifies this, if devData != null then {devData.buffer} else {}
      ensures devData == null ==> ret == -EINVAL && i == old(i)
      ensures devData != null ==>
                && devData.buffer.pushed
                   == old(devData.buffer.pushed) + [ScanAt(devData.dev.activeCh, SourceOf(devData.dev), old(i))]
                && devData.buffer.results == old(devData.buffer.results) + [ret]
      ensures devData != null && devData.dev.extBuff.None? ==> i == NextSynthCursor(old(i))
      ensures devData != null && devData.dev.extBuff.Some? ==> i == NextExtCursor(old(i), devData.dev.extBuffLen)
    {
      if devData == null {
        return -EINVAL;
      }
      var desc := devData.dev;
      var scan := LocalScan(desc.activeCh, SourceOf(desc), i);
      Advance(desc);
      ret := devData.buffer.PushScan(scan);
    }

    /** The cursor step of `pqm_trigger_handler`, by the rule of the sample source. */
    method Advance(desc: PqmDesc)
      requires desc.extBuff.Some? ==> desc.extBuffLen >= 1
      modifies this
      ensures desc.extBuff.None? ==> i == NextSynthCursor(old(i))
      ensures desc.extBuff.Some? ==> i == NextExtCursor(old(i), desc.extBuffLen)
    {
      if desc.extBuff.None? {
        i := NextSynthCursor(i);
      } else {
        i := NextExtCursor(i, desc.extBuffLen);
      }
    }
  }
}
