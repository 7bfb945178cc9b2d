/**
 * The PQM device descriptor and its life cycle (src/common/pqm.c): the
 * synthetic sine table, initialisation from parameters, removal, and the
 * two operations that set the active-channel mask.
 */
module Pqm {
  import opened PqmDefs

  /** One row of `sine_lut`: seven samples of the demo waveform. */
  const SineRow: seq<u32> := [0x0001, 0x0008, 0x000C, 0x0010, 0x0020, 0x0030, 0x0040]

  /** `rows` copies of `row`, back to back. */
  function Repeat(row: seq<u32>, rows: nat): (r: seq<u32>)
    ensures |r| == rows * |row|
  {
    if rows == 0 then [] else row + Repeat(row, rows - 1)
  }

  /** `sine_lut[112]`: sixteen identical rows of seven entries. */
  const SineLut: seq<u32> := Repeat(SineRow, 16)

  /** `NO_OS_ARRAY_SIZE(sine_lut)`. */
  const SINE_LUT_LEN: nat := 112

  lemma {:induction false} RepeatAt(rows: nat, k: nat)
    requires k < 7 * rows
    ensures |Repeat(SineRow, rows)| == 7 * rows
    ensures Repeat(SineRow, rows)[k] == SineRow[k % 7]
  {
    if k >= 7 {
      RepeatAt(rows - 1, k - 7);
      assert (k - 7) % 7 == k % 7;
    }
  }

  /** Entry `k` of the table is entry `k mod 7` of its first row. */
  lemma SineLutPeriodic(k: nat)
    requires k < SINE_LUT_LEN
    ensures |SineLut| == SINE_LUT_LEN
    ensures SineLut[k] == SineRow[k % 7]
  {
    RepeatAt(16, k);
  }

  /**
   * `struct pqm_desc`. The external sample buffer is a flat sequence of
   * 32-bit words (`None` is a NULL pointer, selecting the synthetic table).
   */
  class PqmDesc {
    var globalAttr: array<u32>   // pqm_global_attr[PQM_DEVICE_ATTR_NUMBER]
    var chAttr: array2<u32>      // pqm_ch_attr[TOTAL_PQM_CHANNELS][MAX_CH_ATTRS]
    var activeCh: u32
    var extBuffLen: u32
    var extBuff: Option<seq<u32>>

    ghost predicate Valid()
      reads this
    {
      && globalAttr.Length == PQM_DEVICE_ATTR_NUMBER
      && chAttr.Length0 == TOTAL_PQM_CHANNELS
      && chAttr.Length1 == MAX_CH_ATTRS
    }

    /** A descriptor as `no_os_calloc` hands it out: every field zero. */
    constructor Calloc()
      ensures Valid() && fresh(globalAttr) && fresh(chAttr)
      ensures globalAttr[..] == seq(PQM_DEVICE_ATTR_NUMBER, _ => 0)
      ensures forall i, j :: 0 <= i < TOTAL_PQM_CHANNELS && 0 <= j < MAX_CH_ATTRS ==> chAttr[i, j] == 0
      ensures activeCh == 0 && extBuffLen == 0 && extBuff == None
    {
      globalAttr := new u32[PQM_DEVICE_ATTR_NUMBER](_ => 0);
      chAttr := new u32[TOTAL_PQM_CHANNELS, MAX_CH_ATTRS]((_, _) => 0);
      activeCh := 0;
      extBuffLen := 0;
      extBuff := None;
    }
  }

  /** `struct pqm_init_para`. */
  datatype PqmInitPara = PqmInitPara(
    devGlobalAttr: seq<u32>,
    devChAttr: seq<seq<u32>>,
    extBuffLen: u32,
    extBuff: Option<seq<u32>>)
  {
    /** The array shapes fixed by the C declaration. */
    predicate WellShaped()
    {
      && |devGlobalAttr| == PQM_DEVICE_ATTR_NUMBER
      && |devChAttr| == TOTAL_PQM_CHANNELS
      && forall i :: 0 <= i < TOTAL_PQM_CHANNELS ==> |devChAttr[i]| == MAX_CH_ATTRS
    }
  }

  /**
   * `pqm_init`: allocate a zeroed descriptor and copy the parameters into it.
   * `callocOk` is whether `no_os_calloc` succeeded; on failure `*desc`
   * (here `prev`) is left as it was.
   */
  method PqmInit(param: PqmInitPara, callocOk: bool, prev: PqmDesc?) returns (ret: int, desc: PqmDesc?)
    requires param.WellShaped()
    ensures !callocOk ==> ret == -ENOMEM && desc == prev
    ensures callocOk ==> ret == 0 && desc != null && fresh(desc) && desc.Valid()
    ensures callocOk ==> fresh(desc.globalAttr) && fresh(desc.chAttr)
    ensures callocOk ==> desc.globalAttr[..] == param.devGlobalAttr
    ensures callocOk ==> forall i, j :: 0 <= i < TOTAL_PQM_CHANNELS && 0 <= j < MAX_CH_ATTRS ==>
                            desc.chAttr[i, j] == param.devChAttr[i][j]
    ensures callocOk ==> desc.extBuff == param.extBuff && desc.extBuffLen == param.extBuffLen
    ensures callocOk ==> desc.activeCh == 0
  {
    if !callocOk {
      return -ENOMEM, prev;
    }
    var d := new PqmDesc.Calloc();
    d.extBuff := param.extBuff;
    d.extBuffLen := param.extBuffLen;
    var i := 0;
    while i < TOTAL_PQM_CHANNELS
      invariant 0 <= i <= TOTAL_PQM_CHANNELS
      invariant d.Valid() && fresh(d.globalAttr) && fresh(d.chAttr)
      invariant d.extBuff == param.extBuff && d.extBuffLen == param.extBuffLen && d.activeCh == 0
      invariant forall a, b :: 0 <= a < i && 0 <= b < MAX_CH_ATTRS ==> d.chAttr[a, b] == param.devChAttr[a][b]
      invariant d.globalAttr[..] == seq(PQM_DEVICE_ATTR_NUMBER, _ => 0)
    {
      var j := 0;
      while j < MAX_CH_ATTRS
        invariant 0 <= j <= MAX_CH_ATTRS
        invariant d.Valid() && fresh(d.globalAttr) && fresh(d.chAttr)
        invariant d.extBuff == param.extBuff && d.extBuffLen == param.extBuffLen && d.activeCh == 0
        invariant forall a, b :: 0 <= a < i && 0 <= b < MAX_CH_ATTRS ==> d.chAttr[a, b] == param.devChAttr[a][b]
        invariant forall b :: 0 <= b < j ==> d.chAttr[i, b] == param.devChAttr[i][b]
        invariant d.globalAttr[..] == seq(PQM_DEVICE_ATTR_NUMBER, _ => 0)
      {
        d.chAttr[i, j] := param.devChAttr[i][j];
        j := j + 1;
      }
      i := i + 1;
    }
    i := 0;
    while i < PQM_DEVICE_ATTR_NUMBER
      invariant 0 <= i <= PQM_DEVICE_ATTR_NUMBER
      invariant d.Valid() && fresh(d.globalAttr) && fresh(d.chAttr)
      invariant d.extBuff == param.extBuff && d.extBuffLen == param.extBuffLen && d.activeCh == 0
      invariant forall a, b :: 0 <= a < TOTAL_PQM_CHANNELS && 0 <= b < MAX_CH_ATTRS ==> d.chAttr[a, b] == param.devChAttr[a][b]
      invariant d.globalAttr[..i] == param.devGlobalAttr[..i]
    {
      d.globalAttr[i] := param.devGlobalAttr[i];
      i := i + 1;
    }
    return 0, d;
  }

  /** `pqm_remove`: a NULL descriptor is rejected; freeing is not modelled. */
  function PqmRemove(desc: PqmDesc?): (ret: int)
    ensures ret == 0 || ret == -EINVAL
    ensures ret == -EINVAL <==> desc == null
  {
    if desc == null then -EINVAL else 0
  }

  /** `update_pqm_channels` (the buffer pre-enable hook): record the active-channel mask. */
  method UpdatePqmChannels(dev: PqmDesc?, mask: u32) returns (ret: int)
    modifies dev
    ensures dev == null ==> ret == -ENODEV
    ensures dev != null ==> ret == 0 && dev.activeCh == mask
    ensures dev != null ==> dev.globalAttr == old(dev.globalAttr) && dev.chAttr == old(dev.chAttr)
    ensures dev != null ==> dev.extBuff == old(dev.extBuff) && dev.extBuffLen == old(dev.extBuffLen)
  {
    if dev == null {
      return -ENODEV;
    }
    dev.activeCh := mask;
    return 0;
  }

  /** `close_pqm_channels` (the buffer post-disable hook): clear the active-channel mask. */
  method ClosePqmChannels(dev: PqmDesc?) returns (ret: int)
    modifies dev
    ensures dev == null ==> ret == -ENODEV
    ensures dev != null ==> ret == 0 && dev.activeCh == 0
    ensures dev != null ==> dev.globalAttr == old(dev.globalAttr) && dev.chAttr == old(dev.chAttr)
    ensures dev != null ==> dev.extBuff == old(dev.extBuff) && dev.extBuffLen == old(dev.extBuffLen)
  {
    if dev == null {
      return -ENODEV;
    }
    dev.activeCh := 0;
    return 0;
  }
}
