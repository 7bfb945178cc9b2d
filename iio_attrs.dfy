/**
 * The attribute side of the PQM IIO device (src/common/iio_pqm.c): the
 * numeric and enumerated global attributes, the per-channel attributes,
 * the space-separated listings of the enumerations' vocabularies, the
 * channel table and the global attribute table that wires handlers to
 * attribute ids.
 *
 * Text formatting and parsing are not modelled: a numeric read yields the
 * stored value, a numeric write takes the already parsed value.
 */
module IioPqmAttrs {
  import opened PqmDefs
  import opened Pqm

  // ---------------------------------------------------------------------
  // Enumerated global attributes
  // ---------------------------------------------------------------------

  /**
   * The three enumerated global attributes. Their readers and writers are
   * one routine each, instantiated with the attribute's vocabulary.
   */
  datatype EnumAttr = VConselAttr | FlickerModelAttr | NominalFrequencyAttr

  /** The vocabulary an enumerated attribute's stored index refers to. */
  function EnumVocabulary(e: EnumAttr): (vocab: seq<string>)
    ensures Distinct(vocab) && SpaceFree(vocab) && 2 <= |vocab| <= 5
    ensures Vocabulary(EnumKind(e)) == Some(vocab)
  {
    match e
    case VConselAttr => VConselAvailable
    case FlickerModelAttr => FlickerModelAvailable
    case NominalFrequencyAttr => NominalFrequencyAvailable
  }

  /** The available-values kind that lists an enumerated attribute's vocabulary. */
  function EnumKind(e: EnumAttr): int
  {
    match e
    case VConselAttr => V_CONSEL
    case FlickerModelAttr => FLICKER_MODEL
    case NominalFrequencyAttr => NOMINAL_FREQUENCY
  }

  /**
   * The writers' linear search: the first position whose entry equals `s`
   * exactly, or `None` when no entry does.
   */
  function IndexOf(vocab: seq<string>, s: string): (r: Option<nat>)
    ensures r.None? <==> s !in vocab
    ensures r.Some? ==> r.value < |vocab| && vocab[r.value] == s
    ensures r.Some? ==> forall j :: 0 <= j < r.value ==> vocab[j] != s
  {
    if vocab == [] then None
    else if vocab[0] == s then Some(0)
    else
      assert vocab == [vocab[0]] + vocab[1..];
      match IndexOf(vocab[1..], s)
      case None => None
      case Some(j) => Some(j + 1)
  }

  /** In a vocabulary without repeats, the search finds each entry at its own position. */
  lemma IndexOfEntry(vocab: seq<string>, j: nat)
    requires Distinct(vocab) && j < |vocab|
    ensures IndexOf(vocab, vocab[j]) == Some(j)
  {
  }

  /**
   * `read_v_consel_attr`, `read_flicker_model_attr`, `read_nominal_freq_attr`:
   * the vocabulary entry named by the index stored at `attrId`. The stored
   * index is used without a range check, so it must name an entry.
   */
  function ReadEnumAttr(desc: PqmDesc?, e: EnumAttr, attrId: nat): (r: Result<string>)
    reads desc, if desc != null then {desc.globalAttr} else {}
    requires desc != null ==> desc.Valid()
    requires desc != null && attrId < PQM_DEVICE_ATTR_NUMBER ==> desc.globalAttr[attrId] < |EnumVocabulary(e)|
    ensures desc == null ==> r == Err(-ENODEV)
    ensures desc != null && attrId >= PQM_DEVICE_ATTR_NUMBER ==> r == Err(-EINVAL)
    ensures desc != null && attrId < PQM_DEVICE_ATTR_NUMBER ==> r.Ok?
    ensures r.Ok? ==> r.value in EnumVocabulary(e)
    ensures r.Ok? ==> IndexOf(EnumVocabulary(e), r.value) == Some(desc.globalAttr[attrId])
  {
    if desc == null then Err(-ENODEV)
    else if attrId < PQM_DEVICE_ATTR_NUMBER then
      IndexOfEntry(EnumVocabulary(e), desc.globalAttr[attrId]);
      Ok(EnumVocabulary(e)[desc.globalAttr[attrId]])
    else Err(-EINVAL)
  }

  /**
   * `write_v_consel_attr`, `write_flicker_model_attr`,
   * `write_nominal_freq_attr`: search the vocabulary for `buf` and store the
   * matching position at `attrId`, returning `len`; reject an unknown
   * string. `attrId` is not range-checked by the writers.
   */
  method WriteEnumAttr(desc: PqmDesc?, e: EnumAttr, buf: string, len: u32, attrId: nat) returns (ret: int)
    requires desc != null ==> desc.Valid() && attrId < PQM_DEVICE_ATTR_NUMBER
    modifies if desc != null then {desc.globalAttr} else {}
    ensures desc == null ==> ret == -ENODEV
    ensures desc != null && buf !in EnumVocabulary(e) ==>
              ret == -EINVAL && desc.globalAttr[..] == old(desc.globalAttr[..])
    ensures desc != null && buf in EnumVocabulary(e) ==>
              && ret == AsInt32(len)
              && desc.globalAttr[..] == old(desc.globalAttr[..])[attrId := IndexOf(EnumVocabulary(e), buf).value]
    ensures desc != null && buf in EnumVocabulary(e) ==> ReadEnumAttr(desc, e, attrId) == Ok(buf)
  {
    if desc == null {
      return -ENODEV;
    }
    var vocab := EnumVocabulary(e);
    var dataSize := |vocab|;
    var i := 0;
    while i < dataSize
      invariant i <= dataSize
      invariant forall j :: 0 <= j < i ==> vocab[j] != buf
    {
      if buf == vocab[i] {
        desc.globalAttr[attrId] := i;
        return AsInt32(len);
      }
      i := i + 1;
    }
    return -EINVAL;
  }

  // ---------------------------------------------------------------------
  // Numeric global attributes
  // ---------------------------------------------------------------------

  /** `read_pqm_attr`: the value stored at `attrId`, for ids inside the table. */
  function ReadPqmAttr(desc: PqmDesc?, attrId: nat): (r: Result<u32>)
    reads desc, if desc != null then {desc.globalAttr} else {}
    requires desc != null ==> desc.Valid()
    ensures desc == null ==> r == Err(-ENODEV)
    ensures desc != null ==> (r.Ok? <==> attrId < PQM_DEVICE_ATTR_NUMBER)
    ensures desc != null && r.Err? ==> r.code == -EINVAL
    ensures r.Ok? ==> r.value == desc.globalAttr[attrId]
  {
    if desc == null then Err(-ENODEV)
    else if attrId < PQM_DEVICE_ATTR_NUMBER then Ok(desc.globalAttr[attrId])
    else Err(-EINVAL)
  }

  /**
   * `write_pqm_attr`: store `value` (the text already parsed as an unsigned
   * 32-bit number) at `attrId`, for ids inside the table.
   */
  method WritePqmAttr(desc: PqmDesc?, value: u32, len: u32, attrId: nat) returns (ret: int)
    requires desc != null ==> desc.Valid()
    modifies if desc != null then {desc.globalAttr} else {}
    ensures desc == null ==> ret == -ENODEV
    ensures desc != null && attrId >= PQM_DEVICE_ATTR_NUMBER ==>
              ret == -EINVAL && desc.globalAttr[..] == old(desc.globalAttr[..])
    ensures desc != null && attrId < PQM_DEVICE_ATTR_NUMBER ==>
              ret == AsInt32(len) && desc.globalAttr[..] == old(desc.globalAttr[..])[attrId := value]
    ensures desc != null && attrId < PQM_DEVICE_ATTR_NUMBER ==> ReadPqmAttr(desc, attrId) == Ok(value)
    ensures desc != null ==> forall k :: 0 <= k < PQM_DEVICE_ATTR_NUMBER && k != attrId ==>
              ReadPqmAttr(desc, k) == old(ReadPqmAttr(desc, k))
  {
    if desc == null {
      return -ENODEV;
    }
    if attrId < PQM_DEVICE_ATTR_NUMBER {
      desc.globalAttr[attrId] := value;
      return AsInt32(len);
    }
    return -EINVAL;
  }

  // ---------------------------------------------------------------------
  // Channel attributes and the channel table
  // ---------------------------------------------------------------------

  /** The channel types the handlers tell apart; every other IIO type is `IioOtherType`. */
  datatype ChannelType = IioVoltage | IioCurrent | IioOtherType

  /** `struct iio_ch_info`: the type and number of the channel addressed. */
  datatype ChInfo = ChInfo(chType: ChannelType, chNum: nat)

  /** The row of `pqm_ch_attr` holding a channel's attributes: currents follow the voltages. */
  function AttrRow(ch: ChInfo): (r: Option<nat>)
    ensures r.Some? <==> !ch.chType.IioOtherType?
    ensures r.Some? && ch.chNum < VOLTAGE_CH_NUMBER ==> (ch.chType.IioCurrent? <==> VOLTAGE_CH_NUMBER <= r.value)
  {
    match ch.chType
    case IioVoltage => Some(ch.chNum)
    case IioCurrent => Some(ch.chNum + VOLTAGE_CH_NUMBER)
    case IioOtherType => None
  }

  /**
   * The three voltage and four current channels have seven different rows,
   * all inside `pqm_ch_attr`.
   */
  lemma AttrRowsDistinct(a: ChInfo, b: ChInfo)
    requires a.chType.IioVoltage? ==> a.chNum < VOLTAGE_CH_NUMBER
    requires a.chType.IioCurrent? ==> a.chNum < TOTAL_PQM_CHANNELS - VOLTAGE_CH_NUMBER
    requires b.chType.IioVoltage? ==> b.chNum < VOLTAGE_CH_NUMBER
    requires b.chType.IioCurrent? ==> b.chNum < TOTAL_PQM_CHANNELS - VOLTAGE_CH_NUMBER
    requires !a.chType.IioOtherType? && !b.chType.IioOtherType?
    ensures AttrRow(a).value < TOTAL_PQM_CHANNELS
    ensures AttrRow(a) == AttrRow(b) <==> a == b
  {
  }

  /**
   * `read_ch_attr`: attribute `attrId` of the addressed channel. The
   * channel number is not range-checked, so its row must exist.
   */
  function ReadChAttr(desc: PqmDesc?, ch: ChInfo, attrId: nat): (r: Result<u32>)
    reads desc, if desc != null then {desc.chAttr} else {}
    requires desc != null ==> desc.Valid()
    requires desc != null && attrId < MAX_CH_ATTRS && AttrRow(ch).Some? ==> AttrRow(ch).value < TOTAL_PQM_CHANNELS
    ensures desc == null ==> r == Err(-ENODEV)
    ensures desc != null ==> (r.Ok? <==> attrId < MAX_CH_ATTRS && !ch.chType.IioOtherType?)
    ensures desc != null && r.Err? ==> r.code == -EINVAL
    ensures r.Ok? && ch.chType.IioVoltage? ==> r.value == desc.chAttr[ch.chNum, attrId]
    ensures r.Ok? && ch.chType.IioCurrent? ==> r.value == desc.chAttr[ch.chNum + VOLTAGE_CH_NUMBER, attrId]
  {
    if desc == null then Err(-ENODEV)
    else if attrId >= MAX_CH_ATTRS then Err(-EINVAL)
    else match AttrRow(ch)
      case None => Err(-EINVAL)
      case Some(row) => Ok(desc.chAttr[row, attrId])
  }

  /** An entry of `iio_pqm_channels`. */
  datatype IioChannel = IioChannel(name: string, chType: ChannelType, channel: nat, scanIndex: nat)

  /** `iio_pqm_channels`: three voltages, then four currents, in scan order. */
  const IioPqmChannels: seq<IioChannel> := [
    IioChannel("ua", IioVoltage, 0, 0),
    IioChannel("ub", IioVoltage, 1, 1),
    IioChannel("uc", IioVoltage, 2, 2),
    IioChannel("ia", IioCurrent, 0, 3),
    IioChannel("ib", IioCurrent, 1, 4),
    IioChannel("ic", IioCurrent, 2, 5),
    IioChannel("in", IioCurrent, 3, 6)
  ]

  /**
   * The channel table lists the seven channels in scan order, voltages
   * first, and the attribute row a channel's attributes are read from is
   * its scan index, which is also the bit of the active mask and the row of
   * the sample buffer that belong to it.
   */
  lemma ChannelTableRows()
    ensures |IioPqmChannels| == TOTAL_PQM_CHANNELS
    ensures forall k :: 0 <= k < |IioPqmChannels| ==> IioPqmChannels[k].scanIndex == k
    ensures forall k :: 0 <= k < |IioPqmChannels| ==>
              (IioPqmChannels[k].chType == IioVoltage <==> k < VOLTAGE_CH_NUMBER)
    ensures forall k :: 0 <= k < |IioPqmChannels| ==>
              AttrRow(ChInfo(IioPqmChannels[k].chType, IioPqmChannels[k].channel)) == Some(k)
  {
    forall k | 0 <= k < |IioPqmChannels|
      ensures IioPqmChannels[k].scanIndex == k
      ensures IioPqmChannels[k].chType == IioVoltage <==> k < VOLTAGE_CH_NUMBER
      ensures AttrRow(ChInfo(IioPqmChannels[k].chType, IioPqmChannels[k].channel)) == Some(k)
    {
      if k < 3 {
        assert IioPqmChannels[k] == IioChannel(["ua", "ub", "uc"][k], IioVoltage, k, k);
      } else {
        assert IioPqmChannels[k] == IioChannel(["ia", "ib", "ic", "in"][k - 3], IioCurrent, k - 3, k);
      }
    }
  }

  // ---------------------------------------------------------------------
  // Available-values listings
  // ---------------------------------------------------------------------

  /** The entries of `vocab` separated by single spaces, with none at either end. */
  function Joined(vocab: seq<string>): (r: string)
    ensures 0 < |vocab| ==> vocab[0] <= r
  {
    if |vocab| == 0 then ""
    else if |vocab| == 1 then vocab[0]
    else Joined(vocab[..|vocab| - 1]) + " " + vocab[|vocab| - 1]
  }

  /** The position of the last space in `s`, if any. */
  function LastSpace(s: string): (r: Option<nat>)
    ensures r.None? <==> ' ' !in s
    ensures r.Some? ==> r.value < |s| && s[r.value] == ' ' && ' ' !in s[r.value + 1..]
  {
    if s == [] then None
    else if s[|s| - 1] == ' ' then Some(|s| - 1)
    else
      assert s == s[..|s| - 1] + [s[|s| - 1]];
      match LastSpace(s[..|s| - 1])
      case None => None
      case Some(k) =>
        assert s[k + 1..] == s[..|s| - 1][k + 1..] + [s[|s| - 1]];
        Some(k)
  }

  /** A client's reading of a listing: the words between single spaces. */
  function Split(s: string): (words: seq<string>)
    ensures |words| >= 1
    decreases |s|
  {
    match LastSpace(s)
    case None => [s]
    case Some(k) => Split(s[..k]) + [s[k + 1..]]
  }

  /** In `a + " " + b` with no space in `b`, the last space is the separator. */
  lemma LastSpaceOfJoin(a: string, b: string)
    requires ' ' !in b
    ensures LastSpace(a + " " + b) == Some(|a|)
  {
    var s := a + " " + b;
    assert s[|a|] == ' ';
    assert s[|a| + 1..] == b;
  }

  /** Splitting a listing at its spaces gives back the vocabulary, entry by entry. */
  lemma {:induction false} SplitJoined(vocab: seq<string>)
    requires |vocab| > 0 && SpaceFree(vocab)
    ensures Split(Joined(vocab)) == vocab
    decreases |vocab|
  {
    if |vocab| > 1 {
      var prefix, last := vocab[..|vocab| - 1], vocab[|vocab| - 1];
      var j := Joined(prefix);
      LastSpaceOfJoin(j, last);
      var s := j + " " + last;
      assert s[..|j|] == j && s[|j| + 1..] == last;
      SplitJoined(prefix);
      assert vocab == prefix + [last];
    }
  }

  /**
   * The `strcat` loop each case of `read_available_values` runs over its
   * vocabulary: append every entry, and a space after each but the last.
   */
  method ListEntries(vocab: seq<string>, buf0: string) returns (buf: string)
    ensures buf == buf0 + Joined(vocab)
  {
    buf := buf0;
    var valCnt := |vocab|;
    var i := 0;
    while i < valCnt
      invariant i <= valCnt
      invariant buf == buf0 + Joined(vocab[..i]) + (if 0 < i < valCnt then " " else "")
    {
      assert vocab[..i + 1][..i] == vocab[..i];
      buf := buf + vocab[i];
      if i != valCnt - 1 {
        buf := buf + " ";
      }
      i := i + 1;
    }
    assert vocab[..valCnt] == vocab;
  }

  /**
   * `read_available_values`: the listing of the vocabulary selected by
   * `kind`, and its length. `buf` is emptied first, so an unknown kind
   * leaves it empty.
   */
  method ReadAvailableValues(kind: int) returns (ret: int, buf: string)
    ensures Vocabulary(kind).None? ==> ret == -EINVAL && buf == ""
    ensures Vocabulary(kind).Some? ==> buf == Joined(Vocabulary(kind).value) && ret == |buf|
    ensures Vocabulary(kind).Some? ==> Split(buf) == Vocabulary(kind).value
  {
    buf := "";
    var vocab: seq<string>;
    if kind == V_CONSEL {
      vocab := VConselAvailable;
    } else if kind == FLICKER_MODEL {
      vocab := FlickerModelAvailable;
    } else if kind == NOMINAL_FREQUENCY {
      vocab := NominalFrequencyAvailable;
    } else {
      return -EINVAL, buf;
    }
    assert Vocabulary(kind) == Some(vocab);
    buf := ListEntries(vocab, buf);
    SplitJoined(vocab);
    return |buf|, buf;
  }

  // ---------------------------------------------------------------------
  // The global attribute table
  // ---------------------------------------------------------------------

  /** The `.show` handler of a global attribute. */
  datatype Show = ShowPqm | ShowEnum(attr: EnumAttr) | ShowAvailable

  /** The `.store` handler of a global attribute, if it has one. */
  datatype Store = NoStore | StorePqm | StoreEnum(attr: EnumAttr)

  /**
   * An entry of `global_pqm_attributes` without its name: `priv` is the id
   * handed to both handlers.
   */
  datatype GlobalAttribute = GlobalAttribute(show: Show, store: Store, priv: nat)

  /** The names of `global_pqm_attributes`, in table order. */
  const GlobalAttributeNames: seq<string> := [
    "u2", "u0", "sneg_voltage", "spos_voltage", "szro_voltage",
    "i2", "i0", "sneg_current", "spos_current", "szro_current",
    "nominal_voltage", "voltage_scale", "current_scale", "i_consel_en",
    "dip_threshold", "dip_hysteresis", "swell_threshold", "swell_hysteresis",
    "intrp_threshold", "intrp_hysteresis", "rvc_threshold", "rvc_hysteresis",
    "msv_carrier_frequency", "msv_record_length", "msv_threshold", "sampling_frequency",
    "v_consel", "v_consel_available", "flicker_model", "flicker_model_available",
    "nominal_frequency", "nominal_frequency_available"
  ]

  /** `count` numeric attributes with consecutive ids from `first`. */
  function NumericAttributes(count: nat, first: nat, store: Store): (t: seq<GlobalAttribute>)
    ensures |t| == count
    ensures forall j :: 0 <= j < count ==> t[j] == GlobalAttribute(ShowPqm, store, first + j)
  {
    if count == 0 then []
    else NumericAttributes(count - 1, first, store) + [GlobalAttribute(ShowPqm, store, first + count - 1)]
  }

  /** The three enumerated attributes (ids 26 to 28), each followed by its listing. */
  function EnumAttributes(nominalAvailableStore: Store): seq<GlobalAttribute>
  {
    [ GlobalAttribute(ShowEnum(VConselAttr), StoreEnum(VConselAttr), 26),
      GlobalAttribute(ShowAvailable, NoStore, V_CONSEL),
      GlobalAttribute(ShowEnum(FlickerModelAttr), StoreEnum(FlickerModelAttr), 27),
      GlobalAttribute(ShowAvailable, NoStore, FLICKER_MODEL),
      GlobalAttribute(ShowEnum(NominalFrequencyAttr), StoreEnum(NominalFrequencyAttr), 28),
      GlobalAttribute(ShowAvailable, nominalAvailableStore, NOMINAL_FREQUENCY) ]
  }

  /**
   * `global_pqm_attributes` as written: ten measured values shown by
   * `read_pqm_attr` (ids 0 to 9), sixteen settings it also stores through
   * `write_pqm_attr` (ids 10 to 25), then the enumerated attributes; the
   * last listing carries the nominal-frequency writer.
   */
  function GlobalPqmAttributesAsWritten(): (t: seq<GlobalAttribute>)
    ensures |t| == |GlobalPqmAttributes()| == |GlobalAttributeNames|
    ensures forall k :: 0 <= k < |t| && k != 31 ==> t[k] == GlobalPqmAttributes()[k]
    ensures t[31] == GlobalPqmAttributes()[31].(store := StoreEnum(NominalFrequencyAttr))
  {
    NumericAttributes(10, 0, NoStore) + NumericAttributes(16, 10, StorePqm)
      + EnumAttributes(StoreEnum(NominalFrequencyAttr))
  }

  /** `global_pqm_attributes` with that listing read-only like the other two. */
  function GlobalPqmAttributes(): seq<GlobalAttribute>
  {
    NumericAttributes(10, 0, NoStore) + NumericAttributes(16, 10, StorePqm) + EnumAttributes(NoStore)
  }

  /**
   * A write through attribute `a` changes the value `a` shows, and only a
   * setting: the slot stored into is the slot shown, through the matching
   * kind of handler, and it is not a measured value.
   */
  predicate WritesWhatItShows(a: GlobalAttribute)
  {
    match a.store
    case NoStore => true
    case StorePqm => a.show == ShowPqm && 10 <= a.priv < 29
    case StoreEnum(e) => a.show == ShowEnum(e) && a.priv < 29
  }

  /**
   * As written, storing through `nominal_frequency_available` runs the
   * nominal-frequency writer with id 2, so a valid frequency string
   * overwrites the measured `sneg_voltage` slot, and the listing itself
   * does not change.
   */
  lemma AvailableStoreHitsSlot2()
    ensures var t := GlobalPqmAttributesAsWritten();
            && |t| == |GlobalAttributeNames| == 32
            && GlobalAttributeNames[31] == "nominal_frequency_available"
            && t[31].store == StoreEnum(NominalFrequencyAttr) && t[31].priv == 2
            && GlobalAttributeNames[2] == "sneg_voltage"
            && t[2].show == ShowPqm && t[2].store == NoStore && t[2].priv == 2
            && !WritesWhatItShows(t[31])
  {
    var t := GlobalPqmAttributesAsWritten();
    var m := NumericAttributes(10, 0, NoStore);
    assert t[2] == m[2];
    assert t[31] == EnumAttributes(StoreEnum(NominalFrequencyAttr))[5];
  }

  /**
   * In the corrected table every attribute with a writer writes what it
   * shows, numeric settings occupy ids 10 to 25 and measured values 0 to 9,
   * and the enumerated attributes sit at ids 26 to 28, each followed by its
   * listing.
   */
  lemma GlobalTableWritesWhatItShows()
    ensures var t := GlobalPqmAttributes();
            && |t| == |GlobalAttributeNames| == 32
            && (forall k :: 0 <= k < |t| ==> WritesWhatItShows(t[k]))
            && (forall k :: 0 <= k < 26 ==> t[k].priv == k && t[k].show == ShowPqm)
            && (forall k :: 0 <= k < 26 ==> (t[k].store == StorePqm <==> 10 <= k))
            && t[26].show == ShowEnum(VConselAttr) && t[26].priv == 26
            && t[27].show == ShowAvailable && t[27].priv == EnumKind(VConselAttr)
            && t[28].show == ShowEnum(FlickerModelAttr) && t[28].priv == 27
            && t[29].show == ShowAvailable && t[29].priv == EnumKind(FlickerModelAttr)
            && t[30].show == ShowEnum(NominalFrequencyAttr) && t[30].priv == 28
            && t[31].show == ShowAvailable && t[31].priv == EnumKind(NominalFrequencyAttr)
  {
    var t := GlobalPqmAttributes();
    var m := NumericAttributes(10, 0, NoStore);
    var s := NumericAttributes(16, 10, StorePqm);
    var e := EnumAttributes(NoStore);
    forall k | 0 <= k < |t|
      ensures WritesWhatItShows(t[k])
      ensures k < 26 ==> t[k].priv == k && t[k].show == ShowPqm && (t[k].store == StorePqm <==> 10 <= k)
    {
      if k < 10 {
        assert t[k] == m[k];
      } else if k < 26 {
        assert t[k] == s[k - 10];
      } else {
        assert t[k] == e[k - 26];
      }
    }
    assert t[26] == e[0] && t[27] == e[1] && t[28] == e[2];
    assert t[29] == e[3] && t[30] == e[4] && t[31] == e[5];
  }
}
