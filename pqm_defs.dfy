/**
 * Constants, vocabularies and result codes of the PQM driver header
 * (src/common/pqm.h), plus the machine integer conventions the driver uses.
 */
module PqmDefs {

  /** A C `uint32_t`. */
  type u32 = x: int | 0 <= x < 0x1_0000_0000

  const TOTAL_PQM_CHANNELS: nat := 7
  const VOLTAGE_CH_NUMBER: nat := 3
  const MAX_CH_ATTRS: nat := 10
  const PQM_DEVICE_ATTR_NUMBER: nat := 29

  /** Error numbers as returned (negated) by the driver. */
  const ENOMEM: int := 12
  const ENODEV: int := 19
  const EINVAL: int := 22

  /** The value a C `int` holds after being assigned a `uint32_t`. */
  function AsInt32(x: u32): (r: int)
    ensures -0x8000_0000 <= r < 0x8000_0000
    ensures r % 0x1_0000_0000 == x
  {
    if x < 0x8000_0000 then x else x - 0x1_0000_0000
  }

  /** Outcome of a driver read: a value, or the negative error code returned. */
  datatype Result<T> = Ok(value: T) | Err(code: int)

  datatype Option<T> = None | Some(value: T)

  /** Kinds accepted by the available-values listing (`availavle_values_type`). */
  const V_CONSEL: int := 0
  const FLICKER_MODEL: int := 1
  const NOMINAL_FREQUENCY: int := 2

  /** `v_consel_values`, in declaration order. */
  const V_CONSEL_4W_WYE: nat := 0
  const V_CONSEL_4W_WYE_NON_BLONDEL: nat := 1
  const V_CONSEL_3W_DELTA: nat := 2
  const V_CONSEL_3W_DELTA_2: nat := 3
  const V_CONSEL_4W_DELTA_NON_BLONDEL: nat := 4

  /** `flicker_model_values`, in declaration order. */
  const FLICKER_230V_50HZ: nat := 0
  const FLICKER_120V_50HZ: nat := 1
  const FLICKER_230V_60HZ: nat := 2
  const FLICKER_120V_60HZ: nat := 3

  /** `nominal_frequency_values`, in declaration order. */
  const NOMINAL_50: nat := 0
  const NOMINAL_60: nat := 1

  /** `pqm_v_consel_available`: entry `e` names enum value `e`. */
  const VConselAvailable: seq<string> :=
    ["4W_WYE", "4W_WYE_NON_BLONDEL", "3W_DELTA", "3W_DELTA_2", "4W_DELTA_NON_BLONDEL"]

  /** `pqm_flicker_model_available`. */
  const FlickerModelAvailable: seq<string> :=
    ["230V_50HZ", "120V_50HZ", "230V_60HZ", "120V_60HZ"]

  /** `pqm_nominal_frequency_available`. */
  const NominalFrequencyAvailable: seq<string> := ["50", "60"]

  /** No string occurs twice in `vocab`. */
  predicate Distinct(vocab: seq<string>)
  {
    forall a, b :: 0 <= a < b < |vocab| ==> vocab[a] != vocab[b]
  }

  /** Whether no entry contains a space (the listing separator). */
  predicate SpaceFree(vocab: seq<string>)
  {
    forall j :: 0 <= j < |vocab| ==> ' ' !in vocab[j] && vocab[j] != ""
  }

  /** The vocabulary behind each available-values kind; any other kind has none. */
  function Vocabulary(kind: int): (r: Option<seq<string>>)
    ensures r.Some? <==> kind in {V_CONSEL, FLICKER_MODEL, NOMINAL_FREQUENCY}
    ensures r.Some? ==> Distinct(r.value) && SpaceFree(r.value) && 0 < |r.value| <= 5
  {
    if kind == V_CONSEL then Some(VConselAvailable)
    else if kind == FLICKER_MODEL then Some(FlickerModelAvailable)
    else if kind == NOMINAL_FREQUENCY then Some(NominalFrequencyAvailable)
    else None
  }

  /**
   * The three vocabularies have the sizes of their enumerations, each enum
   * value indexes its own string, and no vocabulary repeats an entry.
   */
  lemma VocabulariesWellFormed()
    ensures |VConselAvailable| == 5
    ensures && VConselAvailable[V_CONSEL_4W_WYE] == "4W_WYE"
            && VConselAvailable[V_CONSEL_4W_WYE_NON_BLONDEL] == "4W_WYE_NON_BLONDEL"
            && VConselAvailable[V_CONSEL_3W_DELTA] == "3W_DELTA"
            && VConselAvailable[V_CONSEL_3W_DELTA_2] == "3W_DELTA_2"
            && VConselAvailable[V_CONSEL_4W_DELTA_NON_BLONDEL] == "4W_DELTA_NON_BLONDEL"
    ensures |FlickerModelAvailable| == 4
    ensures && FlickerModelAvailable[FLICKER_230V_50HZ] == "230V_50HZ"
            && FlickerModelAvailable[FLICKER_120V_50HZ] == "120V_50HZ"
            && FlickerModelAvailable[FLICKER_230V_60HZ] == "230V_60HZ"
            && FlickerModelAvailable[FLICKER_120V_60HZ] == "120V_60HZ"
    ensures |NominalFrequencyAvailable| == 2
    ensures NominalFrequencyAvailable[NOMINAL_50] == "50" && NominalFrequencyAvailable[NOMINAL_60] == "60"
    ensures Distinct(VConselAvailable) && Distinct(FlickerModelAvailable) && Distinct(NominalFrequencyAvailable)
  {
  }
}
