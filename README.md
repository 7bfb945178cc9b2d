# PQM IIO driver core in Dafny

This project models the channel-multiplexing and scan-streaming engine of the
power-quality-monitor (PQM) IIO driver, together with the attribute store it
sits on, and proves properties of that model.

- **Mask walker** (`ChannelWalk`). `get_next_ch_idx` is a method with a shift
  loop, specified by `NextSetBit`, the smallest set bit at or above a position.
  `Walk` is the sequence of indices that repeated calls produce from the
  sentinel `-1`. It is proved to list every set bit of the mask exactly once,
  in ascending order, `Popcount(mask)` of them.
- **Sample sources and scans** (`IioPqmStream`). A scan is one 32-bit sample
  per active channel, taken in ascending channel order. Each sample comes
  either from the synthetic table `sine_lut[(ch + 7 i) mod 2^32 mod 112]` or
  from the external buffer, viewed as a flat word array and read at
  `ch * ext_buff_len + i`.
  - `AssembleScan` is the walker loop shared by both entry points. It fills an
    `array` of seven slots, takes the walker index (-1) and hands back the
    index the last walker call stored, which is -1 again. `ReadSamples`
    keeps one such index across all its scans, as the C code does.
  - `ReadSamples` (bulk mode) pushes `size / bytes_per_scan` scans, in order,
    to the IIO buffer.
  - `PqmTrigger.TriggerHandler` assembles one scan at a persistent cursor, a
    field of the `PqmTrigger` object. It advances the cursor by the source's
    rule, then pushes the scan and returns the push result.
  - The IIO buffer is a class whose `PushScan` records each scan in a ghost
    history and returns an unconstrained result.
- **Descriptor** (`Pqm`). The `pqm_desc` fields are a class with a global
  attribute `array` of 29 entries and a 7 × 10 channel attribute `array2`.
  - `PqmInit` copies the initialisation parameters in nested loops.
  - `UpdatePqmChannels` and `ClosePqmChannels` set the active-channel mask.
  - `PqmRemove` rejects a NULL descriptor.
  - `sine_lut` is sixteen copies of one seven-entry row.
- **Attributes** (`IioPqmAttrs`).
  - Numeric reads and writes of the global store.
  - The three enumerated attributes, stored as indices into their
    vocabularies, with linear-search writes that reject unknown strings.
  - Channel attribute reads. Current channel `j` is row `j + 3`.
  - The space-separated listings of the vocabularies.
  - The channel table and the global attribute table.
- **Header** (`PqmDefs`). The counts, the available-values kinds and the three
  vocabularies, with their sizes and the fact that no entry repeats.

The C readers and writers for the three enumerated attributes are the same
code over different vocabularies. Each side is modelled once, as
`ReadEnumAttr` and `WriteEnumAttr`, with the attribute (`EnumAttr`) choosing
the vocabulary. Likewise the three identical `strcat` loops of
`read_available_values` are one method, `ListEntries`.

Two behaviours of the code are kept as written:
- The triggered cursor is advanced before the scan is pushed, whatever the
  push returns (src/common/iio_pqm.c:437-442, 449-454).
- The synthetic cursor takes the value 112 before it resets to 0, so it
  cycles with period 113 (src/common/iio_pqm.c:437-440).

## Model

| member | source | states |
|---|---|---|
| PqmDefs.AsInt32 | src/common/iio_pqm.c:396 | a `uint32_t` returned as `int32_t` keeps its value modulo 2^32, in the signed range |
| PqmDefs.Vocabulary | src/common/iio_pqm.c:92-118 | exactly the kinds `V_CONSEL`, `FLICKER_MODEL` and `NOMINAL_FREQUENCY` select a vocabulary; each has 1 to 5 distinct entries, none empty, none containing a space |
| PqmDefs.VocabulariesWellFormed | src/common/pqm.h:60-98 | the v_consel vocabulary has 5 entries, the flicker vocabulary 4 and the nominal-frequency vocabulary 2; each of the 11 enum values indexes its own string; no vocabulary repeats an entry |
| Pqm.Repeat | src/common/pqm.c:48-65 | `rows` copies of a row have `rows × |row|` entries |
| Pqm.RepeatAt | src/common/pqm.c:48-65 | entry `k` of repeated rows is entry `k mod 7` of the row |
| Pqm.SineLutPeriodic | src/common/pqm.c:48-65 | `sine_lut` has 112 entries, and entry `k` is entry `k mod 7` of `[0x1, 0x8, 0xC, 0x10, 0x20, 0x30, 0x40]` |
| Pqm.PqmDesc.Calloc | src/common/pqm.c:71 | a freshly allocated descriptor has every attribute, the mask and the buffer length zero, and no external buffer |
| Pqm.PqmInit | src/common/pqm.c:67-89 | when allocation fails: `-ENOMEM` and `*desc` unchanged; on success: 0, a fresh descriptor holding all 29 global and all 7×10 channel attributes of the parameters, their external buffer and length, and active mask 0 |
| Pqm.PqmRemove | src/common/pqm.c:91-98 | `-EINVAL` exactly for a NULL descriptor, 0 otherwise |
| Pqm.UpdatePqmChannels | src/common/pqm.c:106-119 | NULL gives `-ENODEV`; otherwise returns 0 with the active mask set to `mask` and every other field unchanged |
| Pqm.ClosePqmChannels | src/common/pqm.c:126-138 | NULL gives `-ENODEV`; otherwise returns 0 with the active mask cleared and every other field unchanged |
| ChannelWalk.NextSetBit | src/common/iio_pqm.c:56-72 | the smallest set bit at or above `from`, or -1 exactly when there is none |
| ChannelWalk.GetNextChIdx | src/common/iio_pqm.c:56-72 | reports "more" exactly when it finds an index; the index is the smallest set bit above `last`, or -1 when there is none |
| ChannelWalk.Walk | src/common/iio_pqm.c:391 | the channels that repeated walker calls from `last` produce, fed back each time: every one is a set bit above `last` and below 31 |
| ChannelWalk.WalkEnumerates | src/common/iio_pqm.c:56-72 | walking from `last` yields exactly the set bits above `last`, in ascending order |
| ChannelWalk.WalkFromSentinel | src/common/iio_pqm.c:391 | from the sentinel, the walk yields every set bit of the mask exactly once, strictly ascending; there are `Popcount(mask)` of them and nothing else |
| ChannelWalk.WalkEmptyMask | src/common/iio_pqm.c:59-63 | an empty mask ends the walk on the first call |
| ChannelWalk.ExampleMaskBits | src/common/iio_pqm.c:59-68 | mask 0x15 has bits 0, 2 and 4 set and no others |
| ChannelWalk.WalkExample | src/common/iio_pqm.c:56-72 | mask 0x15 is walked as channels 0, 2, 4 |
| IioPqmStream.SourceOf | src/common/iio_pqm.c:387 | the synthetic table is used exactly when the descriptor has no external buffer |
| IioPqmStream.SynthIndex | src/common/iio_pqm.c:392 | the synthetic index, computed with 32-bit wrap-around, is always inside the 112-entry table |
| IioPqmStream.RowStartIsProduct | src/common/iio_pqm.c:402 | the row of channel `ch` starts at word `ch * ext_buff_len` |
| IioPqmStream.RowOffsetInRange | src/common/iio_pqm.c:402-403 | for a channel below 7 and an offset below `ext_buff_len`, the word read lies inside the 7 × `ext_buff_len` buffer |
| IioPqmStream.ScanChannelsInRange | src/common/iio_pqm.c:378 | a mask below 2^7 has at most seven set bits, all naming existing channels, so a scan fits the 7-slot buffer |
| IioPqmStream.ScanChannels | src/common/iio_pqm.c:391 | for a mask below 2^7, the walk is the ascending list of its set bits |
| IioPqmStream.Sample | src/common/iio_pqm.c:392 | a synthetic sample is entry `index mod 7` of the seven-value sine row, at the wrapped table index |
| IioPqmStream.ExternalSampleIsWord | src/common/iio_pqm.c:402-403 | an external sample is word `ch * ext_buff_len + i` of the buffer, and that word exists |
| IioPqmStream.Samples | src/common/iio_pqm.c:391-392 | one sample per listed channel |
| IioPqmStream.SamplesAt | src/common/iio_pqm.c:401-403 | sample `j` is the sample of the `j`-th listed channel |
| IioPqmStream.ActiveBelow | src/common/iio_pqm.c:378 | every active channel of a mask below 2^7 is below 7 |
| IioPqmStream.ScanAt | src/common/iio_pqm.c:387-406 | a scan has one sample per active channel, `Popcount(mask)` ≤ 7 in all |
| IioPqmStream.ScanSampleOfChannel | src/common/iio_pqm.c:401-403 | the sample of active channel `c` sits at the position equal to the number of active channels below `c` |
| IioPqmStream.EmptyMaskEmptyScan | src/common/iio_pqm.c:391 | an empty mask gives an empty scan |
| IioPqmStream.SynthSampleIsChannelEntry | src/common/iio_pqm.c:392 | without wrap-around, the synthetic sample of channel `ch` at any offset is `sine_lut[ch]` |
| IioPqmStream.SynthScanIsConstant | src/common/iio_pqm.c:436-440 | for every offset `i` with `7 i + 6 < 2^32` (every triggered cursor 0..112, and bulk offsets below 613 566 756) the synthetic scan equals the scan at offset 0 |
| IioPqmStream.SineRowDistinct | src/common/pqm.c:48-65 | the seven values of a `sine_lut` row are pairwise different |
| IioPqmStream.WrappedIndex | src/common/iio_pqm.c:392 | at bulk offset 613 566 757 the 32-bit sum `ch + 7 i` wraps, so channel `ch` reads table index `ch + 3` |
| IioPqmStream.SynthWrapChangesSample | src/common/iio_pqm.c:392 | the bound is needed: at that offset every channel reads the row entry three places on from its own, which differs from its sample at offset 0 |
| IioPqmStream.BulkScans | src/common/iio_pqm.c:389-395 | `count` scans |
| IioPqmStream.BulkScansAt | src/common/iio_pqm.c:389-395 | bulk scan `k` is the scan at offset `k` |
| IioPqmStream.IioBuffer.constructor | src/common/iio_pqm.c:389 | a buffer of the given size and scan width with nothing pushed |
| IioPqmStream.IioBuffer.PushScan | src/common/iio_pqm.c:394 | appends the scan to the pushed history and records the returned result |
| IioPqmStream.IioDeviceData.constructor | src/common/iio_pqm.c:385 | device data bind a descriptor and a buffer |
| IioPqmStream.WalkAdvance | src/common/iio_pqm.c:401 | one walker call moves the next channel from the part of the walk still ahead to the part done |
| IioPqmStream.SamplesSnoc | src/common/iio_pqm.c:403 | storing one more channel's sample extends the scan by that sample |
| IioPqmStream.StoreAndAdvance | src/common/iio_pqm.c:401-404 | one pass stores the current channel's sample in the next slot and fetches the next channel |
| IioPqmStream.AssembleScan | src/common/iio_pqm.c:391-405 | started from the walker index -1, the loop fills exactly `Popcount(mask)` slots, holding the scan of the active channels at the offset, and leaves the walker index at -1 again |
| IioPqmStream.ScanCount | src/common/iio_pqm.c:389 | the number of whole scans never exceeds the size |
| IioPqmStream.ScanCountIsQuotient | src/common/iio_pqm.c:389 | that number is `size / bytes_per_scan` |
| IioPqmStream.PushNextScan | src/common/iio_pqm.c:391-394 | one pass of the bulk loop, run with the shared scan buffer and walker index -1: pushes the scan at offset `i` and leaves the walker index at -1 |
| IioPqmStream.ReadSamples | src/common/iio_pqm.c:373-409 | NULL gives `-ENODEV`; otherwise, with one walker index set to -1 before the first scan and carried from scan to scan, it pushes exactly `size / bytes_per_scan` scans, scan `k` being the scan at offset `k`, returns that count as `int32_t` and changes nothing else |
| IioPqmStream.NextSynthCursor | src/common/iio_pqm.c:437-440 | a synthetic cursor in 0..112 stays in 0..112 |
| IioPqmStream.NextExtCursor | src/common/iio_pqm.c:449-452 | an external cursor below `ext_buff_len` stays below it |
| IioPqmStream.ExtStep | src/common/iio_pqm.c:449-452 | one trigger moves an in-range external cursor to `(i + 1) mod ext_buff_len` |
| IioPqmStream.ExtCursorOrbit | src/common/iio_pqm.c:449-452 | after `n` triggers the external cursor is `(i + n) mod ext_buff_len` |
| IioPqmStream.ExtCursorPeriod | src/common/iio_pqm.c:449-452 | the external cursor returns to its start exactly after a multiple of `ext_buff_len` triggers |
| IioPqmStream.SynthCursorOrbit | src/common/iio_pqm.c:437-440 | after `n` triggers the synthetic cursor is `(i + n) mod 113` |
| IioPqmStream.PqmTrigger.constructor | src/common/iio_pqm.c:425 | the cursor starts at 0 |
| IioPqmStream.LocalScan | src/common/iio_pqm.c:421-448 | the handler's channel loop, run with a fresh scan buffer and walker index -1, yields the scan at the cursor |
| IioPqmStream.PqmTrigger.Advance | src/common/iio_pqm.c:437-452 | the cursor moves by the synthetic rule without an external buffer and by the external rule with one |
| IioPqmStream.PqmTrigger.TriggerHandler | src/common/iio_pqm.c:419-455 | NULL gives `-EINVAL` with the cursor kept; otherwise exactly one scan, taken at the old cursor, is pushed; the push result is returned verbatim; the cursor advances by the synthetic or external wrap rule |
| IioPqmAttrs.EnumVocabulary | src/common/pqm.h:80-98 | each enumerated attribute's vocabulary has 2 to 5 distinct, space-free entries and is the one its available-values kind lists |
| IioPqmAttrs.IndexOf | src/common/iio_pqm.c:168-173 | the first position whose entry equals the string exactly; none exactly when the string is not in the vocabulary |
| IioPqmAttrs.IndexOfEntry | src/common/pqm.h:80-98 | as entries are distinct, the search finds each entry at its own position |
| IioPqmAttrs.ReadEnumAttr | src/common/iio_pqm.c:134-254 | the v_consel, flicker-model and nominal-frequency readers: NULL gives `-ENODEV` and an id of 29 or more gives `-EINVAL`; otherwise the result is the entry of that attribute's vocabulary at the stored index, whose search position is that index |
| IioPqmAttrs.WriteEnumAttr | src/common/iio_pqm.c:160-281 | the v_consel, flicker-model and nominal-frequency writers: NULL gives `-ENODEV`; an exact match stores its position at the id and returns `len`, and a read then returns the written string; an unknown string gives `-EINVAL` and changes nothing |
| IioPqmAttrs.ReadPqmAttr | src/common/iio_pqm.c:293-305 | NULL gives `-ENODEV`; the stored value exactly for ids below 29, `-EINVAL` otherwise |
| IioPqmAttrs.WritePqmAttr | src/common/iio_pqm.c:317-332 | NULL gives `-ENODEV`; ids below 29 store the value, return `len`, are read back as that value, and leave every other id's value unchanged; other ids give `-EINVAL` and change nothing |
| IioPqmAttrs.AttrRow | src/common/iio_pqm.c:355-361 | voltage and current channels have a row and other types none; a channel numbered below 3 is a current exactly when its row is 3 or more |
| IioPqmAttrs.AttrRowsDistinct | src/common/iio_pqm.c:355-361 | the three voltage and four current channels get seven different rows, all below 7 |
| IioPqmAttrs.ReadChAttr | src/common/iio_pqm.c:344-366 | NULL gives `-ENODEV`; ids of 10 or more and channel types other than voltage or current give `-EINVAL`; voltage channel `n` reads row `n`, current channel `n` reads row `n + 3` |
| IioPqmAttrs.ChannelTableRows | src/common/iio_pqm.c:757-765 | the seven channels are in scan order, voltages first; each channel's attribute row is its scan index |
| IioPqmAttrs.Joined | src/common/iio_pqm.c:93-116 | the listing the `strcat` loops build: the entries separated by single spaces, beginning with the first entry |
| IioPqmAttrs.LastSpace | src/common/iio_pqm.c:97-98 | reference inverse of the listing, not code of the driver: the position of the last space, none exactly when the text has no space |
| IioPqmAttrs.Split | src/common/iio_pqm.c:84-122 | reference inverse of the listing, not code of the driver: a listing splits into at least one word |
| IioPqmAttrs.LastSpaceOfJoin | src/common/iio_pqm.c:97-98 | about the reference inverse: the separator added before a space-free entry is the last space |
| IioPqmAttrs.SplitJoined | src/common/iio_pqm.c:84-122 | splitting a listing at its spaces gives back the vocabulary, entry by entry |
| IioPqmAttrs.ListEntries | src/common/iio_pqm.c:95-99 | the loop appends the entries separated by single spaces, with none after the last |
| IioPqmAttrs.ReadAvailableValues | src/common/iio_pqm.c:84-122 | an unknown kind gives `-EINVAL` and an empty buffer; otherwise the buffer is the space-separated vocabulary, the result is its length, and it splits back into the vocabulary |
| IioPqmAttrs.NumericAttributes | src/common/iio_pqm.c:541-687 | numeric attributes with consecutive ids from the first |
| IioPqmAttrs.GlobalPqmAttributesAsWritten | src/common/iio_pqm.c:541-723 | the table as written has 32 entries and agrees with the corrected table everywhere except `nominal_frequency_available`, which carries the nominal-frequency writer |
| IioPqmAttrs.AvailableStoreHitsSlot2 | src/common/iio_pqm.c:716-721 | as written, `nominal_frequency_available` stores through the frequency writer into id 2, the measured `sneg_voltage`, so it writes something other than what it shows |
| IioPqmAttrs.GlobalTableWritesWhatItShows | src/common/iio_pqm.c:541-723 | with that listing read-only, every writable attribute writes what it shows: settings at ids 10 to 25, enumerations at 26 to 28, never a measured value at 0 to 9 |

## Left out

- The IIO framework, `iio_buffer_push_scan` and the device tables' dispatch. They are foreign code. The push is an `IioBuffer` method with a ghost history and an unconstrained result.
- Text formatting and parsing. `snprintf` and `no_os_str_to_uint32` are not part of this model.
- IioPqmAttrs.ReadPqmAttr: returns the stored value rather than its decimal text and the length `snprintf` reports, because formatting is not modelled.
- IioPqmAttrs.ReadChAttr: returns the stored value rather than its decimal text and that text's length, for the same reason.
- IioPqmAttrs.WritePqmAttr: takes the already parsed value as a parameter.
- IioPqmAttrs.ReadEnumAttr: ignores the `len` bound of `strncpy`, so the returned string is never truncated and always terminated.
- IioPqmAttrs.ReadAvailableValues: the buffer is assumed large enough. A `strcat` overflow is not modelled.
- Unchecked indices in the source become preconditions:
  - the enumerated readers' stored index must name a vocabulary entry;
  - the writers' attribute id must be below 29;
  - `read_ch_attr`'s channel row must exist;
  - bulk offsets must be below `ext_buff_len`;
  - the triggered cursor must start below `ext_buff_len`, which needs `ext_buff_len ≥ 1`;
  - the active mask must be below 2^7, so that a scan fits the seven-slot buffer and the walker's shift stays below 32.
- Negative attribute ids. `intptr_t` ids are modelled as natural numbers; the attribute tables only pass non-negative ids.
- Memory layout of the external buffer. It is declared `uint16_t **` but read as 32-bit words, so it is modelled as a flat sequence of words. Overflow of the `ch * ext_buff_len` pointer offset is not modelled. The model requires seven full rows of `ext_buff_len` 32-bit words. The buffer that src/common/common_data.c:41 and 130-131 hand to the driver is `uint16_t [7][SAMPLES_PER_CHANNEL]` with `ext_buff_len = SAMPLES_PER_CHANNEL`, which holds only 3.5 rows of 32-bit words, so reads of channel rows 3 to 6 fall past its end; that configuration is outside what the model admits.
- The pushed scan is the filled prefix of the seven-slot buffer. The stale slots after it, which the C code also hands to the push, are not part of the pushed value.
- The `reg` dummy registers of `pqm_desc` are not modelled. No core operation uses them.
- Freeing in `pqm_remove`, beyond its result.
- The allocation outcome of `pqm_init` is a parameter.
- Concurrency. The static cursor and the shared descriptor are assumed to be used from a single context.
- IioPqmStream.ReadSamples: requires `bytes_per_scan > 0`. With zero, `size / bytes_per_scan` at src/common/iio_pqm.c:389 and 396 divides by zero, which C leaves undefined.
- IioPqmStream.ReadSamples: the C code runs two copies of the bulk loop, one per source. The model runs one loop that reads through `Sample`, which selects the source. It counts scans with `ScanCount`, which is proved equal to `size / bytes_per_scan`.

## Findings

| source | as written | input that shows it | evidently intended | confidence | as-written member | corrected member |
|---|---|---|---|---|---|---|
| src/common/iio_pqm.c:716-721 | `nominal_frequency_available` has `.store = write_nominal_freq_attr` with `.priv = NOMINAL_FREQUENCY`, which is 2 | storing "60" into `nominal_frequency_available` writes index 1 into global id 2 (`sneg_voltage`) and reports success | the listing is read-only like `v_consel_available` and `flicker_model_available` | high; not executed | IioPqmAttrs.AvailableStoreHitsSlot2 | IioPqmAttrs.GlobalTableWritesWhatItShows |
