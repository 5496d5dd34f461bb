# Amimod's module player core, in Dafny

Amimod is a macOS app that plays tracker music (FastTracker II `.xm` and
ProTracker-style `.mod` files) through a Swift port of libxm, and that can
patch binaries by searching for hex byte patterns with wildcards. This
project models the core of both and proves properties of the model:

- **Readers** (`readers.dfy`): the bounds-safe byte readers of the loader
  (little- and big-endian words, zero past the end, fixed-width strings).
- **Prescan** (`prescan.dfy`): recognising an XM 1.04 or a 31-sample MOD
  file and sizing its tables, with the source's 16- and 32-bit counters.
- **LoaderXM**, **LoaderMOD**, **LoaderFixup** (`loader_xm.dfy`,
  `loader_mod.dfy`, `fixup.dfy`): loading the module header, packed
  patterns, envelopes, sample headers and delta-coded sample data of an XM;
  the headers, cells, sample data, panning clean-up and FLT8 interleaving
  of a MOD; and the effect fix-up pass that puts every slot in the form the
  player expects. The loaders work in place on a `Context` class, as the
  source mutates its context.
- **XMTypes** (`xm_types.dfy`): the constants, the slot, sample,
  instrument, envelope and channel records, and the `Context` class.
- **Effects**, **Envelopes**, **Slots**, **TickEffects** (`effects.dfy`,
  `envelope.dfy`, `slots.dfy`, `tick_effects.dfy`): the player's
  waveforms, pitch and parameter slides, period rounding, envelopes,
  automatic vibrato and fade-out, note and instrument triggering, and the
  effects of the first and of the later ticks of a row, as functions from
  a channel and the shared song state to an outcome (`Next` or `Trap`,
  where Swift traps at run time).
- **Sequencer**, **Playback** (`sequencer.dfy`, `playback.dfy`): `xm_row`
  and `xm_tick` — the pattern jump and break, the order table walk with
  restart, the row-visit counter, the tick clock with pattern delays, and
  the per-channel tick — specified as functions on the song state and
  implemented as methods with loops over the channels that update the
  `Context` in place.
- **Api** (`api.dfy`): the facade operations that change or read a loaded
  context: panning law, seek, position, muting, instrument of a channel,
  reset.
- **HexPatch** (`hexpatch.dfy`): parsing find/replace hex strings with
  `??` wildcards, and the two chunk searches (exact bytes, and wildcards
  with anchor bytes) as `memchr` scan loops proved to report exactly the
  matches, in order, up to the per-chunk cap.

Fixed-width integers are `int` ranges (`Ints.u8`, `Ints.u16`, ...); the
source's wrapping operators (`&+`, `&*`, truncating conversions) are
written out with `%`, and its trapping operators (checked `+`, `*`,
narrowing conversions, array indexing) become `None` or `Trap` results.
Swift's `/` and `%` truncate toward zero and are modelled by
`Ints.TruncDiv` and `Ints.TruncMod`.

The loaders mostly repair malformed data instead of rejecting it, and
log a NOTICE when they do: an empty pattern's declared row count is
overridden with 64 in the prescan, and a MOD order-table length above 128
is clamped. In the places listed under "## Findings" the code instead
traps (a checked operation overflows, or a `precondition` fails): in the
prescan itself, or later on a file the prescan accepted. For each of them the model has a separate member
that follows the code as written, with a lemma exhibiting an input that
traps. The loaders of the model (`Prescan.PrescanXMTables`,
`Prescan.PrescanMODDetails`, `LoaderXM.LoadPattern`,
`LoaderXM.LoadSampleHeader`, `LoaderMOD.ModSampleHeader` and the MOD
finetune) use the corrected definitions, so they do not trap there, and
the MOD prescan records the clamped order-table length.

## Model

| member | source | states |
|---|---|---|
| XMTypes.DefaultChannelValid | Amimod/libxm/LibXMTypes.swift:234-321 | A freshly reset channel satisfies the channel invariant, at full volume and centre panning. |
| XMTypes.FixedPointLimits | Amimod/libxm/LibXMTypes.swift:57-66 | Fixed-point sizes: one sample frame is 2^12 microsteps and one tick 2^13 subsamples; a sample of the longest allowed length still has its last microstep position in 32 bits. |
| XMTypes.ExtendedEffectCodes | Amimod/libxm/LibXMTypes.swift:96-108 | The extended `Exy` commands are numbered `32 + x` after their sub-command nibble `x`. |
| XMTypes.DefaultEnvelopeDisabled | Amimod/libxm/LibXMTypes.swift:143-151 | The default envelope has no point in use: the "no envelope" state, which is never a usable one. |
| XMTypes.Context.constructor | Amimod/libxm/LibXMTypes.swift:323-359 | A context with empty tables, full global volume and the slowest tempo and BPM. |
| Readers.ReadU8Bounded | Amimod/libxm/LibXMLoader.swift:1329-1334 | A byte that is also read as 0 at or past `bound` (the end of the enclosing record). |
| Readers.ReadU16LEBounded | Amimod/libxm/LibXMLoader.swift:1341-1347 | readU16Bounded: a little-endian 16-bit word of two bounded reads, 0 at or past the bound. |
| Readers.ReadArray | Amimod/libxm/LibXMLoader.swift:1366-1376 | `count` bytes from `offset`, padded with zeros past the end of the data. |
| Readers.ReadString | Amimod/libxm/LibXMLoader.swift:1388-1398 | A fixed-width text field: `length` bytes from `offset`, cut at the first NUL. (The source then decodes the bytes as UTF-8; here a string stays a byte sequence.) |
| Readers.ReadU16LEInverse | Amimod/libxm/LibXMLoader.swift:1335-1340 | A little-endian 16-bit value written anywhere in a buffer reads back unchanged. |
| Readers.ReadU16BEInverse | Amimod/libxm/LibXMLoader.swift:1348-1353 | Reading a big-endian 16-bit word back where it was written gives the word, whatever surrounds it. |
| Readers.ReadU32LEInverse | Amimod/libxm/LibXMLoader.swift:1354-1359 | A little-endian 32-bit value written anywhere in a buffer reads back unchanged. |
| Readers.ReadU32BEInverse | Amimod/libxm/LibXMLoader.swift:1360-1365 | Reading a big-endian 32-bit word back where it was written gives the word, whatever surrounds it. |
| Readers.ReadPastEnd | Amimod/libxm/LibXMLoader.swift:1325-1365 | Reading past the end of the data yields zero, for every width. |
| Prescan.TrimSampleLength | Amimod/libxm/LibXMLoader.swift:408-419 | The number of frames of a sample that playback can reach: everything for an unlooped sample, and up to the end of the loop for a looped one (the loop start clamped to the length, a loop running past the end dropped). |
| Prescan.TrimSampleLengthAsWritten | Amimod/libxm/LibXMLoader.swift:412-415 | The same computation with the source's checked `UInt32` addition `loopStart + loopLength`, which traps (None) when the sum does not fit in 32 bits. |
| Prescan.TrimAsWrittenAgrees | Amimod/libxm/LibXMLoader.swift:412-415 | Wherever the checked addition does not trap, both computations agree. |
| Prescan.TrimOverflowExample | Amimod/libxm/LibXMLoader.swift:412-415 | A looped sample header whose loop start is 0xFFFFFFFF (and loop length 1) traps the prescan. |
| Prescan.PatternWalkBound | Amimod/libxm/LibXMLoader.swift:199-216 | An accepted pattern walk adds at most 256 rows per pattern header. |
| Prescan.ScanPatternHeaders | Amimod/libxm/LibXMLoader.swift:199-216 | The pattern-header loop computes exactly the pattern walk: the row total and the offset after the last header, or rejection when a pattern declares more than 256 rows. |
| Prescan.HasInvalidOrder | Amimod/libxm/LibXMLoader.swift:223-229 | Whether some of the first `potLen` order-table entries names a pattern that does not exist. |
| Prescan.SampleScanWraps | Amimod/libxm/LibXMLoader.swift:265-293 | The wrapping counters fail exactly where the walk fails, and otherwise hold the walk's exact totals modulo 2^32. |
| Prescan.ScanSampleHeaders | Amimod/libxm/LibXMLoader.swift:265-293 | The inner loop of the XM prescan: adds the frames of `n` sample headers to `acc` and sums their data bytes, both with `&+=`. |
| Prescan.InstrumentStep | Amimod/libxm/LibXMLoader.swift:243-296 | One instrument of the XM prescan: at most 255 samples when accepted; the scan loop is proved to compute it (`ScanInstruments`). |
| Prescan.InstrumentScanBound | Amimod/libxm/LibXMLoader.swift:243-256 | An accepted instrument scan adds at most 255 samples per instrument, so the 16-bit sample counter never wraps. |
| Prescan.ScanInstruments | Amimod/libxm/LibXMLoader.swift:243-296 | The instrument loop computes exactly the instrument walk: the 16-bit sample count and the wrapping 32-bit frame total, or rejection for an instrument with more than 255 samples or a sample that is too long. |
| Prescan.PrescanXM0104 | Amimod/libxm/LibXMLoader.swift:152-303 | Recognises an XM 1.04 file and sizes its tables: the counts from the header, the rows of all patterns (plus one empty 64-row pattern when the order table names a missing pattern), and the samples and sample frames of all instruments. |
| Prescan.PrescanXMTables | Amimod/libxm/LibXMLoader.swift:195-296 | Succeeds exactly when the file meets every demand of the XM prescan, and then reports the sizes that walk determines. |
| Prescan.ModChannels | Amimod/libxm/LibXMLoader.swift:312-348 | The channel count and format a MOD signature announces: M.K., M!K! and FLT4 have 4 channels; CD81, OCTA and OKTA 8; FLT8 8 in the FLT8 layout; "nCHN", "nnCH"/"nnCN" and "TDZn" give the count in decimal. |
| Prescan.ModWordBytesAsWritten | Amimod/libxm/LibXMLoader.swift:361-363 | A MOD length field counts 16-bit words; the byte count is twice the word. The source doubles it in `UInt16`, which traps (None) for a word of 0x8000 or more. |
| Prescan.ModWordBytes | Amimod/libxm/LibXMLoader.swift:361-363 | The byte count of a MOD word field, doubled in 32 bits. |
| Prescan.ModWordOverflowExample | Amimod/libxm/LibXMLoader.swift:361-363 | A sample of 0x8000 words (64 KiB) traps the source, though the field allows up to 0xFFFF words. |
| Prescan.ModSampleFrames | Amimod/libxm/LibXMLoader.swift:360-368 | The frames MOD sample `i` contributes, its trimmed length: at most two 16-bit words. |
| Prescan.ModSamplesTotal | Amimod/libxm/LibXMLoader.swift:359-370 | The sum of the trimmed lengths of the first `n` MOD sample headers, at most two 16-bit words per header. |
| Prescan.OrderTableCount | Amimod/libxm/LibXMLoader.swift:372-376 | The number of patterns a MOD order table needs, at most 256; that it is the largest entry plus one is `OrderTableCountIsMax`. |
| Prescan.OrderTableCountIsMax | Amimod/libxm/LibXMLoader.swift:372-376 | The count exceeds every entry and is one more than some entry: it is the maximum plus one. |
| Prescan.OrderTableCountAgrees | Amimod/libxm/LibXMLoader.swift:372-376 | With no entry of 255 the two counts agree. |
| Prescan.OrderTableCountWrapExample | Amimod/libxm/LibXMLoader.swift:372-376 | An order table [255, 0] asks for 256 patterns; the wrapped counter reports 1. |
| Prescan.ScanModSamples | Amimod/libxm/LibXMLoader.swift:359-370 | The loop over the 31 MOD sample headers: the total of their trimmed lengths, summed with `&+=`. |
| Prescan.ScanModOrderTable | Amimod/libxm/LibXMLoader.swift:372-376 | The loop over the 128 MOD order-table entries: one more than the largest entry. |
| Prescan.ModPotLengthAsWritten | Amimod/libxm/LibXMLoader.swift:371 | The MOD order-table length as the prescan records it: the byte at offset 950, up to 255, though the table has 128 entries. |
| Prescan.ModPotLength | Amimod/libxm/LibXMLoader.swift:977-981 | The corrected prescan length: the byte at offset 950 clamped to 128, as the loader clamps it, and the byte itself when it fits. |
| Prescan.PrescanMODDetails | Amimod/libxm/LibXMLoader.swift:354-394 | The MOD prescan after the signature: 31 samples (their trimmed lengths summed), the order-table length clamped to 128 (`ModPotLength`), the pattern count from the 128 order entries (halved, rounding up, for FLT8, which stores two 4-channel patterns per 8-channel pattern), 64 rows per pattern, and a check that the file holds at least the headers and all sample data. |
| Prescan.PrescanMOD | Amimod/libxm/LibXMLoader.swift:305-352 | Accepts exactly the files of at least 1084 bytes with a known signature that hold all 31 samples; then reports the signature's channel count and format, 31 instruments and samples, and 64 rows per pattern. |
| Prescan.PrescanModule | Amimod/libxm/LibXMLoader.swift:27-33 | Accepts a file exactly when the XM prescan or the MOD prescan does, and reports the XM format exactly when the XM prescan accepted it. |
| LoaderXM.LoadModuleHeader | Amimod/libxm/LibXMLoader.swift:464-525 | Reads the module header into `m`: the order-table length clamped to 256, a restart position past the end reset to 0, the channel, pattern and instrument counts, Amiga or linear frequencies from flag bit 0, the tempo forced below 32, the BPM clamped to 255, the order table, the names; and the offset of the first pattern header. |
| LoaderXM.UnpackSlot | Amimod/libxm/LibXMLoader.swift:557-593 | Decodes the slot at `pos`, using 1 to 6 bytes; that a packed or a full slot decodes back to itself is `UnpackPackSlot` and `UnpackFullSlot`. |
| LoaderXM.PackMaskBits | Amimod/libxm/LibXMLoader.swift:560-589 | The mask byte has bit 7 set and flags exactly the non-zero fields. |
| LoaderXM.UnpackNonZero | Amimod/libxm/LibXMLoader.swift:560-589 | The non-zero bytes written anywhere in the data read back as all the bytes, zeros included. |
| LoaderXM.UnpackPackSlot | Amimod/libxm/LibXMLoader.swift:560-589 | A packed slot decodes back to itself, wherever it sits in the pattern data. |
| LoaderXM.UnpackFullSlot | Amimod/libxm/LibXMLoader.swift:560-589 | A slot stored in full (its note below 0x80) decodes back to itself. |
| LoaderXM.PatternRowsAsWritten | Amimod/libxm/LibXMLoader.swift:532-534 | The row count the source's pattern loader checks: the declared count, before an empty pattern's count is overridden to 64. A declared count over 256 traps (None), even for an empty pattern that the prescan accepted. |
| LoaderXM.PatternRowsTrapExample | Amimod/libxm/LibXMLoader.swift:532-534 | An empty pattern declaring 1000 rows: accepted by the prescan as 64 rows, trapped by the loader's check. |
| LoaderXM.WriteAll | Amimod/libxm/LibXMLoader.swift:552-594 | The slot loop of the pattern loader: writes slots one at a time from index `k`, keeping the table's size; that this lays them over the table is `WriteAllIsOverlay`. |
| LoaderXM.WriteAllIsOverlay | Amimod/libxm/LibXMLoader.swift:552-594 | Writing the slots one at a time is laying all of them over the table at once. |
| LoaderXM.WriteNextSlot | Amimod/libxm/LibXMLoader.swift:552-594 | One step of the slot loop: decodes the slot at `pos` and writes it at `index` when in range. |
| LoaderXM.UnpackInto | Amimod/libxm/LibXMLoader.swift:552-594 | Decodes the packed data from `offset` to `end`, writing the slots from index `slotsBase` on and dropping those past the end of the table. |
| LoaderXM.LoadedSlotsOverlay | Amimod/libxm/LibXMLoader.swift:590-592 | Loading a pattern lays its decoded slots over the table from `base` on: the table keeps its size, and every slot outside the written range keeps its value. |
| LoaderXM.LoadPattern | Amimod/libxm/LibXMLoader.swift:527-601 | Loads pattern `patIndex` from its header at `headerOffset`: the pattern starts at the module's current row total and has the header's row count (64 for a pattern without packed data), the row total grows by that count, and the packed slots are written from row `rowsIndex` on, skipping those past the end of the slot table. Returns the offset of the next pattern header. |
| LoaderXM.EnvelopePointAt | Amimod/libxm/LibXMLoader.swift:757-773 | Point `i` of a 48-byte envelope record: a 16-bit frame and a 16-bit value clamped to 64. |
| LoaderXM.EnvelopePointInverse | Amimod/libxm/LibXMLoader.swift:757-773 | A point written as two little-endian words at a 4-byte boundary reads back unchanged. |
| LoaderXM.LoadEnvelopePoints | Amimod/libxm/LibXMLoader.swift:757-773 | Reads the twelve points of an envelope record into `env`, leaving its other fields alone. |
| LoaderXM.FixEnvelopeOutcomes | Amimod/libxm/LibXMLoader.swift:775-840 | The check has exactly two outcomes: the default envelope, precisely when it discards the envelope, or a usable envelope with the same points that keeps a valid flagged loop and sustain point. |
| LoaderXM.FixEnvelopeIdempotent | Amimod/libxm/LibXMLoader.swift:775-840 | The envelope check is idempotent: a checked envelope passes it unchanged (with the same flags). |
| LoaderXM.CheckFrames | Amimod/libxm/LibXMLoader.swift:795-804 | The frame check of the envelope loader: whether the first `n` frames strictly increase. |
| LoaderXM.CheckAndFixEnvelope | Amimod/libxm/LibXMLoader.swift:775-840 | Clamps the point count, discards an envelope that is disabled, has fewer than two points or frames out of order, and clears an invalid or unflagged loop and sustain point. |
| LoaderXM.SampleLoop | Amimod/libxm/LibXMLoader.swift:852-877 | The loop fixes of the sample header loader: the loop start clamped to the length, a loop running past the end dropped, the length trimmed to the end of the loop, and no loop at all without a loop flag. Returns the trimmed length and the loop length. |
| LoaderXM.ScaleFinetune | Amimod/libxm/LibXMLoader.swift:871-873 | `Int8(((Int(f) - Int(Int8.min)) / 8) - 16)`: a finetune byte scaled from -128..127 to -16..15. |
| LoaderXM.LoadSampleHeader | Amimod/libxm/LibXMLoader.swift:842-897 | Reads the 40-byte sample header at `off` into `s`: the length (also kept in `index`, the number of data bytes to skip), the loop fixes of `SampleLoop`, the volume clamped to 64, the scaled finetune, the loop kind and, for 16-bit data, every length halved. Returns the sample, whether its data is 16-bit, and the offset of the next header. |
| LoaderXM.LoadSampleHeaderFields | Amimod/libxm/LibXMLoader.swift:842-897 | What else the sample header loader keeps: the untrimmed length as the data size, no loop without a loop flag, the ping-pong flag, and the volume clamped to 64. |
| LoaderXM.LoadSampleHeaderAsWritten | Amimod/libxm/LibXMLoader.swift:852-862 | The sample header loader with the source's checked `UInt32` addition of the clamped loop start and the loop length: it traps (None) when that sum does not fit in 32 bits, and otherwise agrees with the loader. |
| LoaderXM.SampleHeaderTrapExample | Amimod/libxm/LibXMLoader.swift:852-862 | An unlooped 100-frame sample whose (unused) loop starts at 1 and runs 0xFFFFFFFF frames: the prescan sizes it as 100 frames without trapping, the loader as written traps, and the corrected loader drops the loop. |
| LoaderXM.DecodeSamples8 | Amimod/libxm/LibXMLoader.swift:899-909 | Decodes `length` 8-bit delta-coded sample points from `offset` into `out` from `outIndex` on: point k is the running sum of the first k+1 deltas, scaled by 256 to 16 bits. Nothing else in `out` changes. |
| LoaderXM.DecodeSamples16 | Amimod/libxm/LibXMLoader.swift:911-921 | The 16-bit counterpart: point k is the running `Int16` sum of the first k+1 words. |
| LoaderXM.DeltaSum8Encode | Amimod/libxm/LibXMLoader.swift:899-909 | Decoding delta-coded 8-bit data gives back every point: the running sums are the points. |
| LoaderXM.DeltaSum16Encode | Amimod/libxm/LibXMLoader.swift:911-921 | Decoding delta-coded 16-bit data gives back every point. |
| LoaderXM.AddWrapI8Difference | Amimod/libxm/LibXMLoader.swift:899-909 | Adding the wrapped difference `b - a` to `a` with `&+` gives back `b`. |
| LoaderXM.AddWrapI16Difference | Amimod/libxm/LibXMLoader.swift:911-921 | Adding the wrapped 16-bit difference `b - a` to `a` gives `b`: the step the 16-bit delta decoder inverts. |
| LoaderXM.RedirectOrders | Amimod/libxm/LibXMLoader.swift:435-456 | The order table with every entry among the first `length` that names a missing pattern redirected to pattern `numPatterns` (clamped to 255), the empty pattern the loader appends. |
| LoaderXM.RedirectInvalidOrders | Amimod/libxm/LibXMLoader.swift:435-456 | The rewriting loop of the order-table repair computes exactly `RedirectOrders`: every entry that names a missing pattern is redirected, and the others are kept. |
| LoaderXM.FixInvalidOrders | Amimod/libxm/LibXMLoader.swift:435-456 | When some order-table entry names a missing pattern, redirects every such entry to a new empty pattern of 64 rows appended after the last one; otherwise changes nothing. Afterwards every entry in use names a pattern. |
| LoaderXM.PatternWalkStep | Amimod/libxm/LibXMLoader.swift:198-214 | The prescan's walk over `i + 1` pattern headers is its walk over `i` headers followed by one more header. |
| LoaderXM.PatternWalkPrefix | Amimod/libxm/LibXMLoader.swift:198-214 | A walk that accepts `n` pattern headers accepts every shorter prefix of them. |
| LoaderXM.WalkedPatternsStep | Amimod/libxm/LibXMLoader.swift:432-434 | Loading the next pattern of the walk at the current row total, with its header's row count, extends the loaded prefix by one pattern and keeps every loaded pattern within the new total. |
| LoaderXM.LoadPatterns | Amimod/libxm/LibXMLoader.swift:432-434 | Loads `n` consecutive patterns from the header at `start`, in order. Pattern `p` starts at the row total of the patterns before it, as the prescan's walk counts it, and has its header's row count. The slot table is the old one with each pattern's packed slots laid over it from its first row on (`LoadedPatterns`). The row total ends as the prescan's, every loaded pattern lies within it, and the other patterns and tables are kept. Returns the offset after the last pattern. |
| LoaderXM.LoadXM0104 | Amimod/libxm/LibXMLoader.swift:430-456 | Loads an XM 1.04 file the prescan accepted into a context sized from it: the module header, every pattern, and the order-table repair. Afterwards the module is the header `LoadModuleHeader` reads (length, restart, channels, instruments, frequency flag, tempo, BPM, names), with the prescan's pattern and row counts and the order table redirected exactly when an entry names a missing pattern. Each pattern of the file starts at the row total of those before it with its header's row count, and the appended empty pattern, if any, has 64 rows after them. The slot table holds the file's decoded patterns (`LoadedPatterns`). Every order-table entry in use names a pattern, every pattern lies within the row table, and the instruments, samples and channels are kept. Returns the offset of the first instrument header. |
| LoaderMOD.ModFinetune | Amimod/libxm/LibXMLoader.swift:945-948 | The finetune of a MOD sample: the low nibble of the byte read as a signed 4-bit value (8 to 15 are -8 to -1), doubled; a byte of 16 or more gives 16. |
| LoaderMOD.ModFinetuneAsWritten | Amimod/libxm/LibXMLoader.swift:945-948 | The finetune as the source computes it: the negative half is formed as `finetune - 16` on an unsigned byte, which traps (None) for every nibble from 8 to 15. |
| LoaderMOD.ModFinetuneTrapExample | Amimod/libxm/LibXMLoader.swift:945-948 | A finetune nibble of 15 (-1) traps the source, where -2 was meant. |
| LoaderMOD.ModSampleHeader | Amimod/libxm/LibXMLoader.swift:940-969 | Sample `i` after its 30-byte header is read: finetune, volume clamped to 64, centre panning, and the length and loop doubled from words to bytes. A loop of more than 2 bytes trims the length to the loop end; a loop that runs past the end of the sample is dropped, as the XM loader does. The raw length stays in `index` until the sample data is placed. |
| LoaderMOD.ModSampleHeaderAsWritten | Amimod/libxm/LibXMLoader.swift:958-966 | The sample header as the source reads it: a loop of more than 2 bytes keeps its full length even when it runs past the end of the sample and the sample is cut at the loop start. |
| LoaderMOD.ModLoopOverrunExample | Amimod/libxm/LibXMLoader.swift:958-966 | A 100-byte sample whose 102-byte loop starts at 0: the source cuts the sample to 0 bytes and keeps the 102-byte loop, longer than the sample; the corrected header drops the loop. |
| LoaderMOD.DecodeCell | Amimod/libxm/LibXMLoader.swift:994-1025 | The inline cell decoding yields exactly the slot `CellSlot` describes: the period as a note, the instrument and the effect. |
| LoaderMOD.DecodeEncodeCell | Amimod/libxm/LibXMLoader.swift:994-1025 | Every field of an encoded cell reads back unchanged. |
| LoaderMOD.CellSlot | Amimod/libxm/LibXMLoader.swift:994-1025 | The slot a MOD cell decodes to: a note from 0 to 84, 0 exactly when the cell has no period; `CellSlotOfEncoded` is its round trip. |
| LoaderMOD.CellSlotOfEncoded | Amimod/libxm/LibXMLoader.swift:994-1025 | A cell written from a slot's fields decodes back to those fields, the period as its note. |
| LoaderMOD.OctavesBound | Amimod/libxm/LibXMLoader.swift:1007-1025 | A period of at most 64 * 2^k drops at most k octaves. |
| LoaderMOD.PeriodNote | Amimod/libxm/LibXMLoader.swift:1007-1025 | The note of a non-zero 12-bit period, between 1 and 84; `PeriodNoteOctave` and `PeriodNoteExamples` pin it to the octave scale. |
| LoaderMOD.PeriodNoteOctave | Amimod/libxm/LibXMLoader.swift:1007-1025 | Doubling a period of at least 56 lowers its note by exactly one octave. |
| LoaderMOD.PeriodNoteExamples | Amimod/libxm/LibXMLoader.swift:1007-1025 | The ProTracker periods of the three C notes map to notes 37, 49 and 61, an octave apart. |
| LoaderMOD.ReduceOctaves | Amimod/libxm/LibXMLoader.swift:1007-1025 | The first loop of the period conversion: each halving of the period lowers the note an octave. |
| LoaderMOD.CountSemitones | Amimod/libxm/LibXMLoader.swift:1007-1025 | The second loop: the note climbs a semitone for each table entry, in order, above the reduced period. |
| LoaderMOD.PeriodToNote | Amimod/libxm/LibXMLoader.swift:1007-1025 | The source's two loops with wrapping byte arithmetic compute exactly `PeriodNote`: a note from 1 to 84 that drops an octave for each doubling of the period. |
| LoaderMOD.DecodedCells | Amimod/libxm/LibXMLoader.swift:989-1031 | The slots of `n` consecutive MOD cells, one per cell; the lemmas below say which cell each entry comes from. |
| LoaderMOD.DecodedCellsLast | Amimod/libxm/LibXMLoader.swift:989-1031 | A non-empty run: the run one shorter, then its last cell. |
| LoaderMOD.DecodedCellsAt | Amimod/libxm/LibXMLoader.swift:989-1031 | Entry `i` of the decoded run is cell `k + i`, decoded. |
| LoaderMOD.DecodedCellsPrefix | Amimod/libxm/LibXMLoader.swift:989-1031 | A run extended by one cell keeps its earlier entries. |
| LoaderMOD.DecodedCellsAppend | Amimod/libxm/LibXMLoader.swift:989-1031 | Two consecutive runs of cells decode to the run that covers both. |
| LoaderMOD.DecodedCellsSplit | Amimod/libxm/LibXMLoader.swift:989-1031 | Entry `i` of a run lies in its first `m` entries or in the run of the next `n`. |
| LoaderMOD.StoreCell | Amimod/libxm/LibXMLoader.swift:994-1028 | One pass of the cell loop: cell `rowBase + j` is read at `offset`, decoded and stored. |
| LoaderMOD.ReadPatternCells | Amimod/libxm/LibXMLoader.swift:989-1031 | The cells of one pattern: the `cells` cells from `offset`, which is where cell `rowBase` of the data starts, become slots `rowBase` on. |
| LoaderMOD.ReadPattern | Amimod/libxm/LibXMLoader.swift:989-1031 | One pass of the pattern loop: pattern `pi` gets 64 rows from row 64 * pi, and its cells, which follow the `k` cells of the earlier patterns, become slots `k` on. |
| LoaderMOD.ReadModPatterns | Amimod/libxm/LibXMLoader.swift:989-1031 | The pattern loop: pattern `pi` gets 64 rows from row 64 * pi, and cell `k` of the data becomes slot `k`, so that pattern after pattern, row after row, the slots follow the file. Reports whether any cell holds a panning effect, and the offset after the last cell. |
| LoaderMOD.ReadModSampleHeaders | Amimod/libxm/LibXMLoader.swift:939-969 | The loop over the sample headers: sample `i` is read from header `i`, and instrument `i` takes the sample's name. |
| LoaderMOD.ModInstrumentSample | Amimod/libxm/LibXMLoader.swift:971-976 | Every note of a MOD instrument selects the instrument's own sample, and that sample exists. |
| LoaderMOD.AssignModInstruments | Amimod/libxm/LibXMLoader.swift:971-976 | The second loop: instrument `i` becomes the one-sample instrument of sample `i`. |
| LoaderMOD.ModOrders | Amimod/libxm/LibXMLoader.swift:977-987 | The order information after the `n` sample headers: the song length, clamped to the 128 entries a MOD has; the restart position, dropped to 0 unless it lies inside the song; and the 128-entry order table. |
| LoaderMOD.ModOrdersLength | Amimod/libxm/LibXMLoader.swift:101 | The length the MOD loader sets equals the corrected prescan length, so the length check made when a context is created holds. |
| LoaderMOD.PotLengthMismatchExample | Amimod/libxm/LibXMLoader.swift:101 | With a length byte of 200 the loader sets 128 while the prescan as written records 200, so the length check made when a context is created fails. |
| LoaderMOD.ScaleS8 | Amimod/libxm/LibXMLoader.swift:1033-1043 | An 8-bit sample point widened to the 16-bit points the player mixes. |
| LoaderMOD.ModSamplePoints | Amimod/libxm/LibXMLoader.swift:1033-1043 | The points of an 8-bit MOD sample, one per byte; `ModSamplePointsInverse` says each is the stored signed byte scaled by 256. |
| LoaderMOD.ModSamplePointsInverse | Amimod/libxm/LibXMLoader.swift:1033-1043 | Reading back stored 8-bit points gives each point scaled to 16 bits, wherever they lie in the file. |
| LoaderMOD.TrimmedTotalOfHeaders | Amimod/libxm/LibXMLoader.swift:1033-1043 | The trimmed lengths of the loaded headers add up to the prescan's sample-data length. |
| LoaderMOD.PlacedPoints | Amimod/libxm/LibXMLoader.swift:1033-1043 | The sample-data table after the first `n` MOD samples are placed, as long as their trimmed lengths; `PlacedPointsAt` says where each point comes from. |
| LoaderMOD.PlacedPointsAt | Amimod/libxm/LibXMLoader.swift:1033-1043 | Point `k` of sample `i` is placed after the trimmed lengths of the samples before it, and comes from the byte after their raw lengths: the bytes past a trimmed sample's loop end are skipped. |
| LoaderMOD.CopySamplePoints | Amimod/libxm/LibXMLoader.swift:1033-1043 | The inner loop: `length` points copied to `outIndex`, nothing else written. |
| LoaderMOD.PlaceModSample | Amimod/libxm/LibXMLoader.swift:1033-1043 | One iteration of the sample-data loop: sample `i` is placed after the `i` before it. |
| LoaderMOD.PlaceModSamples | Amimod/libxm/LibXMLoader.swift:1033-1043 | The sample-data loop over the first `n` samples: their points are placed back to back, each sample's `index` (its raw length until now) becomes where its points start, and the running total (`&+=`, which cannot wrap here) ends as their combined trimmed length. The file offset advances by the raw lengths. |
| LoaderMOD.ChannelOf | Amimod/libxm/LibXMLoader.swift:1045-1079 | The channel of slot `i` in rows of `nc` slots, below `nc`; `ChannelOfRow` says slot `c` of every row is channel `c`. |
| LoaderMOD.ChannelOfRow | Amimod/libxm/LibXMLoader.swift:1045-1079 | Slot `c` of every row belongs to channel `c`. |
| LoaderMOD.HardPanning | Amimod/libxm/LibXMLoader.swift:1045-1079 | The volume-column byte of a slot that pans its channel hard right (0xCF) or hard left (0xC1). |
| LoaderMOD.FixModSlot | Amimod/libxm/LibXMLoader.swift:1045-1079 | The MOD-specific clean-up of one slot in channel `ch`. Without any panning effect in the file, a slot with an instrument pans its channel hard left or right; an instrument without a note becomes a note switch; slides that would repeat a remembered parameter (1, 2, A with parameter 0) are dropped, and the combined 5 and 6 become plain tone portamento and vibrato; `E5x` has bit 3 of its finetune flipped. |
| LoaderMOD.FixModSlotStep | Amimod/libxm/LibXMLoader.swift:1047-1076 | The loop body's clean-up of one slot, written as the source's sequence of in-place updates, computes exactly `FixModSlot`. |
| Ints.Xor8Bit3 | Amimod/libxm/LibXMLoader.swift:1075 | `x ^ 8` on a byte flips bit 3: it subtracts 8 when the bit is set and adds 8 when it is clear. |
| LoaderMOD.FixModRow | Amimod/libxm/LibXMLoader.swift:1045-1079 | The clean-up of row `row`: its slot `c` is cleaned up as a slot of channel `c`. |
| LoaderMOD.FixModSlots | Amimod/libxm/LibXMLoader.swift:1045-1079 | The clean-up pass over the `numRows` rows of `nc` slots: every slot is cleaned up as a slot of its channel, and nothing past the rows changes. |
| LoaderMOD.FixModPatternSlots | Amimod/libxm/LibXMLoader.swift:1045-1079 | Replaces the slot table with its cleaned-up version, every slot fixed as a slot of its channel, and changes no other part of the context. |
| LoaderMOD.Flt8Source | Amimod/libxm/LibXMLoader.swift:1082-1103 | Where slot `j` of an interleaved FLT8 pattern comes from, relative to the pattern's start: channels 0-3 of row `r` are row `r` of the first stored 4-channel pattern, channels 4-7 are row `r` of the second. |
| LoaderMOD.Flt8Dest | Amimod/libxm/LibXMLoader.swift:1082-1103 | Where a stored FLT8 slot ends up, inside the pattern; with `Flt8Source` it forms a permutation (the two lemmas below). |
| LoaderMOD.Flt8SourceInjective | Amimod/libxm/LibXMLoader.swift:1082-1103 | The interleaving is a permutation of the 512 slots: each source is used once, ... |
| LoaderMOD.Flt8SourceOnto | Amimod/libxm/LibXMLoader.swift:1082-1103 | ... and every stored slot is used. |
| LoaderMOD.Flt8Slot | Amimod/libxm/LibXMLoader.swift:1082-1103 | The slot an FLT8 slot takes its contents from lies in the same 512-slot pattern. |
| LoaderMOD.Flt8SlotIn | Amimod/libxm/LibXMLoader.swift:1082-1103 | Inside pattern `i`, the source slot lies in the same pattern, at the interleaved position. |
| LoaderMOD.Flt8Row | Amimod/libxm/LibXMLoader.swift:1082-1103 | One row of the scratch pattern: four slots from each stored half. |
| LoaderMOD.Flt8Scratch | Amimod/libxm/LibXMLoader.swift:1082-1103 | The scratch pattern: slot `j` holds the stored slot `Flt8Source(j)` of the pattern at `base`. |
| LoaderMOD.Flt8Pattern | Amimod/libxm/LibXMLoader.swift:1082-1103 | One FLT8 pattern at `base`: built in a scratch pattern, then copied back over the stored halves. |
| LoaderMOD.FixupFLT8 | Amimod/libxm/LibXMLoader.swift:1082-1103 | The FLT8 fix-up: every loaded 8-channel pattern (pattern `i` starting at row `64 i`) is re-interleaved from its two stored 4-channel halves; the rest of the slot table is unchanged. |
| LoaderMOD.FixupModFLT8 | Amimod/libxm/LibXMLoader.swift:1082-1103 | The FLT8 pass on a loaded context: the slot table of the loaded 8-channel patterns is re-interleaved, and nothing else changes. |
| LoaderMOD.ModModule | Amimod/libxm/LibXMLoader.swift:923-987 | The module header of a MOD: the fixed tempo, BPM and frequency table, and the prescan's counts. |
| LoaderMOD.LoadModHeaders | Amimod/libxm/LibXMLoader.swift:923-987 | The first part of the MOD loader: the module header, the 31 sample headers (each instrument named after its sample and playing only it) and the order information after them. |
| LoaderMOD.LoadModPatterns | Amimod/libxm/LibXMLoader.swift:989-1031 | The pattern part of the MOD loader: the pattern table, and the slot table holding the decoded cells of the file, in order. Reports whether any cell holds a panning effect, and the offset of the sample data after the cells. |
| LoaderMOD.LoadModSamples | Amimod/libxm/LibXMLoader.swift:1033-1043 | The sample-data part of the MOD loader: the points of the 31 samples are placed back to back from the start of the table, and each sample's `index` and the module's sample-data length are set. |
| LoaderMOD.LoadMOD | Amimod/libxm/LibXMLoader.swift:923-1080 | Loads a MOD file the prescan accepted into a context sized from the prescan: the module header, sample headers, instruments and order table; the pattern cells; the sample data; and the MOD slot clean-up. FLT8 files go through the same loader; their interleaving is a separate pass. |
| LoaderMOD.ModHeadersFrames | Amimod/libxm/LibXMLoader.swift:958-966 | The header pass leaves each sample's trimmed length, which add up to the prescan's sample-data length. |
| LoaderFixup.ControlMaskBits | Amimod/libxm/LibXMLoader.swift:1152-1158 | The mask keeps the high nibble and bit 2, and leaves a usable parameter as it is. |
| LoaderFixup.ControlParam | Amimod/libxm/LibXMLoader.swift:1152-1158 | The glissando, vibrato or tremolo control parameter with its waveform bits masked is always in the form the player expects; `ControlMaskBits` says which bits it keeps. |
| LoaderFixup.FixSlot | Amimod/libxm/LibXMLoader.swift:1115-1183 | The fix-up of one slot, rule by rule in the order the loader applies them. (The loader's `>> 4`, `& 0x0F` and `32 \| x` on a nibble `x` are the `/ 16`, `% 16` and `32 + x` written here.) |
| LoaderFixup.FixSlotExtended | Amimod/libxm/LibXMLoader.swift:1132-1135 | The extended `E` commands: `Exy` becomes effect `32 + x` with parameter `y`. |
| LoaderFixup.FixSlotFinePortamento | Amimod/libxm/LibXMLoader.swift:1117-1135 | Fine portamento up (effect 33) only ever comes from `E1x`. |
| LoaderFixup.FixSlotExtraFine | Amimod/libxm/LibXMLoader.swift:1117-1131 | The `X` command: `X1y` and `X2y` are the extra-fine portamentos, anything else is dropped. |
| LoaderFixup.FixSlotRanges | Amimod/libxm/LibXMLoader.swift:1136-1151 | A small `F` parameter is a tempo, a large one a BPM; an order jump past the end of the order table jumps to order 0; volumes are clamped. |
| LoaderFixup.FixSlotOthers | Amimod/libxm/LibXMLoader.swift:1115-1183 | Every other effect passes through unchanged. |
| LoaderFixup.FixupContext | Amimod/libxm/LibXMLoader.swift:1107-1185 | The fix-up pass over a loaded context: full global volume, the module's tempo and BPM as the current ones, the fixed rate, and every slot of the `numRows` rows of `numChannels` slots fixed up against the module's order-table length. Nothing else changes. |
| LoaderFixup.FixedRowsNormal | Amimod/libxm/LibXMLoader.swift:1113-1184 | After the pass, every slot of the pattern rows is in the form the player relies on. |
| Effects.SineSign | Amimod/libxm/LibXMPlayer.swift:74-102 | The sine is negative in the first half period and positive in the second. |
| Effects.SineSymmetry | Amimod/libxm/LibXMPlayer.swift:74-102 | The sine is odd about half a period and mirrored about each quarter. |
| Effects.SineOdd | Amimod/libxm/LibXMPlayer.swift:74-102 | Half a period later the sine has the opposite sign. |
| Effects.SineMirror | Amimod/libxm/LibXMPlayer.swift:74-102 | The second quarter mirrors the first. |
| Effects.WaveformPeriodic | Amimod/libxm/LibXMPlayer.swift:74-102 | Only the low two bits choose the waveform and only the step modulo 64 matters. |
| Effects.SquareHalves | Amimod/libxm/LibXMPlayer.swift:74-102 | The square wave is -128 in the first half period and 127 in the second. |
| Effects.RampsComplement | Amimod/libxm/LibXMPlayer.swift:74-102 | The ramp-down value is the bitwise complement of the ramp-up value. |
| Effects.RampUpClimbs | Amimod/libxm/LibXMPlayer.swift:74-102 | The ramp up climbs by 4 at every step except where it wraps, half way through the period. |
| Effects.UpdateEffectMemoryXY | Amimod/libxm/LibXMPlayer.swift:109-114 | UPDATE_EFFECT_MEMORY_XY: each non-zero nibble of `value` replaces the same nibble of the remembered parameter; a zero nibble keeps the old one. |
| Effects.EffectMemoryLaws | Amimod/libxm/LibXMPlayer.swift:109-114 | A zero value leaves the memory alone, a value with two non-zero nibbles replaces it, and applying a value twice is applying it once. |
| Effects.ParamSlide | Amimod/libxm/LibXMPlayer.swift:142-152 | xm_param_slide: a non-zero high nibble of `rawval` slides up by that nibble, saturating at `max`; otherwise the low nibble slides down, saturating at 0. |
| Effects.ParamSlideMonotone | Amimod/libxm/LibXMPlayer.swift:142-152 | Sliding preserves the order of two parameters. |
| Effects.PitchSlide | Amimod/libxm/LibXMPlayer.swift:132-140 | xm_pitch_slide: restore the unrounded period, then move it by `offset`, never below 1; the glissando error and the vibrato offset are cleared. `None` when either checked `UInt16` conversion traps. |
| Effects.PitchSlidesAdd | Amimod/libxm/LibXMPlayer.swift:132-140 | Two slides that stay above period 1 add up. |
| Effects.PortamentoDownOverflows | Amimod/libxm/LibXMPlayer.swift:592-596 | A portamento down of `4 * 0xFF` per tick from period 65000 overflows the 16-bit period: the source traps. |
| Effects.LinearPeriod | Amimod/libxm/LibXMPlayer.swift:154-157 | xm_linear_period: 7680 minus four units per finetune step, clamped to 16 bits. |
| Effects.NotePeriodOnGrid | Amimod/libxm/LibXMPlayer.swift:154-157 | The period of note `n` (1 to 119) with finetune `ft`, as the player computes it, is 64 units per semitone below the period of note 121, less four units per finetune step, and never negative: every note with a positive period lies on the grid that rounding to a semitone uses. |
| Effects.LinearPeriodAntitone | Amimod/libxm/LibXMPlayer.swift:154-157 | Higher notes have shorter periods. |
| Effects.Period | Amimod/libxm/LibXMPlayer.swift:188-192 | xm_period: the Amiga period (a floating-point power of two in the source, supplied here as `amigaPeriod`) or the linear period. |
| Effects.RoundLinearPeriodToSemitone | Amimod/libxm/LibXMPlayer.swift:207-215 | xm_round_linear_period_to_semitone: move the period to the nearest point of the semitone grid shifted by the finetune, and keep the difference as the glissando error. The source masks with `& 0xFFC0` and converts with `UInt16(...)` and `Int8(...)`; `None` when one traps. |
| Effects.RoundingOnGrid | Amimod/libxm/LibXMPlayer.swift:207-215 | A period already on the grid is left where it is, with no error. |
| Effects.RoundPeriodToSemitone | Amimod/libxm/LibXMPlayer.swift:217-225 | xm_round_period_to_semitone: undo the last rounding, then round again unless the periods are Amiga periods. |
| Effects.RoundPeriodIdempotent | Amimod/libxm/LibXMPlayer.swift:217-225 | Rounding twice is rounding once: the second rounding first restores the unrounded period. |
| Effects.TonePortamento | Amimod/libxm/LibXMPlayer.swift:361-376 | xm_tone_portamento: slide the period toward the target by at most four times the portamento parameter, then round to a semitone when glissando is on. Nothing happens without a target or a period. |
| Effects.TonePortamentoTarget | Amimod/libxm/LibXMPlayer.swift:378-388 | xm_tone_portamento_target: the period of the slot's note (shifted by the sample's relative note) becomes the portamento target; nothing changes without a sample or for a note outside 1 to 119. |
| Effects.Vibrato | Amimod/libxm/LibXMPlayer.swift:390-397 | xm_vibrato: restore the unrounded period, set the vibrato offset to the oscillator value scaled by the depth (low nibble) over 16, and advance the oscillator by the speed (high nibble), wrapping at 256. |
| Effects.Tremolo | Amimod/libxm/LibXMPlayer.swift:399-409 | xm_tremolo: the volume offset is the oscillator value times the depth (low nibble) over 32, and the oscillator advances by the speed. |
| Effects.Arpeggio | Amimod/libxm/LibXMPlayer.swift:436-466 | xm_arpeggio: the note offset of the current tick. A MOD cycles through 0, the high nibble and the low nibble with the tick; an XM counts the ticks left in the row (`tempo - tick`, with Swift's truncating `%`), and also rounds the period to a semitone when the offset is non-zero. |
| Effects.ArpeggioModCycle | Amimod/libxm/LibXMPlayer.swift:436-466 | In a MOD the arpeggio repeats every three ticks. |
| Effects.ArpeggioXMTail | Amimod/libxm/LibXMPlayer.swift:436-466 | In an XM, within the last 15 ticks of a row the offset cycles with period three, counted from the end of the row: it is 0 when the ticks left are a multiple of three, the high nibble one tick later and the low nibble another tick later. |
| Effects.RetrigVolume | Amimod/libxm/LibXMPlayer.swift:423-433 | The volume change of a multi-retrigger never exceeds 64; `RetrigVolumeSteps` and `RetrigVolumeScales` give the effect's table entry by entry. |
| Effects.RetrigVolumeSteps | Amimod/libxm/LibXMPlayer.swift:423-433 | The multi-retrigger volume follows the XM effect's table, first half: keep, or subtract 1, 2, 4, 8 or 16; then keep, or add 1, 2, 4, 8 or 16; clamped to 0..64. |
| Effects.RetrigVolumeScales | Amimod/libxm/LibXMPlayer.swift:423-433 | The multi-retrigger volume follows the XM effect's table, scaling entries: two thirds, half, three halves and double, clamped to 64. |
| Effects.CutNote | Amimod/libxm/LibXMPlayer.swift:1110-1112 | xm_cut_note: silence the channel. |
| Effects.KeyOff | Amimod/libxm/LibXMPlayer.swift:1114-1124 | xm_key_off: release the sustain; the note is cut at once when the channel has no instrument or its instrument has no volume envelope. |
| Effects.KeyOffIdempotent | Amimod/libxm/LibXMPlayer.swift:1114-1124 | Releasing twice is releasing once. |
| Effects.VolumeBase | Amimod/libxm/LibXMPlayer.swift:774-782 | The integer part of the channel volume in xm_tick is never negative; `VolumeBaseFits` and `VolumeBaseOverflowAt65` say exactly when its `Int32` products fit. |
| Effects.VolumeBaseFits | Amimod/libxm/LibXMPlayer.swift:774-782 | Every intermediate product of the volume fits in an `Int32` exactly when the channel keeps its ranges and the global volume is at most 64: at the maxima the result is 2147418112, just below 2^31. |
| Effects.VolumeBaseOverflowAt65 | Amimod/libxm/LibXMPlayer.swift:774-782 | With a global volume of 65 the same maxima overflow an `Int32`. |
| Effects.SamplesInTick | Amimod/libxm/LibXMPlayer.swift:837-840 | The subsamples in one tick: `rate * 20480 / bpm`, i.e. 2.5 seconds per BPM in units of 1/8192 output frame. `None` for a BPM of 0, where the source divides by zero. |
| Effects.TickFrames | Amimod/libxm/LibXMPlayer.swift:837-840 | One tick lasts `2.5 * rate / bpm` whole output frames, rounded down. |
| Effects.SampleStep | Amimod/libxm/LibXMPlayer.swift:768-773 | The sample step of a channel: its frequency in microsteps per output frame, `(freq * 4096 + rate / 2) / rate`, rounded to nearest. `None` when the rate is 0 or the step does not fit the `UInt32` conversion. |
| Effects.LoopWrap | Amimod/libxm/LibXMPlayer.swift:960-972 | The loop wrap of xm_next_of_sample, for a looped sample whose position has passed its end: the position is taken modulo the loop span (twice the loop for ping-pong) from the loop start. The span is computed with wrapping 32-bit products; `None` when it wraps to 0 and the source's `%` traps. |
| Effects.ForwardLoopInRange | Amimod/libxm/LibXMPlayer.swift:960-972 | For a forward loop the wrapped position lies inside the loop, at the same offset modulo the loop length (in microsteps) as the old position. |
| Effects.PingPongSpanTraps | Amimod/libxm/LibXMPlayer.swift:960-972 | A ping-pong loop of 2^19 frames has a 32-bit span of 0: the source's remainder traps. |
| Effects.LoopWrapWide | Amimod/libxm/LibXMPlayer.swift:960-972 | The loop wrap with the span computed without wrapping: the position lands in the loop (or its mirrored copy for ping-pong) and never traps. |
| Effects.LoopWrapAgrees | Amimod/libxm/LibXMPlayer.swift:960-972 | For a forward loop, and for a ping-pong loop whose span fits, the wide wrap agrees with the source. |
| Envelopes.Interpolate | Amimod/libxm/LibXMPlayer.swift:490-495 | The linear interpolation between points `a` and `b` at frame `c`, each value weighted by the distance to the other point. |
| Envelopes.EnvelopeTickSteps | Amimod/libxm/LibXMPlayer.swift:472-496 | What a step promises of the counter: a held sustain point returns its value and keeps the counter; otherwise, once the first point is reached, the counter advances by one. |
| Envelopes.EnvelopeTickBetween | Amimod/libxm/LibXMPlayer.swift:482-495 | What a step promises of the value: away from a held sustain point, inside a segment it lies between the segment's end values. |
| Envelopes.SegmentValueBetween | Amimod/libxm/LibXMPlayer.swift:482-495 | Inside the segment from point `j - 1` to point `j`, the value lies between their values. |
| Envelopes.SegmentValueAdvances | Amimod/libxm/LibXMPlayer.swift:486-495 | Away from a held sustain point, once the first point is reached the counter advances by one. |
| Envelopes.EnvelopeTickBounded | Amimod/libxm/LibXMPlayer.swift:468-498 | Envelope values stay in 0..64 when the points' values do. |
| Envelopes.TickEnvelope | Amimod/libxm/LibXMPlayer.swift:468-498 | xm_tick_envelope: the loop jump, the sustain hold, then a search from the last point down for the segment that contains the counter. |
| Envelopes.SearchSegment | Amimod/libxm/LibXMPlayer.swift:482-497 | The search of xm_tick_envelope: from the last point down to the segment whose start is at or before `c`. |
| Envelopes.Autovibrato | Amimod/libxm/LibXMPlayer.swift:505-522 | The automatic vibrato step: the offset is the raw offset, faded in over `vibratoSweep` ticks, and the tick counter advances, wrapping at 16 bits. `None` when the raw offset overflows the source's `Int8`. |
| Envelopes.SweepScaleBounds | Amimod/libxm/LibXMPlayer.swift:515-519 | The truncated quotient lies between `-\|off\|` and `\|off\|`, and is not positive for a negative `off`. |
| Envelopes.AutovibratoFits | Amimod/libxm/LibXMPlayer.swift:513-514 | A depth below 128 never overflows: the raw offset is then within 127 of zero. |
| Envelopes.Fadeout | Amimod/libxm/LibXMPlayer.swift:523-529 | The fade-out: full while the note is sustained, otherwise lowered by the instrument's fade-out rate, not below 0. |
| Envelopes.VolumeEnvelopeStep | Amimod/libxm/LibXMPlayer.swift:530-538 | The volume envelope's step: its value and counter, or full volume when it is disabled. |
| Envelopes.PanningEnvelopeStep | Amimod/libxm/LibXMPlayer.swift:539-547 | The panning envelope's step: its value and counter, or the centre when it is disabled. |
| Envelopes.InstrumentTickKeepsChannel | Amimod/libxm/LibXMPlayer.swift:500-549 | The per-tick processing keeps the channel invariant: the fade-out stays below 32768 and both envelope outputs in 0..64; a channel without a valid instrument is left alone, and only a depth of 128 or more can make the automatic vibrato overflow. |
| Envelopes.TickEnvelopes | Amimod/libxm/LibXMPlayer.swift:500-549 | xm_tick_envelopes on a copy of the channel: the result is exactly `InstrumentTick`, which keeps the channel invariant (`InstrumentTickKeepsChannel`). |
| Envelopes.TickChannelEnvelopes | Amimod/libxm/LibXMPlayer.swift:530-547 | The envelope part of xm_tick_envelopes, in order volume then panning: each step is that envelope's `VolumeEnvelopeStep` or `PanningEnvelopeStep`. |
| Slots.TriggerInstrument | Amimod/libxm/LibXMPlayer.swift:1013-1031 | xm_trigger_instrument: the note is held again and the envelopes, the automatic vibrato, the retrigger and tremor counters and the volume offset restart; the vibrato and tremolo oscillators restart unless their control parameter has bit 2 set. The trigger time is recorded on the channel and on its instrument. |
| Slots.TriggerNote | Amimod/libxm/LibXMPlayer.swift:1033-1108 | xm_trigger_note: an instrument number of 0 or past the module's count releases the channel; on success the slot, the instrument and sample tables and the module flags are kept. `TriggerNoteCases`, `TriggerNoteSelects` and `TriggerNoteFits` state the rest. |
| Slots.TriggerNoteCases | Amimod/libxm/LibXMPlayer.swift:1033-1108 | With a valid context, xm_trigger_note either selects a sample and continues with it, or releases the channel. |
| Slots.TriggerNoteSelects | Amimod/libxm/LibXMPlayer.swift:1033-1108 | An instrument is selected exactly when the instrument number is valid and maps the note to one of the instrument's samples; then the instrument and that sample are the channel's. |
| Slots.TriggerNoteSelected | Amimod/libxm/LibXMPlayer.swift:1033-1108 | A selected sample is the channel's after the trigger, with its instrument. |
| Slots.TriggerNoteFits | Amimod/libxm/LibXMPlayer.swift:1033-1108 | A triggered note keeps the context and the channel consistent (the tables change only in trigger times) and, with a valid context, it traps only for a set-finetune parameter of 72 or more or for a sample offset into a sample too long for 32-bit positions. |
| Slots.Released | Amimod/libxm/LibXMPlayer.swift:1049-1056 | The channel left silent and without instrument or sample, as after an invalid instrument number. |
| Slots.SelectSample | Amimod/libxm/LibXMPlayer.swift:1077-1088 | xm_trigger_note once the sample `si` is selected: nothing more for the note switch; otherwise the finetune, then, for a note in range, the period and the sample start. `Trap` where the source traps. |
| Slots.StartSample | Amimod/libxm/LibXMPlayer.swift:1089-1107 | The end of xm_trigger_note once the period is set: the sample position restarts and the trigger time is recorded on the channel and the sample. `Trap` where the source traps on the sample index or on the 32-bit product `length * 4096`. |
| Slots.StartPosition | Amimod/libxm/LibXMPlayer.swift:1089-1107 | The sample position restarts: at the sample offset effect's position (its parameter times 256 samples, the parameter remembered when non-zero), flagged invalid when that is past the end of a sample of `length` samples, or else at 0. The glissando error and the vibrato offset restart and the trigger time is `now`. |
| Slots.MultiRetrig | Amimod/libxm/LibXMPlayer.swift:411-434 | xm_multi_retrig_note: the parameter is remembered nibble by nibble; on the first tick of a slot with a volume column nothing else happens. Otherwise the retrigger counter advances and, once it reaches the interval (low nibble), restarts at 0 and the note is triggered again; unless the volume column sets the volume, the volume is then changed by the high nibble's rule (see `RetrigVolume`). |
| Slots.RetrigCount | Amimod/libxm/LibXMPlayer.swift:411-434 | The counting part of xm_multi_retrig_note: the counter advances and, once it reaches the interval (the parameter's low nibble), restarts at 0 and the note is retriggered. |
| Slots.Retrigger | Amimod/libxm/LibXMPlayer.swift:411-434 | The retrigger of xm_multi_retrig_note: the note is triggered again and, unless the volume column sets the volume, the volume changes by the rule the parameter's high nibble selects. |
| Slots.MultiRetrigFits | Amimod/libxm/LibXMPlayer.swift:411-434 | A multi-retrigger keeps the context and the channel consistent, and traps only where the triggered note does. |
| Slots.SlotNote | Amimod/libxm/LibXMPlayer.swift:231-247 | The note part of xm_handle_pattern_slot: a slot instrument becomes the next instrument; a key-off releases the note; a note 1 to 96 either sets the tone portamento target (when the slot slides to it) or becomes the channel's note and is triggered; any other non-zero note triggers the current note again. `Trap` where the source traps. |
| Slots.KeyOffIn | Amimod/libxm/LibXMPlayer.swift:1114-1124 | xm_key_off on the context's instrument table: `Trap` when the channel's instrument is past its end. |
| Slots.SlotInstrument | Amimod/libxm/LibXMPlayer.swift:248-256 | The instrument part of xm_handle_pattern_slot: with an instrument in the slot the channel takes its sample's default volume and panning and, unless the note is a key-off, the instrument is triggered. |
| Slots.SlotVolumeColumn | Amimod/libxm/LibXMPlayer.swift:257-273 | The volume column part of xm_handle_pattern_slot: 0x10 to 0x50 set the volume to 0 to 64; 0xCx sets the panning to 16x; 0xFx with x > 0 sets the tone portamento speed to 16x. Without a volume column portamento, a tone portamento effect with a non-zero parameter sets the speed. |
| Slots.SlotEffect | Amimod/libxm/LibXMPlayer.swift:275-358 | The first-tick effect column: traps only for the effects that can trap, keeps the context for the effects that act on the channel alone, and keeps the slot, the instrument and sample tables and the module flags; `SlotEffectFits` states that the context stays consistent. |
| Slots.SlotEffectFits | Amimod/libxm/LibXMPlayer.swift:275-358 | The first-tick effects keep a consistent context consistent: set volume and set global volume stay in range because a loaded slot's parameter is at most 64, and a requested jump goes to an order entry because a loaded jump's parameter is one and a pattern loop jumps to the current entry. |
| Slots.FinePortamento | Amimod/libxm/LibXMPlayer.swift:314-333 | The fine pitch slides: the parameter is remembered as the next function says, and the period moves by the remembered amount, up for the "up" effects and down for the others. `None` when the source's period conversion traps. |
| Slots.FineSlideMemory | Amimod/libxm/LibXMPlayer.swift:314-333 | What a fine pitch slide remembers: a non-zero parameter, four times it in 8 bits for the fine slides; the extra fine slide up remembers its parameter only when the low nibble is non-zero. |
| Slots.ContextEffect | Amimod/libxm/LibXMPlayer.swift:295-308 | The first-tick effects on the song position, the speed and the global volume: a position jump to the order entry in the parameter (row 0), a pattern break to the row `BreakRow` reads from the parameter, the tempo, the BPM, the global volume and the pattern delay. Nothing else of the context changes. |
| Slots.EffectVolume | Amimod/libxm/LibXMPlayer.swift:276-292 | The volume after the first-tick volume effects (set, or a fine slide by the remembered parameter) stays at most 64 when the volume and a set-volume parameter are. |
| Slots.ChannelEffect | Amimod/libxm/LibXMPlayer.swift:276-339 | The first-tick effects on the channel alone: set the volume and fine volume slides (which also clear the tremolo offset), set the panning, set both envelope positions, and store the glissando, vibrato and tremolo controls. |
| Slots.BreakRow | Amimod/libxm/LibXMPlayer.swift:299-302 | The row a pattern break jumps to: the parameter read as two decimal digits, `p - 6 * (p >> 4)`, in wrapping 8-bit arithmetic. |
| Slots.PatternLoop | Amimod/libxm/LibXMPlayer.swift:340-353 | The pattern loop effect (E6x): with x = 0 the current row becomes the loop origin (and the row to jump to); otherwise the loop counter counts up to x, each time requesting a jump back to the origin in the current order entry, and resets once it reaches x. `Trap` when the order index does not fit the source's `UInt8` conversion. |
| Slots.PatternLoopFits | Amimod/libxm/LibXMPlayer.swift:340-353 | The pattern loop jumps, if at all, to the current order entry. |
| Slots.HandlePatternSlot | Amimod/libxm/LibXMPlayer.swift:227-359 | xm_handle_pattern_slot, note, instrument, volume column and effect in turn: the instrument and sample tables and the module flags are kept; `HandlePatternSlotFits` states what else stays consistent. |
| Slots.HandlePatternSlotFits | Amimod/libxm/LibXMPlayer.swift:227-359 | Reading a pattern slot keeps a consistent context consistent: its tables, flags, time and song position stay, the global volume stays in range, a requested jump goes to an entry of the order table, and the channel fits the tables and still plays the slot. |
| TickEffects.Remember | Amimod/libxm/LibXMPlayer.swift:588-590 | A parameter given as zero reuses the remembered one. |
| TickEffects.VolumeSlide | Amimod/libxm/LibXMPlayer.swift:605-611 | A volume slide by `rawval` (see `ParamSlide`), which also clears the tremolo's volume offset. |
| TickEffects.PanningSlide | Amimod/libxm/LibXMPlayer.swift:639-645 | A panning slide by `rawval` within 0 to 255. |
| TickEffects.TickVolumeColumn | Amimod/libxm/LibXMPlayer.swift:554-582 | The volume column on the later ticks: a column that acts only on the first tick leaves the channel unchanged; the acting columns are stated by `TickVolumeColumnKeeps` and the slide functions. |
| TickEffects.VolumeColumnVibrato | Amimod/libxm/LibXMPlayer.swift:554-582 | Bx: the depth nibble is remembered and the vibrato is not to be reset after the row. |
| TickEffects.TickEffect | Amimod/libxm/LibXMPlayer.swift:584-682 | The effect column on the later ticks: the instrument and sample tables and the module flags are kept, and so is the whole context by every effect that does not change it on later ticks; `TickEffectFits` states the consistency. |
| TickEffects.ChannelTickEffect | Amimod/libxm/LibXMPlayer.swift:584-682 | The effects that act on the channel alone on the later ticks (arpeggio, the portamentos, volume slide, vibrato, tremolo, key off, panning slide, tremor, note cut and the rest) leave the whole shared context as it was. |
| TickEffects.ContextTickEffect | Amimod/libxm/LibXMPlayer.swift:584-682 | The effects that can change the shared context on the later ticks (Hxy, Rxy, E9x, EDx) keep its instrument and sample tables and the module flags. |
| TickEffects.TickEffects | Amimod/libxm/LibXMPlayer.swift:551-683 | xm_tick_effects, volume column then effect column: the instrument and sample tables and the module flags are kept; `TickEffectsFits` states what else stays consistent. |
| TickEffects.TickEffectsFits | Amimod/libxm/LibXMPlayer.swift:551-683 | The effects of the later ticks keep a consistent context consistent: the tables, the flags, the time and the song position stay, the global volume stays in range, a requested jump goes to an entry of the order table, and the channel fits the tables and still plays its slot. |
| TickEffects.Portamento | Amimod/libxm/LibXMPlayer.swift:587-596 | 1xx and 2xx: the period slides by four times the remembered parameter, up in pitch for 1xx. |
| TickEffects.VolumeSlideEffect | Amimod/libxm/LibXMPlayer.swift:605-611 | Axy, and the second half of 5xy and 6xy: the volume slides by the remembered parameter. |
| TickEffects.VibratoEffect | Amimod/libxm/LibXMPlayer.swift:612-615 | 4xy: the speed and depth nibbles are remembered and the vibrato is reset after the row. |
| TickEffects.TremoloEffect | Amimod/libxm/LibXMPlayer.swift:625-627 | 7xy: the speed and depth nibbles are remembered and no field the channel invariant covers changes. |
| TickEffects.GlobalVolumeSlide | Amimod/libxm/LibXMPlayer.swift:628-634 | Hxy: the global volume slides by the remembered parameter, within 0 to 64. |
| TickEffects.PanningSlideEffect | Amimod/libxm/LibXMPlayer.swift:639-645 | Pxy: the panning slides by the remembered parameter. |
| TickEffects.Tremor | Amimod/libxm/LibXMPlayer.swift:648-660 | Txy, the tremor: a counter runs down each tick; when it is already 0 the note is switched on or off and the counter restarts at x (on) or y (off). The note is muted through the volume offset. |
| TickEffects.Restart | Amimod/libxm/LibXMPlayer.swift:661-668 | E9x and the end of EDx (trigger instrument, note, envelopes): the instrument and sample tables and the module flags are kept; `RestartFits` states the consistency. |
| TickEffects.DelayNote | Amimod/libxm/LibXMPlayer.swift:671-679 | EDx on tick x (the slot read as on a first tick, then the triggers and envelopes): the instrument and sample tables and the module flags are kept; `DelayNoteFits` states the consistency. |
| TickEffects.VolumeSlideByKeeps | Amimod/libxm/LibXMPlayer.swift:142-152 | A volume slide by any amount keeps the volume in range. |
| TickEffects.PanningSlideByKeeps | Amimod/libxm/LibXMPlayer.swift:142-152 | A panning slide by any amount keeps the panning in range. |
| Sequencer.NextEntry | Amimod/libxm/LibXMPlayer.swift:728-744 | The entry after an entry of the order table is the next one, or the restart position after the last. |
| Sequencer.ApplyJumpLands | Amimod/libxm/LibXMPlayer.swift:686-697 | After the start of a row the order index is in the order table, nothing is pending, the row is the requested one when a request was pending, and nothing but the position changed. |
| Sequencer.RowAdvances | Amimod/libxm/LibXMPlayer.swift:728-737 | Inside a pattern, or with a request pending, the row just advances; past the pattern's last row the song goes on at the next order entry, or at the restart position after the last entry. The order index stays in the order table. |
| Sequencer.EndVibrato | Amimod/libxm/LibXMPlayer.swift:713-715 | The vibrato offset is cleared when a vibrato asked for it and the slot has no vibrato; nothing else of the channel changes. |
| Sequencer.RowChannels | Amimod/libxm/LibXMPlayer.swift:704-718 | xm_row's channel loop over the first `n` channels keeps the number of channels; a trap stops it (`RowTrapStays`). |
| Sequencer.RowChannelsNext | Amimod/libxm/LibXMPlayer.swift:704-718 | One more channel of xm_row's channel loop. |
| Sequencer.RowTrapStays | Amimod/libxm/LibXMPlayer.swift:704-718 | A trap ends xm_row's channel loop: the later channels are not reached. |
| Sequencer.CountVisit | Amimod/libxm/LibXMPlayer.swift:719-727 | The row-visit counter of the row at order entry `index`: the loop count becomes the number of earlier visits and the counter counts this one (wrapping at 256); a row without a counter changes nothing. |
| Sequencer.RowStep | Amimod/libxm/LibXMPlayer.swift:685-738 | xm_row (pending jump, every channel's slot, visit count, advance) keeps the number of channels; `RowStepKeeps` states that it keeps a playing context valid. |
| Sequencer.RowStepKeeps | Amimod/libxm/LibXMPlayer.swift:685-738 | A row keeps a playing context valid. |
| Sequencer.RowFrom | Amimod/libxm/LibXMPlayer.swift:698-738 | xm_row once the row is settled: every channel's slot, then the end of the row; the number of channels is kept. |
| Sequencer.RowEnd | Amimod/libxm/LibXMPlayer.swift:719-737 | The end of xm_row once its channels are read: the visit count of the row unless a channel is in a pattern loop, and the advance of the position in a pattern of `numRows` rows. |
| Sequencer.ClockStart | Amimod/libxm/LibXMPlayer.swift:747-757 | The start of xm_tick: at the tempo the tick goes back to 0 and one more pass of the row is done; on tick 0, with no pattern delay or the delay's passes all done, the clock is cleared and a new row is read (the second component). |
| Sequencer.ClockRunAdd | Amimod/libxm/LibXMPlayer.swift:747-757 | Running `a` ticks and then `b` more is running `a + b`. |
| Sequencer.WithinPass | Amimod/libxm/LibXMPlayer.swift:747-757 | Inside one pass of a row the tick just counts up and no row is read. |
| Sequencer.DelayPasses | Amimod/libxm/LibXMPlayer.swift:747-757 | The first `j + 1` passes of a row delayed by `delay` passes read no row. |
| Sequencer.PatternDelayTicks | Amimod/libxm/LibXMPlayer.swift:747-757 | A row read with a pattern delay of `delay` passes (none for 0) lasts exactly `(delay + 1) * tempo` ticks: no row is read before, and the next tick reads the next one with a cleared delay. |
| Sequencer.FrequencyPeriod | Amimod/libxm/LibXMPlayer.swift:197-201 | The period the frequency is taken of: the channel's period less its vibrato and autovibrato offsets, clamped to at least 1 and at most 65535. |
| Sequencer.TickChannel | Amimod/libxm/LibXMPlayer.swift:758-834 | One channel of xm_tick (envelopes, later-tick effects, sample step, volume check): the instrument and sample tables and the module flags are kept; `TickChannelFits` and `TickVolumeFits` state the rest. |
| Sequencer.TickChannelFits | Amimod/libxm/LibXMPlayer.swift:758-834 | The tick of one channel keeps the context consistent, and the channel fits and still plays its slot. |
| Sequencer.ChannelStepping | Amimod/libxm/LibXMPlayer.swift:764-782 | The second part: for a playing period, the step through the sample and the 32-bit volume check. |
| Sequencer.SteppingTraps | Amimod/libxm/LibXMPlayer.swift:764-782 | With the channel invariant and the global volume in range the volume check never fails: stepping traps exactly where the sample step does. |
| Sequencer.TickVolumeFits | Amimod/libxm/LibXMPlayer.swift:774-782 | In a consistent context the volume of a channel never overflows: the tick of a channel traps only where its envelopes, its effects or its sample step trap. |
| Sequencer.TickChannels | Amimod/libxm/LibXMPlayer.swift:758-835 | xm_tick's channel loop over the first `n` channels keeps the number of channels; a trap stops it (`TickTrapStays`). |
| Sequencer.TickTrapStays | Amimod/libxm/LibXMPlayer.swift:758-835 | A trap ends xm_tick's channel loop: the later channels are not reached. |
| Sequencer.TickStep | Amimod/libxm/LibXMPlayer.swift:746-841 | xm_tick (clock, row when latched, channels, time) keeps the number of channels; `TickStepKeeps` states that it keeps a playing context valid and `TickMovesOnlyOnLatch` that only a latched row moves the song position. |
| Sequencer.TickStepKeeps | Amimod/libxm/LibXMPlayer.swift:746-841 | A tick keeps a playing context valid. |
| Sequencer.RowStepKeepsTables | Amimod/libxm/LibXMPlayer.swift:685-738 | A row never changes the instrument and sample tables or the module flags, in any context, for a slot processing that never does. |
| Sequencer.TickStepKeepsTables | Amimod/libxm/LibXMPlayer.swift:746-841 | A tick never changes the instrument and sample tables or the module flags, in any context, an empty order table included. |
| Sequencer.TickAfterRow | Amimod/libxm/LibXMPlayer.swift:758-840 | The part of xm_tick after the row keeps the number of channels; `TickAfterRowMoves` says it keeps the song position and counts the tick. |
| Sequencer.TickAfterRowMoves | Amimod/libxm/LibXMPlayer.swift:758-840 | The channels and the end of a tick keep the song position and count the tick. |
| Sequencer.TickMovesOnlyOnLatch | Amimod/libxm/LibXMPlayer.swift:746-757 | A tick that reads no row keeps the song position, and its clock moves as `ClockTick` says. |
| Playback.MaybeRestartPOT | Amimod/libxm/LibXMPlayer.swift:740-744 | An order index past the end of the order table goes back to the restart position, and nothing else changes. |
| Playback.StartRow | Amimod/libxm/LibXMPlayer.swift:686-697 | The start of xm_row, in place: the new state is `ApplyJump`, so the order index lies in the table and the requested row is taken (`Sequencer.ApplyJumpLands`). |
| Playback.EndRow | Amimod/libxm/LibXMPlayer.swift:728-737 | The end of xm_row, in place: the new state is `AdvanceRow`, the next row or the next order entry (`Sequencer.RowAdvances`). |
| Playback.ReadRowSlot | Amimod/libxm/LibXMPlayer.swift:705-717 | One channel of xm_row, on copies of the shared context and the channel: the outcome is exactly `Sequencer.RowChannel`, trap included. |
| Playback.RowChannelsLoop | Amimod/libxm/LibXMPlayer.swift:704-718 | The channel loop of xm_row succeeds exactly when `Sequencer.RowChannels` does and then leaves its context, channels and pattern-loop flag. |
| Playback.Row | Amimod/libxm/LibXMPlayer.swift:685-738 | xm_row on the song computes exactly `Sequencer.RowStep`, and is `None` where that traps. |
| Playback.StartTick | Amimod/libxm/LibXMPlayer.swift:747-757 | The start of xm_tick computes exactly `Sequencer.ClockStart`: the new clock, and whether a row is to be read. |
| Playback.TickChannelStep | Amimod/libxm/LibXMPlayer.swift:759-834 | The body of xm_tick's channel loop, step by step on copies of the shared context and the channel: the function `TickChannel` it computes is the channel tick `Ticker` hands to the loop. |
| Playback.TickChannelsLoop | Amimod/libxm/LibXMPlayer.swift:758-835 | The channel loop of xm_tick succeeds exactly when `Sequencer.TickChannels` does and then leaves its context and channels. |
| Playback.TickSong | Amimod/libxm/LibXMPlayer.swift:746-841 | xm_tick on the song computes exactly `Sequencer.TickStep`, and is `None` where that traps. |
| Playback.TickChannelsAndTime | Amimod/libxm/LibXMPlayer.swift:758-840 | The part of xm_tick after the row computes exactly `Sequencer.TickAfterRow`. |
| Playback.Tick | Amimod/libxm/LibXMPlayer.swift:746-841 | xm_tick on any loaded context, an empty order table included, for any slot processing and channel tick that keep the tables and keep a consistent context consistent: `ok` exactly when `TickStep` succeeds, and then the song is its result, and a valid context stays valid; on a trap the song is left as it was. |
| Playback.TickOutcome | Amimod/libxm/LibXMPlayer.swift:746-841 | A tick that succeeds keeps the instrument and sample tables and the module flags of any song, and keeps a valid song valid. |
| Playback.PlayerTick | Amimod/libxm/LibXMPlayer.swift:746-841 | xm_tick with the player's own slot processing and channel tick, on any loaded context, an empty order table included: `ok` exactly when `TickStep` succeeds, and then the song is its result, and a valid context stays valid; on a trap the song is left as it was. |
| Playback.PlayerTickKeeps | Amimod/libxm/LibXMPlayer.swift:746-841 | A tick of the player keeps a playing context valid. |
| Api.BuildConfig.constructor | Amimod/libxm/LibXMTypes.swift:129-132 | Square-root panning and volume ramping are on by default. |
| Api.PanningTypeOf | Amimod/libxm/LibXMAPI.swift:32-34 | The panning law a request selects: the request clamped into 0...8. |
| Api.SetPanningType | Amimod/libxm/LibXMAPI.swift:32-34 | Stores the clamped request, so the panning law always lies in 0...8. |
| Api.GetPosition | Amimod/libxm/LibXMAPI.swift:156-164 | getPosition. The order index is narrowed to 8 bits and looked up in the order table; both steps trap when out of range (`None`). The row reported is the one before `currentRow`, the row that was played last. |
| Api.Seek | Amimod/libxm/LibXMAPI.swift:46-53 | Sets the order index, the row and the tick to the ones given and the samples left in the tick to 0; nothing else changes. |
| Api.SeekThenPosition | Amimod/libxm/LibXMAPI.swift:46-53 | After seeking to an order entry of the table, getPosition reports that entry, its pattern and the row before the one sought, and no samples are lost. |
| Api.SeekKeepsValid | Amimod/libxm/LibXMAPI.swift:46-53 | Seeking inside the song keeps a playable context playable. |
| Api.MuteChannel | Amimod/libxm/LibXMAPI.swift:55-66 | muteChannel: channels are numbered from 1; the source traps on a number outside the module's channels and on a channel missing from the context's array. Returns the flag the channel had. |
| Api.MuteIn | Amimod/libxm/LibXMAPI.swift:55-78 | A table of channels or instruments with entry `idx` (counted from zero) given the new mute flag, every other entry kept. |
| Api.MuteChannelRestores | Amimod/libxm/LibXMAPI.swift:55-66 | Muting a channel and then giving it back its old flag restores every channel. |
| Api.MuteChannelKeepsValid | Amimod/libxm/LibXMAPI.swift:55-66 | The mute flag of a channel is not part of what playback relies on. |
| Api.MuteInstrument | Amimod/libxm/LibXMAPI.swift:67-78 | muteInstrument: instruments are numbered from 1; the source traps on a number outside the module's instruments and on an instrument missing from the context's array. Returns the flag the instrument had. |
| Api.MuteInstrumentRestores | Amimod/libxm/LibXMAPI.swift:67-78 | Muting an instrument and then giving it back its old flag restores every instrument. |
| Api.MuteInstrumentKeepsValid | Amimod/libxm/LibXMAPI.swift:67-78 | Muting an instrument keeps a playable context playable. |
| Api.InstrumentOfChannel | Amimod/libxm/LibXMAPI.swift:207-217 | getInstrumentOfChannel: the channel's instrument number counted from 1, else its sample number counted from 1, else 0. Narrowing the number to 8 bits traps when it does not fit (`None`). |
| Api.InstrumentOfReadyChannel | Amimod/libxm/LibXMAPI.swift:207-217 | In a playable context the getter never traps and never falls back to the sample number: it reports exactly the instrument counted from 1, or 0 for a channel without one. |
| Api.ClearTriggers | Amimod/libxm/LibXMAPI.swift:279-282 | The trigger times after zeroing those of the first `n` table entries, one entry at a time. |
| Api.ClearTriggersTwice | Amimod/libxm/LibXMAPI.swift:279-282 | Zeroing the trigger times a second time changes nothing. |
| Api.ClearedTriggers | Amimod/libxm/LibXMAPI.swift:279-282 | The source's loop that zeroes the trigger time of each instrument, or of each sample, in turn leaves exactly `ClearTriggers` of the first `count` entries. |
| Api.ResetContext | Amimod/libxm/LibXMAPI.swift:258-283 | resetContext. The new state is computed on the context's values, with the source's two loops over the trigger times, and written back in one step; the tables and the jump destination are kept. |
| Api.ResetKeepsValid | Amimod/libxm/LibXMAPI.swift:258-283 | A reset context is playable whenever it was, keeps its tables and array sizes, forgets every trigger time, and reports the first order entry with the row before row 0 (255) and no samples generated. |
| Api.ResetTwice | Amimod/libxm/LibXMAPI.swift:258-283 | Resetting twice is resetting once. |
| HexPatch.Clean | Amimod/HexPatch.swift:16 | The string with spaces removed and the ASCII letters a–z upper-cased, counted in Unicode scalar values: no longer, and holding no space and no ASCII lower-case letter. |
| HexPatch.PairByte | Amimod/HexPatch.swift:42-47 | The byte a two-character string denotes in base 16, as the standard library's `UInt8(_:radix:)` reads it: two digits, or one digit after a `+` sign, or `-0`; anything else is not a byte. |
| HexPatch.ParsePairs | Amimod/HexPatch.swift:26-51 | The pair-by-pair loop over a cleaned string of even length: accepts the string exactly when every pair is accepted (a byte, or a `??` where one is allowed), and then returns the pattern `Decoded` gives. |
| HexPatch.ParseHexPattern | Amimod/HexPatch.swift:13-53 | Parses a find or replacement hex string. Spaces are dropped and ASCII letters folded to upper case; an empty or odd-length string is refused; then each pair is a byte or a `??` wildcard, and the first pair that is neither, or a replacement wildcard with no wildcard under it in the find pattern, is reported. |
| HexPatch.ParseRender | Amimod/HexPatch.swift:13-53 | Parsing round trip: the hex rendering of any non-empty pattern is accepted as a find pattern and denotes that same pattern. |
| HexPatch.ValidatePatch | Amimod/HexPatch.swift:324-332 | Checks one find/replace pair of a patch list before counting its matches. It succeeds exactly when the find string parses, the replacement parses against it and both have the same length, and then returns the two patterns. A find string that does not parse fails with its parse error, and so does a replacement that does not parse. Two patterns that parse but differ in length fail with `HexStringLengthMismatch`. |
| HexPatch.RejectedWithUnique | Amimod/HexPatch.swift:13-53 | A refused string has exactly one parse error: the empty-string, odd-length and first-rejected-pair cases exclude one another. |
| HexPatch.MatchesInSound | Amimod/HexPatch.swift:78-104 | Every offset reported in `[lo, hi)` is in range and matches. |
| HexPatch.MatchesInSorted | Amimod/HexPatch.swift:78-104 | The offsets are reported in strictly increasing order. |
| HexPatch.MatchesInComplete | Amimod/HexPatch.swift:78-104 | No matching offset in `[lo, hi)` is missed. |
| HexPatch.ReportedSorted | Amimod/HexPatch.swift:78-104 | A chunk reports at most the cap, in strictly increasing order. |
| HexPatch.ReportedSound | Amimod/HexPatch.swift:78-104 | Every reported offset, less the chunk's file offset, is a match. |
| HexPatch.ReportedComplete | Amimod/HexPatch.swift:78-104 | Below the cap, every match of a pattern with a fixed byte is reported. |
| HexPatch.MemChr | Amimod/HexPatch.swift:83-87 | `memchr`: the first index in `[from, to)` holding byte `b`, if any. |
| HexPatch.LiftMatches | Amimod/HexPatch.swift:98 | Without wildcards, a match is a window of `data` equal to the pattern. |
| HexPatch.ScanStep | Amimod/HexPatch.swift:78-105 | One step of the scan loop shared by both searches: `memchr` found the anchor byte at `f`, so no offset between the scan position and `f`'s window start can match. |
| HexPatch.ScanCollect | Amimod/HexPatch.swift:78-105 | The candidate window at `start` is appended exactly when it matches. |
| HexPatch.ScanAdvance | Amimod/HexPatch.swift:78-105 | One round of the scan loop: `memchr` found the anchor byte at `f`, and the candidate at `f - li` was judged; what is collected afterwards is every match up to and including that candidate. |
| HexPatch.ScanEnd | Amimod/HexPatch.swift:78-105 | After the scan loop stops, what it collected is what the chunk reports. |
| HexPatch.StandardCandidate | Amimod/HexPatch.swift:93-102 | The check of one candidate window whose last byte is already known to agree: a pattern of one byte matches outright, a longer one needs its second-to-last byte and then the whole window (`memcmp`) to agree. |
| HexPatch.StandardSearch | Amimod/HexPatch.swift:55-111 | The exact-byte search of one chunk: `memchr` for the pattern's last byte, then a cheap check of the second-to-last byte and a full comparison. It reports exactly what `Reported` says. |
| HexPatch.FindAnchors | Amimod/HexPatch.swift:118-130 | The first and the last non-wildcard position of a pattern, in one pass. |
| HexPatch.FixedChecksSpec | Amimod/HexPatch.swift:132-135 | The fixed checks list exactly the non-wildcard positions other than the anchors. |
| HexPatch.WildcardCandidate | Amimod/HexPatch.swift:167-180 | The check of one candidate window whose last anchor byte is already known to agree: the first anchor, then every other fixed byte in order, stopping at the first disagreement. |
| HexPatch.WildcardSearch | Amimod/HexPatch.swift:113-187 | The wildcard search of one chunk: a pattern without any fixed byte reports nothing; otherwise `memchr` for the last fixed byte, then the first fixed byte and the other fixed bytes. It reports exactly what `Reported` says. |
| HexPatch.WildcardScan | Amimod/HexPatch.swift:149-185 | The `memchr` scan loop of the wildcard search, once the anchors and fixed checks are known, reports exactly what `Reported` says: the matches in increasing order up to the cap. |

## Left out

- Floating point: the Amiga and linear frequency formulas (`powf` in `xm_linear_frequency`, `xm_amiga_frequency`, `xm_amiga_period`) are not computed; the Amiga period of a note and the frequency of a channel are parameters (`amigaPeriod`, `frequency`) of the functions that use them.
- Floating point: the square-root panning law and panning tables, volume ramping (`slideTowards`, target and actual volume), linear interpolation between sample points, output clamping, and the floating-point parts of `xm_next_of_sample`, `sample()`, `sampleUnmixed()` and `xm_next_of_channel` (mixing audio frames) are not modelled. Only the integer sample-position loop wrap is.
- The ramping pre-roll at the start of `xm_trigger_note` (LibXMPlayer.swift:1036-1048) advances the sample position through `xm_next_of_sample` for the fade-out frames; the model does not advance it.
- `loadXM0104Instrument` (LibXMLoader.swift:603-755) is modelled by its parts (envelope points and checks, sample headers, delta-coded sample data) but not as a whole: the instrument fields, the keymap, the vibrato-type table and the placement and count of an instrument's samples are not.
- `createContext`/`load`, `sizeForContext`/`contextSize`, the encoder and decoder of a context, and `withSampleWaveformMutable`: allocation, serialisation and unsafe buffer access.
- `HexPatch.Clean`: only the ASCII letters a–z are upper-cased, and a string is a sequence of Unicode scalar values. Swift's `uppercased()` applies the full Unicode case mapping ("ß" becomes "SS", "ﬀ" becomes "FF") and `count` counts grapheme clusters, so the model agrees with the source only on ASCII input; on other input the two can differ, for example "ﬀ" is the byte 0xFF to the source and an odd-length string to the model.
- `readString` decodes the bytes as UTF-8 and yields "" for invalid text; the model keeps strings as the bytes before the first NUL.
- Logging of normalised data (NOTICE messages) is not modelled.
- AudioManager.swift, ContentView.swift and AmimodApp.swift (audio output and user interface) are not part of this model.
- HexPatch: `findMatches` (splitting a file into chunks on an operation queue under a lock), `searchChunk` (reading a chunk from a file handle and choosing between the two searches), `applyPatches`, `findAndReplaceHexStrings` and the file I/O and 50000-match cap of `countTotalMatches` are not modelled; `ValidatePatch` models the checks `countTotalMatches` makes before searching.
- Other API functions not modelled: `setRamping`, `setMaxLoopCount`, the getters of names, speeds, loop counts, latest triggers, channel activity and channel frequency, volume and panning (floating point), and the `generateSamples` family (mixing).
- The trigger times of instruments and samples (`latestTrigger` in the source) are kept in two maps beside the tables, `instrumentTriggers` and `sampleTriggers`; an absent key stands for 0.
- The remembered effect parameters of a channel are grouped in one `EffectMemory` record.
- The build configuration's constants are fixed as in the source: looping type 2 and no disabled features or effects.
- `Playback.Tick`: where the source traps, the model reports `ok == false` and leaves the song state as it was; the source stops the process.
- `Playback.PlayerTick`: an instrument table that the tick could not process without trapping (an instrument whose envelopes are not usable) is treated as a trap.
- `Api.MuteChannel`, `Api.MuteInstrument`: besides the source's range check on the number, they require the channel or instrument to exist in the context's array, where the source would trap on the index.
- `Api.SeekKeepsValid`: seeking keeps a playable context playable only for an order index inside the song; the source accepts any index and may trap on the next tick.
- `Slots.TriggerNote`: its contract states only the release case and what a successful trigger keeps; the sample selection and the start of the sample are stated by `TriggerNoteCases`, `TriggerNoteSelects`, `SelectSample` and `StartSample`, and consistency by `TriggerNoteFits`.
- `Slots.SlotEffect`: its contract states when it may trap and what it keeps; what each effect does is stated by `ContextEffect`, `ChannelEffect`, `FinePortamento`, `MultiRetrig` and `PatternLoop`.
- `Slots.HandlePatternSlot`: its contract states only that the instrument and sample tables and the module flags are kept; the parts are stated by `SlotNote`, `SlotInstrument`, `SlotVolumeColumn` and `SlotEffect`, and consistency by `HandlePatternSlotFits`.
- `TickEffects.TickVolumeColumn`: its contract states only that inactive columns change nothing; the active columns are stated by `VolumeSlide`, `PanningSlide` and `VolumeColumnVibrato`, and consistency by `TickVolumeColumnKeeps`.
- `TickEffects.TickEffect`: its contract states what is kept; what each effect does is stated by the per-effect functions (`Portamento`, `VolumeSlideEffect`, `VibratoEffect`, `TremoloEffect`, `GlobalVolumeSlide`, `PanningSlideEffect`, `Tremor`, `Restart`, `DelayNote`) and consistency by `TickEffectFits`.
- `TickEffects.TickEffects`: its contract states only that the instrument and sample tables and the module flags are kept; consistency is `TickEffectsFits`.
- `TickEffects.Restart`: its contract states only that the instrument and sample tables and the module flags are kept; consistency is `RestartFits`.
- `TickEffects.DelayNote`: its contract states only that the instrument and sample tables and the module flags are kept; consistency is `DelayNoteFits`.
- `Sequencer.RowChannels`: its contract states only that the channel count is kept; a trap stopping the loop is `RowTrapStays` and consistency is `RowChannelsFit`.
- `Sequencer.RowStep`: its contract states only that the channel count is kept; validity is `RowStepKeeps` and the parts are `ApplyJumpLands`, `RowAdvances` and `CountVisit`.
- `Sequencer.RowFrom`: its contract states only that the channel count is kept; validity is `RowFromKeeps`.
- `Sequencer.TickChannel`: its contract states only that the instrument and sample tables and the module flags are kept; consistency is `TickChannelFits` and the absence of volume overflow is `TickVolumeFits`.
- `Sequencer.TickChannels`: its contract states only that the channel count is kept; a trap stopping the loop is `TickTrapStays` and consistency is `TickChannelsFit`.
- `Sequencer.TickStep`: its contract states only that the channel count is kept; validity is `TickStepKeeps`, and `TickMovesOnlyOnLatch` and `PatternDelayTicks` state the timing.
- `Sequencer.TickStepKeeps`, `Playback.PlayerTickKeeps`: playing validity includes an order table of at least one entry, so for a song whose order table is empty, which both loaders accept, the model states only the tick's outcome and that the tables are kept (`Sequencer.TickStepKeepsTables`).
- `Sequencer.TickAfterRow`: its contract states only that the channel count is kept; `TickAfterRowMoves` and `TickAfterRowKeeps` state the rest.
- `LoaderXM.UnpackSlot`: its contract bounds the bytes used; the decoded values are stated by `UnpackPackSlot`, `UnpackFullSlot` and `UnpackNonZero`.
- `LoaderXM.WriteAll`: its contract states only that the table keeps its size; the contents are `WriteAllIsOverlay`.

## Findings

| source | as written | input that shows it | evidently intended | confidence | as-written member | corrected member |
|---|---|---|---|---|---|---|
| Amimod/libxm/LibXMLoader.swift:414 | `trimSampleLength` adds `loopStart + loopLength` with Swift's checked `UInt32` `+`, which traps on overflow; the prescan (line 271) calls it on untrusted headers | a looped sample header with loop start 0xFFFFFFFF and loop length 1 (`Prescan.TrimOverflowExample`) | a loop running past the end is dropped, as the comparison is meant to decide, without trapping (`Prescan.TrimAsWrittenAgrees` shows both agree wherever the sum fits) | not executed | Prescan.TrimSampleLengthAsWritten | Prescan.TrimSampleLength |
| Amimod/libxm/LibXMLoader.swift:361-363 | a MOD sample length in 16-bit words is doubled in `UInt16`, which traps for a word of 0x8000 or more (also at lines 958-961) | a sample of 0x8000 words, i.e. 64 KiB, which the format allows (`Prescan.ModWordOverflowExample`) | the byte count `2 * word`, up to 131070, computed in 32 bits | not executed | Prescan.ModWordBytesAsWritten | Prescan.ModWordBytes |
| Amimod/libxm/LibXMLoader.swift:375 | the pattern count of a MOD is the largest order entry plus one, computed in `UInt8` with `&+`, so an entry of 255 wraps the count to 0 | the order table [255, 0] gives 1 pattern instead of 256 (`Prescan.OrderTableCountWrapExample`) | one more than the largest entry, 256 here (`Prescan.OrderTableCountIsMax`) | not executed | Prescan.OrderTableCountAsWritten | Prescan.OrderTableCount |
| Amimod/libxm/LibXMLoader.swift:101 | after loading, `createContext` checks with `precondition` that the module's order-table length equals the prescan's; for a MOD the prescan records the length byte unclamped (line 371) while `loadMOD` clamps it to 128 (lines 978-981), so the check fails and the process stops | a MOD whose length byte at offset 950 is 200 (`LoaderMOD.PotLengthMismatchExample`) | the prescan clamps the length to 128 as the loader does, and the check holds for every file (`LoaderMOD.ModOrdersLength`) | not executed | Prescan.ModPotLengthAsWritten | Prescan.ModPotLength |
| Amimod/libxm/LibXMLoader.swift:533-534 | the pattern loader checks the declared row count (at most 256) before giving an empty pattern its 64 rows, while the prescan (lines 200-207) overrides the count first and accepts the file | an XM pattern with no packed data that declares 1000 rows (`LoaderXM.PatternRowsTrapExample`) | an empty pattern gets 64 rows whatever it declares, as in the prescan | not executed | LoaderXM.PatternRowsAsWritten | LoaderXM.LoadPattern |
| Amimod/libxm/LibXMLoader.swift:857 | the sample header loader adds the clamped loop start and the loop length with checked `UInt32` `+` before looking at the loop flags, so an unlooped sample with garbage loop fields traps | an unlooped 100-frame sample with loop start 1 and loop length 0xFFFFFFFF, which the prescan sizes without trapping (`LoaderXM.SampleHeaderTrapExample`) | loop fields of an unlooped sample are ignored, and an overlong loop is dropped | not executed | LoaderXM.LoadSampleHeaderAsWritten | LoaderXM.LoadSampleHeader |
| Amimod/libxm/LibXMLoader.swift:947 | a MOD finetune nibble of 8 to 15 is made negative as `finetune - 16` on a `UInt8`, which traps | a finetune nibble of 15 (`LoaderMOD.ModFinetuneTrapExample`) | the nibble read as a signed 4-bit value, doubled: -2 for 15 | not executed | LoaderMOD.ModFinetuneAsWritten | LoaderMOD.ModFinetune |
| Amimod/libxm/LibXMLoader.swift:962-966 | a MOD loop of more than 2 bytes cuts the sample to the loop end but keeps the loop length even when the loop runs past the end of the sample | a 100-byte sample with a 102-byte loop at 0: the length becomes 0 and the loop stays 102 bytes (`LoaderMOD.ModLoopOverrunExample`) | an overrunning loop is dropped, as the XM loader does, so the loop always lies inside the sample | not executed | LoaderMOD.ModSampleHeaderAsWritten | LoaderMOD.ModSampleHeader |
