/**
 * The XM 1.04 loader: the module header, packed pattern data, envelopes,
 * sample headers and delta-coded sample data, and the repair of order-table
 * entries that name a missing pattern. It runs after the prescan has
 * accepted the file and the context tables have been allocated from the
 * prescan's sizes.
 */
module LoaderXM {
  import opened Wrappers
  import opened Ints
  import opened Readers
  import opened XMTypes
  import opened Prescan

  // ---------------------------------------------------------------------
  // Module header
  // ---------------------------------------------------------------------

  /**
   * Reads the module header into `m`: the order-table length clamped to
   * 256, a restart position past the end reset to 0, the channel, pattern
   * and instrument counts, Amiga or linear frequencies from flag bit 0, the
   * tempo forced below 32, the BPM clamped to 255, the order table, the
   * names; and the offset of the first pattern header.
   */
  function LoadModuleHeader(m: Module, data: seq<u8>): (r: (Module, int))
    ensures r.1 == XMFirstPatternHeader(data)
    ensures r.0.length as nat == Min(XMPotLength(data), PatternOrderTableLength)
    ensures r.0.restartPosition == 0 || r.0.restartPosition < r.0.length
    ensures ReadU16LE(data, 66) < r.0.length ==> r.0.restartPosition == ReadU16LE(data, 66)
    ensures r.0.tempo < MinBpm && (ReadU16LE(data, 76) < MinBpm as int ==> r.0.tempo == ReadU16LE(data, 76))
    ensures r.0.bpm <= MaxBpm && (ReadU16LE(data, 78) <= MaxBpm as int ==> r.0.bpm == ReadU16LE(data, 78))
    ensures r.0.amigaFrequencies <==> !HasFlag(ReadU16LE(data, 74), 1)
    ensures r.0.patternTable == XMPot(data) && |r.0.patternTable| == PatternOrderTableLength
    ensures r.0.numChannels == ReadU8(data, 68) && r.0.numPatterns == XMPatterns(data)
    ensures r.0.numInstruments == ReadU8(data, 72) && !r.0.isMOD
    ensures r.0.name == ReadString(data, 17, 20) && r.0.trackerName == ReadString(data, 38, 20)
    ensures r.0.samplesDataLength == m.samplesDataLength && r.0.numRows == m.numRows
    ensures r.0.numSamples == m.numSamples && r.0.rate == m.rate && r.0.maxLoopCount == m.maxLoopCount
  {
    var length := if ReadU16LE(data, 64) as nat > PatternOrderTableLength then PatternOrderTableLength else ReadU16LE(data, 64) as nat;
    var restart := ReadU16LE(data, 66);
    var tempo := ReadU16LE(data, 76);
    var bpm := ReadU16LE(data, 78);
    (m.(name := ReadString(data, 17, 20),
        trackerName := ReadString(data, 38, 20),
        isMOD := false,
        length := length,
        restartPosition := if restart >= length then 0 else restart,
        numChannels := ReadU8(data, 68),
        numPatterns := ReadU16LE(data, 70),
        numInstruments := ReadU8(data, 72),
        amigaFrequencies := !HasFlag(ReadU16LE(data, 74), 1),
        tempo := if tempo >= MinBpm as int then MinBpm - 1 else tempo,
        bpm := if bpm > MaxBpm as int then MaxBpm else bpm,
        patternTable := ReadArray(data, 80, PatternOrderTableLength)),
     60 + ReadU32LE(data, 60))
  }

  // ---------------------------------------------------------------------
  // Packed pattern data
  // ---------------------------------------------------------------------

  /** An optional field of a packed slot: its byte and the next position, or 0 and the same position. */
  function PackedField(data: seq<u8>, pos: int, end: int, present: bool): (u8, int)
  {
    if present then (ReadU8Bounded(data, pos, end), pos + 1) else (0, pos)
  }

  /**
   * The fields of a packed slot: for each flag in turn, the next byte when
   * the flag is set, or 0 without moving. Returns the fields and the
   * position after the last one read.
   */
  function UnpackFields(data: seq<u8>, pos: int, end: int, flags: seq<bool>): (r: (seq<u8>, int))
    ensures |r.0| == |flags| && pos <= r.1 <= pos + |flags|
    decreases |flags|
  {
    if flags == [] then ([], pos)
    else
      var f := PackedField(data, pos, end, flags[0]);
      var rest := UnpackFields(data, f.1, end, flags[1..]);
      ([f.0] + rest.0, rest.1)
  }

  /**
   * Decodes the slot at `pos`, reading nothing at or past `end`. A first
   * byte with bit 7 set is a mask saying which of the five fields follow
   * (bits 0 to 4: note, instrument, volume column, effect type, effect
   * parameter); any other first byte is the note of a slot stored in full,
   * five bytes. Returns the slot and the number of bytes it takes.
   */
  function UnpackSlot(data: seq<u8>, pos: int, end: int): (r: (Slot, nat))
    ensures 1 <= r.1 <= 6
  {
    var a := ReadU8Bounded(data, pos, end);
    if HasFlag(a, 0x80) then
      var f := UnpackFields(data, pos + 1, end,
                 [HasFlag(a, 0x01), HasFlag(a, 0x02), HasFlag(a, 0x04), HasFlag(a, 0x08), HasFlag(a, 0x10)]);
      (Slot(f.0[0], f.0[1], f.0[2], f.0[3], f.0[4]), f.1 - pos)
    else
      (Slot(a, ReadU8Bounded(data, pos + 1, end), ReadU8Bounded(data, pos + 2, end),
            ReadU8Bounded(data, pos + 3, end), ReadU8Bounded(data, pos + 4, end)), 5)
  }

  /** The mask byte of a packed slot: bit 7, and one bit per non-zero field. */
  function PackMask(s: Slot): u8
  {
    0x80 + (if s.note != 0 then 0x01 else 0) + (if s.instrument != 0 then 0x02 else 0)
         + (if s.volumeColumn != 0 then 0x04 else 0) + (if s.effectType != 0 then 0x08 else 0)
         + (if s.effectParam != 0 then 0x10 else 0)
  }

  /** The five bytes of a slot stored in full. */
  function FullSlot(s: Slot): seq<u8>
  {
    [s.note, s.instrument, s.volumeColumn, s.effectType, s.effectParam]
  }

  /** The non-zero bytes of `xs`, in order. */
  function NonZero(xs: seq<u8>): (r: seq<u8>)
    ensures |r| <= |xs|
  {
    if xs == [] then [] else (if xs[0] != 0 then [xs[0]] else []) + NonZero(xs[1..])
  }

  /** Which bytes of `xs` are non-zero. */
  function NonZeroFlags(xs: seq<u8>): (r: seq<bool>)
    ensures |r| == |xs| && forall i :: 0 <= i < |xs| ==> r[i] == (xs[i] != 0)
  {
    seq(|xs|, i requires 0 <= i < |xs| => xs[i] != 0)
  }

  /** The packed encoding of a slot: a mask byte naming its non-zero fields, then those fields. */
  function PackSlot(s: Slot): seq<u8>
  {
    [PackMask(s)] + NonZero(FullSlot(s))
  }

  /** The mask byte has bit 7 set and flags exactly the non-zero fields. */
  lemma PackMaskBits(s: Slot)
    ensures HasFlag(PackMask(s), 0x80)
    ensures [HasFlag(PackMask(s), 0x01), HasFlag(PackMask(s), 0x02), HasFlag(PackMask(s), 0x04),
             HasFlag(PackMask(s), 0x08), HasFlag(PackMask(s), 0x10)] == NonZeroFlags(FullSlot(s))
  {
    var m := PackMask(s);
    var n, i, v, e, p := s.note != 0, s.instrument != 0, s.volumeColumn != 0, s.effectType != 0, s.effectParam != 0;
    assert m / 0x80 == 1;
    assert m / 0x10 == 8 + (if p then 1 else 0);
    assert m / 0x08 == 16 + 2 * (if p then 1 else 0) + (if e then 1 else 0);
    assert m / 0x04 == 32 + 4 * (if p then 1 else 0) + 2 * (if e then 1 else 0) + (if v then 1 else 0);
    assert m / 0x02 == 64 + 8 * (if p then 1 else 0) + 4 * (if e then 1 else 0) + 2 * (if v then 1 else 0) + (if i then 1 else 0);
  }

  /** The non-zero bytes written anywhere in the data read back as all the bytes, zeros included. */
  lemma {:induction false} UnpackNonZero(pre: seq<u8>, xs: seq<u8>, post: seq<u8>, end: int)
    requires end >= |pre| + |NonZero(xs)|
    ensures UnpackFields(pre + NonZero(xs) + post, |pre|, end, NonZeroFlags(xs)) == (xs, |pre| + |NonZero(xs)|)
    decreases |xs|
  {
    if xs != [] {
      var o := if xs[0] != 0 then [xs[0]] else [];
      var t := xs[1..];
      var d := pre + NonZero(xs) + post;
      assert d == (pre + o) + NonZero(t) + post;
      assert NonZeroFlags(xs)[1..] == NonZeroFlags(t);
      UnpackNonZero(pre + o, t, post, end);
      if xs[0] != 0 {
        assert d[|pre|] == xs[0];
      }
      assert xs == [xs[0]] + t;
    }
  }

  /** A packed slot decodes back to itself, wherever it sits in the pattern data. */
  lemma UnpackPackSlot(pre: seq<u8>, s: Slot, post: seq<u8>, end: int)
    requires end >= |pre| + |PackSlot(s)|
    ensures UnpackSlot(pre + PackSlot(s) + post, |pre|, end) == (s, |PackSlot(s)|)
  {
    var d := pre + PackSlot(s) + post;
    var m := PackMask(s);
    assert d[|pre|] == m;
    assert d == (pre + [m]) + NonZero(FullSlot(s)) + post;
    PackMaskBits(s);
    UnpackNonZero(pre + [m], FullSlot(s), post, end);
  }

  /** A slot stored in full (its note below 0x80) decodes back to itself. */
  lemma UnpackFullSlot(pre: seq<u8>, s: Slot, post: seq<u8>, end: int)
    requires s.note < 0x80 && end >= |pre| + 5
    ensures UnpackSlot(pre + FullSlot(s) + post, |pre|, end) == (s, 5)
  {
    var d := pre + FullSlot(s) + post;
    assert d[|pre|] == s.note && d[|pre| + 1] == s.instrument && d[|pre| + 2] == s.volumeColumn;
    assert d[|pre| + 3] == s.effectType && d[|pre| + 4] == s.effectParam;
  }

  /** All slots of the packed data from `pos` up to `end`, in order. */
  function UnpackSlots(data: seq<u8>, pos: int, end: int): seq<Slot>
    decreases end - pos, 1
  {
    if pos >= end then [] else UnpackSlotsFrom(data, pos, end)
  }

  /** The slot at `pos`, then the slots after it. */
  function UnpackSlotsFrom(data: seq<u8>, pos: int, end: int): seq<Slot>
    requires pos < end
    decreases end - pos, 0
  {
    var s := UnpackSlot(data, pos, end);
    [s.0] + UnpackSlots(data, pos + s.1, end)
  }

  /** `slots` with `xs` written from index `base` on, dropping what falls past the end. */
  function Overlay(slots: seq<Slot>, base: nat, xs: seq<Slot>): seq<Slot>
  {
    seq(|slots|, i requires 0 <= i < |slots| => if base <= i < base + |xs| then xs[i - base] else slots[i])
  }

  lemma OverlayAppend(slots: seq<Slot>, base: nat, xs: seq<Slot>, x: Slot)
    ensures Overlay(slots, base, xs + [x])
         == if base + |xs| < |slots| then Overlay(slots, base, xs)[base + |xs| := x] else Overlay(slots, base, xs)
  {
  }

  /**
   * The row count the source's pattern loader checks: the declared count,
   * before an empty pattern's count is overridden to 64. A declared count
   * over 256 traps (None), even for an empty pattern that the prescan
   * accepted.
   */
  function PatternRowsAsWritten(data: seq<u8>, offset: int): (r: Option<u16>)
    ensures r.Some? <==> ReadU16LE(data, offset + 5) as nat <= MaxRowsPerPattern
    ensures r.Some? ==> r.value == PatternHeaderRows(data, offset)
  {
    if ReadU16LE(data, offset + 5) as nat > MaxRowsPerPattern then None
    else Some(PatternHeaderRows(data, offset))
  }

  /** An empty pattern declaring 1000 rows: accepted by the prescan as 64 rows, trapped by the loader's check. */
  lemma PatternRowsTrapExample()
    ensures var header := [9, 0, 0, 0, 0, 0xE8, 0x03, 0, 0];
      && PatternWalk(header, 0, 1, 0) == Some((64, 9))
      && PatternRowsAsWritten(header, 0).None?
  {
    var header: seq<u8> := [9, 0, 0, 0, 0, 0xE8, 0x03, 0, 0];
    assert ReadU16LE(header, 5) == 1000;
    assert ReadU16LE(header, 7) == 0;
    assert ReadU32LE(header, 0) == 9;
    assert PatternHeaderRows(header, 0) == 64;
    assert PatternWalk(header, 9, 0, 64) == Some((64, 9));
  }

  /**
   * Writes `xs` one at a time from index `k` on, skipping the indices past
   * the end of the table: the slot loop of the pattern loader.
   */
  function WriteAll(r: seq<Slot>, k: nat, xs: seq<Slot>): (w: seq<Slot>)
    ensures |w| == |r|
    decreases |xs|
  {
    if xs == [] then r
    else WriteAll(if k < |r| then r[k := xs[0]] else r, k + 1, xs[1..])
  }

  /** Writing the rest after an overlaid prefix overlays the whole list. */
  lemma {:induction false} WriteAllOverlay(slots: seq<Slot>, base: nat, xs: seq<Slot>, ys: seq<Slot>)
    ensures WriteAll(Overlay(slots, base, xs), base + |xs|, ys) == Overlay(slots, base, xs + ys)
    decreases |ys|
  {
    if ys == [] {
      assert xs + ys == xs;
    } else {
      OverlayAppend(slots, base, xs, ys[0]);
      WriteAllOverlay(slots, base, xs + [ys[0]], ys[1..]);
      assert (xs + [ys[0]]) + ys[1..] == xs + ys;
    }
  }

  lemma WriteAllCons(r: seq<Slot>, k: nat, x: Slot, rest: seq<Slot>)
    ensures WriteAll(r, k, [x] + rest) == WriteAll(if k < |r| then r[k := x] else r, k + 1, rest)
  {
    assert ([x] + rest)[1..] == rest;
  }

  lemma UnpackSlotsCons(data: seq<u8>, pos: int, end: int)
    requires pos < end
    ensures UnpackSlots(data, pos, end)
         == [UnpackSlot(data, pos, end).0] + UnpackSlots(data, pos + UnpackSlot(data, pos, end).1, end)
  {
  }

  lemma UnpackWriteStep(r: seq<Slot>, k: nat, data: seq<u8>, pos: int, end: int)
    requires pos < end
    ensures WriteAll(r, k, UnpackSlots(data, pos, end))
         == WriteAll(if k < |r| then r[k := UnpackSlot(data, pos, end).0] else r, k + 1,
                     UnpackSlots(data, pos + UnpackSlot(data, pos, end).1, end))
  {
    var s := UnpackSlot(data, pos, end);
    UnpackSlotsCons(data, pos, end);
    WriteAllCons(r, k, s.0, UnpackSlots(data, pos + s.1, end));
  }

  /** Writing the slots one at a time is laying all of them over the table at once. */
  lemma WriteAllIsOverlay(slots: seq<Slot>, base: nat, xs: seq<Slot>)
    ensures WriteAll(slots, base, xs) == Overlay(slots, base, xs)
  {
    assert Overlay(slots, base, []) == slots;
    WriteAllOverlay(slots, base, [], xs);
    assert [] + xs == xs;
  }

  /** One step of the slot loop: decodes the slot at `pos` and writes it at `index` when in range. */
  method WriteNextSlot(r: seq<Slot>, index: nat, data: seq<u8>, pos: int, end: int) returns (r': seq<Slot>, pos': int)
    requires pos < end
    ensures pos < pos'
    ensures WriteAll(r, index, UnpackSlots(data, pos, end)) == WriteAll(r', index + 1, UnpackSlots(data, pos', end))
  {
    var s := UnpackSlot(data, pos, end);
    UnpackWriteStep(r, index, data, pos, end);
    r' := r;
    if index < |r| {
      r' := r[index := s.0];
    }
    pos' := pos + s.1;
  }

  /**
   * Decodes the packed data from `offset` to `end`, writing the slots from
   * index `slotsBase` on and dropping those past the end of the table.
   */
  method UnpackInto(slots: seq<Slot>, slotsBase: nat, data: seq<u8>, offset: int, end: int) returns (r: seq<Slot>)
    ensures r == WriteAll(slots, slotsBase, UnpackSlots(data, offset, end))
  {
    r := slots;
    var pos := offset;
    var index: nat := slotsBase;
    ghost var target := WriteAll(slots, slotsBase, UnpackSlots(data, offset, end));
    while pos < end
      invariant target == WriteAll(r, index, UnpackSlots(data, pos, end))
      decreases end - pos
    {
      r, pos := WriteNextSlot(r, index, data, pos, end);
      index := index + 1;
    }
  }

  /**
   * The slot table after a pattern's packed data, `packedSize` bytes from
   * `start`, is loaded: unchanged for a pattern without packed data,
   * otherwise the decoded slots laid over the table from index `base` on.
   */
  function LoadedSlots(slots: seq<Slot>, base: nat, data: seq<u8>, start: int, packedSize: int): seq<Slot>
  {
    if packedSize == 0 then slots else WriteAll(slots, base, UnpackSlots(data, start, start + packedSize))
  }

  /**
   * Loading a pattern lays its decoded slots over the table from `base`
   * on: the table keeps its size, and every slot outside the written range
   * keeps its value.
   */
  lemma LoadedSlotsOverlay(slots: seq<Slot>, base: nat, data: seq<u8>, start: int, packedSize: int)
    ensures packedSize == 0 ==> LoadedSlots(slots, base, data, start, packedSize) == slots
    ensures packedSize != 0 ==> LoadedSlots(slots, base, data, start, packedSize)
                                == Overlay(slots, base, UnpackSlots(data, start, start + packedSize))
  {
    if packedSize != 0 {
      WriteAllIsOverlay(slots, base, UnpackSlots(data, start, start + packedSize));
    }
  }

  /** The index of the first slot of row `row` in the module-wide slot table. */
  function SlotOffset(row: u32, channels: u8): nat
  {
    row as nat * channels as nat
  }

  /**
   * Loads pattern `patIndex` from its header at `headerOffset`: the pattern
   * starts at the module's current row total and has the header's row
   * count (64 for a pattern without packed data), the row total grows by
   * that count, and the packed slots are written from row `rowsIndex` on,
   * skipping those past the end of the slot table. Returns the offset of
   * the next pattern header.
   */
  method LoadPattern(ctx: Context, patIndex: nat, data: seq<u8>, headerOffset: int) returns (next: int)
    requires patIndex < |ctx.patterns|
    requires PatternHeaderRows(data, headerOffset) as nat <= MaxRowsPerPattern
    requires ctx.mod.numRows <= 0xFFFF
    modifies ctx
    ensures next == NextPatternHeader(data, headerOffset)
    ensures ctx.patterns == old(ctx.patterns)[patIndex := Pattern(old(ctx.mod.numRows), PatternHeaderRows(data, headerOffset))]
    ensures ctx.mod == old(ctx.mod).(numRows := old(ctx.mod.numRows) + PatternHeaderRows(data, headerOffset))
    ensures ctx.patternSlots
         == LoadedSlots(old(ctx.patternSlots), SlotOffset(old(ctx.mod.numRows), old(ctx.mod.numChannels)), data,
                        headerOffset + ReadU32LE(data, headerOffset), ReadU16LE(data, headerOffset + 7))
    ensures ctx.instruments == old(ctx.instruments) && ctx.samples == old(ctx.samples)
    ensures ctx.samplesData == old(ctx.samplesData) && ctx.channels == old(ctx.channels)
  {
    var packedSize := ReadU16LE(data, headerOffset + 7);
    var numRows := ReadU16LE(data, headerOffset + 5);
    if packedSize == 0 {
      numRows := EmptyPatternNumRows;
    }
    var rowsIndex: u16 := ctx.mod.numRows;
    var start := headerOffset + ReadU32LE(data, headerOffset);
    var slotsBase := SlotOffset(rowsIndex, ctx.mod.numChannels);
    if packedSize != 0 {
      ctx.patternSlots := UnpackInto(ctx.patternSlots, slotsBase, data, start, start + packedSize);
    }
    assert ctx.patternSlots == LoadedSlots(old(ctx.patternSlots), slotsBase, data, start, packedSize);
    ctx.patterns := ctx.patterns[patIndex := Pattern(rowsIndex, numRows)];
    ctx.mod := ctx.mod.(numRows := ctx.mod.numRows + numRows);
    next := start + packedSize;
  }

  // ---------------------------------------------------------------------
  // Envelopes
  // ---------------------------------------------------------------------

  const EnvelopeFlagEnabled: u8 := 1
  const EnvelopeFlagSustain: u8 := 2
  const EnvelopeFlagLoop: u8 := 4

  /** Point `i` of a 48-byte envelope record: a 16-bit frame and a 16-bit value clamped to 64. */
  function EnvelopePointAt(record: seq<u8>, i: nat): (p: EnvelopePoint)
    ensures p.value <= MaxEnvelopeValue
    ensures p.frame == ReadU16LEBounded(record, 4 * i, |record|)
    ensures p.value == Min(ReadU16LEBounded(record, 4 * i + 2, |record|), MaxEnvelopeValue as int)
  {
    var f := ReadU16LEBounded(record, 4 * i, |record|);
    var v := ReadU16LEBounded(record, 4 * i + 2, |record|);
    EnvelopePoint(f, if v > MaxEnvelopeValue as int then MaxEnvelopeValue else v)
  }

  /** A point written as two little-endian words at a 4-byte boundary reads back unchanged. */
  lemma EnvelopePointInverse(pre: seq<u8>, p: EnvelopePoint, post: seq<u8>)
    requires |pre| % 4 == 0 && p.value <= MaxEnvelopeValue
    ensures EnvelopePointAt(pre + LE16(p.frame) + LE16(p.value) + post, |pre| / 4) == p
  {
    var d := pre + LE16(p.frame) + LE16(p.value) + post;
    assert d == pre + LE16(p.frame) + (LE16(p.value) + post);
    ReadU16LEInverse(pre, p.frame, LE16(p.value) + post);
    ReadU16LEInverse(pre + LE16(p.frame), p.value, post);
  }

  /** Reads the twelve points of an envelope record into `env`, leaving its other fields alone. */
  method LoadEnvelopePoints(env: Envelope, record: seq<u8>) returns (r: Envelope)
    requires |env.points| == MaxEnvelopePoints
    ensures r.numPoints == env.numPoints && r.sustainPoint == env.sustainPoint
    ensures r.loopStartPoint == env.loopStartPoint && r.loopEndPoint == env.loopEndPoint
    ensures |r.points| == MaxEnvelopePoints
    ensures forall i :: 0 <= i < MaxEnvelopePoints ==> r.points[i] == EnvelopePointAt(record, i)
  {
    r := env;
    var i := 0;
    while i < MaxEnvelopePoints
      invariant i <= MaxEnvelopePoints && |r.points| == MaxEnvelopePoints
      invariant r.numPoints == env.numPoints && r.sustainPoint == env.sustainPoint
      invariant r.loopStartPoint == env.loopStartPoint && r.loopEndPoint == env.loopEndPoint
      invariant forall j :: 0 <= j < i ==> r.points[j] == EnvelopePointAt(record, j)
    {
      var f := ReadU16LEBounded(record, 4 * i, |record|);
      var v := ReadU16LEBounded(record, 4 * i + 2, |record|);
      if v > MaxEnvelopeValue as int {
        v := MaxEnvelopeValue as int;
      }
      r := r.(points := r.points[i := EnvelopePoint(f, v)]);
      i := i + 1;
    }
  }

  /** Whether the envelope check discards the envelope: disabled, under two points, or frames out of order. */
  predicate EnvelopeDiscarded(env: Envelope, flags: u8)
    requires |env.points| == MaxEnvelopePoints
  {
    || !HasFlag(flags, EnvelopeFlagEnabled)
    || Min(env.numPoints, MaxEnvelopePoints) < 2
    || !FramesIncreasing(env.points, Min(env.numPoints, MaxEnvelopePoints))
  }

  /**
   * The envelope check, as a function of the loaded envelope and its flag
   * byte: an envelope that is not kept becomes the default (disabled)
   * envelope; otherwise the point count is clamped to 12, an invalid or
   * unflagged loop is cleared and an invalid or unflagged sustain point
   * set to 128.
   */
  function FixEnvelope(env: Envelope, flags: u8): (r: Envelope)
    requires |env.points| == MaxEnvelopePoints
  {
    if EnvelopeDiscarded(env, flags) then DefaultEnvelope
    else
      var n: u8 := Min(env.numPoints, MaxEnvelopePoints);
      var start := if env.loopStartPoint >= n then 0 else env.loopStartPoint;
      var end := if env.loopStartPoint >= n then 0 else env.loopEndPoint;
      var keepLoop := start < end < n && HasFlag(flags, EnvelopeFlagLoop);
      var sustain := if env.sustainPoint >= n || !HasFlag(flags, EnvelopeFlagSustain) then 128 else env.sustainPoint;
      Envelope(env.points, n, sustain, if keepLoop then start else 0, if keepLoop then end else 0)
  }

  /**
   * The check has exactly two outcomes: the default envelope, precisely
   * when it discards the envelope, or a usable envelope with the same
   * points that keeps a valid flagged loop and sustain point.
   */
  lemma FixEnvelopeOutcomes(env: Envelope, flags: u8)
    requires |env.points| == MaxEnvelopePoints
    ensures var r := FixEnvelope(env, flags);
      && (r == DefaultEnvelope <==> EnvelopeDiscarded(env, flags))
      && (r.numPoints == 0 <==> EnvelopeDiscarded(env, flags))
      && (!EnvelopeDiscarded(env, flags) ==> EnvelopeUsable(r) && r.points == env.points)
      && (!EnvelopeDiscarded(env, flags) && HasFlag(flags, EnvelopeFlagLoop)
          && env.loopStartPoint < env.loopEndPoint < r.numPoints
          ==> r.loopStartPoint == env.loopStartPoint && r.loopEndPoint == env.loopEndPoint)
      && (!EnvelopeDiscarded(env, flags) && HasFlag(flags, EnvelopeFlagSustain) && env.sustainPoint < r.numPoints
          ==> r.sustainPoint == env.sustainPoint)
  {
    var r := FixEnvelope(env, flags);
    if !EnvelopeDiscarded(env, flags) {
      assert r.numPoints >= 2;
      assert r != DefaultEnvelope;
    }
  }

  /** The envelope check is idempotent: a checked envelope passes it unchanged (with the same flags). */
  lemma FixEnvelopeIdempotent(env: Envelope, flags: u8)
    requires |env.points| == MaxEnvelopePoints
    ensures FixEnvelope(FixEnvelope(env, flags), flags) == FixEnvelope(env, flags)
  {
    FixEnvelopeOutcomes(env, flags);
    var r := FixEnvelope(env, flags);
    if EnvelopeDiscarded(env, flags) {
      assert r.numPoints == 0;
      assert EnvelopeDiscarded(r, flags);
    }
  }

  /** The frame check of the envelope loader: whether the first `n` frames strictly increase. */
  method CheckFrames(points: seq<EnvelopePoint>, n: nat) returns (ok: bool)
    requires n <= |points|
    ensures ok <==> FramesIncreasing(points, n)
  {
    if n == 0 {
      return true;
    }
    var i := 1;
    while i < n
      invariant 1 <= i <= n
      invariant FramesIncreasing(points, i)
    {
      if points[i - 1].frame >= points[i].frame {
        return false;
      }
      i := i + 1;
    }
    return true;
  }

  /**
   * Clamps the point count, discards an envelope that is disabled, has
   * fewer than two points or frames out of order, and clears an invalid
   * or unflagged loop and sustain point.
   */
  method CheckAndFixEnvelope(env: Envelope, flags: u8) returns (r: Envelope)
    requires |env.points| == MaxEnvelopePoints
    ensures r == FixEnvelope(env, flags)
  {
    r := env;
    if r.numPoints as nat > MaxEnvelopePoints {
      r := r.(numPoints := MaxEnvelopePoints as u8);
    }
    if !HasFlag(flags, EnvelopeFlagEnabled) || r.numPoints < 2 {
      return DefaultEnvelope;
    }
    var increasing := CheckFrames(r.points, r.numPoints as nat);
    if !increasing {
      return DefaultEnvelope;
    }
    if r.loopStartPoint >= r.numPoints {
      r := r.(loopStartPoint := 0, loopEndPoint := 0);
    }
    if r.loopEndPoint >= r.numPoints || r.loopEndPoint < r.loopStartPoint {
      r := r.(loopStartPoint := 0, loopEndPoint := 0);
    }
    if r.loopStartPoint == r.loopEndPoint || !HasFlag(flags, EnvelopeFlagLoop) {
      r := r.(loopStartPoint := 0, loopEndPoint := 0);
    }
    if r.sustainPoint >= r.numPoints {
      r := r.(sustainPoint := 128);
    }
    if !HasFlag(flags, EnvelopeFlagSustain) {
      r := r.(sustainPoint := 128);
    }
  }

  // ---------------------------------------------------------------------
  // Sample headers
  // ---------------------------------------------------------------------

  /** The byte after a sample header's loop fields that holds its loop and 16-bit flags. */
  function SampleFlags(data: seq<u8>, off: int): u8 { ReadU8(data, off + 14) }

  /**
   * The loop fixes of the sample header loader: the loop start clamped to
   * the length, a loop running past the end dropped, the length trimmed to
   * the end of the loop, and no loop at all without a loop flag. Returns
   * the trimmed length and the loop length.
   */
  function SampleLoop(length: u32, loopStart: u32, loopLength: u32, flags: u8): (r: (u32, u32))
    ensures r.0 == TrimSampleLength(length, loopStart, loopLength, flags)
    ensures r.1 <= r.0 <= length
    ensures !Looped(flags) ==> r.1 == 0 && r.0 == length
    ensures Looped(flags) ==> r.0 - r.1 == Min(loopStart, length)
  {
    var ls := if loopStart > length then length else loopStart;
    var ll := if ls + loopLength > length then 0 else loopLength;
    (TrimSampleLength(length, ls, ll, flags), if Looped(flags) then ll else 0)
  }

  /** `Int8(((Int(f) - Int(Int8.min)) / 8) - 16)`: a finetune byte scaled from -128..127 to -16..15. */
  function ScaleFinetune(b: u8): (r: i8)
    ensures -16 <= r < 16
    ensures r == (AsI8(b) + 128) / 8 - 16
  {
    (AsI8(b) + 128) / 8 - 16
  }

  /**
   * Reads the 40-byte sample header at `off` into `s`: the length (also
   * kept in `index`, the number of data bytes to skip), the loop fixes of
   * `SampleLoop`, the volume clamped to 64, the scaled finetune, the loop
   * kind and, for 16-bit data, every length halved. Returns the sample,
   * whether its data is 16-bit, and the offset of the next header.
   */
  function LoadSampleHeader(s: Sample, data: seq<u8>, off: nat): (r: (Sample, bool, int))
    ensures r.2 == off + SampleHeaderSize
    ensures r.1 <==> HasFlag(SampleFlags(data, off), SampleFlag16Bit)
    ensures r.0.length == SampleFrames(data, off)
    ensures r.0.loopLength <= r.0.length <= r.0.index
  {
    var length := ReadU32LE(data, off);
    var flags := SampleFlags(data, off);
    var loop := SampleLoop(length, ReadU32LE(data, off + 4), ReadU32LE(data, off + 8), flags);
    var is16 := HasFlag(flags, SampleFlag16Bit);
    var volume := ReadU8(data, off + 12);
    (s.(length := if is16 then loop.0 / 2 else loop.0,
        index := if is16 then length / 2 else length,
        loopLength := if is16 then loop.1 / 2 else loop.1,
        volume := if volume > MaxVolume then MaxVolume else volume,
        finetune := ScaleFinetune(ReadU8(data, off + 13)),
        pingPong := HasFlag(flags, SampleFlagPingPong),
        panning := ReadU8(data, off + 15),
        relativeNote := AsI8(ReadU8(data, off + 16)),
        name := ReadString(data, off + 18, 22)),
     is16,
     off + SampleHeaderSize)
  }

  /**
   * What else the sample header loader keeps: the untrimmed length as the
   * data size, no loop without a loop flag, the ping-pong flag, and the
   * volume clamped to 64.
   */
  lemma LoadSampleHeaderFields(s: Sample, data: seq<u8>, off: nat)
    ensures var r := LoadSampleHeader(s, data, off);
      && r.0.index == (if r.1 then ReadU32LE(data, off) / 2 else ReadU32LE(data, off))
      && (!Looped(SampleFlags(data, off)) ==> r.0.loopLength == 0 && r.0.length == r.0.index)
      && (r.0.pingPong <==> HasFlag(SampleFlags(data, off), SampleFlagPingPong))
      && r.0.volume as nat == Min(ReadU8(data, off + 12), MaxVolume as nat)
  {
    var loop := SampleLoop(ReadU32LE(data, off), ReadU32LE(data, off + 4), ReadU32LE(data, off + 8), SampleFlags(data, off));
    assert !Looped(SampleFlags(data, off)) ==> loop.1 == 0 && loop.0 == ReadU32LE(data, off);
  }

  /**
   * The sample header loader with the source's checked `UInt32` addition of
   * the clamped loop start and the loop length: it traps (None) when that
   * sum does not fit in 32 bits, and otherwise agrees with the loader.
   */
  function LoadSampleHeaderAsWritten(s: Sample, data: seq<u8>, off: nat): (r: Option<(Sample, bool, int)>)
    ensures r.None? <==> Min(ReadU32LE(data, off + 4), ReadU32LE(data, off)) + ReadU32LE(data, off + 8) > 0xFFFF_FFFF
  {
    var length := ReadU32LE(data, off);
    var loopStart := ReadU32LE(data, off + 4);
    var ls := if loopStart > length then length else loopStart;
    if ls + ReadU32LE(data, off + 8) > 0xFFFF_FFFF then None else Some(LoadSampleHeader(s, data, off))
  }

  /**
   * An unlooped 100-frame sample whose (unused) loop starts at 1 and runs
   * 0xFFFFFFFF frames:
   * the prescan sizes it as 100 frames without trapping, the loader as
   * written traps, and the corrected loader drops the loop.
   */
  lemma SampleHeaderTrapExample()
    ensures var header := [100, 0, 0, 0, 1, 0, 0, 0, 0xFF, 0xFF, 0xFF, 0xFF, 0, 0, 0, 0];
      && TrimSampleLengthAsWritten(100, 1, 0xFFFF_FFFF, SampleFlags(header, 0)) == Some(100)
      && LoadSampleHeaderAsWritten(DefaultSample, header, 0).None?
      && LoadSampleHeader(DefaultSample, header, 0).0.length == 100
      && LoadSampleHeader(DefaultSample, header, 0).0.loopLength == 0
  {
    var header: seq<u8> := [100, 0, 0, 0, 1, 0, 0, 0, 0xFF, 0xFF, 0xFF, 0xFF, 0, 0, 0, 0];
    assert ReadU32LE(header, 0) == 100;
    assert ReadU32LE(header, 4) == 1;
    assert ReadU32LE(header, 8) == 0xFFFF_FFFF;
    assert SampleFlags(header, 0) == 0;
  }

  // ---------------------------------------------------------------------
  // Delta-coded sample data
  // ---------------------------------------------------------------------

  /** The running `Int8` sum (with `&+`) of the first `n` bytes from `offset`, read as signed. */
  function DeltaSum8(data: seq<u8>, offset: int, n: nat): i8
    decreases n
  {
    if n == 0 then 0 else AddWrapI8(DeltaSum8(data, offset, n - 1), AsI8(ReadU8(data, offset + n - 1)))
  }

  /** The running `Int16` sum of the first `n` little-endian words from `offset`, read as signed. */
  function DeltaSum16(data: seq<u8>, offset: int, n: nat): i16
    decreases n
  {
    if n == 0 then 0 else AddWrapI16(DeltaSum16(data, offset, n - 1), AsI16(ReadU16LE(data, offset + 2 * (n - 1))))
  }

  /**
   * Decodes `length` 8-bit delta-coded sample points from `offset` into
   * `out` from `outIndex` on: point k is the running sum of the first k+1
   * deltas, scaled by 256 to 16 bits. Nothing else in `out` changes.
   */
  method DecodeSamples8(out: seq<i16>, outIndex: nat, data: seq<u8>, offset: int, length: u32) returns (r: seq<i16>)
    requires outIndex + length <= |out|
    ensures |r| == |out|
    ensures forall i :: 0 <= i < |r| ==>
      r[i] == if outIndex <= i < outIndex + length then DeltaSum8(data, offset, i - outIndex + 1) * 256 else out[i]
  {
    r := out;
    var v: i8 := 0;
    var k := 0;
    while k < length
      invariant k <= length && |r| == |out|
      invariant v == DeltaSum8(data, offset, k)
      invariant forall i :: 0 <= i < |r| ==>
        r[i] == if outIndex <= i < outIndex + k then DeltaSum8(data, offset, i - outIndex + 1) * 256 else out[i]
    {
      v := AddWrapI8(v, AsI8(ReadU8(data, offset + k)));
      r := r[outIndex + k := v * 256];
      k := k + 1;
    }
  }

  /** The 16-bit counterpart: point k is the running `Int16` sum of the first k+1 words. */
  method DecodeSamples16(out: seq<i16>, outIndex: nat, data: seq<u8>, offset: int, length: u32) returns (r: seq<i16>)
    requires outIndex + length <= |out|
    ensures |r| == |out|
    ensures forall i :: 0 <= i < |r| ==>
      r[i] == if outIndex <= i < outIndex + length then DeltaSum16(data, offset, i - outIndex + 1) else out[i]
  {
    r := out;
    var v: i16 := 0;
    var k := 0;
    while k < length
      invariant k <= length && |r| == |out|
      invariant v == DeltaSum16(data, offset, k)
      invariant forall i :: 0 <= i < |r| ==>
        r[i] == if outIndex <= i < outIndex + k then DeltaSum16(data, offset, i - outIndex + 1) else out[i]
    {
      v := AddWrapI16(v, AsI16(ReadU16LE(data, offset + 2 * k)));
      r := r[outIndex + k := v];
      k := k + 1;
    }
  }

  /** The delta coding of 8-bit sample points: each byte is the wrapped difference to the previous point. */
  function DeltaEncode8(xs: seq<i8>): (r: seq<u8>)
    ensures |r| == |xs|
  {
    seq(|xs|, i requires 0 <= i < |xs| => Wrap8(xs[i] as int - (if i == 0 then 0 else xs[i - 1])))
  }

  /** The 16-bit delta coding, each wrapped difference stored as a little-endian word. */
  function DeltaEncode16(xs: seq<i16>): (r: seq<u8>)
    ensures |r| == 2 * |xs|
  {
    seq(2 * |xs|, j requires 0 <= j < 2 * |xs| =>
      var d := Wrap16(xs[j / 2] as int - (if j / 2 == 0 then 0 else xs[j / 2 - 1]));
      if j % 2 == 0 then d % 0x100 else d / 0x100)
  }

  /** Adding the wrapped difference `b - a` to `a` with `&+` gives back `b`. */
  lemma AddWrapI8Difference(a: i8, b: i8)
    ensures AddWrapI8(a, AsI8(Wrap8(b as int - a))) == b
  {
    if b as int - a >= 0x80 {
      assert Wrap8(b as int - a) == b as int - a;
    } else if b as int - a >= 0 {
      assert Wrap8(b as int - a) == b as int - a;
    } else if b as int - a >= -0x80 {
      assert Wrap8(b as int - a) == b as int - a + 0x100;
    } else {
      assert Wrap8(b as int - a) == b as int - a + 0x100;
    }
  }

  /** Adding the wrapped 16-bit difference `b - a` to `a` gives `b`: the step the 16-bit delta decoder inverts. */
  lemma AddWrapI16Difference(a: i16, b: i16)
    ensures AddWrapI16(a, AsI16(Wrap16(b as int - a))) == b
  {
    if b as int - a >= 0 {
      assert Wrap16(b as int - a) == b as int - a;
    } else {
      assert Wrap16(b as int - a) == b as int - a + 0x1_0000;
    }
  }

  /** Decoding delta-coded 8-bit data gives back every point: the running sums are the points. */
  lemma {:induction false} DeltaSum8Encode(xs: seq<i8>, n: nat)
    requires 1 <= n <= |xs|
    ensures DeltaSum8(DeltaEncode8(xs), 0, n) == xs[n - 1]
  {
    var e := DeltaEncode8(xs);
    if n == 1 {
      AddWrapI8Difference(0, xs[0]);
    } else {
      DeltaSum8Encode(xs, n - 1);
      assert e[n - 1] == Wrap8(xs[n - 1] as int - xs[n - 2]);
      AddWrapI8Difference(xs[n - 2], xs[n - 1]);
    }
  }

  /** Each word of the 16-bit coding reads back as the wrapped difference. */
  lemma DeltaEncode16Word(xs: seq<i16>, k: nat)
    requires k < |xs|
    ensures ReadU16LE(DeltaEncode16(xs), 2 * k) == Wrap16(xs[k] as int - (if k == 0 then 0 else xs[k - 1]))
  {
    var e := DeltaEncode16(xs);
    var d := Wrap16(xs[k] as int - (if k == 0 then 0 else xs[k - 1]));
    assert (2 * k) / 2 == k && (2 * k + 1) / 2 == k;
    assert e[2 * k] == d % 0x100;
    assert e[2 * k + 1] == d / 0x100;
  }

  /** Decoding delta-coded 16-bit data gives back every point. */
  lemma {:induction false} DeltaSum16Encode(xs: seq<i16>, n: nat)
    requires 1 <= n <= |xs|
    ensures DeltaSum16(DeltaEncode16(xs), 0, n) == xs[n - 1]
  {
    DeltaEncode16Word(xs, n - 1);
    if n == 1 {
      AddWrapI16Difference(0, xs[0]);
    } else {
      DeltaSum16Encode(xs, n - 1);
      AddWrapI16Difference(xs[n - 2], xs[n - 1]);
    }
  }

  // ---------------------------------------------------------------------
  // Order-table repair and the whole XM load
  // ---------------------------------------------------------------------

  /** Whether one of the first `length` order-table entries names a pattern at or past `numPatterns`. */
  predicate HasInvalidOrders(table: seq<u8>, length: nat, numPatterns: nat)
    requires length <= |table|
  {
    exists i :: 0 <= i < length && table[i] >= numPatterns
  }

  /**
   * The order table with every entry among the first `length` that names
   * a missing pattern redirected to pattern `numPatterns` (clamped to 255),
   * the empty pattern the loader appends.
   */
  function RedirectOrders(table: seq<u8>, length: nat, numPatterns: nat): (r: seq<u8>)
    ensures |r| == |table|
    ensures forall i :: 0 <= i < |table| && (i >= length || table[i] < numPatterns) ==> r[i] == table[i]
    ensures forall i :: 0 <= i < length && i < |table| ==> r[i] <= numPatterns
  {
    seq(|table|, i requires 0 <= i < |table| =>
      if i < length && table[i] >= numPatterns then Min(numPatterns, 0xFF) else table[i])
  }

  /** The rewriting loop of the order-table repair. */
  method RedirectInvalidOrders(table: seq<u8>, length: nat, numPatterns: nat) returns (r: seq<u8>)
    requires length <= |table|
    ensures r == RedirectOrders(table, length, numPatterns)
  {
    r := table;
    var i := 0;
    while i < length
      invariant i <= length && |r| == |table|
      invariant forall j :: 0 <= j < |r| ==> r[j] == if j < i then RedirectOrders(table, length, numPatterns)[j] else table[j]
    {
      if r[i] >= numPatterns {
        r := r[i := if numPatterns > 0xFF then 0xFF else numPatterns];
      }
      i := i + 1;
    }
  }

  /**
   * When some order-table entry names a missing pattern, redirects every
   * such entry to a new empty pattern of 64 rows appended after the last
   * one; otherwise changes nothing. Afterwards every entry in use names a
   * pattern.
   */
  method FixInvalidOrders(ctx: Context)
    requires ctx.mod.length as nat <= |ctx.mod.patternTable|
    requires HasInvalidOrders(ctx.mod.patternTable, ctx.mod.length as nat, ctx.mod.numPatterns as nat)
             ==> ctx.mod.numPatterns as nat < |ctx.patterns| && ctx.mod.numRows <= 0xFFFF
    modifies ctx
    ensures !HasInvalidOrders(old(ctx.mod.patternTable), old(ctx.mod.length) as nat, old(ctx.mod.numPatterns) as nat)
            ==> ctx.mod == old(ctx.mod) && ctx.patterns == old(ctx.patterns)
    ensures HasInvalidOrders(old(ctx.mod.patternTable), old(ctx.mod.length) as nat, old(ctx.mod.numPatterns) as nat)
            ==> && ctx.mod == old(ctx.mod).(
                     patternTable := RedirectOrders(old(ctx.mod.patternTable), old(ctx.mod.length) as nat, old(ctx.mod.numPatterns) as nat),
                     numPatterns := old(ctx.mod.numPatterns) + 1,
                     numRows := old(ctx.mod.numRows) + EmptyPatternNumRows)
                && ctx.patterns == old(ctx.patterns)[old(ctx.mod.numPatterns) := Pattern(old(ctx.mod.numRows), EmptyPatternNumRows)]
    ensures forall i :: 0 <= i < ctx.mod.length ==> ctx.mod.patternTable[i] < ctx.mod.numPatterns
    ensures ctx.patternSlots == old(ctx.patternSlots) && ctx.instruments == old(ctx.instruments)
    ensures ctx.samples == old(ctx.samples) && ctx.samplesData == old(ctx.samplesData) && ctx.channels == old(ctx.channels)
  {
    var invalid := HasInvalidOrder(ctx.mod.patternTable, ctx.mod.length as nat, ctx.mod.numPatterns as nat);
    if invalid {
      var np := ctx.mod.numPatterns;
      var table := RedirectInvalidOrders(ctx.mod.patternTable, ctx.mod.length as nat, np as nat);
      ctx.patterns := ctx.patterns[np := Pattern(ctx.mod.numRows, EmptyPatternNumRows)];
      ctx.mod := ctx.mod.(patternTable := table, numPatterns := np + 1, numRows := ctx.mod.numRows + EmptyPatternNumRows);
    }
  }

  /** One more header of a pattern walk: the walk of `i + 1` headers is the walk of `i` and one step. */
  lemma {:induction false} PatternWalkStep(data: seq<u8>, offset: int, i: nat, rows: nat)
    requires PatternWalk(data, offset, i, rows).Some?
    ensures var w := PatternWalk(data, offset, i, rows).value;
            PatternWalk(data, offset, i + 1, rows)
            == if PatternHeaderRows(data, w.1) as nat > MaxRowsPerPattern then None
               else Some((w.0 + PatternHeaderRows(data, w.1) as nat, NextPatternHeader(data, w.1)))
    decreases i
  {
    if i > 0 {
      PatternWalkStep(data, NextPatternHeader(data, offset), i - 1, rows + PatternHeaderRows(data, offset) as nat);
    }
  }

  /**
   * The slot table after loading the first `n` patterns of the walk from
   * `start` in a module of `nc` channels: pattern `p`'s packed slots are
   * laid over the table from the row total of the patterns before it.
   */
  function LoadedPatterns(slots: seq<Slot>, nc: u8, data: seq<u8>, start: int, n: nat): (r: seq<Slot>)
    ensures |r| == |slots|
  {
    if n == 0 then slots
    else
      var prev := LoadedPatterns(slots, nc, data, start, n - 1);
      match PatternWalk(data, start, n - 1, 0)
      case None => prev
      case Some(w) => LoadedSlots(prev, w.0 * nc as nat, data, w.1 + ReadU32LE(data, w.1), ReadU16LE(data, w.1 + 7))
  }

  /**
   * Walking `n` headers from `start` passes the `i`-th header at `offset`
   * with `rows` rows before it: that header has an accepted row count, and
   * the walk goes on from the next header.
   */
  lemma WalkAdvance(data: seq<u8>, start: int, n: nat, i: nat, rows: nat, offset: int)
    requires i < n && PatternWalk(data, start, n, 0).Some?
    requires PatternWalk(data, start, i, 0) == Some((rows, offset))
    ensures PatternHeaderRows(data, offset) as nat <= MaxRowsPerPattern
    ensures PatternWalk(data, start, i + 1, 0)
            == Some((rows + PatternHeaderRows(data, offset) as nat, NextPatternHeader(data, offset)))
  {
    PatternWalkPrefix(data, start, n, i + 1, 0);
    PatternWalkStep(data, start, i, 0);
  }

  /** A walk that accepts `n` headers accepts the first `m` of them. */
  lemma {:induction false} PatternWalkPrefix(data: seq<u8>, offset: int, n: nat, m: nat, rows: nat)
    requires m <= n && PatternWalk(data, offset, n, rows).Some?
    ensures PatternWalk(data, offset, m, rows).Some?
    decreases m
  {
    if m > 0 {
      PatternWalkPrefix(data, NextPatternHeader(data, offset), n - 1, m - 1, rows + PatternHeaderRows(data, offset) as nat);
    }
  }

  /** Loading pattern `i` of the walk lays its packed slots over the table from its first row. */
  lemma LoadedPatternsNext(slots: seq<Slot>, nc: u8, data: seq<u8>, start: int, i: nat, rows: u16, offset: int)
    requires PatternWalk(data, start, i, 0) == Some((rows as nat, offset))
    ensures LoadedPatterns(slots, nc, data, start, i + 1)
         == LoadedSlots(LoadedPatterns(slots, nc, data, start, i), SlotOffset(rows, nc), data,
                        offset + ReadU32LE(data, offset), ReadU16LE(data, offset + 7))
  {
  }

  /**
   * The first `i` patterns are those of the walk from `start`: pattern `p`
   * starts at the row total of the patterns before it, has its header's
   * row count, and lies within the first `total` rows.
   */
  ghost predicate WalkedPatterns(patterns: seq<Pattern>, total: nat, data: seq<u8>, start: int, i: nat)
  {
    && i <= |patterns|
    && forall p :: 0 <= p < i ==>
         && PatternWalk(data, start, p, 0).Some?
         && patterns[p].rowsIndex as nat == PatternWalk(data, start, p, 0).value.0
         && patterns[p].numRows == PatternHeaderRows(data, PatternWalk(data, start, p, 0).value.1)
         && patterns[p].rowsIndex as nat + patterns[p].numRows as nat <= total
  }

  /** Loading the next pattern of the walk extends the walked prefix by one pattern. */
  lemma WalkedPatternsStep(patterns: seq<Pattern>, total: u16, data: seq<u8>, start: int, i: nat, offset: int)
    requires WalkedPatterns(patterns, total as nat, data, start, i) && i < |patterns|
    requires PatternWalk(data, start, i, 0) == Some((total as nat, offset))
    ensures WalkedPatterns(patterns[i := Pattern(total, PatternHeaderRows(data, offset))],
                           total as nat + PatternHeaderRows(data, offset) as nat, data, start, i + 1)
  {
    var patterns' := patterns[i := Pattern(total, PatternHeaderRows(data, offset))];
    var total' := total as nat + PatternHeaderRows(data, offset) as nat;
    forall p | 0 <= p < i + 1
      ensures && PatternWalk(data, start, p, 0).Some?
              && patterns'[p].rowsIndex as nat == PatternWalk(data, start, p, 0).value.0
              && patterns'[p].numRows == PatternHeaderRows(data, PatternWalk(data, start, p, 0).value.1)
              && patterns'[p].rowsIndex as nat + patterns'[p].numRows as nat <= total'
    {
      if p < i {
        assert patterns'[p] == patterns[p];
      }
    }
  }

  /**
   * Loads `n` consecutive patterns from the header at `start`, in order:
   * pattern `p` starts at the row total of the patterns before it and has
   * its header's row count, and its packed slots are laid over the slot
   * table from there (`LoadedPatterns`). The row total ends as the
   * prescan's, and every loaded pattern lies within it. Returns the offset
   * after the last pattern.
   */
  method LoadPatterns(ctx: Context, data: seq<u8>, start: int, n: nat) returns (offset: int)
    requires n <= |ctx.patterns| && n <= MaxPatterns
    requires PatternWalk(data, start, n, ctx.mod.numRows as nat).Some?
    requires ctx.mod.numRows == 0
    modifies ctx
    ensures PatternWalk(data, start, n, 0) == Some((ctx.mod.numRows as nat, offset))
    ensures ctx.mod == old(ctx.mod).(numRows := ctx.mod.numRows) && |ctx.patterns| == |old(ctx.patterns)|
    ensures ctx.mod.numRows as nat <= MaxRowsPerPattern * n
    ensures forall p :: n <= p < |ctx.patterns| ==> ctx.patterns[p] == old(ctx.patterns)[p]
    ensures forall p :: 0 <= p < n ==> ctx.patterns[p].rowsIndex as nat + ctx.patterns[p].numRows as nat <= ctx.mod.numRows as nat
    ensures forall p :: 0 <= p < n ==>
              && PatternWalk(data, start, p, 0).Some?
              && ctx.patterns[p].rowsIndex as nat == PatternWalk(data, start, p, 0).value.0
              && ctx.patterns[p].numRows == PatternHeaderRows(data, PatternWalk(data, start, p, 0).value.1)
    ensures ctx.patternSlots == LoadedPatterns(old(ctx.patternSlots), ctx.mod.numChannels, data, start, n)
    ensures ctx.instruments == old(ctx.instruments) && ctx.samples == old(ctx.samples)
    ensures ctx.samplesData == old(ctx.samplesData) && ctx.channels == old(ctx.channels)
  {
    offset := start;
    var i := 0;
    while i < n
      invariant i <= n && |ctx.patterns| == |old(ctx.patterns)|
      invariant ctx.mod == old(ctx.mod).(numRows := ctx.mod.numRows)
      invariant ctx.mod.numRows as nat <= MaxRowsPerPattern * i
      invariant ctx.patterns[i..] == old(ctx.patterns)[i..]
      invariant PatternWalk(data, start, i, 0) == Some((ctx.mod.numRows as nat, offset))
      invariant WalkedPatterns(ctx.patterns, ctx.mod.numRows as nat, data, start, i)
      invariant ctx.patternSlots == LoadedPatterns(old(ctx.patternSlots), ctx.mod.numChannels, data, start, i)
      invariant ctx.instruments == old(ctx.instruments) && ctx.samples == old(ctx.samples)
      invariant ctx.samplesData == old(ctx.samplesData) && ctx.channels == old(ctx.channels)
    {
      ghost var rows := ctx.mod.numRows as nat;
      WalkAdvance(data, start, n, i, rows, offset);
      WalkedPatternsStep(ctx.patterns, ctx.mod.numRows, data, start, i, offset);
      LoadedPatternsNext(old(ctx.patternSlots), ctx.mod.numChannels, data, start, i, ctx.mod.numRows, offset);
      offset := LoadPattern(ctx, i, data, offset);
      i := i + 1;
    }
  }

  /**
   * Loads an XM 1.04 file the prescan accepted into a context sized from
   * it: the module header, every pattern, and the order-table repair.
   * Afterwards the module is the header `LoadModuleHeader` reads with the
   * prescan's pattern and row counts and the repaired order table; every
   * pattern of the file starts at the row total of those before it with its
   * header's row count, and the appended empty pattern, if any, at the end;
   * the slot table holds the file's patterns (`LoadedPatterns`); every
   * order-table entry in use names a pattern, and every pattern lies within
   * the row table. Returns the offset of the first instrument header.
   */
  method LoadXM0104(ctx: Context, data: seq<u8>) returns (offset: int)
    requires XMAccepted(data)
    requires |ctx.patterns| == XMPatterns(data) as nat + (if XMNeedsEmptyPattern(data) then 1 else 0)
    requires ctx.mod.numRows == 0
    modifies ctx
    ensures var pw := PatternWalk(data, XMFirstPatternHeader(data), XMPatterns(data), 0).value;
      && offset == pw.1
      && ctx.mod.numRows as nat == pw.0 + (if XMNeedsEmptyPattern(data) then EmptyPatternNumRows as nat else 0)
    ensures ctx.mod.numPatterns as nat == |ctx.patterns|
    ensures ctx.mod.length as nat == Min(XMPotLength(data), PatternOrderTableLength)
    ensures |ctx.mod.patternTable| == PatternOrderTableLength
    ensures forall i :: 0 <= i < ctx.mod.length ==> ctx.mod.patternTable[i] < ctx.mod.numPatterns
    ensures forall p :: 0 <= p < |ctx.patterns| ==>
      ctx.patterns[p].rowsIndex as nat + ctx.patterns[p].numRows as nat <= ctx.mod.numRows as nat
    ensures ctx.mod == LoadModuleHeader(old(ctx.mod), data).0.(numRows := ctx.mod.numRows, numPatterns := ctx.mod.numPatterns,
                                                               patternTable := ctx.mod.patternTable)
    ensures ctx.mod.patternTable == if XMNeedsEmptyPattern(data)
                                    then RedirectOrders(XMPot(data), ctx.mod.length as nat, XMPatterns(data) as nat)
                                    else XMPot(data)
    ensures |ctx.patterns| == XMPatterns(data) as nat + (if XMNeedsEmptyPattern(data) then 1 else 0)
    ensures forall p :: 0 <= p < XMPatterns(data) as nat ==>
              var w := PatternWalk(data, XMFirstPatternHeader(data), p, 0);
              && w.Some?
              && ctx.patterns[p].rowsIndex as nat == w.value.0
              && ctx.patterns[p].numRows == PatternHeaderRows(data, w.value.1)
    ensures XMNeedsEmptyPattern(data) ==>
              && ctx.patterns[XMPatterns(data)].rowsIndex as nat
                 == PatternWalk(data, XMFirstPatternHeader(data), XMPatterns(data) as nat, 0).value.0
              && ctx.patterns[XMPatterns(data)].numRows == EmptyPatternNumRows
    ensures ctx.patternSlots == LoadedPatterns(old(ctx.patternSlots), ReadU8(data, 68), data, XMFirstPatternHeader(data),
                                               XMPatterns(data) as nat)
    ensures ctx.instruments == old(ctx.instruments) && ctx.samples == old(ctx.samples)
    ensures ctx.samplesData == old(ctx.samplesData) && ctx.channels == old(ctx.channels)
  {
    var header := LoadModuleHeader(ctx.mod, data);
    ctx.mod := header.0;
    var first := header.1;
    ghost var pw := PatternWalk(data, first, XMPatterns(data), 0).value;
    offset := LoadPatterns(ctx, data, first, XMPatterns(data) as nat);
    PatternWalkBound(data, first, XMPatterns(data) as nat, 0);
    assert ctx.mod.patternTable == XMPot(data);
    assert HasInvalidOrders(ctx.mod.patternTable, ctx.mod.length as nat, ctx.mod.numPatterns as nat) == XMNeedsEmptyPattern(data);
    FixInvalidOrders(ctx);
  }
}
