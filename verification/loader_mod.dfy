/**
 * The loader for 31-sample ProTracker-family MOD files: the sample
 * headers, the order table, the 4-byte pattern cells (periods mapped to
 * note numbers), the 8-bit sample data, the MOD-specific slot clean-up,
 * the FLT8 re-interleaving of two 4-channel patterns into one 8-channel
 * pattern, and the final pass over every slot that maps the file's effect
 * codes onto the player's effect numbering.
 */
module LoaderMOD {
  import opened Wrappers
  import opened Ints
  import opened Readers
  import opened XMTypes
  import opened Prescan

  const ModSampleHeadersStart: nat := 20
  const ModSampleHeaderSize: nat := 30
  const ModNumSamples: nat := 31
  /** The song length byte, the restart byte and the 128 order entries follow the sample headers. */
  const ModOrderInfo: nat := 950
  /** The patterns start after the order table and the 4-byte signature. */
  const ModPatternData: nat := 1084
  const ModRowsPerPattern: nat := 64
  const ModOrderTableLength: nat := 128

  // ---------------------------------------------------------------------
  // Sample headers
  // ---------------------------------------------------------------------

  /**
   * The finetune of a MOD sample: the low nibble of the byte read as a
   * signed 4-bit value (8 to 15 are -8 to -1), doubled; a byte of 16 or
   * more gives 16.
   */
  function ModFinetune(b: u8): (r: i8)
    ensures -16 <= r <= 16 && r % 2 == 0
    ensures b < 16 ==> -16 <= r < 16 && (r / 2) % 16 == b
    ensures b >= 16 ==> r == 16
  {
    if b < 8 then 2 * b else if b < 16 then 2 * (b as int - 16) else 16
  }

  /**
   * The finetune as the source computes it: the negative half is formed
   * as `finetune - 16` on an unsigned byte, which traps (None) for every
   * nibble from 8 to 15.
   */
  function ModFinetuneAsWritten(b: u8): (r: Option<i8>)
    ensures r.None? <==> 8 <= b < 16
    ensures r.Some? ==> r.value == ModFinetune(b)
  {
    if b < 8 then Some(2 * b)
    else if b < 16 then None // `finetune - 16` is negative, below the range of UInt8
    else Some(16)
  }

  /** A finetune nibble of 15 (-1) traps the source, where -2 was meant. */
  lemma ModFinetuneTrapExample()
    ensures ModFinetuneAsWritten(15).None?
    ensures ModFinetune(15) == -2
  {
  }

  /** Where the 30-byte header of sample `i` starts. */
  function ModSampleHeaderOffset(i: nat): nat
  {
    ModSampleHeadersStart + ModSampleHeaderSize * i
  }

  /** The length, loop start and loop length fields of sample `i`, doubled from words to bytes. */
  function ModSampleWords(data: seq<u8>, i: nat): (r: (u32, u32, u32))
  {
    var off := ModSampleHeaderOffset(i);
    (ModWordBytes(ReadU16BE(data, off + 22)), ModWordBytes(ReadU16BE(data, off + 26)),
     ModWordBytes(ReadU16BE(data, off + 28)))
  }

  /**
   * Sample `i` after its 30-byte header is read: finetune, volume clamped
   * to 64, centre panning, and the length and loop doubled from words to
   * bytes. A loop of more than 2 bytes trims the length to the loop end;
   * a loop that runs past the end of the sample is dropped, as the XM
   * loader does. The raw length stays in `index` until the sample data is
   * placed.
   */
  function ModSampleHeader(s: Sample, data: seq<u8>, i: nat): (r: Sample)
    ensures r.length == ModSampleFrames(data, i) && r.length <= r.index
    ensures r.index == ModSampleWords(data, i).0
    ensures var (length, loopStart, loopLength) := ModSampleWords(data, i);
      && (loopLength > 2 && loopStart + loopLength <= length ==>
            r.loopLength == loopLength && r.length - r.loopLength == loopStart)
      && (loopLength > 2 && loopStart + loopLength > length ==> r.loopLength == 0)
      && (loopLength <= 2 ==> r.loopLength == s.loopLength && r.length == length)
    ensures r.volume == Min(ReadU8(data, ModSampleHeaderOffset(i) + 25), MaxVolume as int) && r.volume <= MaxVolume
    ensures r.panning == MaxPanning / 2
    ensures r.finetune == ModFinetune(ReadU8(data, ModSampleHeaderOffset(i) + 24))
    ensures r.pingPong == s.pingPong
    ensures r.relativeNote == s.relativeNote && r.name == s.name
  {
    var off := ModSampleHeaderOffset(i);
    var vol := ReadU8(data, off + 25);
    var w := ModSampleWords(data, i);
    var looped := w.2 > 2;
    s.(finetune := ModFinetune(ReadU8(data, off + 24)),
       volume := if vol > MaxVolume then MaxVolume else vol,
       panning := MaxPanning / 2,
       index := w.0,
       length := if looped then TrimSampleLength(w.0, w.1, w.2, SampleFlagForward) else w.0,
       loopLength := if !looped then s.loopLength else if w.1 + w.2 > w.0 then 0 else w.2)
  }

  /**
   * The sample header as the source reads it: a loop of more than 2 bytes
   * keeps its full length even when it runs past the end of the sample and
   * the sample is cut at the loop start.
   */
  function ModSampleHeaderAsWritten(s: Sample, data: seq<u8>, i: nat): (r: Sample)
    ensures var w := ModSampleWords(data, i);
      && r == (if w.2 > 2 then ModSampleHeader(s, data, i).(loopLength := w.2) else ModSampleHeader(s, data, i))
  {
    var w := ModSampleWords(data, i);
    var fixed := ModSampleHeader(s, data, i);
    if w.2 > 2 then fixed.(loopLength := w.2) else fixed
  }

  /**
   * A 100-byte sample whose 102-byte loop starts at 0: the source cuts the
   * sample to 0 bytes and keeps the 102-byte loop, longer than the sample;
   * the corrected header drops the loop.
   */
  lemma ModLoopOverrunExample()
    ensures var data := seq(42, _ => 0) + [0, 50, 0, 0, 0, 0, 0, 51];
      && ModSampleHeaderAsWritten(DefaultSample, data, 0).length == 0
      && ModSampleHeaderAsWritten(DefaultSample, data, 0).loopLength == 102
      && ModSampleHeader(DefaultSample, data, 0).loopLength == 0
  {
    var data: seq<u8> := seq(42, _ => 0) + [0, 50, 0, 0, 0, 0, 0, 51];
    assert data[42] == 0 && data[43] == 50 && data[46] == 0 && data[47] == 0 && data[48] == 0 && data[49] == 51;
    assert ModSampleWords(data, 0) == (100, 0, 102);
  }

  // ---------------------------------------------------------------------
  // Pattern cells
  // ---------------------------------------------------------------------

  // A cell is a big-endian 32-bit word: the high nibble of the instrument
  // in bits 28-31, the period in bits 16-27, the low nibble of the
  // instrument in bits 12-15, the effect in bits 8-11 and its parameter in
  // bits 0-7.

  function CellPeriod(x: u32): u16 { (x / 0x1_0000) % 0x1000 }
  function CellInstrument(x: u32): u8 { (x / 0x1000_0000) * 0x10 + (x / 0x1000) % 0x10 }
  function CellEffectType(x: u32): u8 { (x / 0x100) % 0x10 }
  function CellEffectParam(x: u32): u8 { x % 0x100 }

  /** The word a tracker writes for a cell: the inverse of the field extraction. */
  function EncodeCell(instrument: u8, period: u16, effectType: u8, effectParam: u8): u32
    requires period < 0x1000 && effectType < 0x10
  {
    (instrument / 0x10) * 0x1000_0000 + period * 0x1_0000 + (instrument % 0x10) * 0x1000
      + effectType * 0x100 + effectParam
  }

  /** Every field of an encoded cell reads back unchanged. */
  lemma DecodeEncodeCell(instrument: u8, period: u16, effectType: u8, effectParam: u8)
    requires period < 0x1000 && effectType < 0x10
    ensures var x := EncodeCell(instrument, period, effectType, effectParam);
      && CellInstrument(x) == instrument && CellPeriod(x) == period
      && CellEffectType(x) == effectType && CellEffectParam(x) == effectParam
  {
    var hi, lo := instrument / 0x10, instrument % 0x10;
    var x := EncodeCell(instrument, period, effectType, effectParam);
    var low := lo * 0x1000 + effectType * 0x100 + effectParam;
    var p := hi * 0x1000 + period;
    assert x == p * 0x1_0000 + low;
    assert x / 0x1_0000 == p;
    assert p % 0x1000 == period;
    assert x / 0x1000_0000 == hi;
    assert x / 0x1000 == p * 0x10 + lo;
    assert x / 0x100 == p * 0x100 + lo * 0x10 + effectType;
  }

  // Period to note: a period is halved (rounding up) until it is below
  // 112, each halving one octave down from note 73; the reduced period then
  // climbs one semitone for every entry of the table it is below, in order.

  const PeriodTable: seq<u16> := [106, 100, 94, 89, 84, 79, 75, 70, 66, 63, 59]

  /** The octaves a period drops and the period it reduces to. */
  function Octaves(p: nat): (r: (nat, nat))
    ensures r.1 < 112
    ensures p < 112 ==> r == (0, p)
  {
    if p < 112 then (0, p) else var h := Octaves((p + 1) / 2); (h.0 + 1, h.1)
  }

  /** A period of at most 64 * 2^k drops at most k octaves. */
  lemma {:induction false} OctavesBound(p: nat, k: nat)
    requires p <= 64 * Pow2(k)
    ensures Octaves(p).0 <= k
    decreases k
  {
    if p >= 112 {
      assert k > 0;
      OctavesBound((p + 1) / 2, k - 1);
    }
  }

  /** The semitones a reduced period climbs from table entry `idx` on. */
  function Semitones(p: nat, idx: nat): (r: nat)
    requires idx <= |PeriodTable|
    ensures r <= |PeriodTable| - idx
    decreases |PeriodTable| - idx
  {
    if idx < |PeriodTable| && p < PeriodTable[idx] as nat then 1 + Semitones(p, idx + 1) else 0
  }

  /** The note of a non-zero 12-bit period: between 1 and 84. */
  function PeriodNote(period: u16): (note: u8)
    requires 0 < period < 0x1000
    ensures 1 <= note <= 84
  {
    OctavesBound(period as nat, 6);
    var o := Octaves(period as nat);
    73 - 12 * o.0 + Semitones(o.1, 0)
  }

  /** Doubling a period of at least 56 lowers its note by exactly one octave. */
  lemma PeriodNoteOctave(p: u16)
    requires 56 <= p < 0x800
    ensures PeriodNote(2 * p) as int == PeriodNote(p) as int - 12
  {
    assert (2 * p as nat + 1) / 2 == p as nat;
  }

  /** The ProTracker periods of the three C notes map to notes 37, 49 and 61, an octave apart. */
  lemma PeriodNoteExamples()
    ensures PeriodNote(856) == 37 && PeriodNote(428) == 49 && PeriodNote(214) == 61
  {
    assert Octaves(214) == (1, 107);
    assert Semitones(107, 0) == 0;
    PeriodNoteOctave(214);
    PeriodNoteOctave(428);
  }

  /** The first loop of the period conversion: each halving of the period lowers the note an octave. */
  method ReduceOctaves(period: u16) returns (pval: u16, note: u8)
    requires 0 < period < 0x1000
    ensures pval as nat == Octaves(period as nat).1
    ensures note as int == 73 - 12 * Octaves(period as nat).0
  {
    OctavesBound(period as nat, 6);
    note := 73;
    pval := period;
    ghost var k: nat := 0;
    while pval >= 112
      invariant Octaves(period as nat) == (k + Octaves(pval as nat).0, Octaves(pval as nat).1)
      invariant note as int == 73 - 12 * k && pval < 0x1000
      invariant Octaves(period as nat).0 <= 6
    {
      assert 0 <= note as int - 12 < 0x100;
      pval := AddWrap16(pval, 1);
      pval := pval / 2;
      note := Wrap8(note as int - 12);
      k := k + 1;
    }
  }

  /** The second loop: the note climbs a semitone for each table entry, in order, above the reduced period. */
  method CountSemitones(pval: u16, note: u8) returns (note': u8)
    requires note as nat + |PeriodTable| < 0x100
    ensures note' as nat == note as nat + Semitones(pval as nat, 0)
  {
    note' := note;
    var idx := 0;
    while idx < 11 && pval < PeriodTable[idx]
      invariant idx <= 11
      invariant Semitones(pval as nat, 0) == idx + Semitones(pval as nat, idx)
      invariant note' as int == note as int + idx
    {
      note' := Wrap8(note' as int + 1);
      idx := idx + 1;
    }
  }

  /** The two loops of the source that turn a period into a note, with its wrapping byte arithmetic. */
  method PeriodToNote(period: u16) returns (note: u8)
    requires 0 < period < 0x1000
    ensures note == PeriodNote(period)
  {
    OctavesBound(period as nat, 6);
    var pval;
    pval, note := ReduceOctaves(period);
    note := CountSemitones(pval, note);
  }

  /** The slot a cell decodes to: its period as a note (0 for no period), its instrument and its effect. */
  function CellSlot(x: u32): (s: Slot)
    ensures s.note <= 84 && (s.note == 0 <==> CellPeriod(x) == 0)
  {
    var period := CellPeriod(x);
    Slot(if period > 0 then PeriodNote(period) else 0, CellInstrument(x), 0, CellEffectType(x), CellEffectParam(x))
  }

  /** A cell written from a slot's fields decodes back to those fields, the period as its note. */
  lemma CellSlotOfEncoded(instrument: u8, period: u16, effectType: u8, effectParam: u8)
    requires period < 0x1000 && effectType < 0x10
    ensures CellSlot(EncodeCell(instrument, period, effectType, effectParam))
      == Slot(if period > 0 then PeriodNote(period) else 0, instrument, 0, effectType, effectParam)
  {
    DecodeEncodeCell(instrument, period, effectType, effectParam);
  }

  /** Cell `k` of the pattern data, counted over all patterns, rows and channels. */
  function ModCell(data: seq<u8>, k: nat): u32
  {
    ReadU32BE(data, ModPatternData + 4 * k)
  }

  /** A panning effect: 8xx, or E8x. */
  predicate PanningCell(x: u32)
  {
    CellEffectType(x) == 8 || (CellEffectType(x) == 0xE && CellEffectParam(x) / 0x10 == 8)
  }

  /** Whether one of the first `n` cells holds a panning effect. */
  predicate AnyPanning(data: seq<u8>, n: nat)
  {
    n > 0 && (AnyPanning(data, n - 1) || PanningCell(ModCell(data, n - 1)))
  }

  lemma {:induction false} AnyPanningExists(data: seq<u8>, n: nat)
    ensures AnyPanning(data, n) <==> exists k :: 0 <= k < n && PanningCell(ModCell(data, k))
  {
    if n > 0 {
      AnyPanningExists(data, n - 1);
    }
  }

  lemma MulMono(a: nat, b: nat, c: nat)
    requires a <= b
    ensures a * c <= b * c
  {
  }

  /** One cell decoded as the source does it inline, the period turned into a note by its two loops. */
  method DecodeCell(x: u32) returns (slot: Slot)
    ensures slot == CellSlot(x)
  {
    slot := Slot(0, CellInstrument(x), 0, CellEffectType(x), CellEffectParam(x));
    var period := CellPeriod(x);
    if period > 0 {
      var note := PeriodToNote(period);
      slot := slot.(note := note);
    }
  }

  /** The slots that `n` consecutive cells from cell `k` decode to, in order. */
  function DecodedCells(data: seq<u8>, k: nat, n: nat): (r: seq<Slot>)
    ensures |r| == n
    decreases n, 1
  {
    if n == 0 then [] else DecodedCellsLast(data, k, n)
  }

  /** A non-empty run: the run one shorter, then its last cell. */
  function DecodedCellsLast(data: seq<u8>, k: nat, n: nat): (r: seq<Slot>)
    requires n > 0
    ensures |r| == n
    decreases n, 0
  {
    DecodedCells(data, k, n - 1) + [CellSlot(ModCell(data, k + n - 1))]
  }

  lemma DecodedCellsStep(data: seq<u8>, k: nat, n: nat)
    requires n > 0
    ensures DecodedCells(data, k, n) == DecodedCells(data, k, n - 1) + [CellSlot(ModCell(data, k + n - 1))]
  {
  }

  /** Entry `i` of the decoded run is cell `k + i`, decoded. */
  lemma {:induction false} DecodedCellsAt(data: seq<u8>, k: nat, n: nat, i: nat)
    requires i < n
    ensures DecodedCells(data, k, n)[i] == CellSlot(ModCell(data, k + i))
  {
    DecodedCellsStep(data, k, n);
    if i < n - 1 {
      DecodedCellsAt(data, k, n - 1, i);
    }
  }

  /** A run extended by one cell keeps its earlier entries. */
  lemma DecodedCellsPrefix(data: seq<u8>, k: nat, n: nat)
    ensures forall i :: 0 <= i < n ==> DecodedCells(data, k, n + 1)[i] == DecodedCells(data, k, n)[i]
  {
    DecodedCellsStep(data, k, n + 1);
  }

  /** Two consecutive runs of cells decode to the run that covers both. */
  lemma {:induction false} DecodedCellsAppend(data: seq<u8>, k: nat, m: nat, n: nat)
    ensures DecodedCells(data, k, m) + DecodedCells(data, k + m, n) == DecodedCells(data, k, m + n)
  {
    if n > 0 {
      DecodedCellsAppend(data, k, m, n - 1);
      var a, b := DecodedCells(data, k, m), DecodedCells(data, k + m, n - 1);
      var c := CellSlot(ModCell(data, k + m + n - 1));
      calc {
        a + DecodedCells(data, k + m, n);
        { DecodedCellsStep(data, k + m, n); }
        a + (b + [c]);
        (a + b) + [c];
        DecodedCells(data, k, m + n - 1) + [c];
        { DecodedCellsStep(data, k, m + n); }
        DecodedCells(data, k, m + n);
      }
    }
  }

  /** Entry `i` of a run lies in its first `m` entries or in the run of the next `n`. */
  lemma DecodedCellsSplit(data: seq<u8>, k: nat, m: nat, n: nat, i: nat)
    requires i < m + n
    ensures DecodedCells(data, k, m + n)[i]
      == if i < m then DecodedCells(data, k, m)[i] else DecodedCells(data, k + m, n)[i - m]
  {
    DecodedCellsAppend(data, k, m, n);
  }

  /** One pass of the cell loop: cell `rowBase + j` is read at `offset`, decoded and stored. */
  method StoreCell(slots: seq<Slot>, data: seq<u8>, rowBase: nat, j: nat, offset: int, hasPanning: bool)
    returns (slots': seq<Slot>, offset': int, hasPanning': bool)
    requires rowBase + j < |slots| && offset == ModPatternData + 4 * (rowBase + j)
    requires hasPanning == AnyPanning(data, rowBase + j)
    ensures slots' == slots[rowBase + j := DecodedCells(data, rowBase, j + 1)[j]]
    ensures offset' == offset + 4 && hasPanning' == AnyPanning(data, rowBase + j + 1)
  {
    var x := ReadU32BE(data, offset);
    offset' := offset + 4;
    hasPanning' := hasPanning;
    if PanningCell(x) {
      hasPanning' := true;
    }
    var slot := DecodeCell(x);
    assert x == ModCell(data, rowBase + j);
    DecodedCellsStep(data, rowBase, j + 1);
    slots' := slots[rowBase + j := slot];
  }

  /**
   * The cells of one pattern: the `cells` cells from `offset`, which is
   * where cell `rowBase` of the data starts, become slots `rowBase` on.
   */
  method ReadPatternCells(slots: seq<Slot>, data: seq<u8>, rowBase: nat, cells: nat, offset: int, hasPanning: bool)
    returns (slots': seq<Slot>, offset': int, hasPanning': bool)
    requires rowBase + cells <= |slots| && offset == ModPatternData + 4 * rowBase
    requires hasPanning == AnyPanning(data, rowBase)
    ensures |slots'| == |slots| && offset' == offset + 4 * cells
    ensures forall m :: 0 <= m < |slots| && !(rowBase <= m < rowBase + cells) ==> slots'[m] == slots[m]
    ensures forall m :: rowBase <= m < rowBase + cells ==> slots'[m] == DecodedCells(data, rowBase, cells)[m - rowBase]
    ensures hasPanning' == AnyPanning(data, rowBase + cells)
  {
    slots', offset', hasPanning' := slots, offset, hasPanning;
    var j := 0;
    while j < cells
      invariant j <= cells && |slots'| == |slots| && offset' == ModPatternData + 4 * (rowBase + j)
      invariant forall m :: 0 <= m < |slots| && !(rowBase <= m < rowBase + j) ==> slots'[m] == slots[m]
      invariant forall m :: rowBase <= m < rowBase + j ==> slots'[m] == DecodedCells(data, rowBase, j)[m - rowBase]
      invariant hasPanning' == AnyPanning(data, rowBase + j)
    {
      slots', offset', hasPanning' := StoreCell(slots', data, rowBase, j, offset', hasPanning');
      DecodedCellsPrefix(data, rowBase, j);
      j := j + 1;
    }
  }

  /** The cells of the first `n` patterns of `nc` channels, pattern by pattern. */
  function PatternCells(n: nat, nc: nat): nat
  {
    if n == 0 then 0 else PatternCells(n - 1, nc) + nc * 64
  }

  /** The first `n` patterns hold 64 rows of `nc` cells each. */
  lemma {:induction false} PatternCellsProduct(n: nat, nc: nat)
    ensures PatternCells(n, nc) == ModRowsPerPattern * n * nc
  {
    if n > 0 {
      PatternCellsProduct(n - 1, nc);
    }
  }

  lemma {:induction false} PatternCellsMono(a: nat, b: nat, nc: nat)
    requires a <= b
    ensures PatternCells(a, nc) <= PatternCells(b, nc)
    decreases b
  {
    if a < b {
      PatternCellsMono(a, b - 1, nc);
    }
  }

  /**
   * One pass of the pattern loop: pattern `pi` gets 64 rows from row
   * 64 * pi, and its cells, which follow the `k` cells of the earlier
   * patterns, become slots `k` on.
   */
  method ReadPattern(patterns: seq<Pattern>, slots: seq<Slot>, data: seq<u8>, pi: nat, nc: u8, ghost k: nat, offset: int, hasPanning: bool)
    returns (patterns': seq<Pattern>, slots': seq<Slot>, offset': int, hasPanning': bool)
    requires pi < |patterns| && pi < 1024 && k == PatternCells(pi, nc as nat) && k + nc as nat * 64 <= |slots|
    requires offset == ModPatternData + 4 * k && hasPanning == AnyPanning(data, k)
    requires forall m :: 0 <= m < k ==> slots[m] == DecodedCells(data, 0, k)[m]
    ensures patterns' == patterns[pi := Pattern(64 * pi, 64)]
    ensures var k' := k + nc as nat * 64;
      && |slots'| == |slots| && offset' == ModPatternData + 4 * k' && hasPanning' == AnyPanning(data, k')
      && (forall m :: 0 <= m < k' ==> slots'[m] == DecodedCells(data, 0, k')[m])
      && (forall m :: k' <= m < |slots| ==> slots'[m] == slots[m])
  {
    var cells := nc as nat * 64;
    patterns' := patterns[pi := Pattern(64 * pi, 64)];
    var rowBase := patterns'[pi].rowsIndex as nat * nc as nat;
    PatternCellsProduct(pi, nc as nat);
    assert rowBase == k;
    slots', offset', hasPanning' := ReadPatternCells(slots, data, rowBase, cells, offset, hasPanning);
    forall m | 0 <= m < k + cells
      ensures slots'[m] == DecodedCells(data, 0, k + cells)[m]
    {
      DecodedCellsSplit(data, 0, k, cells, m);
    }
  }

  /**
   * The pattern loop: pattern `pi` gets 64 rows from row 64 * pi, and
   * cell `k` of the data becomes slot `k`, so that pattern after pattern,
   * row after row, the slots follow the file. Reports whether any cell
   * holds a panning effect, and the offset after the last cell.
   */
  method ReadModPatterns(patterns: seq<Pattern>, slots: seq<Slot>, data: seq<u8>, numPatterns: u16, nc: u8)
    returns (patterns': seq<Pattern>, slots': seq<Slot>, hasPanning: bool, offset: int)
    requires numPatterns as nat <= |patterns| && numPatterns as nat <= 1024
    requires PatternCells(numPatterns as nat, nc as nat) <= |slots|
    ensures offset == ModPatternData + 4 * PatternCells(numPatterns as nat, nc as nat)
    ensures |patterns'| == |patterns| && |slots'| == |slots|
    ensures forall pi :: 0 <= pi < |patterns| ==>
      patterns'[pi] == if pi < numPatterns as nat then Pattern(64 * pi, 64) else patterns[pi]
    ensures var total := PatternCells(numPatterns as nat, nc as nat);
      && (forall m :: 0 <= m < total ==> slots'[m] == DecodedCells(data, 0, total)[m])
      && (forall m :: total <= m < |slots| ==> slots'[m] == slots[m])
      && hasPanning == AnyPanning(data, total)
  {
    patterns', slots', hasPanning := patterns, slots, false;
    offset := ModPatternData;
    ghost var k: nat := 0;
    var pi := 0;
    while pi < numPatterns as nat
      invariant pi <= numPatterns as nat && |patterns'| == |patterns| && |slots'| == |slots|
      invariant k == PatternCells(pi, nc as nat) && k <= PatternCells(numPatterns as nat, nc as nat)
      invariant offset == ModPatternData + 4 * k && hasPanning == AnyPanning(data, k)
      invariant forall q :: 0 <= q < |patterns| ==> patterns'[q] == if q < pi then Pattern(64 * q, 64) else patterns[q]
      invariant forall m :: 0 <= m < k ==> slots'[m] == DecodedCells(data, 0, k)[m]
      invariant forall m :: k <= m < |slots| ==> slots'[m] == slots[m]
    {
      PatternCellsMono(pi + 1, numPatterns as nat, nc as nat);
      patterns', slots', offset, hasPanning := ReadPattern(patterns', slots', data, pi, nc, k, offset, hasPanning);
      pi := pi + 1;
      k := k + nc as nat * 64;
    }
  }

  // ---------------------------------------------------------------------
  // Sample headers, instruments and the order table
  // ---------------------------------------------------------------------

  /**
   * The loop over the sample headers: sample `i` is read from header `i`,
   * and instrument `i` takes the sample's name.
   */
  method ReadModSampleHeaders(samples: seq<Sample>, instruments: seq<Instrument>, data: seq<u8>, n: nat)
    returns (samples': seq<Sample>, instruments': seq<Instrument>)
    requires n <= |samples| && n <= |instruments|
    ensures |samples'| == |samples| && |instruments'| == |instruments|
    ensures forall i :: 0 <= i < |samples| ==>
      samples'[i] == if i < n then ModSampleHeader(samples[i], data, i) else samples[i]
    ensures forall i :: 0 <= i < |instruments| ==>
      instruments'[i] == if i < n then instruments[i].(name := ReadString(data, ModSampleHeaderOffset(i), 22)) else instruments[i]
  {
    samples', instruments' := samples, instruments;
    var offset := ModSampleHeadersStart;
    var i := 0;
    while i < n
      invariant i <= n && |samples'| == |samples| && |instruments'| == |instruments|
      invariant offset == ModSampleHeaderOffset(i)
      invariant forall j :: 0 <= j < |samples| ==>
        samples'[j] == if j < i then ModSampleHeader(samples[j], data, j) else samples[j]
      invariant forall j :: 0 <= j < |instruments| ==>
        instruments'[j] == if j < i then instruments[j].(name := ReadString(data, ModSampleHeaderOffset(j), 22)) else instruments[j]
    {
      instruments' := instruments'[i := instruments'[i].(name := ReadString(data, offset, 22))];
      samples' := samples'[i := ModSampleHeader(samples'[i], data, i)];
      offset := offset + ModSampleHeaderSize;
      i := i + 1;
    }
  }

  /** Instrument `i` of a MOD plays sample `i` for every note: one sample, every note mapped to it. */
  function ModInstrument(inst: Instrument, i: u16): (r: Instrument)
  {
    inst.(samplesIndex := i, numSamples := 1, sampleOfNotes := Repeat(0, MaxNote as nat))
  }

  /** Every note of a MOD instrument selects the instrument's own sample, and that sample exists. */
  lemma ModInstrumentSample(inst: Instrument, i: u16, note: nat)
    requires note < MaxNote as nat
    ensures var r := ModInstrument(inst, i);
      && note < |r.sampleOfNotes| && r.sampleOfNotes[note] < r.numSamples
      && r.samplesIndex as nat + r.sampleOfNotes[note] as nat == i as nat
  {
  }

  /** The second loop: instrument `i` becomes the one-sample instrument of sample `i`. */
  method AssignModInstruments(instruments: seq<Instrument>, n: nat) returns (instruments': seq<Instrument>)
    requires n <= |instruments| && n <= 0x10000
    ensures |instruments'| == |instruments|
    ensures forall i :: 0 <= i < |instruments| ==>
      instruments'[i] == if i < n then ModInstrument(instruments[i], i as u16) else instruments[i]
  {
    instruments' := instruments;
    var i := 0;
    while i < n
      invariant i <= n && |instruments'| == |instruments|
      invariant forall j :: 0 <= j < |instruments| ==>
        instruments'[j] == if j < i then ModInstrument(instruments[j], j as u16) else instruments[j]
    {
      instruments' := instruments'[i := instruments'[i].(samplesIndex := i as u16, numSamples := 1,
                                                         sampleOfNotes := Repeat(0, MaxNote as nat))];
      i := i + 1;
    }
  }

  /**
   * The order information after the `n` sample headers: the song length,
   * clamped to the 128 entries a MOD has; the restart position, dropped
   * to 0 unless it lies inside the song; and the 128-entry order table.
   */
  function ModOrders(m: Module, data: seq<u8>, n: nat): (r: Module)
    ensures r.length as nat == Min(ReadU8(data, ModSampleHeaderOffset(n)), ModOrderTableLength)
    ensures r.restartPosition == 0 || r.restartPosition < r.length
    ensures ReadU8(data, ModSampleHeaderOffset(n) + 1) < r.length ==> r.restartPosition == ReadU8(data, ModSampleHeaderOffset(n) + 1)
    ensures |r.patternTable| == ModOrderTableLength
    ensures forall i :: 0 <= i < ModOrderTableLength ==> r.patternTable[i] == ReadU8(data, ModSampleHeaderOffset(n) + 2 + i)
    ensures r == m.(length := r.length, restartPosition := r.restartPosition, patternTable := r.patternTable)
  {
    var offset := ModSampleHeaderOffset(n);
    var length: u16 := ReadU8(data, offset);
    var length := if length as nat > ModOrderTableLength then ModOrderTableLength as u16 else length;
    var restart := ReadU8(data, offset + 1);
    m.(length := length,
       restartPosition := if restart as nat >= length as nat then 0 else restart,
       patternTable := ReadArray(data, offset + 2, ModOrderTableLength))
  }

  /**
   * The order-table length the loader sets is the prescan's clamped one,
   * so the context's length agrees with the prescan, as creating a context
   * checks.
   */
  lemma ModOrdersLength(m: Module, data: seq<u8>)
    ensures ModOrders(m, data, ModNumSamples).length == ModPotLength(data)
  {
  }

  /**
   * A length byte of 200 makes the loader's length (clamped to 128) differ
   * from the length the prescan records as written, so the check that
   * creating a context makes fails.
   */
  lemma PotLengthMismatchExample(m: Module, data: seq<u8>)
    requires |data| > 950 && data[950] == 200
    ensures ModOrders(m, data, ModNumSamples).length == 128
    ensures ModPotLengthAsWritten(data) == 200
  {
  }

  // ---------------------------------------------------------------------
  // Sample data
  // ---------------------------------------------------------------------

  /** An 8-bit sample point widened to the 16-bit points the player mixes. */
  function ScaleS8(v: i8): (x: i16)
    ensures x % 256 == 0 && x / 256 == v
  {
    v as int * 256
  }

  /** The points of an 8-bit MOD sample stored at `offset`: each byte is a signed value, scaled by 256. */
  function ModSamplePoints(data: seq<u8>, offset: nat, length: nat): (r: seq<i16>)
    ensures |r| == length
  {
    seq<i16>(length, k => ScaleS8(AsI8(ReadU8(data, offset + k))))
  }

  /** The byte a signed 8-bit point is stored as. */
  function ModSampleByte(x: i8): u8 { if x < 0 then x + 0x100 else x }

  function ModSampleBytes(xs: seq<i8>): (r: seq<u8>)
    ensures |r| == |xs| && forall k :: 0 <= k < |xs| ==> r[k] == ModSampleByte(xs[k])
  {
    seq(|xs|, k requires 0 <= k < |xs| => ModSampleByte(xs[k]))
  }

  /** Reading back stored 8-bit points gives each point scaled to 16 bits, wherever they lie in the file. */
  lemma ModSamplePointsInverse(pre: seq<u8>, xs: seq<i8>, post: seq<u8>)
    ensures var data := pre + ModSampleBytes(xs) + post;
      forall k :: 0 <= k < |xs| ==> ModSamplePoints(data, |pre|, |xs|)[k] == ScaleS8(xs[k])
  {
    var data := pre + ModSampleBytes(xs) + post;
    forall k | 0 <= k < |xs|
      ensures ModSamplePoints(data, |pre|, |xs|)[k] == ScaleS8(xs[k])
    {
      assert data[|pre| + k] == ModSampleByte(xs[k]);
      assert ReadU8(data, |pre| + k) == ModSampleByte(xs[k]);
      assert AsI8(ModSampleByte(xs[k])) == xs[k];
      assert ModSamplePoints(data, |pre|, |xs|)[k] == ScaleS8(AsI8(ReadU8(data, |pre| + k)));
    }
  }

  /** The trimmed lengths of the first `n` samples: where sample `n`'s points go. */
  function TrimmedTotal(samples: seq<Sample>, n: nat): nat
    requires n <= |samples|
  {
    if n == 0 then 0 else TrimmedTotal(samples, n - 1) + samples[n - 1].length
  }

  /** The raw lengths (kept in `index` by the header pass) of the first `n` samples: where sample `n`'s bytes lie. */
  function RawTotal(samples: seq<Sample>, n: nat): nat
    requires n <= |samples|
  {
    if n == 0 then 0 else RawTotal(samples, n - 1) + samples[n - 1].index
  }

  lemma {:induction false} TrimmedTotalMono(samples: seq<Sample>, m: nat, n: nat)
    requires m <= n <= |samples|
    ensures TrimmedTotal(samples, m) <= TrimmedTotal(samples, n)
    decreases n
  {
    if m < n {
      TrimmedTotalMono(samples, m, n - 1);
    }
  }

  /** The trimmed lengths of the loaded headers add up to the prescan's sample-data length. */
  lemma {:induction false} TrimmedTotalOfHeaders(samples: seq<Sample>, data: seq<u8>, n: nat)
    requires n <= |samples|
    requires forall i :: 0 <= i < n ==> samples[i].length == ModSampleFrames(data, i)
    ensures TrimmedTotal(samples, n) == ModSamplesTotal(data, n)
  {
    if n > 0 {
      TrimmedTotalOfHeaders(samples, data, n - 1);
    }
  }

  /**
   * The sample-data table after the first `n` samples are placed: the
   * points of their (trimmed) lengths, back to back, sample `i` read from
   * the bytes after the raw lengths of the samples before it.
   */
  function PlacedPoints(samples: seq<Sample>, data: seq<u8>, start: nat, n: nat): (r: seq<i16>)
    requires n <= |samples|
    ensures |r| == TrimmedTotal(samples, n)
  {
    if n == 0 then []
    else PlacedPoints(samples, data, start, n - 1)
         + ModSamplePoints(data, start + RawTotal(samples, n - 1), samples[n - 1].length)
  }

  /**
   * Point `k` of sample `i` is placed after the trimmed lengths of the
   * samples before it, and comes from the byte after their raw lengths:
   * the bytes past a trimmed sample's loop end are skipped.
   */
  lemma {:induction false} PlacedPointsAt(samples: seq<Sample>, data: seq<u8>, start: nat, n: nat, i: nat, k: nat)
    requires i < n <= |samples| && k < samples[i].length
    ensures TrimmedTotal(samples, i) + k < TrimmedTotal(samples, n)
    ensures PlacedPoints(samples, data, start, n)[TrimmedTotal(samples, i) + k]
            == ScaleS8(AsI8(ReadU8(data, start + RawTotal(samples, i) + k)))
  {
    TrimmedTotalMono(samples, i + 1, n);
    var init := PlacedPoints(samples, data, start, n - 1);
    var last := ModSamplePoints(data, start + RawTotal(samples, n - 1), samples[n - 1].length);
    assert PlacedPoints(samples, data, start, n) == init + last;
    if i < n - 1 {
      PlacedPointsAt(samples, data, start, n - 1, i, k);
      assert (init + last)[TrimmedTotal(samples, i) + k] == init[TrimmedTotal(samples, i) + k];
    } else {
      assert (init + last)[TrimmedTotal(samples, i) + k] == last[k];
    }
  }

  /** The inner loop: `length` points copied to `outIndex`, nothing else written. */
  method CopySamplePoints(out: seq<i16>, outIndex: nat, data: seq<u8>, offset: nat, length: nat) returns (r: seq<i16>)
    requires outIndex + length <= |out|
    ensures |r| == |out|
    ensures forall j :: 0 <= j < |r| ==>
      r[j] == if outIndex <= j < outIndex + length then ModSamplePoints(data, offset, length)[j - outIndex] else out[j]
  {
    r := out;
    var k := 0;
    while k < length
      invariant k <= length && |r| == |out|
      invariant forall j :: 0 <= j < |r| ==>
        r[j] == if outIndex <= j < outIndex + k then ModSamplePoints(data, offset, length)[j - outIndex] else out[j]
    {
      r := r[outIndex + k := ScaleS8(AsI8(ReadU8(data, offset + k)))];
      k := k + 1;
    }
  }

  /** One iteration of the sample-data loop: sample `i` is placed after the `i` before it. */
  method PlaceModSample(samples: seq<Sample>, samples': seq<Sample>, out: seq<i16>, out': seq<i16>,
                        data: seq<u8>, start: nat, i: nat, total: u32, offset: nat)
    returns (samples'': seq<Sample>, out'': seq<i16>, total': u32, offset': nat)
    requires i < |samples| == |samples'| && |out'| == |out| && TrimmedTotal(samples, i + 1) <= |out| < 0x1_0000_0000
    requires total as nat == TrimmedTotal(samples, i) && offset == start + RawTotal(samples, i)
    requires samples'[i] == samples[i]
    requires forall j {:trigger out'[j]} :: 0 <= j < |out| ==>
      out'[j] == if j < total as nat then PlacedPoints(samples, data, start, i)[j] else out[j]
    ensures total' as nat == TrimmedTotal(samples, i + 1) && offset' == start + RawTotal(samples, i + 1)
    ensures samples'' == samples'[i := samples[i].(index := Wrap32(TrimmedTotal(samples, i)))]
    ensures |out''| == |out|
    ensures forall j {:trigger out''[j]} :: 0 <= j < |out| ==>
      out''[j] == if j < total' as nat then PlacedPoints(samples, data, start, i + 1)[j] else out[j]
  {
    ghost var before := PlacedPoints(samples, data, start, i);
    assert PlacedPoints(samples, data, start, i + 1)
           == before + ModSamplePoints(data, offset, samples[i].length as nat);
    out'' := CopySamplePoints(out', total as nat, data, offset, samples'[i].length as nat);
    offset' := offset + samples'[i].index as nat;
    samples'' := samples'[i := samples'[i].(index := total)];
    total' := AddWrap32(total, samples[i].length);
  }

  /**
   * The sample-data loop over the first `n` samples: their points are
   * placed back to back, each sample's `index` (its raw length until now)
   * becomes where its points start, and the running total (`&+=`, which
   * cannot wrap here) ends as their combined trimmed length. The file
   * offset advances by the raw lengths.
   */
  method PlaceModSamples(samples: seq<Sample>, out: seq<i16>, data: seq<u8>, start: nat, n: nat)
    returns (samples': seq<Sample>, out': seq<i16>, total: u32, offset: nat)
    requires n <= |samples| && TrimmedTotal(samples, n) <= |out| < 0x1_0000_0000
    ensures total as nat == TrimmedTotal(samples, n) && offset == start + RawTotal(samples, n)
    ensures |samples'| == |samples|
    ensures forall i {:trigger samples'[i]} :: 0 <= i < |samples| ==>
      samples'[i] == if i < n then samples[i].(index := Wrap32(TrimmedTotal(samples, i))) else samples[i]
    ensures |out'| == |out|
    ensures forall j {:trigger out'[j]} :: 0 <= j < |out| ==>
      out'[j] == if j < total as nat then PlacedPoints(samples, data, start, n)[j] else out[j]
  {
    samples', out', total, offset := samples, out, 0, start;
    var i := 0;
    while i < n
      invariant i <= n && |samples'| == |samples| && |out'| == |out|
      invariant total as nat == TrimmedTotal(samples, i) && offset == start + RawTotal(samples, i)
      invariant forall m {:trigger samples'[m]} :: 0 <= m < |samples| ==>
        samples'[m] == if m < i then samples[m].(index := Wrap32(TrimmedTotal(samples, m))) else samples[m]
      invariant forall j {:trigger out'[j]} :: 0 <= j < |out| ==>
        out'[j] == if j < total as nat then PlacedPoints(samples, data, start, i)[j] else out[j]
    {
      TrimmedTotalMono(samples, i + 1, n);
      samples', out', total, offset := PlaceModSample(samples, samples', out, out', data, start, i, total, offset);
      i := i + 1;
    }
  }

  // ---------------------------------------------------------------------
  // MOD slot clean-up
  // ---------------------------------------------------------------------

  /**
   * The channel of slot `i` in a table of rows of `nc` slots, i.e. `i`
   * modulo `nc`, counted the way the loader's nested loops count it.
   */
  function ChannelOf(i: nat, nc: nat): (c: nat)
    requires nc > 0
    ensures c < nc
  {
    if i < nc then i else ChannelOf(i - nc, nc)
  }

  /** The start of row `r` in a table of rows of `nc` slots. */
  function RowStart(r: nat, nc: nat): nat
  {
    if r == 0 then 0 else RowStart(r - 1, nc) + nc
  }

  lemma {:induction false} RowStartProduct(r: nat, nc: nat)
    ensures RowStart(r, nc) == r * nc
  {
    if r > 0 {
      RowStartProduct(r - 1, nc);
    }
  }

  /** Slot `c` of every row belongs to channel `c`. */
  lemma {:induction false} ChannelOfRow(r: nat, nc: nat, c: nat)
    requires c < nc
    ensures ChannelOf(RowStart(r, nc) + c, nc) == c
  {
    if r > 0 {
      ChannelOfRow(r - 1, nc, c);
    }
  }

  /**
   * The Amiga's hard panning: channels 1 and 2 of every group of four are
   * on the right, 0 and 3 on the left; the source tests bit 1 xor bit 0 of
   * the channel number.
   */
  predicate HardRight(ch: nat)
  {
    (ch / 2) % 2 != ch % 2
  }

  lemma HardRightLayout(ch: nat)
    ensures HardRight(ch) <==> ch % 4 == 1 || ch % 4 == 2
  {
  }

  /** The volume-column byte of a slot that pans its channel hard right (0xCF) or hard left (0xC1). */
  function HardPanning(ch: nat): (v: u8)
    ensures v / 0x10 == VolSetPanning as int
    ensures HardRight(ch) ==> v == 0xCF
    ensures !HardRight(ch) ==> v == 0xC1
  {
    if HardRight(ch) then 0xCF else 0xC1
  }

  /**
   * The MOD-specific clean-up of one slot in channel `ch`. Without any
   * panning effect in the file, a slot with an instrument pans its channel
   * hard left or right; an instrument without a note becomes a note
   * switch; slides that would repeat a remembered parameter (1, 2, A with
   * parameter 0) are dropped, and the combined 5 and 6 become plain tone
   * portamento and vibrato; `E5x` has bit 3 of its finetune flipped.
   */
  function FixModSlot(s: Slot, ch: nat, hasPanning: bool): (r: Slot)
    ensures r.instrument == s.instrument
    ensures r.volumeColumn == if !hasPanning && s.instrument != 0 then HardPanning(ch) else s.volumeColumn
    ensures r.note == if s.instrument != 0 && s.note == 0 then NoteSwitch else s.note
    ensures s.effectParam != 0 ==> r.effectType == s.effectType
    ensures r.effectParam == 0 ==> r.effectType !in {1, 2, 5, 6, 0xA}
    ensures s.effectParam == 0 && s.effectType in {1, 2, 0xA} ==> r.effectType == 0
    ensures s.effectParam == 0 && s.effectType in {5, 6} ==> r.effectType == s.effectType - 2
    ensures s.effectType == 0xE && s.effectParam / 0x10 == 5 ==>
      r.effectParam == if (s.effectParam / 8) % 2 == 1 then s.effectParam - 8 else s.effectParam + 8
    ensures !(s.effectType == 0xE && s.effectParam / 0x10 == 5) ==> r.effectParam == s.effectParam
  {
    var s := if !hasPanning && s.instrument != 0 then s.(volumeColumn := HardPanning(ch)) else s;
    var s := if s.instrument != 0 && s.note == 0 then s.(note := NoteSwitch) else s;
    var s := if s.effectParam == 0 && s.effectType in {1, 2, 0xA} then s.(effectType := 0) else s;
    var s := if s.effectParam == 0 && s.effectType in {5, 6} then s.(effectType := s.effectType - 2) else s;
    Xor8Bit3(s.effectParam);
    if s.effectType == 0xE && s.effectParam / 0x10 == 5 then s.(effectParam := Xor8(s.effectParam, 8)) else s
  }

  /** The clean-up of one slot of channel `ch`, step by step. */
  method FixModSlotStep(s: Slot, ch: nat, hasPanning: bool) returns (slot: Slot)
    ensures slot == FixModSlot(s, ch, hasPanning)
  {
    Xor8Bit3(s.effectParam);
    slot := s;
    if !hasPanning && slot.instrument != 0 {
      slot := slot.(volumeColumn := if (ch / 2) % 2 != ch % 2 then 0xCF else 0xC1);
    }
    if slot.instrument != 0 && slot.note == 0 {
      slot := slot.(note := NoteSwitch);
    }
    if slot.effectParam == 0 {
      if slot.effectType == 1 || slot.effectType == 2 || slot.effectType == 0xA {
        slot := slot.(effectType := 0);
      }
      if slot.effectType == 5 || slot.effectType == 6 {
        slot := slot.(effectType := slot.effectType - 2);
      }
    }
    if slot.effectType == 0xE && slot.effectParam / 0x10 == 5 {
      slot := slot.(effectParam := Xor8(slot.effectParam, 8));
    }
  }

  /** The clean-up of row `row`: its slot `c` is cleaned up as a slot of channel `c`. */
  method FixModRow(slots: seq<Slot>, ghost row: nat, rowBase: nat, nc: nat, hasPanning: bool) returns (slots': seq<Slot>)
    requires nc > 0 && rowBase == RowStart(row, nc) && rowBase + nc <= |slots|
    ensures |slots'| == |slots|
    ensures forall m :: 0 <= m < |slots| ==>
      slots'[m] == if rowBase <= m < rowBase + nc then FixModSlot(slots[m], ChannelOf(m, nc), hasPanning) else slots[m]
  {
    slots' := slots;
    var ch := 0;
    while ch < nc
      invariant ch <= nc && |slots'| == |slots|
      invariant forall m :: 0 <= m < |slots| ==>
        slots'[m] == if rowBase <= m < rowBase + ch then FixModSlot(slots[m], ChannelOf(m, nc), hasPanning) else slots[m]
    {
      ChannelOfRow(row, nc, ch);
      var slot := FixModSlotStep(slots'[rowBase + ch], ch, hasPanning);
      slots' := slots'[rowBase + ch := slot];
      ch := ch + 1;
    }
  }

  /**
   * The clean-up pass over the `numRows` rows of `nc` slots: every slot is
   * cleaned up as a slot of its channel, and nothing past the rows changes.
   */
  method FixModSlots(slots: seq<Slot>, numRows: nat, nc: nat, hasPanning: bool) returns (slots': seq<Slot>)
    requires nc > 0 && numRows * nc <= |slots|
    ensures |slots'| == |slots|
    ensures forall m :: 0 <= m < |slots| ==>
      slots'[m] == if m < numRows * nc then FixModSlot(slots[m], ChannelOf(m, nc), hasPanning) else slots[m]
  {
    RowStartProduct(numRows, nc);
    slots' := slots;
    var slotIndex := 0;
    var row := 0;
    while row < numRows
      invariant row <= numRows && |slots'| == |slots|
      invariant slotIndex == RowStart(row, nc) && RowStart(numRows, nc) == numRows * nc
      invariant slotIndex <= numRows * nc
      invariant forall m :: 0 <= m < |slots| ==>
        slots'[m] == if m < slotIndex then FixModSlot(slots[m], ChannelOf(m, nc), hasPanning) else slots[m]
    {
      RowLimit(row, numRows, nc);
      slots' := FixModRow(slots', row, slotIndex, nc, hasPanning);
      slotIndex := slotIndex + nc;
      row := row + 1;
    }
  }

  lemma {:induction false} RowLimit(row: nat, numRows: nat, nc: nat)
    requires row < numRows
    ensures RowStart(row, nc) + nc <= RowStart(numRows, nc)
    decreases numRows
  {
    if row < numRows - 1 {
      RowLimit(row, numRows - 1, nc);
    }
  }

  // ---------------------------------------------------------------------
  // FLT8
  // ---------------------------------------------------------------------

  /** An 8-channel FLT8 pattern: 64 rows of 8 slots, stored as two 4-channel patterns of 256 slots each. */
  const Flt8PatternSlots: nat := 512
  const Flt8HalfSlots: nat := 256

  /**
   * Where slot `j` of an interleaved FLT8 pattern comes from, relative to
   * the pattern's start: channels 0-3 of row `r` are row `r` of the first
   * stored 4-channel pattern, channels 4-7 are row `r` of the second.
   */
  function Flt8Source(j: nat): (s: nat)
    requires j < Flt8PatternSlots
    ensures s < Flt8PatternSlots
    ensures j % 8 < 4 <==> s < Flt8HalfSlots
  {
    var row := j / 8;
    var c := j % 8;
    if c < 4 then 4 * row + c else Flt8HalfSlots + 4 * row + (c - 4)
  }

  /** Where stored slot `s` of a FLT8 pattern ends up after the interleaving. */
  function Flt8Dest(s: nat): (j: nat)
    requires s < Flt8PatternSlots
    ensures j < Flt8PatternSlots
  {
    if s < Flt8HalfSlots then 8 * (s / 4) + s % 4 else 8 * ((s - Flt8HalfSlots) / 4) + 4 + s % 4
  }

  /** The interleaving is a permutation of the 512 slots: each source is used once, ... */
  lemma Flt8SourceInjective(j: nat)
    requires j < Flt8PatternSlots
    ensures Flt8Dest(Flt8Source(j)) == j
  {
  }

  /** ... and every stored slot is used. */
  lemma Flt8SourceOnto(s: nat)
    requires s < Flt8PatternSlots
    ensures Flt8Source(Flt8Dest(s)) == s
  {
    if s < Flt8HalfSlots {
      Flt8SourceAt(s / 4, s % 4);
    } else {
      Flt8SourceAt((s - Flt8HalfSlots) / 4, 4 + s % 4);
    }
  }

  /** Slot `c` of row `row` of the interleaved pattern. */
  lemma Flt8SourceAt(row: nat, c: nat)
    requires row < 64 && c < 8
    ensures Flt8Source(8 * row + c) == if c < 4 then 4 * row + c else Flt8HalfSlots + 4 * row + (c - 4)
  {
    assert (8 * row + c) / 8 == row && (8 * row + c) % 8 == c;
  }

  /** The slot an FLT8 slot `m` takes its contents from, in a table of consecutive 512-slot patterns. */
  function Flt8Slot(m: nat): (s: nat)
    ensures s / Flt8PatternSlots == m / Flt8PatternSlots
  {
    m - m % Flt8PatternSlots + Flt8Source(m % Flt8PatternSlots)
  }

  /** Inside pattern `i`, the source slot lies in the same pattern, at the interleaved position. */
  lemma Flt8SlotIn(m: nat, i: nat)
    requires Flt8PatternSlots * i <= m < Flt8PatternSlots * i + Flt8PatternSlots
    ensures Flt8Slot(m) == Flt8PatternSlots * i + Flt8Source(m - Flt8PatternSlots * i)
  {
    assert m % Flt8PatternSlots == m - Flt8PatternSlots * i;
  }

  /** One row of the scratch pattern: four slots from each stored half. */
  method Flt8Row(scratch: seq<Slot>, slots: seq<Slot>, base: nat, row: nat) returns (scratch': seq<Slot>)
    requires |scratch| == Flt8PatternSlots && row < 64 && base + Flt8PatternSlots <= |slots|
    ensures |scratch'| == Flt8PatternSlots
    ensures forall j :: 0 <= j < Flt8PatternSlots ==>
      scratch'[j] == if 8 * row <= j < 8 * row + 8 then slots[base + Flt8Source(j)] else scratch[j]
  {
    scratch' := scratch;
    var srcBase := base + row * 4;
    var dstBase := 8 * row;
    var c := 0;
    while c < 4
      invariant c <= 4 && |scratch'| == Flt8PatternSlots
      invariant forall j :: 0 <= j < Flt8PatternSlots ==>
        scratch'[j] == if dstBase <= j < dstBase + c then slots[base + Flt8Source(j)] else scratch[j]
    {
      Flt8SourceAt(row, c);
      scratch' := scratch'[dstBase + c := slots[srcBase + c]];
      c := c + 1;
    }
    c := 0;
    while c < 4
      invariant c <= 4 && |scratch'| == Flt8PatternSlots
      invariant forall j :: 0 <= j < Flt8PatternSlots ==>
        scratch'[j] == if dstBase <= j < dstBase + 4 + c then slots[base + Flt8Source(j)] else scratch[j]
    {
      Flt8SourceAt(row, 4 + c);
      scratch' := scratch'[dstBase + 4 + c := slots[srcBase + Flt8HalfSlots + c]];
      c := c + 1;
    }
  }

  /** The scratch pattern: slot `j` holds the stored slot `Flt8Source(j)` of the pattern at `base`. */
  method Flt8Scratch(slots: seq<Slot>, base: nat) returns (scratch: seq<Slot>)
    requires base + Flt8PatternSlots <= |slots|
    ensures |scratch| == Flt8PatternSlots
    ensures forall j :: 0 <= j < Flt8PatternSlots ==> scratch[j] == slots[base + Flt8Source(j)]
  {
    scratch := Repeat(EmptySlot, Flt8PatternSlots);
    var row := 0;
    while row < 64
      invariant row <= 64 && |scratch| == Flt8PatternSlots
      invariant forall j :: 0 <= j < 8 * row ==> scratch[j] == slots[base + Flt8Source(j)]
    {
      scratch := Flt8Row(scratch, slots, base, row);
      row := row + 1;
    }
  }

  /** One FLT8 pattern at `base`: built in a scratch pattern, then copied back over the stored halves. */
  method Flt8Pattern(slots: seq<Slot>, base: nat) returns (slots': seq<Slot>)
    requires base + Flt8PatternSlots <= |slots|
    ensures |slots'| == |slots|
    ensures forall m {:trigger slots'[m]} :: 0 <= m < |slots| ==>
      slots'[m] == if base <= m < base + Flt8PatternSlots then slots[base + Flt8Source(m - base)] else slots[m]
  {
    var scratch := Flt8Scratch(slots, base);
    slots' := slots;
    var j := 0;
    while j < Flt8PatternSlots
      invariant j <= Flt8PatternSlots && |slots'| == |slots|
      invariant forall m {:trigger slots'[m]} :: 0 <= m < |slots| ==>
        slots'[m] == if base <= m < base + j then scratch[m - base] else slots[m]
    {
      slots' := slots'[base + j := scratch[j]];
      j := j + 1;
    }
  }

  /**
   * The FLT8 fix-up: every loaded 8-channel pattern (pattern `i` starting
   * at row `64 i`) is re-interleaved from its two stored 4-channel halves;
   * the rest of the slot table is unchanged.
   */
  method FixupFLT8(slots: seq<Slot>, patterns: seq<Pattern>, numPatterns: nat, nc: nat) returns (slots': seq<Slot>)
    requires nc == 8 && numPatterns <= |patterns| && Flt8PatternSlots * numPatterns <= |slots|
    requires forall i :: 0 <= i < numPatterns ==> patterns[i].rowsIndex as nat == ModRowsPerPattern * i
    ensures |slots'| == |slots|
    ensures forall m {:trigger slots'[m]} :: 0 <= m < |slots| ==>
      slots'[m] == if m < Flt8PatternSlots * numPatterns then slots[Flt8Slot(m)] else slots[m]
  {
    slots' := slots;
    var i := 0;
    while i < numPatterns
      invariant i <= numPatterns && |slots'| == |slots|
      invariant forall m {:trigger slots'[m]} :: 0 <= m < |slots| ==>
        slots'[m] == if m < Flt8PatternSlots * i then slots[Flt8Slot(m)] else slots[m]
    {
      var pat := patterns[i];
      var destBase := pat.rowsIndex as nat * nc;
      assert destBase == Flt8PatternSlots * i;
      slots' := Flt8Pattern(slots', destBase);
      forall m | destBase <= m < destBase + Flt8PatternSlots
        ensures Flt8Slot(m) == destBase + Flt8Source(m - destBase)
      {
        Flt8SlotIn(m, i);
      }
      i := i + 1;
    }
  }

  /**
   * The FLT8 pass on a loaded context: the slot table of the loaded
   * 8-channel patterns is re-interleaved, and nothing else changes.
   */
  method FixupModFLT8(ctx: Context)
    requires ctx.mod.numChannels == 8 && ctx.mod.numPatterns as nat <= |ctx.patterns|
    requires forall i :: 0 <= i < ctx.mod.numPatterns as nat ==> ctx.patterns[i].rowsIndex as nat == ModRowsPerPattern * i
    requires Flt8PatternSlots * ctx.mod.numPatterns as nat <= |ctx.patternSlots|
    modifies ctx
    ensures |ctx.patternSlots| == |old(ctx.patternSlots)|
    ensures forall m {:trigger ctx.patternSlots[m]} :: 0 <= m < |ctx.patternSlots| ==>
      ctx.patternSlots[m] ==
        if m < Flt8PatternSlots * old(ctx.mod.numPatterns) as nat then old(ctx.patternSlots)[Flt8Slot(m)]
        else old(ctx.patternSlots)[m]
    ensures ctx.mod == old(ctx.mod) && ctx.patterns == old(ctx.patterns)
    ensures ctx.samples == old(ctx.samples) && ctx.instruments == old(ctx.instruments)
    ensures ctx.samplesData == old(ctx.samplesData)
    ensures ctx.channels == old(ctx.channels) && ctx.rowLoopCount == old(ctx.rowLoopCount)
  {
    var slots := FixupFLT8(ctx.patternSlots, ctx.patterns, ctx.mod.numPatterns as nat, ctx.mod.numChannels as nat);
    ctx.patternSlots := slots;
  }

  // ---------------------------------------------------------------------
  // The whole MOD loader
  // ---------------------------------------------------------------------

  /** The samples after the header pass: the first 31 read from their headers. */
  function ModHeaders(samples: seq<Sample>, data: seq<u8>): (r: seq<Sample>)
    ensures |r| == |samples|
  {
    seq(|samples|, i requires 0 <= i < |samples| =>
      if i < ModNumSamples then ModSampleHeader(samples[i], data, i) else samples[i])
  }

  /** The instruments after the header pass: instrument `i` of the first 31 is named after sample `i` and plays only it. */
  function ModInstruments(instruments: seq<Instrument>, data: seq<u8>): (r: seq<Instrument>)
    ensures |r| == |instruments|
  {
    seq(|instruments|, i requires 0 <= i < |instruments| =>
      if i < ModNumSamples then ModInstrument(instruments[i].(name := ReadString(data, ModSampleHeaderOffset(i), 22)), i as u16)
      else instruments[i])
  }

  /** The pattern table of a MOD: pattern `pi` is rows 64 pi to 64 pi + 63. */
  function ModPatterns(n: nat): (r: seq<Pattern>)
    requires n <= 0x100
    ensures |r| == n
  {
    seq(n, pi requires 0 <= pi < n => Pattern(64 * pi as u16, 64))
  }

  /** The samples after the sample-data pass: each of the first 31 starts where the trimmed samples before it end. */
  function ModIndexed(samples: seq<Sample>): (r: seq<Sample>)
    ensures |r| == |samples|
  {
    seq(|samples|, i requires 0 <= i < |samples| =>
      if i < ModNumSamples then samples[i].(index := Wrap32(TrimmedTotal(samples, i))) else samples[i])
  }

  /** The slot table after the MOD clean-up pass, for `nc` channels. */
  function FixedModSlots(slots: seq<Slot>, nc: nat, hasPanning: bool): (r: seq<Slot>)
    requires nc > 0
    ensures |r| == |slots|
  {
    seq(|slots|, m requires 0 <= m < |slots| => FixModSlot(slots[m], ChannelOf(m, nc), hasPanning))
  }

  /** The module header of a MOD: the fixed tempo, BPM and frequency table, and the prescan's counts. */
  function ModModule(m: Module, data: seq<u8>, p: PrescanData): (r: Module)
    ensures r.isMOD && r.amigaFrequencies && r.tempo == 6 && r.bpm == 125
    ensures r.numChannels == p.numChannels && r.numPatterns == p.numPatterns && r.numRows == p.numRows
    ensures r.numSamples == p.numSamples && r.numInstruments == p.numInstruments
    ensures r.name == ReadString(data, 0, 20)
  {
    m.(name := ReadString(data, 0, 20), isMOD := true, amigaFrequencies := true, tempo := 6, bpm := 125,
       numChannels := p.numChannels, numPatterns := p.numPatterns, numRows := p.numRows,
       numSamples := p.numSamples, numInstruments := p.numInstruments)
  }

  /**
   * The first part of the MOD loader: the module header, the 31 sample
   * headers (each instrument named after its sample and playing only it)
   * and the order information after them.
   */
  method LoadModHeaders(ctx: Context, data: seq<u8>, p: PrescanData)
    requires |ctx.samples| == ModNumSamples && |ctx.instruments| == ModNumSamples
    modifies ctx
    ensures ctx.mod == ModOrders(ModModule(old(ctx.mod), data, p), data, ModNumSamples)
    ensures ctx.samples == ModHeaders(old(ctx.samples), data)
    ensures ctx.instruments == ModInstruments(old(ctx.instruments), data)
    ensures ctx.patterns == old(ctx.patterns) && ctx.patternSlots == old(ctx.patternSlots)
    ensures ctx.samplesData == old(ctx.samplesData)
    ensures ctx.channels == old(ctx.channels) && ctx.rowLoopCount == old(ctx.rowLoopCount)
  {
    ctx.mod := ModModule(ctx.mod, data, p);
    var samples, instruments := ReadModSampleHeaders(ctx.samples, ctx.instruments, data, ModNumSamples);
    ctx.samples := samples;
    instruments := AssignModInstruments(instruments, ModNumSamples);
    ctx.instruments := instruments;
    ctx.mod := ModOrders(ctx.mod, data, ModNumSamples);
  }

  /**
   * The pattern part of the MOD loader: the pattern table, and the slot
   * table holding the decoded cells of the file, in order. Reports whether
   * any cell holds a panning effect, and the offset of the sample data
   * after the cells.
   */
  method LoadModPatterns(ctx: Context, data: seq<u8>) returns (hasPanning: bool, offset: int)
    requires ctx.mod.numPatterns as nat <= 0x100 && |ctx.patterns| == ctx.mod.numPatterns as nat
    requires ctx.mod.numRows as nat == ModRowsPerPattern * ctx.mod.numPatterns as nat
    requires |ctx.patternSlots| == ctx.mod.numRows as nat * ctx.mod.numChannels as nat
    modifies ctx
    ensures var cells := |ctx.patternSlots|;
      && ctx.patternSlots == DecodedCells(data, 0, cells)
      && hasPanning == AnyPanning(data, cells) && offset == ModPatternData + 4 * cells
    ensures ctx.patterns == ModPatterns(|old(ctx.patterns)|)
    ensures ctx.mod == old(ctx.mod) && |ctx.patternSlots| == |old(ctx.patternSlots)|
    ensures ctx.samples == old(ctx.samples) && ctx.instruments == old(ctx.instruments)
    ensures ctx.samplesData == old(ctx.samplesData)
    ensures ctx.channels == old(ctx.channels) && ctx.rowLoopCount == old(ctx.rowLoopCount)
  {
    var nc := ctx.mod.numChannels;
    PatternCellsProduct(ctx.mod.numPatterns as nat, nc as nat);
    var patterns, slots;
    patterns, slots, hasPanning, offset := ReadModPatterns(ctx.patterns, ctx.patternSlots, data, ctx.mod.numPatterns, nc);
    ctx.patterns, ctx.patternSlots := patterns, slots;
  }

  /**
   * The sample-data part of the MOD loader: the points of the 31 samples
   * are placed back to back from the start of the table, and each
   * sample's `index` and the module's sample-data length are set.
   */
  method LoadModSamples(ctx: Context, data: seq<u8>, start: nat)
    requires |ctx.samples| == ModNumSamples && ctx.mod.samplesDataLength == 0
    requires TrimmedTotal(ctx.samples, |ctx.samples|) == |ctx.samplesData| < 0x1_0000_0000
    modifies ctx
    ensures ctx.samplesData == PlacedPoints(old(ctx.samples), data, start, ModNumSamples)
    ensures ctx.samples == ModIndexed(old(ctx.samples))
    ensures ctx.mod == old(ctx.mod).(samplesDataLength := |ctx.samplesData|)
    ensures ctx.patterns == old(ctx.patterns) && ctx.patternSlots == old(ctx.patternSlots)
    ensures ctx.instruments == old(ctx.instruments)
    ensures ctx.channels == old(ctx.channels) && ctx.rowLoopCount == old(ctx.rowLoopCount)
  {
    var samples, samplesData, total, offset := PlaceModSamples(ctx.samples, ctx.samplesData, data, start, |ctx.samples|);
    ctx.samples, ctx.samplesData := samples, samplesData;
    ctx.mod := ctx.mod.(samplesDataLength := AddWrap32(ctx.mod.samplesDataLength, total));
  }

  /** The slot clean-up pass of the MOD loader over the whole slot table. */
  method FixModPatternSlots(ctx: Context, hasPanning: bool)
    requires ctx.mod.numChannels > 0
    requires |ctx.patternSlots| == ctx.mod.numRows as nat * ctx.mod.numChannels as nat
    modifies ctx
    ensures ctx.patternSlots == FixedModSlots(old(ctx.patternSlots), old(ctx.mod.numChannels) as nat, hasPanning)
    ensures ctx.mod == old(ctx.mod) && ctx.patterns == old(ctx.patterns)
    ensures ctx.samples == old(ctx.samples) && ctx.instruments == old(ctx.instruments)
    ensures ctx.samplesData == old(ctx.samplesData)
    ensures ctx.channels == old(ctx.channels) && ctx.rowLoopCount == old(ctx.rowLoopCount)
  {
    var slots := FixModSlots(ctx.patternSlots, ctx.mod.numRows as nat, ctx.mod.numChannels as nat, hasPanning);
    ctx.patternSlots := slots;
  }

  /** What the MOD prescan reports, and the context sized from it, as the loader relies on them. */
  predicate ModPrescanned(ctx: Context, data: seq<u8>, p: PrescanData)
    reads ctx
  {
    && p.numSamples as nat == ModNumSamples && p.numInstruments as nat == ModNumSamples && p.numChannels > 0
    && p.numPatterns as nat <= 0x100 && p.numRows as nat == ModRowsPerPattern * p.numPatterns as nat
    && p.samplesDataLength as nat == ModSamplesTotal(data, ModNumSamples)
    && |ctx.samples| == ModNumSamples && |ctx.instruments| == ModNumSamples
    && |ctx.patterns| == p.numPatterns as nat
    && |ctx.patternSlots| == p.numRows as nat * p.numChannels as nat
    && |ctx.samplesData| == p.samplesDataLength as nat
    && ctx.mod.samplesDataLength == 0
  }

  /**
   * Loads a MOD file the prescan accepted into a context sized from the
   * prescan: the module header, sample headers, instruments and order
   * table; the pattern cells; the sample data; and the MOD slot clean-up.
   * FLT8 files go through the same loader; their interleaving is a
   * separate pass.
   */
  method LoadMOD(ctx: Context, data: seq<u8>, p: PrescanData)
    requires ModPrescanned(ctx, data, p)
    modifies ctx
    ensures ctx.mod == ModOrders(ModModule(old(ctx.mod), data, p), data, ModNumSamples).(samplesDataLength := p.samplesDataLength)
    ensures var cells := |old(ctx.patternSlots)|;
      ctx.samplesData == PlacedPoints(ModHeaders(old(ctx.samples), data), data, ModPatternData + 4 * cells, ModNumSamples)
    ensures ctx.samples == ModIndexed(ModHeaders(old(ctx.samples), data))
    ensures ctx.instruments == ModInstruments(old(ctx.instruments), data)
    ensures ctx.patterns == ModPatterns(p.numPatterns as nat)
    ensures var cells := |old(ctx.patternSlots)|;
      ctx.patternSlots == FixedModSlots(DecodedCells(data, 0, cells), p.numChannels as nat, AnyPanning(data, cells))
    ensures ctx.channels == old(ctx.channels) && ctx.rowLoopCount == old(ctx.rowLoopCount)
  {
    LoadModHeaders(ctx, data, p);
    ghost var headers := ctx.samples;
    ModHeadersFrames(headers, old(ctx.samples), data);
    var hasPanning, offset := LoadModPatterns(ctx, data);
    ghost var loaded := ctx.mod;
    ghost var start: nat := ModPatternData + 4 * |old(ctx.patternSlots)|;
    assert offset == start;
    LoadModSamples(ctx, data, offset as nat);
    assert ctx.samplesData == PlacedPoints(headers, data, start, ModNumSamples);
    FixModPatternSlots(ctx, hasPanning);
    assert ctx.mod == loaded.(samplesDataLength := p.samplesDataLength);
  }

  /** The header pass leaves each sample's trimmed length, which add up to the prescan's sample-data length. */
  lemma ModHeadersFrames(headers: seq<Sample>, samples: seq<Sample>, data: seq<u8>)
    requires |samples| == ModNumSamples && headers == ModHeaders(samples, data)
    ensures TrimmedTotal(headers, |headers|) == ModSamplesTotal(data, ModNumSamples)
  {
    forall i | 0 <= i < ModNumSamples
      ensures headers[i].length == ModSampleFrames(data, i)
    {
    }
    TrimmedTotalOfHeaders(headers, data, ModNumSamples);
  }
}
