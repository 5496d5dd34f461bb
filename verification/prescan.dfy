/**
 * The first pass over a module file: recognise the format (XM 1.04 or one
 * of the ProTracker-family MOD signatures), check the declared counts
 * against the fixed maxima, and compute the sizes of every table the
 * context needs, without storing anything.
 */
module Prescan {
  import opened Wrappers
  import opened Ints
  import opened Readers
  import opened XMTypes

  datatype Format = XM0104 | Mod | ModFLT8

  datatype PrescanData = PrescanData(
    format: Format,
    numRows: u32,
    samplesDataLength: u32,
    numPatterns: u16,
    numSamples: u16,
    potLength: u16,
    numChannels: u8,
    numInstruments: u8)

  const EmptyPatternNumRows: u16 := 64
  const SampleHeaderSize: nat := 40
  const SampleFlagForward: u8 := 1
  const SampleFlagPingPong: u8 := 2
  const SampleFlag16Bit: u8 := 0x10

  /** A sample whose flags ask for a forward or a ping-pong loop. */
  predicate Looped(flags: u8)
  {
    HasFlag(flags, SampleFlagPingPong) || HasFlag(flags, SampleFlagForward)
  }

  // ---------------------------------------------------------------------
  // Sample length trimming
  // ---------------------------------------------------------------------

  /**
   * The number of frames of a sample that playback can reach: everything
   * for an unlooped sample, and up to the end of the loop for a looped one
   * (the loop start clamped to the length, a loop running past the end
   * dropped).
   */
  function TrimSampleLength(length: u32, loopStart: u32, loopLength: u32, flags: u8): (r: u32)
    ensures r <= length
    ensures !Looped(flags) ==> r == length
    ensures Looped(flags) && loopStart + loopLength <= length ==> r == loopStart + loopLength
    ensures Looped(flags) && loopStart + loopLength > length ==> r == Min(loopStart, length)
  {
    if Looped(flags) then
      var ls := if loopStart > length then length else loopStart;
      var ll := if loopStart + loopLength > length then 0 else loopLength;
      ls + ll
    else
      length
  }

  /**
   * The same computation with the source's checked `UInt32` addition
   * `loopStart + loopLength`, which traps (None) when the sum does not fit
   * in 32 bits.
   */
  function TrimSampleLengthAsWritten(length: u32, loopStart: u32, loopLength: u32, flags: u8): (r: Option<u32>)
    ensures r.None? <==> Looped(flags) && loopStart + loopLength > 0xFFFF_FFFF
  {
    if Looped(flags) then
      var ls := if loopStart > length then length else loopStart;
      if loopStart + loopLength > 0xFFFF_FFFF then None
      else
        var ll := if loopStart + loopLength > length then 0 else loopLength;
        Some(ls + ll)
    else
      Some(length)
  }

  /** Wherever the checked addition does not trap, both computations agree. */
  lemma TrimAsWrittenAgrees(length: u32, loopStart: u32, loopLength: u32, flags: u8)
    requires loopStart + loopLength <= 0xFFFF_FFFF
    ensures TrimSampleLengthAsWritten(length, loopStart, loopLength, flags)
         == Some(TrimSampleLength(length, loopStart, loopLength, flags))
  {
  }

  /** A looped sample header whose loop start is 0xFFFFFFFF (and loop length 1) traps the prescan. */
  lemma TrimOverflowExample()
    ensures TrimSampleLengthAsWritten(100, 0xFFFF_FFFF, 1, SampleFlagForward).None?
    ensures TrimSampleLength(100, 0xFFFF_FFFF, 1, SampleFlagForward) == 100
  {
  }

  // ---------------------------------------------------------------------
  // XM 1.04 header fields (the header proper starts at byte 60)
  // ---------------------------------------------------------------------

  /** "Extended Module: " in ASCII. */
  const XMMagic: seq<u8> :=
    [0x45, 0x78, 0x74, 0x65, 0x6E, 0x64, 0x65, 0x64, 0x20, 0x4D, 0x6F, 0x64, 0x75, 0x6C, 0x65, 0x3A, 0x20]

  /** The signature of an XM 1.04 file: the magic text, the 0x1A marker and version 1.04. */
  predicate IsXM0104(data: seq<u8>)
  {
    && |data| >= 60
    && data[..|XMMagic|] == XMMagic
    && data[37] == 0x1A
    && data[58] == 0x04 && data[59] == 0x01
  }

  function XMPotLength(data: seq<u8>): u16 { ReadU16LE(data, 64) }
  function XMChannels(data: seq<u8>): u16 { ReadU16LE(data, 68) }
  function XMPatterns(data: seq<u8>): u16 { ReadU16LE(data, 70) }
  function XMInstruments(data: seq<u8>): u16 { ReadU16LE(data, 72) }
  function XMPot(data: seq<u8>): seq<u8> { ReadArray(data, 80, PatternOrderTableLength) }
  function XMFirstPatternHeader(data: seq<u8>): int { 60 + ReadU32LE(data, 60) }

  // ---------------------------------------------------------------------
  // Pattern headers
  // ---------------------------------------------------------------------

  /** The row count of the pattern header at `offset`; a pattern without packed data always has 64 rows. */
  function PatternHeaderRows(data: seq<u8>, offset: int): u16
  {
    if ReadU16LE(data, offset + 7) == 0 then EmptyPatternNumRows else ReadU16LE(data, offset + 5)
  }

  /** The header length plus the packed data length: where the next pattern header starts. */
  function NextPatternHeader(data: seq<u8>, offset: int): int
  {
    offset + ReadU32LE(data, offset) + ReadU16LE(data, offset + 7)
  }

  /**
   * Walks `n` pattern headers from `offset`, adding their rows to `rows`:
   * the row total and the offset after the last header, or None when one
   * of them has more than 256 rows.
   */
  function PatternWalk(data: seq<u8>, offset: int, n: nat, rows: nat): Option<(nat, int)>
    decreases n
  {
    if n == 0 then Some((rows, offset))
    else if PatternHeaderRows(data, offset) as nat > MaxRowsPerPattern then None
    else PatternWalk(data, NextPatternHeader(data, offset), n - 1, rows + PatternHeaderRows(data, offset) as nat)
  }

  /** An accepted walk adds at most 256 rows per pattern. */
  lemma {:induction false} PatternWalkBound(data: seq<u8>, offset: int, n: nat, rows: nat)
    ensures PatternWalk(data, offset, n, rows).Some? ==> PatternWalk(data, offset, n, rows).value.0 <= rows + MaxRowsPerPattern * n
    decreases n
  {
    if n > 0 {
      PatternWalkBound(data, NextPatternHeader(data, offset), n - 1, rows + PatternHeaderRows(data, offset) as nat);
    }
  }

  /** The loop over the pattern headers of the XM prescan. */
  method ScanPatternHeaders(data: seq<u8>, start: int, n: nat) returns (r: Option<(nat, int)>)
    ensures r == PatternWalk(data, start, n, 0)
  {
    var rows: nat := 0;
    var offset := start;
    var i: nat := 0;
    while i < n
      invariant i <= n
      decreases n - i
      invariant PatternWalk(data, start, n, 0) == PatternWalk(data, offset, n - i, rows)
    {
      var numRows := ReadU16LE(data, offset + 5);
      var packedSize := ReadU16LE(data, offset + 7);
      if packedSize == 0 && numRows != EmptyPatternNumRows {
        numRows := EmptyPatternNumRows;
      }
      if numRows as nat > MaxRowsPerPattern {
        return None;
      }
      rows := rows + numRows;
      offset := offset + ReadU32LE(data, offset) + packedSize;
      i := i + 1;
    }
    return Some((rows, offset));
  }

  /** Whether some of the first `potLen` order-table entries names a pattern that does not exist. */
  method HasInvalidOrder(pot: seq<u8>, potLen: nat, numPatterns: nat) returns (b: bool)
    requires potLen <= |pot|
    ensures b <==> exists i :: 0 <= i < potLen && pot[i] >= numPatterns
  {
    b := false;
    var i := 0;
    while i < potLen
      invariant i <= potLen
      invariant forall j :: 0 <= j < i ==> pot[j] < numPatterns
    {
      if pot[i] >= numPatterns {
        b := true;
        return;
      }
      i := i + 1;
    }
  }

  // ---------------------------------------------------------------------
  // Instrument and sample headers
  // ---------------------------------------------------------------------

  /** The frames the sample header at `off` contributes: trimmed, halved for 16-bit data. */
  function SampleFrames(data: seq<u8>, off: int): u32
  {
    var flags := ReadU8(data, off + 14);
    var t := TrimSampleLength(ReadU32LE(data, off), ReadU32LE(data, off + 4), ReadU32LE(data, off + 8), flags);
    if HasFlag(flags, SampleFlag16Bit) then t / 2 else t
  }

  /** The longest sample allowed: half as long for ping-pong loops, which play the loop twice. */
  function SampleFrameLimit(flags: u8): nat
  {
    if HasFlag(flags, SampleFlagPingPong) then MaxSampleLength as nat / 2 else MaxSampleLength as nat
  }

  /**
   * Walks `n` consecutive 40-byte sample headers, adding the frames and the
   * data bytes they declare to `frames` and `bytes`; None when one sample
   * is too long.
   */
  function SampleWalk(data: seq<u8>, off: int, n: nat, frames: nat, bytes: nat): Option<(nat, nat)>
    decreases n
  {
    if n == 0 then Some((frames, bytes))
    else if SampleFrames(data, off) > SampleFrameLimit(ReadU8(data, off + 14)) then None
    else SampleWalk(data, off + SampleHeaderSize, n - 1, frames + SampleFrames(data, off), bytes + ReadU32LE(data, off))
  }

  /** The sample walk as the prescan performs it, in 32-bit counters that `&+=` wraps. */
  function SampleScan(data: seq<u8>, off: int, n: nat, frames: u32, bytes: u32): Option<(u32, u32)>
    decreases n
  {
    if n == 0 then Some((frames, bytes))
    else if SampleFrames(data, off) > SampleFrameLimit(ReadU8(data, off + 14)) then None
    else
      SampleScan(data, off + SampleHeaderSize, n - 1,
                 AddWrap32(frames, SampleFrames(data, off)), AddWrap32(bytes, ReadU32LE(data, off)))
  }

  function WrapTotals(w: Option<(nat, nat)>): Option<(u32, u32)>
  {
    if w.None? then None else Some((Wrap32(w.value.0), Wrap32(w.value.1)))
  }

  /**
   * The wrapping counters fail exactly where the walk fails, and otherwise
   * hold the walk's exact totals modulo 2^32.
   */
  lemma {:induction false} SampleScanWraps(data: seq<u8>, off: int, n: nat, frames: nat, bytes: nat)
    ensures SampleScan(data, off, n, Wrap32(frames), Wrap32(bytes)) == WrapTotals(SampleWalk(data, off, n, frames, bytes))
    decreases n
  {
    if n > 0 && SampleFrames(data, off) <= SampleFrameLimit(ReadU8(data, off + 14)) {
      var f, b := SampleFrames(data, off), ReadU32LE(data, off);
      AddWrap32Total(frames, f);
      AddWrap32Total(bytes, b);
      SampleScanWraps(data, off + SampleHeaderSize, n - 1, frames + f, bytes + b);
    }
  }

  /**
   * The inner loop of the XM prescan: adds the frames of `n` sample
   * headers to `acc` and sums their data bytes, both with `&+=`.
   */
  method ScanSampleHeaders(data: seq<u8>, start: int, n: nat, acc: u32) returns (r: Option<(u32, u32)>)
    ensures r == SampleScan(data, start, n, acc, 0)
  {
    var frames := acc;
    var bytes: u32 := 0;
    var offset := start;
    var j: nat := 0;
    while j < n
      invariant j <= n
      decreases n - j
      invariant SampleScan(data, start, n, acc, 0) == SampleScan(data, offset, n - j, frames, bytes)
    {
      var sampleLengthBytes := ReadU32LE(data, offset);
      var flags := ReadU8(data, offset + 14);
      var sampleLength := TrimSampleLength(sampleLengthBytes, ReadU32LE(data, offset + 4), ReadU32LE(data, offset + 8), flags);
      if HasFlag(flags, SampleFlag16Bit) {
        sampleLength := sampleLength / 2;
      }
      var max := MaxSampleLength;
      if HasFlag(flags, SampleFlagPingPong) {
        max := max / 2;
      }
      assert sampleLength == SampleFrames(data, offset) && max == SampleFrameLimit(flags);
      if sampleLength > max {
        return None;
      }
      frames := AddWrap32(frames, sampleLength);
      bytes := AddWrap32(bytes, sampleLengthBytes);
      offset := offset + SampleHeaderSize;
      j := j + 1;
    }
    return Some((frames, bytes));
  }

  /**
   * Walks `n` instrument headers, each followed by its sample headers and
   * sample data, counting samples in a 16-bit counter and frames in a
   * 32-bit counter as the prescan does; None when an instrument has more
   * than 255 samples or a sample is too long. The data of an instrument is
   * skipped by its byte total, as the wrapping 32-bit counter holds it.
   */
  function InstrumentScan(data: seq<u8>, off: int, n: nat, samples: u16, frames: u32): Option<(u16, u32)>
    decreases n
  {
    if n == 0 then Some((samples, frames))
    else
      match InstrumentStep(data, off, frames)
      case None => None
      case Some(st) => InstrumentScan(data, st.1, n - 1, AddWrap16(samples, st.0), st.2)
  }

  /**
   * One instrument of the scan: its sample count (at most 255), the offset
   * after its sample headers and data, and the frame total with its
   * samples added; None when it is rejected.
   */
  function InstrumentStep(data: seq<u8>, off: int, frames: u32): (r: Option<(u16, int, u32)>)
    ensures r.Some? ==> r.value.0 as nat <= MaxSamplesPerInstrument
  {
    var ns := ReadU16LE(data, off + 27);
    if ns as nat > MaxSamplesPerInstrument then None
    else
      var headers := off + ReadU32LE(data, off);
      match SampleScan(data, headers, ns, frames, 0)
      case None => None
      case Some(s) => Some((ns, headers + SampleHeaderSize * ns + s.1, s.0))
  }

  /** An accepted scan adds at most 255 samples per instrument, so the 16-bit counter never wraps. */
  lemma {:induction false} InstrumentScanBound(data: seq<u8>, off: int, n: nat, samples: u16, frames: u32)
    requires samples + MaxSamplesPerInstrument * n < 0x1_0000
    ensures InstrumentScan(data, off, n, samples, frames).Some? ==>
      samples <= InstrumentScan(data, off, n, samples, frames).value.0 <= samples + MaxSamplesPerInstrument * n
    decreases n
  {
    if n > 0 {
      var st := InstrumentStep(data, off, frames);
      if st.Some? {
        assert AddWrap16(samples, st.value.0) == samples + st.value.0;
        InstrumentScanBound(data, st.value.1, n - 1, samples + st.value.0, st.value.2);
      }
    }
  }

  /** The loop over the instrument headers of the XM prescan: the sample count and the frame total. */
  method ScanInstruments(data: seq<u8>, start: int, n: nat) returns (r: Option<(u16, u32)>)
    ensures r == InstrumentScan(data, start, n, 0, 0)
  {
    var numSamples: u16 := 0;
    var frames: u32 := 0;
    var offset := start;
    var i: nat := 0;
    while i < n
      invariant i <= n
      decreases n - i
      invariant InstrumentScan(data, start, n, 0, 0) == InstrumentScan(data, offset, n - i, numSamples, frames)
    {
      var ns := ReadU16LE(data, offset + 27);
      if ns as nat > MaxSamplesPerInstrument {
        return None;
      }
      numSamples := AddWrap16(numSamples, ns);
      var headers := offset + ReadU32LE(data, offset);
      var s := ScanSampleHeaders(data, headers, ns, frames);
      if s.None? {
        return None;
      }
      frames := s.value.0;
      offset := headers + SampleHeaderSize * ns + s.value.1;
      i := i + 1;
    }
    return Some((numSamples, frames));
  }

  // ---------------------------------------------------------------------
  // XM prescan
  // ---------------------------------------------------------------------

  /** Whether the order table names a pattern past the declared ones, so that an empty pattern must be added. */
  predicate XMNeedsEmptyPattern(data: seq<u8>)
  {
    exists i :: 0 <= i < Min(XMPotLength(data), PatternOrderTableLength) && XMPot(data)[i] >= XMPatterns(data)
  }

  /** Everything the XM prescan demands of a file before it accepts it. */
  predicate XMAccepted(data: seq<u8>)
  {
    && IsXM0104(data)
    && XMChannels(data) as nat <= MaxChannels
    && XMPatterns(data) as nat <= MaxPatterns
    && XMInstruments(data) as nat <= MaxInstruments
    && PatternWalk(data, XMFirstPatternHeader(data), XMPatterns(data), 0).Some?
    && !(XMNeedsEmptyPattern(data) && XMPatterns(data) as nat >= MaxPatterns)
    && InstrumentScan(data, PatternWalk(data, XMFirstPatternHeader(data), XMPatterns(data), 0).value.1,
                      XMInstruments(data), 0, 0).Some?
  }

  /** The sizes the XM prescan reports for an accepted file. */
  predicate XMSizes(data: seq<u8>, p: PrescanData)
    requires XMAccepted(data)
  {
    var extra := if XMNeedsEmptyPattern(data) then 1 else 0;
    var pw := PatternWalk(data, XMFirstPatternHeader(data), XMPatterns(data), 0).value;
    var iw := InstrumentScan(data, pw.1, XMInstruments(data), 0, 0).value;
    && p.format == XM0104
    && p.numChannels as nat == XMChannels(data) as nat
    && p.numInstruments as nat == XMInstruments(data) as nat
    && p.potLength as nat == Min(XMPotLength(data), PatternOrderTableLength)
    && p.numPatterns as nat == XMPatterns(data) as nat + extra <= MaxPatterns
    && p.numRows as nat == pw.0 + EmptyPatternNumRows as nat * extra
    && p.numSamples == iw.0 <= MaxSamplesPerInstrument * XMInstruments(data)
    && p.samplesDataLength == iw.1
  }

  /**
   * Recognises an XM 1.04 file and sizes its tables: the counts from the
   * header, the rows of all patterns (plus one empty 64-row pattern when the
   * order table names a missing pattern), and the samples and sample
   * frames of all instruments.
   */
  method PrescanXM0104(data: seq<u8>) returns (r: Option<PrescanData>)
    ensures r.Some? <==> XMAccepted(data)
    ensures r.Some? ==> IsXM0104(data) && XMSizes(data, r.value)
  {
    if !IsXM0104(data) {
      return None;
    }
    var offset := 60;
    var potLength := ReadU16LE(data, offset + 4);
    var numChannels := ReadU16LE(data, offset + 8);
    if numChannels as nat > MaxChannels {
      return None;
    }
    var numPatterns := ReadU16LE(data, offset + 10);
    if numPatterns as nat > MaxPatterns {
      return None;
    }
    var numInstruments := ReadU16LE(data, offset + 12);
    if numInstruments as nat > MaxInstruments {
      return None;
    }
    r := PrescanXMTables(data, potLength, numChannels, numPatterns, numInstruments);
  }

  /** The XM prescan past the header counts: pattern headers, the order table, instruments and samples. */
  method PrescanXMTables(data: seq<u8>, potLength: u16, numChannels: u16, numPatterns: u16, numInstruments: u16)
    returns (r: Option<PrescanData>)
    requires IsXM0104(data) && potLength == XMPotLength(data)
    requires numChannels == XMChannels(data) && numChannels as nat <= MaxChannels
    requires numPatterns == XMPatterns(data) && numPatterns as nat <= MaxPatterns
    requires numInstruments == XMInstruments(data) && numInstruments as nat <= MaxInstruments
    ensures r.Some? <==> XMAccepted(data)
    ensures r.Some? ==> XMSizes(data, r.value)
  {
    var pot := ReadArray(data, 80, PatternOrderTableLength);
    var offset := 60 + ReadU32LE(data, 60);
    var pw := ScanPatternHeaders(data, offset, numPatterns);
    if pw.None? {
      return None;
    }
    PatternWalkBound(data, offset, numPatterns, 0);
    var numRows: u32 := pw.value.0;

    var potLen := if potLength as nat > PatternOrderTableLength then PatternOrderTableLength else potLength as nat;
    var needsEmptyPattern := HasInvalidOrder(pot, potLen, numPatterns);
    assert pot == XMPot(data) && potLen == Min(XMPotLength(data), PatternOrderTableLength);
    assert needsEmptyPattern == XMNeedsEmptyPattern(data);
    var totalPatterns := numPatterns;
    if needsEmptyPattern {
      if numPatterns as nat >= MaxPatterns {
        return None;
      }
      numRows := numRows + EmptyPatternNumRows;
      totalPatterns := numPatterns + 1;
    }

    var iw := ScanInstruments(data, pw.value.1, numInstruments);
    if iw.None? {
      return None;
    }
    InstrumentScanBound(data, pw.value.1, numInstruments, 0, 0);
    return Some(PrescanData(XM0104, numRows, iw.value.1, totalPatterns, iw.value.0,
                            potLen, numChannels, numInstruments));
  }

  // ---------------------------------------------------------------------
  // MOD prescan
  // ---------------------------------------------------------------------

  /** Where the four-byte format signature of a 31-sample MOD sits. */
  const ModSignature: nat := 150 + 31 * 30

  const SigMK: seq<u8> := [0x4D, 0x2E, 0x4B, 0x2E]    // "M.K."
  const SigMKBang: seq<u8> := [0x4D, 0x21, 0x4B, 0x21]  // "M!K!"
  const SigFLT4: seq<u8> := [0x46, 0x4C, 0x54, 0x34]  // "FLT4"
  const SigCD81: seq<u8> := [0x43, 0x44, 0x38, 0x31]  // "CD81"
  const SigOCTA: seq<u8> := [0x4F, 0x43, 0x54, 0x41]  // "OCTA"
  const SigOKTA: seq<u8> := [0x4F, 0x4B, 0x54, 0x41]  // "OKTA"
  const SigFLT8: seq<u8> := [0x46, 0x4C, 0x54, 0x38]  // "FLT8"

  predicate IsDigit(b: u8, lo: u8) { lo <= b <= 0x39 }

  /**
   * The channel count and format a MOD signature announces: M.K., M!K! and
   * FLT4 have 4 channels; CD81, OCTA and OKTA 8; FLT8 8 in the FLT8
   * layout; "nCHN", "nnCH"/"nnCN" and "TDZn" give the count in decimal.
   */
  function ModChannels(data: seq<u8>): (r: Option<(u8, Format)>)
    requires |data| >= ModSignature + 4
    ensures r.Some? ==> 1 <= r.value.0 <= 99 && r.value.1 != XM0104
    ensures r.Some? && r.value.1 == ModFLT8 <==> data[ModSignature..ModSignature + 4] == SigFLT8
  {
    var id := data[ModSignature..ModSignature + 4];
    var chn, chn2, chn3 := data[ModSignature], data[ModSignature + 1], data[ModSignature + 3];
    if id == SigMK || id == SigMKBang || id == SigFLT4 then Some((4, Mod))
    else if id == SigCD81 || id == SigOCTA || id == SigOKTA then Some((8, Mod))
    else if id == SigFLT8 then Some((8, ModFLT8))
    else if IsDigit(chn, 0x31) && data[ModSignature + 1] == 0x43 && data[ModSignature + 2] == 0x48
      && data[ModSignature + 3] == 0x4E then
      Some((chn - 0x30, Mod))
    else if IsDigit(chn, 0x31) && IsDigit(chn2, 0x30)
      && (data[ModSignature + 2] == 0x43 || data[ModSignature + 2] == 0x4E) then
      Some(((chn - 0x30) * 10 + (chn2 - 0x30), Mod))
    else if IsDigit(chn3, 0x31) && data[ModSignature] == 0x54 && data[ModSignature + 1] == 0x44
      && data[ModSignature + 2] == 0x5A then
      Some((chn3 - 0x30, Mod))
    else None
  }

  /**
   * A MOD length field counts 16-bit words; the byte count is twice the
   * word. The source doubles it in `UInt16`, which traps (None) for a word
   * of 0x8000 or more.
   */
  function ModWordBytesAsWritten(word: u16): (r: Option<u16>)
    ensures r.Some? <==> word < 0x8000
    ensures r.Some? ==> r.value == 2 * word
  {
    if word * 2 > 0xFFFF then None else Some(word * 2)
  }

  /** The byte count of a MOD word field, doubled in 32 bits. */
  function ModWordBytes(word: u16): (r: u32)
    ensures r % 2 == 0 && r / 2 == word
  {
    word * 2
  }

  /** A sample of 0x8000 words (64 KiB) traps the source, though the field allows up to 0xFFFF words. */
  lemma ModWordOverflowExample()
    ensures ModWordBytesAsWritten(0x8000).None?
    ensures ModWordBytes(0x8000) == 0x1_0000
  {
  }

  /** The frames sample `i` of a MOD contributes: its length, trimmed to the loop end when it loops. */
  function ModSampleFrames(data: seq<u8>, i: nat): (r: u32)
    ensures r <= 2 * 0xFFFF
  {
    var base := 42 + 30 * i;
    var length := ModWordBytes(ReadU16BE(data, base));
    var loopStart := ModWordBytes(ReadU16BE(data, base + 4));
    var loopLength := ModWordBytes(ReadU16BE(data, base + 6));
    if loopLength > 2 then TrimSampleLength(length, loopStart, loopLength, SampleFlagForward) else length
  }

  /** The sum of the trimmed lengths of the first `n` MOD sample headers, at most two 16-bit words per header. */
  function ModSamplesTotal(data: seq<u8>, n: nat): (r: nat)
    ensures r <= 2 * 0xFFFF * n
  {
    if n == 0 then 0 else ModSamplesTotal(data, n - 1) + ModSampleFrames(data, n - 1)
  }

  /** The number of patterns an order table needs: one more than its largest entry. */
  function OrderTableCount(pot: seq<u8>): (c: nat)
    ensures c <= 0x100
  {
    if pot == [] then 0
    else
      var c := OrderTableCount(pot[..|pot| - 1]);
      var last := pot[|pot| - 1];
      if last >= c then last + 1 else c
  }

  /** The count exceeds every entry and is one more than some entry: it is the maximum plus one. */
  lemma {:induction false} OrderTableCountIsMax(pot: seq<u8>)
    ensures forall i :: 0 <= i < |pot| ==> pot[i] < OrderTableCount(pot)
    ensures pot != [] ==> exists i :: 0 <= i < |pot| && pot[i] == OrderTableCount(pot) - 1
    ensures pot == [] ==> OrderTableCount(pot) == 0
  {
    if pot != [] {
      var init := pot[..|pot| - 1];
      OrderTableCountIsMax(init);
      assert forall i :: 0 <= i < |init| ==> pot[i] == init[i];
      if OrderTableCount(init) > pot[|pot| - 1] {
        var k :| 0 <= k < |init| && init[k] == OrderTableCount(init) - 1;
        assert pot[k] == OrderTableCount(pot) - 1;
      }
    }
  }

  /**
   * The pattern count as the source computes it, with a `UInt8` counter
   * that `pv &+ 1` wraps to 0 on an order entry of 255.
   */
  function OrderTableCountAsWritten(pot: seq<u8>): u8
  {
    if pot == [] then 0
    else
      var c := OrderTableCountAsWritten(pot[..|pot| - 1]);
      var pv := pot[|pot| - 1];
      if pv >= c then Wrap8(pv + 1) else c
  }

  /** With no entry of 255 the two counts agree. */
  lemma {:induction false} OrderTableCountAgrees(pot: seq<u8>)
    requires forall i :: 0 <= i < |pot| ==> pot[i] < 0xFF
    ensures OrderTableCountAsWritten(pot) as nat == OrderTableCount(pot)
  {
    if pot != [] {
      OrderTableCountAgrees(pot[..|pot| - 1]);
    }
  }

  /** An order table [255, 0] asks for 256 patterns; the wrapped counter reports 1. */
  lemma OrderTableCountWrapExample()
    ensures OrderTableCountAsWritten([0xFF, 0]) == 1
    ensures OrderTableCount([0xFF, 0]) == 0x100
  {
    assert [0xFF, 0][..1] == [0xFF];
    assert [0xFF][..0] == [];
  }

  /** The loop over the 31 MOD sample headers: the total of their trimmed lengths, summed with `&+=`. */
  method ScanModSamples(data: seq<u8>) returns (total: u32)
    ensures total as nat == ModSamplesTotal(data, 31)
  {
    total := 0;
    var i := 0;
    while i < 31
      invariant i <= 31
      invariant total as nat == ModSamplesTotal(data, i)
    {
      var trimmed := ModSampleFrames(data, i);
      total := AddWrap32(total, trimmed);
      i := i + 1;
    }
  }

  /** The loop over the 128 MOD order-table entries: one more than the largest entry. */
  method ScanModOrderTable(data: seq<u8>) returns (numPatterns: u16)
    ensures numPatterns as nat == OrderTableCount(ReadArray(data, 952, 128))
  {
    var pot := ReadArray(data, 952, 128);
    numPatterns := 0;
    var i := 0;
    while i < 128
      invariant i <= 128
      invariant numPatterns as nat == OrderTableCount(pot[..i])
    {
      var pv := ReadU8(data, 952 + i);
      assert pot[..i + 1][..i] == pot[..i];
      if pv >= numPatterns {
        numPatterns := pv + 1;
      }
      i := i + 1;
    }
    assert pot[..128] == pot;
  }

  /**
   * The MOD order-table length as the prescan records it: the byte at
   * offset 950 taken whole, up to 255, though the table has 128 entries.
   */
  function ModPotLengthAsWritten(data: seq<u8>): (r: u16)
    ensures r <= 0xFF
  {
    ReadU8(data, 950)
  }

  /**
   * The MOD order-table length clamped to the table's 128 entries, as the
   * loader sets it: a byte that fits is taken as it is.
   */
  function ModPotLength(data: seq<u8>): (r: u16)
    ensures r <= 128
    ensures ModPotLengthAsWritten(data) <= 128 ==> r == ModPotLengthAsWritten(data)
    ensures ModPotLengthAsWritten(data) > 128 ==> r == 128
  {
    var b := ReadU8(data, 950);
    if b > 128 then 128 else b
  }

  /**
   * The MOD prescan after the signature: 31 samples (their trimmed
   * lengths summed), the order-table length clamped to 128, the pattern count from
   * the 128 order entries (halved, rounding up, for FLT8, which stores two
   * 4-channel patterns per 8-channel pattern), 64 rows per pattern, and a
   * check that the file holds at least the headers and all sample data.
   */
  method PrescanMODDetails(data: seq<u8>, format: Format, numChannels: u8) returns (r: Option<PrescanData>)
    ensures r.Some? <==> |data| >= 1084 + ModSamplesTotal(data, 31)
    ensures r.Some? ==>
      var count := OrderTableCount(ReadArray(data, 952, 128));
      && r.value.format == format && r.value.numChannels == numChannels
      && r.value.numInstruments == 31 && r.value.numSamples == 31
      && r.value.samplesDataLength as nat == ModSamplesTotal(data, 31)
      && r.value.potLength == ModPotLength(data)
      && r.value.numPatterns as nat == (if format == ModFLT8 then (count + 1) / 2 else count)
      && r.value.numRows as nat == 64 * r.value.numPatterns as nat
  {
    var samplesDataLength := ScanModSamples(data);
    var potLength := ModPotLength(data);
    var numPatterns := ScanModOrderTable(data);
    if format == ModFLT8 {
      numPatterns := (numPatterns + 1) / 2;
    }
    var numRows: u32 := 64 * numPatterns;
    if |data| < 1084 + samplesDataLength {
      return None;
    }
    return Some(PrescanData(format, numRows, samplesDataLength, numPatterns, 31,
                            potLength, numChannels, 31));
  }

  /** Recognises a 31-sample MOD by its signature and sizes its tables. */
  method PrescanMOD(data: seq<u8>) returns (r: Option<PrescanData>)
    ensures r.Some? <==> |data| >= 1084 && ModChannels(data).Some? && |data| >= 1084 + ModSamplesTotal(data, 31)
    ensures r.Some? ==>
      && r.value.numChannels == ModChannels(data).value.0
      && r.value.format == ModChannels(data).value.1
      && r.value.numInstruments == 31 && r.value.numSamples == 31
      && r.value.numRows as nat == 64 * r.value.numPatterns as nat
  {
    if |data| < 154 + 31 * 30 {
      return None;
    }
    var ch := ModChannels(data);
    if ch.None? {
      return None;
    }
    r := PrescanMODDetails(data, ch.value.1, ch.value.0);
  }

  /** Tries the XM prescan first and the MOD prescan second. */
  method PrescanModule(data: seq<u8>) returns (r: Option<PrescanData>)
    ensures r.Some? <==> XMAccepted(data) || (|data| >= 1084 && ModChannels(data).Some? && |data| >= 1084 + ModSamplesTotal(data, 31))
    ensures r.Some? && XMAccepted(data) ==> r.value.format == XM0104
    ensures r.Some? && !XMAccepted(data) ==> r.value.format != XM0104
  {
    r := PrescanXM0104(data);
    if r.Some? {
      return;
    }
    r := PrescanMOD(data);
  }
}
