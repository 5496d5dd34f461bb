/**
 * The per-channel effect arithmetic of the player: the oscillator
 * waveforms, effect-parameter memory, parameter and pitch slides, the
 * linear period table, rounding to a semitone, tone portamento, vibrato,
 * tremolo, arpeggio, the multi-retrigger volume table, and the fixed-point
 * steps of a tick.
 *
 * The Swift functions take the channel `inout`; a channel is a value, so
 * each becomes a function from the old channel to the new one. Where the
 * Swift code can trap (a checked integer conversion that overflows, a
 * remainder by zero) the function returns `None`: the model makes the
 * failing inputs explicit instead of excluding them.
 */
module Effects {
  import opened Wrappers
  import opened Ints
  import opened XMTypes

  // ---------------------------------------------------------------------
  // Oscillators
  // ---------------------------------------------------------------------

  /** A quarter period of the sine oscillator, 16 steps from 0 to 127. */
  const SineQuarter: seq<int> := [0, 12, 24, 37, 48, 60, 71, 81, 90, 98, 106, 112, 118, 122, 125, 127]

  /** The sine oscillator at step `s` of its 64-step period: negative in the first half. */
  function SineWave(s: nat): (r: i8)
    requires s < 64
  {
    var idx := if (s / 16) % 2 == 1 then 15 - s % 16 else s % 16;
    if s < 0x20 then -SineQuarter[idx] else SineQuarter[idx]
  }

  /**
   * xm_waveform: the oscillator value of `waveform` (its low two bits) at
   * `step`; one period is 64 steps. The ramp-down value is `-4 * step - 1`
   * and the ramp-up value `4 * step`, both truncated to 8 bits.
   */
  function Waveform(waveform: u8, step: u8): (r: i8)
  {
    var s := step % 0x40;
    var w := waveform % 4;
    if w == WaveformSquare then (if s < 0x20 then -128 else 127)
    else if w == WaveformRampDown then WrapI8(-s * 4 - 1)
    else if w == WaveformRampUp then WrapI8(s * 4)
    else SineWave(s)
  }

  /** The sine is negative in the first half period and positive in the second. */
  lemma SineSign(s: nat)
    requires s < 64
    ensures s < 32 ==> -127 <= SineWave(s) <= 0
    ensures s >= 32 ==> 0 <= SineWave(s) <= 127
  {
    assert forall i :: 0 <= i < 16 ==> 0 <= SineQuarter[i] <= 127;
  }

  /** The sine is odd about half a period and mirrored about each quarter. */
  lemma SineSymmetry(s: nat)
    requires s < 32
    ensures SineWave(s + 32) == -SineWave(s)
    ensures s < 16 ==> SineWave(16 + s) == SineWave(15 - s)
  {
    SineOdd(s);
    if s < 16 {
      SineMirror(s);
    }
  }

  /** Half a period later the sine has the opposite sign. */
  lemma SineOdd(s: nat)
    requires s < 32
    ensures SineWave(s + 32) == -SineWave(s)
  {
    if s < 16 {
      assert s / 16 == 0 && (s + 32) / 16 == 2 && (s + 32) % 16 == s % 16;
    } else {
      assert s / 16 == 1 && (s + 32) / 16 == 3 && (s + 32) % 16 == s % 16;
    }
  }

  /** The second quarter mirrors the first. */
  lemma SineMirror(s: nat)
    requires s < 16
    ensures SineWave(16 + s) == SineWave(15 - s)
  {
    assert (16 + s) / 16 == 1 && (16 + s) % 16 == s;
    assert (15 - s) / 16 == 0 && (15 - s) % 16 == 15 - s;
  }

  /** Only the low two bits choose the waveform and only the step modulo 64 matters. */
  lemma WaveformPeriodic(waveform: u8, step: u8)
    ensures Waveform(waveform, step) == Waveform(waveform % 4, step % 64)
  {
    assert (step % 64) % 64 == step % 64 && (waveform % 4) % 4 == waveform % 4;
  }

  /** The square wave is -128 in the first half period and 127 in the second. */
  lemma SquareHalves(step: u8)
    ensures Waveform(WaveformSquare, step) == (if step % 64 < 32 then -128 else 127)
  {
  }

  /** The ramp-down value is the bitwise complement of the ramp-up value. */
  lemma RampsComplement(step: u8)
    ensures Waveform(WaveformRampDown, step) == -1 - Waveform(WaveformRampUp, step)
  {
    var s := step % 64;
    assert (s * 4) % 0x100 == 4 * s;
    assert (-s * 4 - 1) % 0x100 == 255 - 4 * s;
  }

  /** The ramp up climbs by 4 at every step except where it wraps, half way through the period. */
  lemma RampUpClimbs(step: u8)
    requires 0 < step % 64 && step % 64 != 32
    ensures Waveform(WaveformRampUp, step) == Waveform(WaveformRampUp, step - 1) + 4
  {
    var s := step % 64;
    assert (step - 1) % 64 == s - 1;
    RampUpValue(s as nat);
    RampUpValue(s as nat - 1);
  }

  /** The ramp-up value at position `s` of the period. */
  lemma RampUpValue(s: nat)
    requires s < 64
    ensures WrapI8(s * 4) == if s < 32 then 4 * s else 4 * s - 0x100
  {
    assert (s * 4) % 0x100 == 4 * s;
  }

  // ---------------------------------------------------------------------
  // Effect memory and parameter slides
  // ---------------------------------------------------------------------

  /**
   * UPDATE_EFFECT_MEMORY_XY: each non-zero nibble of `value` replaces the
   * same nibble of the remembered parameter; a zero nibble keeps the old one.
   */
  function UpdateEffectMemoryXY(memory: u8, value: u8): (r: u8)
    ensures r % 16 == (if value % 16 != 0 then value % 16 else memory % 16)
    ensures r / 16 == (if value / 16 != 0 then value / 16 else memory / 16)
  {
    var m := if value % 16 != 0 then (memory / 16) * 16 + value % 16 else memory;
    if value / 16 != 0 then (value / 16) * 16 + m % 16 else m
  }

  /** A zero value leaves the memory alone, a value with two non-zero nibbles replaces it, and applying a value twice is applying it once. */
  lemma EffectMemoryLaws(memory: u8, value: u8)
    ensures value == 0 ==> UpdateEffectMemoryXY(memory, value) == memory
    ensures value % 16 != 0 && value / 16 != 0 ==> UpdateEffectMemoryXY(memory, value) == value
    ensures UpdateEffectMemoryXY(UpdateEffectMemoryXY(memory, value), value) == UpdateEffectMemoryXY(memory, value)
  {
  }

  /**
   * xm_param_slide: a non-zero high nibble of `rawval` slides up by that
   * nibble, saturating at `max`; otherwise the low nibble slides down,
   * saturating at 0.
   */
  function ParamSlide(param: u8, rawval: u8, max: u8): (r: u8)
    ensures rawval / 16 != 0 ==> r == Min(param + rawval / 16, max)
    ensures rawval / 16 == 0 ==> r == Max(param - rawval % 16, 0)
    ensures param <= max ==> r <= max
  {
    if rawval / 16 != 0 then
      (if param + rawval / 16 > max then max else param + rawval / 16)
    else
      (if param - rawval % 16 < 0 then 0 else param - rawval % 16)
  }

  /** Sliding preserves the order of two parameters. */
  lemma ParamSlideMonotone(p: u8, q: u8, rawval: u8, max: u8)
    requires p <= q
    ensures ParamSlide(p, rawval, max) <= ParamSlide(q, rawval, max)
  {
  }

  // ---------------------------------------------------------------------
  // Periods
  // ---------------------------------------------------------------------

  /** The period before the last rounding to a semitone: the rounding error is kept aside. */
  function UnroundedPeriod(ch: Channel): int
  {
    ch.period + ch.glissandoControlError
  }

  /**
   * xm_pitch_slide: restore the unrounded period, then move it by `offset`,
   * never below 1; the glissando error and the vibrato offset are cleared.
   * `None` when either checked `UInt16` conversion traps.
   */
  function PitchSlide(ch: Channel, offset: i16): (r: Option<Channel>)
    ensures r.Some? <==> 0 <= UnroundedPeriod(ch) < 0x1_0000 && UnroundedPeriod(ch) + offset < 0x1_0000
    ensures r.Some? ==> r.value.period >= 1 && r.value.glissandoControlError == 0 && r.value.vibratoOffset == 0
    ensures r.Some? && UnroundedPeriod(ch) + offset >= 1 ==> r.value.period == UnroundedPeriod(ch) + offset
    ensures r.Some? && UnroundedPeriod(ch) + offset < 1 ==> r.value.period == 1
    ensures r.Some? ==> r.value == ch.(period := r.value.period, glissandoControlError := 0, vibratoOffset := 0)
  {
    var restored := ch.period + ch.glissandoControlError;
    if !(0 <= restored < 0x1_0000) then None
    else
      var newPeriod := restored + offset;
      if newPeriod < 1 then Some(ch.(period := 1, glissandoControlError := 0, vibratoOffset := 0))
      else if newPeriod >= 0x1_0000 then None
      else Some(ch.(period := newPeriod, glissandoControlError := 0, vibratoOffset := 0))
  }

  /** Two slides that stay above period 1 add up. */
  lemma PitchSlidesAdd(ch: Channel, a: i16, b: i16)
    requires PitchSlide(ch, a).Some?
    requires UnroundedPeriod(ch) + a >= 1 && UnroundedPeriod(ch) + a + b >= 1
    requires -0x8000 <= a + b < 0x8000
    ensures PitchSlide(PitchSlide(ch, a).value, b) == PitchSlide(ch, a + b)
  {
  }

  /** A portamento down of `4 * 0xFF` per tick from period 65000 overflows the 16-bit period: the source traps. */
  lemma PortamentoDownOverflows(ch: Channel)
    requires ch.period == 65000 && ch.glissandoControlError == 0
    ensures PitchSlide(ch, 4 * 0xFF).None?
  {
  }

  /** xm_linear_period: 7680 minus four units per finetune step, clamped to 16 bits. */
  function LinearPeriod(note: i16): (r: u16)
    ensures 7680 - 4 * note < 0 ==> r == 0
    ensures 0 <= 7680 - 4 * note <= 0xFFFF ==> r == 7680 - 4 * note
    ensures 7680 - 4 * note > 0xFFFF ==> r == 0xFFFF
  {
    var v := 7680 - note * 4;
    if v < 0 then 0 else if v > 0xFFFF then 0xFFFF else v
  }

  /**
   * The period of note `n` (1 to 119) with finetune `ft`, as the player
   * computes it, is 64 units per semitone below the period of note 121,
   * less four units per finetune step, and never negative: every note with
   * a positive period lies on the grid that rounding to a semitone uses.
   */
  lemma NotePeriodOnGrid(n: int, ft: i8)
    requires 1 <= n < 120
    ensures LinearPeriod(16 * (n - 1) + ft) == Max(64 * (121 - n) - 4 * ft, 0)
    ensures LinearPeriod(16 * (n - 1) + ft) > 0 ==> (LinearPeriod(16 * (n - 1) + ft) + 4 * ft) % 64 == 0
  {
  }

  /** Higher notes have shorter periods. */
  lemma LinearPeriodAntitone(a: i16, b: i16)
    requires a <= b
    ensures LinearPeriod(b) <= LinearPeriod(a)
  {
  }

  /**
   * xm_period: the Amiga period (a floating-point power of two in the source,
   * supplied here as `amigaPeriod`) or the linear period.
   */
  function Period(amiga: bool, amigaPeriod: i16 -> u16, note: i16): (r: u16)
    ensures !amiga ==> r == LinearPeriod(note)
    ensures amiga ==> r == amigaPeriod(note)
  {
    if amiga then amigaPeriod(note) else LinearPeriod(note)
  }

  /**
   * The linear rounding does not trap: the sum `period + 4 * finetune + 32`
   * is in 16 bits and the rounded period as well.
   */
  predicate RoundingFits(period: int, finetune: int)
  {
    var x := period + 4 * finetune + 32;
    0 <= x < 0x1_0000 && 0 <= (x / 64) * 64 - 4 * finetune < 0x1_0000
  }

  /**
   * xm_round_linear_period_to_semitone: move the period to the nearest
   * point of the semitone grid shifted by the finetune, and keep the
   * difference as the glissando error. The source masks with `& 0xFFC0`
   * and converts with `UInt16(...)` and `Int8(...)`; `None` when one traps.
   */
  function RoundLinearPeriodToSemitone(ch: Channel): (r: Option<Channel>)
    ensures r.Some? <==> RoundingFits(ch.period, ch.finetune)
    ensures r.Some? ==> (r.value.period + 4 * ch.finetune) % 64 == 0
    ensures r.Some? ==> r.value.period + r.value.glissandoControlError == ch.period
    ensures r.Some? ==> -32 <= r.value.glissandoControlError < 32
    ensures r.Some? ==> r.value == ch.(period := r.value.period, glissandoControlError := r.value.glissandoControlError)
  {
    var f := ch.finetune * 4;
    var masked := (((ch.period + f + 32) % 0x1_0000) / 64) * 64;
    var newPeriod := masked - f;
    if !(0 <= newPeriod < 0x1_0000) then None
    else
      var err := ch.period - newPeriod;
      if !(-128 <= err < 128) then None
      else Some(ch.(glissandoControlError := err, period := newPeriod))
  }

  /** A period already on the grid is left where it is, with no error. */
  lemma RoundingOnGrid(ch: Channel)
    requires (ch.period + 4 * ch.finetune) % 64 == 0 && RoundingFits(ch.period, ch.finetune)
    ensures RoundLinearPeriodToSemitone(ch) == Some(ch.(glissandoControlError := 0))
  {
  }

  /** xm_round_period_to_semitone: undo the last rounding, then round again unless the periods are Amiga periods. */
  function RoundPeriodToSemitone(amiga: bool, ch: Channel): (r: Option<Channel>)
    ensures r.Some? ==> r.value.vibratoOffset == 0
    ensures r.Some? && !amiga ==> (r.value.period + 4 * ch.finetune) % 64 == 0
    ensures r.Some? ==> PitchSlide(ch, 0).Some? && UnroundedPeriod(r.value) == PitchSlide(ch, 0).value.period
  {
    var slid := PitchSlide(ch, 0);
    if slid.None? || amiga then slid
    else RoundLinearPeriodToSemitone(slid.value)
  }

  /** Rounding twice is rounding once: the second rounding first restores the unrounded period. */
  lemma RoundPeriodIdempotent(amiga: bool, ch: Channel)
    requires RoundPeriodToSemitone(amiga, ch).Some?
    ensures RoundPeriodToSemitone(amiga, RoundPeriodToSemitone(amiga, ch).value) == RoundPeriodToSemitone(amiga, ch)
  {
  }

  // ---------------------------------------------------------------------
  // Portamento, vibrato, tremolo, arpeggio
  // ---------------------------------------------------------------------

  /** `lo <= x <= hi` or `hi <= x <= lo`. */
  predicate Between(x: int, a: int, b: int)
  {
    (a <= x <= b) || (b <= x <= a)
  }

  /**
   * xm_tone_portamento: slide the period toward the target by at most four
   * times the portamento parameter, then round to a semitone when
   * glissando is on. Nothing happens without a target or a period.
   */
  function TonePortamento(amiga: bool, ch: Channel): (r: Option<Channel>)
    ensures ch.tonePortamentoTargetPeriod == 0 || ch.period == 0 ==> r == Some(ch)
    ensures ch.tonePortamentoTargetPeriod != 0 && ch.period != 0 && ch.memory.glissandoControlParam == 0
            && ch.glissandoControlError == 0 ==>
              && r.Some?
              && Between(r.value.period, ch.period, ch.tonePortamentoTargetPeriod)
              && Abs(r.value.period - ch.period) <= 4 * ch.memory.tonePortamentoParam
              && (Abs(ch.tonePortamentoTargetPeriod - ch.period) <= 4 * ch.memory.tonePortamentoParam ==>
                    r.value.period == ch.tonePortamentoTargetPeriod)
    ensures r.Some? ==> r.value == ch.(period := r.value.period, glissandoControlError := r.value.glissandoControlError,
                                       vibratoOffset := r.value.vibratoOffset)
  {
    if ch.tonePortamentoTargetPeriod == 0 || ch.period == 0 then Some(ch)
    else
      var incr := ch.memory.tonePortamentoParam * 4;
      var diff := ch.tonePortamentoTargetPeriod - ch.period;
      var diff := if diff > incr then incr else if diff < -incr then -incr else diff;
      var slid := PitchSlide(ch, diff);
      if slid.None? then None
      else if ch.memory.glissandoControlParam != 0 then
        var tmp := RoundPeriodToSemitone(amiga, slid.value);
        if tmp.None? then None
        else Some(slid.value.(period := tmp.value.period, glissandoControlError := tmp.value.glissandoControlError))
      else slid
  }

  function Abs(x: int): nat
  {
    if x < 0 then -x else x
  }

  /** Whether the slot triggers a tone portamento, by effect or by volume column. */
  predicate SlotHasTonePortamento(s: Slot)
  {
    s.effectType == EffTonePortamento || s.effectType == EffTonePortamentoVolumeSlide
    || s.volumeColumn / 16 == VolTonePortamento
  }

  /** Whether the slot drives the vibrato, by effect or by volume column. */
  predicate SlotHasVibrato(s: Slot)
  {
    s.effectType == EffVibrato || s.effectType == EffVibratoVolumeSlide || s.volumeColumn / 16 == VolVibrato
  }

  /** finetuneSampleRelativeNote: the relative note of the channel's sample, 0 without one. */
  function SampleRelativeNote(samples: seq<Sample>, ch: Channel): i8
  {
    if ch.sample.Some? && ch.sample.value < |samples| then samples[ch.sample.value].relativeNote else 0
  }

  /**
   * xm_tone_portamento_target: the period of the slot's note (shifted by
   * the sample's relative note) becomes the portamento target; nothing
   * changes without a sample or for a note outside 1 to 119.
   */
  function TonePortamentoTarget(samples: seq<Sample>, amiga: bool, amigaPeriod: i16 -> u16, ch: Channel): (r: Channel)
    requires SlotHasTonePortamento(ch.current)
    ensures r == ch.(tonePortamentoTargetPeriod := r.tonePortamentoTargetPeriod)
    ensures var note := ch.current.note + SampleRelativeNote(samples, ch);
            if ch.sample.None? || note <= 0 || note >= 120 then r == ch
            else r.tonePortamentoTargetPeriod == Period(amiga, amigaPeriod, 16 * (note - 1) + ch.finetune)
  {
    if ch.sample.None? then ch
    else
      var note := ch.current.note + SampleRelativeNote(samples, ch);
      if note <= 0 || note >= 120 then ch
      else ch.(tonePortamentoTargetPeriod := Period(amiga, amigaPeriod, 16 * (note - 1) + ch.finetune))
  }

  /**
   * xm_vibrato: restore the unrounded period, set the vibrato offset to the
   * oscillator value scaled by the depth (low nibble) over 16, and advance
   * the oscillator by the speed (high nibble), wrapping at 256.
   */
  function Vibrato(ch: Channel): (r: Option<Channel>)
    ensures r.Some? <==> PitchSlide(ch, 0).Some?
    ensures r.Some? ==> r.value.period == PitchSlide(ch, 0).value.period && r.value.glissandoControlError == 0
    ensures r.Some? ==> -120 <= r.value.vibratoOffset <= 120
    ensures r.Some? && ch.memory.vibratoParam % 16 == 0 ==> r.value.vibratoOffset == 0
    ensures r.Some? ==> r.value.vibratoTicks == (ch.vibratoTicks + ch.memory.vibratoParam / 16) % 256
    ensures r.Some? ==> r.value == ch.(period := r.value.period, glissandoControlError := 0,
                                       vibratoOffset := r.value.vibratoOffset, vibratoTicks := r.value.vibratoTicks)
  {
    var slid := PitchSlide(ch, 0);
    if slid.None? then None
    else
      var c := slid.value;
      var off := Waveform(c.memory.vibratoControlParam, c.vibratoTicks);
      var depth := c.memory.vibratoParam % 16;
      ProductBound(off, depth, 128, 15);
      TruncDivBound(off * depth, 16, 1920);
      Some(c.(vibratoOffset := TruncDiv(off * depth, 16), vibratoTicks := Wrap8(c.vibratoTicks + c.memory.vibratoParam / 16)))
  }

  /** The oscillator step the tremolo reads: for the ramp waveforms it is folded by both oscillators' half periods. */
  function TremoloStep(ch: Channel): u8
  {
    if ch.memory.tremoloControlParam % 2 == 1 then
      var t := ch.tremoloTicks % 0x40;
      var t := if t >= 0x20 then Wrap8(0x20 - t) else t;
      if ch.vibratoTicks % 0x40 >= 0x20 then Wrap8(0x20 - t) else t
    else ch.tremoloTicks
  }

  /**
   * xm_tremolo: the volume offset is the oscillator value times the depth
   * (low nibble) over 32, and the oscillator advances by the speed.
   */
  function Tremolo(ch: Channel): (r: Channel)
    ensures -60 <= r.volumeOffset <= 60
    ensures ch.memory.tremoloParam % 16 == 0 ==> r.volumeOffset == 0
    ensures r.tremoloTicks == (ch.tremoloTicks + ch.memory.tremoloParam / 16) % 256
    ensures r == ch.(volumeOffset := r.volumeOffset, tremoloTicks := r.tremoloTicks)
  {
    var w := Waveform(ch.memory.tremoloControlParam, TremoloStep(ch));
    var depth := ch.memory.tremoloParam % 16;
    ProductBound(w, depth, 128, 15);
    TruncDivBound(w * depth * 4, 128, 7680);
    ch.(volumeOffset := TruncDiv(w * depth * 4, 128), tremoloTicks := Wrap8(ch.tremoloTicks + ch.memory.tremoloParam / 16))
  }

  /**
   * xm_arpeggio: the note offset of the current tick. A MOD cycles through
   * 0, the high nibble and the low nibble with the tick; an XM counts the
   * ticks left in the row (`tempo - tick`, with Swift's truncating `%`),
   * and also rounds the period to a semitone when the offset is non-zero.
   */
  function Arpeggio(isMOD: bool, amiga: bool, tick: u8, tempo: u8, extraRows: u8, ch: Channel): (r: Option<Channel>)
    ensures isMOD ==> r.Some? && r.value == ch.(arpNoteOffset := r.value.arpNoteOffset)
    ensures r.Some? ==> r.value.arpNoteOffset == 0 || r.value.arpNoteOffset == ch.current.effectParam / 16
                        || r.value.arpNoteOffset == ch.current.effectParam % 16
    ensures r.Some? ==> r.value == ch.(shouldResetArpeggio := r.value.shouldResetArpeggio, period := r.value.period,
                                       glissandoControlError := r.value.glissandoControlError,
                                       arpNoteOffset := r.value.arpNoteOffset)
  {
    if isMOD then
      var t := tick % 3;
      Some(ch.(arpNoteOffset := if t == 0 then 0 else if t == 1 then ch.current.effectParam / 16
                                else ch.current.effectParam % 16))
    else
      var t := tempo - tick;
      if (tick == 0 && extraRows != 0) || t == 16 || (t < 16 && TruncMod(t, 3) == 0) then
        Some(ch.(arpNoteOffset := 0))
      else
        var tmp := RoundPeriodToSemitone(amiga, ch);
        if tmp.None? then None
        else
          Some(ch.(shouldResetArpeggio := true, period := tmp.value.period,
                   glissandoControlError := tmp.value.glissandoControlError,
                   arpNoteOffset := if t > 16 || TruncMod(t, 3) == 2 then ch.current.effectParam % 16
                                    else ch.current.effectParam / 16))
  }

  /** In a MOD the arpeggio repeats every three ticks. */
  lemma ArpeggioModCycle(amiga: bool, tick: u8, tempo: u8, extraRows: u8, ch: Channel)
    requires tick < 253
    ensures Arpeggio(true, amiga, tick + 3, tempo, extraRows, ch) == Arpeggio(true, amiga, tick, tempo, extraRows, ch)
  {
  }

  /**
   * In an XM, within the last 15 ticks of a row the offset cycles with
   * period three, counted from the end of the row: it is 0 when the ticks
   * left are a multiple of three, the high nibble one tick later and the
   * low nibble another tick later.
   */
  lemma ArpeggioXMTail(amiga: bool, tick: u8, tempo: u8, extraRows: u8, ch: Channel)
    requires 0 < tempo - tick < 16 && (tick != 0 || extraRows == 0)
    requires Arpeggio(false, amiga, tick, tempo, extraRows, ch).Some?
    ensures var off := Arpeggio(false, amiga, tick, tempo, extraRows, ch).value.arpNoteOffset;
            var t := tempo - tick;
            && (t % 3 == 0 ==> off == 0)
            && (t % 3 == 2 ==> off == ch.current.effectParam % 16)
            && (t % 3 == 1 ==> off == ch.current.effectParam / 16)
  {
  }

  /** The multi-retrigger volume table: the amount added per value of the high nibble `x` of the parameter. */
  const RetrigAdd: seq<int> := [0, 0, 0, 0, 0, 0, 0, 0, 0, 1, 2, 4, 8, 16, 0, 0]
  /** The multi-retrigger volume table: the factor per value of `x`. */
  const RetrigMul: seq<int> := [1, 1, 1, 1, 1, 1, 2, 1, 1, 1, 1, 1, 1, 1, 3, 2]

  /**
   * The volume change of a multi-retrigger with volume nibble `x`: add
   * `RetrigAdd[x]`, subtract `RetrigAdd[x ^ 8]`, multiply by `RetrigMul[x]`,
   * divide by `RetrigMul[x ^ 8]`, clamp to 0..64. The result is the XM
   * effect's table: keep, subtract 1, 2, 4, 8 or 16, two thirds, half, keep,
   * add 1, 2, 4, 8 or 16, three halves, double.
   */
  function RetrigVolume(volume: u8, x: nat): (r: u8)
    requires x < 16
    ensures r <= MaxVolume
  {
    // `x ^ 8` on a nibble flips its top bit.
    var y := if x < 8 then x + 8 else x - 8;
    var vol := volume + RetrigAdd[x] - RetrigAdd[y];
    var vol := vol * RetrigMul[x];
    var vol := TruncDiv(vol, RetrigMul[y]);
    if vol < 0 then 0 else if vol > MaxVolume as int then MaxVolume else vol
  }

  /**
   * The multi-retrigger volume follows the XM effect's table, first half:
   * keep, or subtract 1, 2, 4, 8 or 16; then keep, or add 1, 2, 4, 8 or 16;
   * clamped to 0..64.
   */
  lemma RetrigVolumeSteps(volume: u8, x: nat)
    requires x < 16
    ensures x == 0 || x == 8 ==> RetrigVolume(volume, x) == Min(volume, 64)
    ensures 1 <= x <= 5 ==> RetrigVolume(volume, x) == Min(Max(volume - [1, 2, 4, 8, 16][x - 1], 0), 64)
    ensures 9 <= x <= 13 ==> RetrigVolume(volume, x) == Min(volume + [1, 2, 4, 8, 16][x - 9], 64)
  {
    if x < 6 || 8 <= x < 14 {
      var y := if x < 8 then x + 8 else x - 8;
      assert RetrigMul[x] == 1 && RetrigMul[y] == 1;
      assert RetrigVolume(volume, x) == Min(Max(volume + RetrigAdd[x] - RetrigAdd[y], 0), 64);
    }
  }

  /**
   * The multi-retrigger volume follows the XM effect's table, scaling
   * entries: two thirds, half, three halves and double, clamped to 64.
   */
  lemma RetrigVolumeScales(volume: u8, x: nat)
    requires x < 16
    ensures x == 6 ==> RetrigVolume(volume, x) == Min(volume * 2 / 3, 64)
    ensures x == 7 ==> RetrigVolume(volume, x) == Min(volume / 2, 64)
    ensures x == 14 ==> RetrigVolume(volume, x) == Min(volume * 3 / 2, 64)
    ensures x == 15 ==> RetrigVolume(volume, x) == Min(volume * 2, 64)
  {
    if x == 6 {
      assert RetrigVolume(volume, x) == Min(TruncDiv(volume * 2, 3), 64);
    } else if x == 14 {
      assert RetrigVolume(volume, x) == Min(TruncDiv(volume * 3, 2), 64);
    } else if x == 15 {
      assert RetrigVolume(volume, x) == Min(TruncDiv(volume * 2, 1), 64);
    } else if x == 7 {
      assert RetrigVolume(volume, x) == Min(TruncDiv(volume, 2), 64);
    }
  }

  /** xm_cut_note: silence the channel. */
  function CutNote(ch: Channel): (r: Channel)
    ensures r.volume == 0 && r == ch.(volume := 0)
  {
    ch.(volume := 0)
  }

  /**
   * xm_key_off: release the sustain; the note is cut at once when the
   * channel has no instrument or its instrument has no volume envelope.
   */
  function KeyOff(instruments: seq<Instrument>, ch: Channel): (r: Channel)
    requires ch.instrument.Some? ==> ch.instrument.value < |instruments|
    ensures !r.sustained
    ensures r.volume == 0 || r.volume == ch.volume
    ensures ch.instrument.None? ==> r.volume == 0
    ensures ch.instrument.Some? ==>
              (r.volume == 0 <== instruments[ch.instrument.value].volumeEnvelope.numPoints == 0)
              && (instruments[ch.instrument.value].volumeEnvelope.numPoints != 0 ==> r.volume == ch.volume)
    ensures r == ch.(sustained := false, volume := r.volume)
  {
    var released := ch.(sustained := false);
    if ch.instrument.None? || instruments[ch.instrument.value].volumeEnvelope.numPoints == 0 then CutNote(released)
    else released
  }

  /** Releasing twice is releasing once. */
  lemma KeyOffIdempotent(instruments: seq<Instrument>, ch: Channel)
    requires ch.instrument.Some? ==> ch.instrument.value < |instruments|
    ensures KeyOff(instruments, KeyOff(instruments, ch)) == KeyOff(instruments, ch)
  {
  }

  // ---------------------------------------------------------------------
  // Fixed-point quantities of a tick
  // ---------------------------------------------------------------------

  /**
   * The integer part of the channel volume in xm_tick: the volume less the
   * tremolo/tremor offset clamped to 0..64, times the envelope volume, the
   * fade-out volume and the global volume, divided by 4 before the last
   * product. The source computes it in `Int32` with trapping products.
   */
  function VolumeBase(ch: Channel, globalVolume: u8): (r: int)
    ensures r >= 0
  {
    var diff := ch.volume - ch.volumeOffset;
    var base: nat := if diff < 0 then 0 else if diff > MaxVolume as int then MaxVolume as int else diff;
    var p1: nat := base * ch.volumeEnvelopeVolume;
    var p2: nat := p1 * ch.fadeoutVolume;
    p2 / 4 * globalVolume
  }

  /**
   * Every intermediate product of the volume fits in an `Int32` exactly
   * when the channel keeps its ranges and the global volume is at most 64:
   * at the maxima the result is 2147418112, just below 2^31.
   */
  lemma VolumeBaseFits(ch: Channel, globalVolume: u8)
    requires ChannelValid(ch) && globalVolume <= MaxVolume
    ensures VolumeBase(ch, globalVolume) < 0x8000_0000
  {
    var diff := ch.volume - ch.volumeOffset;
    var base := if diff < 0 then 0 else if diff > MaxVolume as int then MaxVolume as int else diff;
    var p1 := base * ch.volumeEnvelopeVolume;
    assert p1 <= 4096 by { MulMono(base, 64, ch.volumeEnvelopeVolume, 64); }
    var p2 := p1 * ch.fadeoutVolume;
    assert p2 <= 134213632 by { MulMono(p1, 4096, ch.fadeoutVolume, 32767); }
    var p3 := p2 / 4;
    assert p3 <= 33553408 by { DivMono(p2, 134213632, 4); }
    assert p3 * globalVolume <= 2147418112 by { MulMono(p3, 33553408, globalVolume, 64); }
    assert VolumeBase(ch, globalVolume) == p3 * globalVolume;
  }

  /** With a global volume of 65 the same maxima overflow an `Int32`. */
  lemma VolumeBaseOverflowAt65(ch: Channel)
    requires ch.volume == 64 && ch.volumeOffset == 0 && ch.volumeEnvelopeVolume == 64 && ch.fadeoutVolume == 32767
    ensures VolumeBase(ch, 65) >= 0x8000_0000
  {
  }

  // Arithmetic facts the solver does not find on its own.

  lemma MulMono(a: int, b: int, c: int, d: int)
    requires 0 <= a <= b && 0 <= c <= d
    ensures a * c <= b * d
  {
    assert a * c <= b * c;
  }

  lemma ProductBound(a: int, b: int, m: int, n: int)
    requires 0 <= m && -m <= a <= m && 0 <= b <= n
    ensures -(m * n) <= a * b <= m * n
  {
    if a >= 0 {
      MulMono(a, m, b, n);
    } else {
      MulMono(-a, m, b, n);
    }
  }

  lemma DivMono(a: nat, b: nat, d: nat)
    requires a <= b && d > 0
    ensures a / d <= b / d
  {
    if a / d > b / d {
      assert d * (a / d) >= d * (b / d + 1) by { MulMono(d, d, b / d + 1, a / d); }
    }
  }

  lemma TruncDivBound(a: int, d: int, m: int)
    requires d > 0 && 0 <= m && -m <= a <= m
    ensures -(m / d) <= TruncDiv(a, d) <= m / d
  {
    var q := m / d;
    DivMono(0, m, d);
    if a >= 0 {
      DivMono(a, m, d);
      DivMono(0, a, d);
      assert TruncDiv(a, d) == a / d;
    } else {
      DivMono(-a, m, d);
      DivMono(0, -a, d);
      assert TruncDiv(a, d) == -((-a) / d);
    }
  }

  /**
   * The subsamples in one tick: `rate * 20480 / bpm`, i.e. 2.5 seconds per
   * BPM in units of 1/8192 output frame. `None` for a BPM of 0, where the
   * source divides by zero.
   */
  function SamplesInTick(rate: u16, bpm: u8): (r: Option<u32>)
    ensures r.None? <==> bpm == 0
    ensures r.Some? ==> r.value * bpm <= rate * 20480 < (r.value + 1) * bpm
  {
    if bpm == 0 then None else Some(Wrap32(rate * 20480) / bpm)
  }

  /** One tick lasts `2.5 * rate / bpm` whole output frames, rounded down. */
  lemma TickFrames(rate: u16, bpm: u8)
    requires bpm != 0
    ensures SamplesInTick(rate, bpm).value / TickSubsamples == (5 * rate) / (2 * bpm)
  {
    var n := rate * 20480;
    assert Wrap32(n) == n;
    DivDiv(n, bpm, 8192);
    assert n / (bpm * 8192) == (5 * rate) / (2 * bpm) by {
      assert n == (5 * rate) * 4096;
      assert bpm * 8192 == (2 * bpm) * 4096;
      DivCancel(5 * rate, 2 * bpm, 4096);
    }
  }

  lemma DivDiv(n: nat, a: nat, b: nat)
    requires a > 0 && b > 0
    ensures n / a / b == n / (a * b)
  {
    var m := n / a;
    var q := m / b;
    var r1 := n % a;
    var r2 := m % b;
    DivDivParts(a, b, m, q, r2);
    DivUnique(n, a * b, q, a * r2 + r1);
  }

  lemma DivDivParts(a: nat, b: nat, m: nat, q: nat, r2: nat)
    requires a > 0 && r2 < b && m == b * q + r2
    ensures a * m == a * b * q + a * r2 && a * r2 <= a * b - a
  {
    assert a * (b * q + r2) == a * (b * q) + a * r2;
    MulMono(a, a, r2, b - 1);
    assert a * (b - 1) == a * b - a;
  }

  lemma DivCancel(x: nat, y: nat, k: nat)
    requires y > 0 && k > 0
    ensures (x * k) / (y * k) == x / y
  {
    assert x * k == (y * k) * (x / y) + (x % y) * k;
    assert 0 <= (x % y) * k < y * k by { MulMono(x % y, y - 1, k, k); }
    DivUnique(x * k, y * k, x / y, (x % y) * k);
  }

  lemma DivUnique(n: nat, d: nat, q: nat, m: nat)
    requires d > 0 && n == d * q + m && m < d
    ensures n / d == q && n % d == m
  {
    var k := q - n / d;
    assert d * k == n % d - m;
    if k >= 1 {
      MulMono(d, d, 1, k);
    } else if k <= -1 {
      MulMono(d, d, 1, -k);
    }
  }

  lemma ModSmall(m: nat, d: nat)
    requires m < d
    ensures m % d == m
  {
    DivUnique(m, d, 0, m);
  }

  lemma ModBelow(x: nat, d: nat)
    requires d > 0
    ensures x % d <= x
  {
    if x < d {
      ModSmall(x, d);
    } else {
      assert x == d * (x / d) + x % d;
      assert x / d >= 0;
    }
  }

  /**
   * The sample step of a channel: its frequency in microsteps per output
   * frame, `(freq * 4096 + rate / 2) / rate`, rounded to nearest. `None`
   * when the rate is 0 or the step does not fit the `UInt32` conversion.
   */
  function SampleStep(freq: u32, rate: u32): (r: Option<u32>)
    ensures r.None? <==> rate == 0 || (freq * 4096 + rate / 2) / rate >= 0x1_0000_0000
    ensures r.Some? ==> Abs(r.value * rate - freq * 4096) * 2 <= rate
  {
    if rate == 0 then None
    else
      var s := (freq * 4096 + rate / 2) / rate;
      if s >= 0x1_0000_0000 then None else Some(s)
  }

  // ---------------------------------------------------------------------
  // Sample loops
  // ---------------------------------------------------------------------

  /**
   * The loop wrap of xm_next_of_sample, for a looped sample whose position
   * has passed its end: the position is taken modulo the loop span (twice
   * the loop for ping-pong) from the loop start. The span is computed with
   * wrapping 32-bit products; `None` when it wraps to 0 and the source's
   * `%` traps.
   */
  function LoopWrap(pos: u32, length: u32, loopLength: u32, pingPong: bool): (r: Option<u32>)
    requires 0 < loopLength <= length <= MaxSampleLength
    requires pos >= length * SampleMicrosteps
    ensures !pingPong ==> r.Some?
    ensures pingPong ==> (r.None? <==> loopLength * 8192 % 0x1_0000_0000 == 0)
  {
    var off := (length - loopLength) * SampleMicrosteps;
    var p := pos - off;
    var span := if pingPong then Wrap32(Wrap32(loopLength * SampleMicrosteps) * 2) else Wrap32(loopLength * SampleMicrosteps);
    assert pingPong ==> span == loopLength * 8192 % 0x1_0000_0000;
    if span == 0 then None else Some(Wrap32(p % span + off))
  }

  /**
   * For a forward loop the wrapped position lies inside the loop, at the
   * same offset modulo the loop length (in microsteps) as the old position.
   */
  lemma ForwardLoopInRange(pos: u32, length: u32, loopLength: u32)
    requires 0 < loopLength <= length <= MaxSampleLength
    requires pos >= length * SampleMicrosteps
    ensures var r := LoopWrap(pos, length, loopLength, false).value;
            && (length - loopLength) * SampleMicrosteps <= r < length * SampleMicrosteps
            && (r - (length - loopLength) * SampleMicrosteps) % (loopLength * SampleMicrosteps)
               == (pos - (length - loopLength) * SampleMicrosteps) % (loopLength * SampleMicrosteps)
  {
    var off := (length - loopLength) * SampleMicrosteps;
    var span := loopLength * SampleMicrosteps;
    assert off + span == length * SampleMicrosteps;
    assert Wrap32(span) == span;
    var m := (pos - off) % span;
    assert m + off < 0x1_0000_0000;
    assert Wrap32(m + off) == m + off;
    ModSmall(m, span);
  }

  /** A ping-pong loop of 2^19 frames has a 32-bit span of 0: the source's remainder traps. */
  lemma PingPongSpanTraps(pos: u32)
    requires pos >= 0x8_0000 * SampleMicrosteps
    ensures LoopWrap(pos, 0x8_0000, 0x8_0000, true).None?
  {
  }

  /**
   * The loop wrap with the span computed without wrapping: the position
   * lands in the loop (or its mirrored copy for ping-pong) and never traps.
   */
  function LoopWrapWide(pos: u32, length: u32, loopLength: u32, pingPong: bool): (r: u32)
    requires 0 < loopLength <= length <= MaxSampleLength
    requires pos >= length * SampleMicrosteps
    ensures var off := (length - loopLength) * SampleMicrosteps;
            var span := if pingPong then 2 * loopLength * SampleMicrosteps else loopLength * SampleMicrosteps;
            off <= r < off + span && (r - off) % span == (pos - off) % span
  {
    var off := (length - loopLength) * SampleMicrosteps;
    var span := if pingPong then 2 * loopLength * SampleMicrosteps else loopLength * SampleMicrosteps;
    var m := (pos - off) % span;
    ModSmall(m, span);
    ModBelow(pos - off, span);
    m + off
  }

  /** For a forward loop, and for a ping-pong loop whose span fits, the wide wrap agrees with the source. */
  lemma LoopWrapAgrees(pos: u32, length: u32, loopLength: u32, pingPong: bool)
    requires 0 < loopLength <= length <= MaxSampleLength
    requires pos >= length * SampleMicrosteps
    requires pingPong ==> loopLength < 0x8_0000
    ensures LoopWrap(pos, length, loopLength, pingPong) == Some(LoopWrapWide(pos, length, loopLength, pingPong))
  {
    var off := (length - loopLength) * SampleMicrosteps;
    var span := if pingPong then 2 * loopLength * SampleMicrosteps else loopLength * SampleMicrosteps;
    assert span < 0x1_0000_0000;
    assert Wrap32(loopLength * SampleMicrosteps) == loopLength * SampleMicrosteps;
    assert pingPong ==> Wrap32(Wrap32(loopLength * SampleMicrosteps) * 2) == span;
    var m := (pos - off) % span;
    ModBelow(pos - off, span);
    assert Wrap32(m + off) == m + off;
  }
}
