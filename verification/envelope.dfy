/**
 * The per-tick instrument processing of a channel: the volume and panning
 * envelopes, the automatic vibrato and the fade-out.
 *
 * `EnvelopeTick` states what one step of an envelope computes;
 * `TickEnvelope` is the source's search loop over the points, proved to
 * compute it. `InstrumentTick` states the whole per-tick update and
 * `TickEnvelopes` performs it.
 */
module Envelopes {
  import opened Wrappers
  import opened Ints
  import opened XMTypes
  import opened Effects

  /** An envelope the player may step: disabled, or usable with values in 0..64 (the loader clamps them). */
  predicate PlayableEnvelope(env: Envelope)
  {
    env.numPoints == 0
    || (EnvelopeUsable(env) && forall i :: 0 <= i < |env.points| ==> env.points[i].value <= MaxEnvelopeValue)
  }

  /** The counter after the loop jump: at the loop end it returns to the loop start, unless the sustain point holds it there. */
  function LoopedCounter(env: Envelope, sustained: bool, counter: u16): u16
    requires EnvelopeUsable(env)
  {
    if counter == env.points[env.loopEndPoint].frame && (sustained || env.sustainPoint != env.loopEndPoint)
    then env.points[env.loopStartPoint].frame
    else counter
  }

  /** Whether the envelope is held at its sustain point (the sustain point is not 128, i.e. bit 7 is clear). */
  predicate HeldAtSustain(env: Envelope, sustained: bool, c: u16)
    requires EnvelopeUsable(env)
  {
    sustained && env.sustainPoint < 128 && c == env.points[env.sustainPoint].frame
  }

  /** The highest `j` in 1..k whose point `j - 1` is at or before frame `c`, or 0 when there is none. */
  function Segment(points: seq<EnvelopePoint>, c: u16, k: nat): (j: nat)
    requires k < |points|
    ensures j <= k
    ensures j > 0 ==> points[j - 1].frame <= c
    ensures forall i :: j <= i < k ==> c < points[i].frame
  {
    if k == 0 then 0
    else if c < points[k - 1].frame then Segment(points, c, k - 1)
    else k
  }

  /** The weighted mean of `va` and `vb`, with weights `wa` and `wb`, rounded down. */
  function Weighted(va: nat, vb: nat, wa: nat, wb: nat): nat
    requires wa > 0
  {
    (vb * wb + va * wa) / (wb + wa)
  }

  /**
   * The linear interpolation between points `a` and `b` at frame `c`,
   * each value weighted by the distance to the other point.
   */
  function Interpolate(a: EnvelopePoint, b: EnvelopePoint, c: u16): (v: nat)
    requires a.frame <= c < b.frame
    ensures Min(a.value, b.value) <= v <= Max(a.value, b.value)
    ensures c == a.frame ==> v == a.value
  {
    var wa: nat := b.frame - c;
    var wb: nat := c - a.frame;
    WeightedBounds(a.value, b.value, wa, wb);
    Weighted(a.value, b.value, wa, wb)
  }

  /** A weighted mean lies between its two values, and is the first value when the second weighs nothing. */
  lemma WeightedBounds(va: nat, vb: nat, wa: nat, wb: nat)
    requires wa > 0
    ensures Min(va, vb) <= Weighted(va, vb, wa, wb) <= Max(va, vb)
    ensures wb == 0 ==> Weighted(va, vb, wa, wb) == va
  {
    var lo := Min(va, vb);
    var hi := Max(va, vb);
    var d := wb + wa;
    var num := vb * wb + va * wa;
    assert lo * d <= num <= hi * d by {
      MulMono(lo, vb, wb, wb);
      MulMono(lo, va, wa, wa);
      MulMono(vb, hi, wb, wb);
      MulMono(va, hi, wa, wa);
      assert lo * d == lo * wb + lo * wa && hi * d == hi * wb + hi * wa;
    }
    DivBetween(num, d, lo, hi);
    if wb == 0 {
      DivUnique(va * wa, wa, va, 0);
    }
  }

  lemma DivBetween(num: nat, d: nat, lo: nat, hi: nat)
    requires d > 0 && lo * d <= num <= hi * d
    ensures lo <= num / d <= hi
  {
    DivMono(lo * d, num, d);
    DivMono(num, hi * d, d);
    DivUnique(lo * d, d, lo, 0);
    DivUnique(hi * d, d, hi, 0);
  }

  /**
   * One step of an envelope, as xm_tick_envelope computes it: the value at
   * the (possibly looped) counter and the counter for the next tick. At
   * the sustain point the value is held and the counter stays; otherwise
   * the value is interpolated on the segment containing the counter (the
   * last point's value past the end) and the counter advances by one,
   * wrapping at 16 bits.
   */
  function EnvelopeTick(env: Envelope, sustained: bool, counter: u16): (r: (u8, u16))
    requires EnvelopeUsable(env)
  {
    var c := LoopedCounter(env, sustained, counter);
    if HeldAtSustain(env, sustained, c) then (env.points[env.sustainPoint].value, c)
    else
      SegmentValue(env.points, c, env.numPoints as nat - 1)
  }

  /** The step on the last segment among the first `k + 1` points that starts at or before `c`; value 0 and the counter kept when none does. */
  function SegmentValue(points: seq<EnvelopePoint>, c: u16, k: nat): (u8, u16)
    requires k < |points|
  {
    var j := Segment(points, c, k);
    if j == 0 then (0, c) else SegmentStep(points, c, j)
  }

  /** The value on the segment from point `j - 1` to point `j` at frame `c` (the end value past it), and the advanced counter. */
  function SegmentStep(points: seq<EnvelopePoint>, c: u16, j: nat): (u8, u16)
    requires 1 <= j < |points| && points[j - 1].frame <= c
  {
    if c >= points[j].frame then (points[j].value, Wrap16(c + 1))
    else (Interpolate(points[j - 1], points[j], c), Wrap16(c + 1))
  }

  /**
   * What a step promises of the counter: a held sustain point returns its
   * value and keeps the counter; otherwise, once the first point is
   * reached, the counter advances by one.
   */
  lemma EnvelopeTickSteps(env: Envelope, sustained: bool, counter: u16)
    requires EnvelopeUsable(env)
    ensures var c := LoopedCounter(env, sustained, counter);
            var r := EnvelopeTick(env, sustained, counter);
            && (HeldAtSustain(env, sustained, c) ==> r == (env.points[env.sustainPoint].value, c))
            && (!HeldAtSustain(env, sustained, c) && env.points[0].frame <= c ==> r.1 == (c + 1) % 0x1_0000)
  {
    var c := LoopedCounter(env, sustained, counter);
    if !HeldAtSustain(env, sustained, c) {
      assert EnvelopeTick(env, sustained, counter) == SegmentValue(env.points, c, env.numPoints as nat - 1);
      if env.points[0].frame <= c {
        SegmentValueAdvances(env.points, c, env.numPoints as nat);
      }
    }
  }

  /** What a step promises of the value: away from a held sustain point, inside a segment it lies between the segment's end values. */
  lemma EnvelopeTickBetween(env: Envelope, sustained: bool, counter: u16, j: nat)
    requires EnvelopeUsable(env)
    requires !HeldAtSustain(env, sustained, LoopedCounter(env, sustained, counter))
    requires 1 <= j < env.numPoints as nat
    requires env.points[j - 1].frame <= LoopedCounter(env, sustained, counter) < env.points[j].frame
    ensures Min(env.points[j - 1].value, env.points[j].value) <= EnvelopeTick(env, sustained, counter).0
            <= Max(env.points[j - 1].value, env.points[j].value)
  {
    var c := LoopedCounter(env, sustained, counter);
    assert EnvelopeTick(env, sustained, counter) == SegmentValue(env.points, c, env.numPoints as nat - 1);
    SegmentValueBetween(env.points, c, env.numPoints as nat, j);
  }

  /** Away from a held sustain point, once the first point is reached the counter advances by one. */
  lemma SegmentValueAdvances(points: seq<EnvelopePoint>, c: u16, n: nat)
    requires 2 <= n <= |points| && points[0].frame <= c
    ensures SegmentValue(points, c, n - 1).1 == (c + 1) % 0x1_0000
  {
    SegmentFound(points, c, n - 1);
  }

  /** When the first point is at or before `c`, some segment starts at or before it. */
  lemma {:induction false} SegmentFound(points: seq<EnvelopePoint>, c: u16, k: nat)
    requires 1 <= k < |points| && points[0].frame <= c
    ensures Segment(points, c, k) >= 1
  {
    if c < points[k - 1].frame {
      if k > 1 {
        SegmentFound(points, c, k - 1);
      }
    }
  }

  /** Inside the segment from point `j - 1` to point `j`, the value lies between their values. */
  lemma SegmentValueBetween(points: seq<EnvelopePoint>, c: u16, n: nat, j: nat)
    requires 1 <= n <= |points| && FramesIncreasing(points, n)
    requires 1 <= j < n && points[j - 1].frame <= c < points[j].frame
    ensures Min(points[j - 1].value, points[j].value) <= SegmentValue(points, c, n - 1).0
            <= Max(points[j - 1].value, points[j].value)
  {
    var k := Segment(points, c, n - 1);
    if k > j {
      FramesOrdered(points, n, j, k - 1);
    }
    assert k == j;
  }

  /** In an envelope with increasing frames, a later point has a later frame. */
  lemma {:induction false} FramesOrdered(points: seq<EnvelopePoint>, n: nat, i: nat, j: nat)
    requires n <= |points| && FramesIncreasing(points, n)
    requires i <= j < n
    ensures points[i].frame <= points[j].frame
    decreases j - i
  {
    if i < j {
      FramesOrdered(points, n, i, j - 1);
    }
  }

  /** Envelope values stay in 0..64 when the points' values do. */
  lemma EnvelopeTickBounded(env: Envelope, sustained: bool, counter: u16)
    requires PlayableEnvelope(env) && env.numPoints != 0
    ensures EnvelopeTick(env, sustained, counter).0 <= MaxEnvelopeValue
  {
  }

  /**
   * xm_tick_envelope: the loop jump, the sustain hold, then a search from
   * the last point down for the segment that contains the counter.
   */
  method TickEnvelope(env: Envelope, sustained: bool, counter: u16) returns (value: u8, next: u16)
    requires EnvelopeUsable(env)
    ensures (value, next) == EnvelopeTick(env, sustained, counter)
  {
    var c := counter;
    if c == env.points[env.loopEndPoint].frame && (sustained || env.sustainPoint != env.loopEndPoint) {
      c := env.points[env.loopStartPoint].frame;
    }
    assert c == LoopedCounter(env, sustained, counter);
    if sustained && env.sustainPoint < 128 && c == env.points[env.sustainPoint].frame {
      assert HeldAtSustain(env, sustained, c);
      return env.points[env.sustainPoint].value, c;
    }
    assert EnvelopeTick(env, sustained, counter) == SegmentValue(env.points, c, env.numPoints as nat - 1);
    value, next := SearchSegment(env.points, env.numPoints as nat - 1, c);
  }

  /** The search of xm_tick_envelope: from the last point down to the segment whose start is at or before `c`. */
  method SearchSegment(points: seq<EnvelopePoint>, last: nat, c: u16) returns (value: u8, next: u16)
    requires last < |points|
    ensures (value, next) == SegmentValue(points, c, last)
  {
    var j := last;
    while j >= 1 && c < points[j - 1].frame
      invariant 0 <= j <= last
      invariant Segment(points, c, last) == Segment(points, c, j)
      decreases j
    {
      j := j - 1;
    }
    if j == 0 {
      return 0, c;
    }
    var a := points[j - 1];
    var b := points[j];
    if c >= b.frame {
      value, next := b.value, Wrap16(c + 1);
    } else {
      value, next := Interpolate(a, b, c), Wrap16(c + 1);
    }
  }

  // ---------------------------------------------------------------------
  // Automatic vibrato and fade-out
  // ---------------------------------------------------------------------

  /** Whether the instrument's automatic vibrato runs: it has a depth, and a rate or a square waveform. */
  predicate AutovibratoActive(inst: Instrument)
  {
    inst.vibratoDepth != 0 && (inst.vibratoRate > 0 || inst.vibratoType == WaveformSquare)
  }

  /** The automatic vibrato offset before the sweep: the waveform scaled by minus the depth over 128. */
  function AutovibratoRaw(inst: Instrument, ticks: u16): int
  {
    var scaled := Wrap8(Wrap32(ticks * inst.vibratoRate) / 4);
    TruncDiv(Waveform(inst.vibratoType, scaled) * -(inst.vibratoDepth as int), 128)
  }

  /**
   * The automatic vibrato step: the offset is the raw offset, faded in
   * over `vibratoSweep` ticks, and the tick counter advances, wrapping at
   * 16 bits. `None` when the raw offset overflows the source's `Int8`.
   */
  function Autovibrato(inst: Instrument, ch: Channel): (r: Option<Channel>)
    ensures r.None? <==> !(-128 <= AutovibratoRaw(inst, ch.autovibratoTicks) < 128)
    ensures r.Some? ==> r.value.autovibratoTicks == (ch.autovibratoTicks + 1) % 0x1_0000
    ensures r.Some? ==> Abs(r.value.autovibratoOffset) <= Abs(AutovibratoRaw(inst, ch.autovibratoTicks))
    ensures r.Some? && ch.autovibratoTicks >= inst.vibratoSweep ==>
              r.value.autovibratoOffset == AutovibratoRaw(inst, ch.autovibratoTicks)
    ensures r.Some? ==> r.value == ch.(autovibratoOffset := r.value.autovibratoOffset,
                                       autovibratoTicks := r.value.autovibratoTicks)
  {
    var raw := AutovibratoRaw(inst, ch.autovibratoTicks);
    if !(-128 <= raw < 128) then None
    else
      var off := if ch.autovibratoTicks < inst.vibratoSweep then SweepScale(raw, ch.autovibratoTicks, inst.vibratoSweep) else raw;
      Some(ch.(autovibratoOffset := off, autovibratoTicks := Wrap16(ch.autovibratoTicks + 1)))
  }

  /** `off * ticks / sweep` with Swift's truncating division, for `ticks < sweep`: no larger than `off`. */
  function SweepScale(off: i8, ticks: nat, sweep: nat): (r: i8)
    requires ticks < sweep
    ensures Abs(r) <= Abs(off)
  {
    SweepScaleBounds(off, ticks, sweep);
    TruncDiv(off * ticks, sweep)
  }

  /** The truncated quotient lies between `-|off|` and `|off|`, and is not positive for a negative `off`. */
  lemma SweepScaleBounds(off: int, ticks: nat, sweep: nat)
    requires ticks < sweep
    ensures -(Abs(off) as int) <= TruncDiv(off * ticks, sweep) <= Abs(off)
    ensures off < 0 ==> TruncDiv(off * ticks, sweep) <= 0
  {
    var m := Abs(off);
    ProductBound(off, ticks, m, sweep);
    TruncDivBound(off * ticks, sweep, m * sweep);
    DivUnique(m * sweep, sweep, m, 0);
    if off < 0 {
      MulMono(0, -off, 0, ticks);
    }
  }

  /** A depth below 128 never overflows: the raw offset is then within 127 of zero. */
  lemma AutovibratoFits(inst: Instrument, ticks: u16)
    requires inst.vibratoDepth < 128
    ensures -127 <= AutovibratoRaw(inst, ticks) <= 127
  {
    var scaled := Wrap8(Wrap32(ticks * inst.vibratoRate) / 4);
    ScaledWaveFits(Waveform(inst.vibratoType, scaled), inst.vibratoDepth);
  }

  lemma ScaledWaveFits(w: int, d: int)
    requires -128 <= w <= 127 && 0 <= d < 128
    ensures -127 <= TruncDiv(w * -d, 128) <= 127
  {
    ProductBound(w, d, 128, 127);
    assert w * -d == -(w * d);
    TruncDivBound(w * -d, 128, 128 * 127);
  }

  /** The fade-out: full while the note is sustained, otherwise lowered by the instrument's fade-out rate, not below 0. */
  function Fadeout(inst: Instrument, ch: Channel): (v: u16)
    ensures ch.sustained ==> v == MaxFadeoutVolume - 1
    ensures !ch.sustained ==> v == Max(ch.fadeoutVolume - inst.volumeFadeout, 0)
  {
    if !ch.sustained then (if ch.fadeoutVolume < inst.volumeFadeout then 0 else ch.fadeoutVolume - inst.volumeFadeout)
    else MaxFadeoutVolume - 1
  }

  /** Every instrument's envelopes can be stepped. */
  predicate InstrumentsPlayable(instruments: seq<Instrument>)
  {
    forall i :: 0 <= i < |instruments| ==>
      PlayableEnvelope(instruments[i].volumeEnvelope) && PlayableEnvelope(instruments[i].panningEnvelope)
  }

  /**
   * xm_tick_envelopes, as a function of the instrument table and the
   * channel: nothing changes without a valid instrument; otherwise the
   * automatic vibrato, the fade-out and both envelopes advance (a disabled
   * envelope gives full volume and centre panning).
   */
  function InstrumentTick(instruments: seq<Instrument>, ch: Channel): (r: Option<Channel>)
    requires InstrumentsPlayable(instruments)
  {
    if ch.instrument.None? || ch.instrument.value >= |instruments| then Some(ch)
    else
      var inst := instruments[ch.instrument.value];
      var vib := if AutovibratoActive(inst) then Autovibrato(inst, ch) else Some(ch);
      if vib.None? then None
      else
        var c := vib.value.(fadeoutVolume := Fadeout(inst, vib.value));
        Some(PanningEnvelopeStep(inst, VolumeEnvelopeStep(inst, c)))
  }

  /** The volume envelope's step: its value and counter, or full volume when it is disabled. */
  function VolumeEnvelopeStep(inst: Instrument, ch: Channel): (r: Channel)
    requires PlayableEnvelope(inst.volumeEnvelope)
    ensures r.volumeEnvelopeVolume <= MaxEnvelopeValue
    ensures r.instrument == ch.instrument && r.sample == ch.sample && r.volume == ch.volume && r.panning == ch.panning
    ensures r.fadeoutVolume == ch.fadeoutVolume && r.sustained == ch.sustained
    ensures r.origNote == ch.origNote && r.current == ch.current
    ensures r.panningEnvelopePanning == ch.panningEnvelopePanning
  {
    var env := inst.volumeEnvelope;
    if env.numPoints != 0 then
      var (v, n) := EnvelopeTick(env, ch.sustained, ch.volumeEnvelopeFrameCount);
      EnvelopeTickBounded(env, ch.sustained, ch.volumeEnvelopeFrameCount);
      ch.(volumeEnvelopeFrameCount := n, volumeEnvelopeVolume := v)
    else ch.(volumeEnvelopeVolume := MaxEnvelopeValue)
  }

  /** The panning envelope's step: its value and counter, or the centre when it is disabled. */
  function PanningEnvelopeStep(inst: Instrument, ch: Channel): (r: Channel)
    requires PlayableEnvelope(inst.panningEnvelope)
    ensures r.panningEnvelopePanning <= MaxEnvelopeValue
    ensures r.instrument == ch.instrument && r.sample == ch.sample && r.volume == ch.volume && r.panning == ch.panning
    ensures r.fadeoutVolume == ch.fadeoutVolume && r.sustained == ch.sustained
    ensures r.origNote == ch.origNote && r.current == ch.current
    ensures r.volumeEnvelopeVolume == ch.volumeEnvelopeVolume
  {
    var env := inst.panningEnvelope;
    if env.numPoints != 0 then
      var (p, n) := EnvelopeTick(env, ch.sustained, ch.panningEnvelopeFrameCount);
      EnvelopeTickBounded(env, ch.sustained, ch.panningEnvelopeFrameCount);
      ch.(panningEnvelopeFrameCount := n, panningEnvelopePanning := p)
    else ch.(panningEnvelopePanning := MaxEnvelopeValue / 2)
  }

  /**
   * The per-tick processing keeps the channel invariant: the fade-out stays
   * below 32768 and both envelope outputs in 0..64; a channel without a
   * valid instrument is left alone, and only a depth of 128 or more can make
   * the automatic vibrato overflow.
   */
  lemma InstrumentTickKeepsChannel(instruments: seq<Instrument>, ch: Channel)
    requires InstrumentsPlayable(instruments) && ChannelValid(ch)
    ensures var r := InstrumentTick(instruments, ch);
            && (r.Some? ==> ChannelValid(r.value) && r.value.instrument == ch.instrument && r.value.sample == ch.sample
                            && r.value.volume == ch.volume && r.value.panning == ch.panning
                            && r.value.origNote == ch.origNote && r.value.current == ch.current)
            && (ch.instrument.None? || ch.instrument.value >= |instruments| ==> r == Some(ch))
            && (r.None? ==> ch.instrument.Some? && ch.instrument.value < |instruments|
                            && instruments[ch.instrument.value].vibratoDepth >= 128)
  {
    if ch.instrument.Some? && ch.instrument.value < |instruments| {
      var inst := instruments[ch.instrument.value];
      if inst.vibratoDepth < 128 {
        AutovibratoFits(inst, ch.autovibratoTicks);
      }
      var vib := if AutovibratoActive(inst) then Autovibrato(inst, ch) else Some(ch);
      if vib.Some? {
        var c := vib.value.(fadeoutVolume := Fadeout(inst, vib.value));
        var v := VolumeEnvelopeStep(inst, c);
        var p := PanningEnvelopeStep(inst, v);
        assert InstrumentTick(instruments, ch) == Some(p);
        assert ChannelValid(p);
      }
    }
  }

  /** xm_tick_envelopes: the per-tick instrument processing of one channel. */
  method TickEnvelopes(instruments: seq<Instrument>, ch: Channel) returns (r: Option<Channel>)
    requires InstrumentsPlayable(instruments)
    ensures r == InstrumentTick(instruments, ch)
  {
    if ch.instrument.None? || ch.instrument.value >= |instruments| {
      return Some(ch);
    }
    var inst := instruments[ch.instrument.value];
    var c := ch;
    if AutovibratoActive(inst) {
      var vib := Autovibrato(inst, c);
      if vib.None? {
        return None;
      }
      c := vib.value;
    }
    c := c.(fadeoutVolume := Fadeout(inst, c));
    c := TickChannelEnvelopes(inst, c);
    return Some(c);
  }

  /** The envelope part of xm_tick_envelopes: the volume envelope, then the panning envelope. */
  method TickChannelEnvelopes(inst: Instrument, ch: Channel) returns (r: Channel)
    requires PlayableEnvelope(inst.volumeEnvelope) && PlayableEnvelope(inst.panningEnvelope)
    ensures r == PanningEnvelopeStep(inst, VolumeEnvelopeStep(inst, ch))
  {
    r := ch;
    if inst.volumeEnvelope.numPoints != 0 {
      var v, n := TickEnvelope(inst.volumeEnvelope, r.sustained, r.volumeEnvelopeFrameCount);
      r := r.(volumeEnvelopeFrameCount := n, volumeEnvelopeVolume := v);
    } else {
      r := r.(volumeEnvelopeVolume := MaxEnvelopeValue);
    }
    assert r == VolumeEnvelopeStep(inst, ch);
    ghost var stepped := r;
    if inst.panningEnvelope.numPoints != 0 {
      var p, n := TickEnvelope(inst.panningEnvelope, r.sustained, r.panningEnvelopeFrameCount);
      r := r.(panningEnvelopeFrameCount := n, panningEnvelopePanning := p);
    } else {
      r := r.(panningEnvelopePanning := MaxEnvelopeValue / 2);
    }
    assert r == PanningEnvelopeStep(inst, stepped);
  }
}
