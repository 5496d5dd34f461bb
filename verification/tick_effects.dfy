/**
 * The effects of the ticks of a row: xm_tick_effects, which the player
 * runs on every tick but the first of a row (and on the first tick of a
 * row repeated by a pattern delay). First the volume column's slides,
 * vibrato and tone portamento, then the effect column.
 *
 * As in `Slots`, the context and the channel are values and a runtime
 * trap of the source is `Trap`.
 */
module TickEffects {
  import opened Wrappers
  import opened Ints
  import opened XMTypes
  import opened Effects
  import opened Envelopes
  import opened LoaderFixup
  import opened Slots

  // ---------------------------------------------------------------------
  // Slides and remembered parameters
  // ---------------------------------------------------------------------

  /** A parameter given as zero reuses the remembered one. */
  function Remember(param: u8, memory: u8): (r: u8)
    ensures r == 0 ==> param == 0 && memory == 0
    ensures param != 0 ==> r == param
  {
    if param > 0 then param else memory
  }

  /** The panning as the byte the panning slides work on: the source clamps it to 255 when reading it. */
  function PanningByte(panning: u16): u8
  {
    if panning > 255 then 255 else panning
  }

  /** A volume slide by `rawval` (see `ParamSlide`), which also clears the tremolo's volume offset. */
  function VolumeSlide(ch: Channel, rawval: u8): (r: Channel)
    ensures r == ch.(volume := r.volume, volumeOffset := 0)
    ensures ch.volume <= MaxVolume ==> r.volume <= MaxVolume
    ensures rawval / 16 != 0 ==> r.volume == Min(ch.volume + rawval / 16, MaxVolume)
    ensures rawval / 16 == 0 ==> r.volume == Max(ch.volume - rawval % 16, 0)
  {
    ch.(volume := ParamSlide(ch.volume, rawval, MaxVolume), volumeOffset := 0)
  }

  /** A panning slide by `rawval` within 0 to 255. */
  function PanningSlide(ch: Channel, rawval: u8): (r: Channel)
    ensures r == ch.(panning := r.panning)
    ensures r.panning < MaxPanning
    ensures ch.panning < MaxPanning && rawval / 16 != 0 ==> r.panning == Min(ch.panning + rawval / 16, 255)
    ensures ch.panning < MaxPanning && rawval / 16 == 0 ==> r.panning == Max(ch.panning - rawval % 16, 0)
  {
    ch.(panning := ParamSlide(PanningByte(ch.panning), rawval, (MaxPanning - 1) as u8))
  }

  // ---------------------------------------------------------------------
  // The volume column
  // ---------------------------------------------------------------------

  /**
   * The volume column on the later ticks: 6x slides the volume down by x,
   * 7x up by x, Bx sets the vibrato depth to x and runs the vibrato, Dx
   * slides the panning left by x, Ex right by x, and Fx runs the tone
   * portamento. `None` where the vibrato or the portamento traps.
   */
  function TickVolumeColumn(amiga: bool, ch: Channel): (r: Option<Channel>)
    ensures !ActsOnLaterTicks(ch.current.volumeColumn / 16) ==> r == Some(ch)
  {
    var x := ch.current.volumeColumn / 16;
    if x == VolVibrato then Vibrato(VolumeColumnVibrato(ch))
    else if x == VolTonePortamento then TonePortamento(amiga, ch)
    else Some(VolumeColumnSlide(ch))
  }

  /** The volume column's slides (6x, 7x, Dx, Ex); the other commands leave the channel alone. */
  function VolumeColumnSlide(ch: Channel): Channel
  {
    var vc := ch.current.volumeColumn;
    var x := vc / 16;
    if x == VolSlideDown then VolumeSlide(ch, vc % 16)
    else if x == VolSlideUp then VolumeSlide(ch, Wrap8(vc * 16))
    else if x == VolPanningSlideLeft then PanningSlide(ch, vc % 16)
    else if x == VolPanningSlideRight then PanningSlide(ch, Wrap8(vc * 16))
    else ch
  }

  /** The volume column commands that act on the later ticks of a row. */
  predicate ActsOnLaterTicks(x: u8)
  {
    x in {VolSlideDown, VolSlideUp, VolVibrato, VolPanningSlideLeft, VolPanningSlideRight, VolTonePortamento}
  }

  /** Bx: the depth nibble is remembered and the vibrato is not to be reset after the row. */
  function VolumeColumnVibrato(ch: Channel): (c: Channel)
    ensures SameValidFields(ch, c)
    ensures c.memory.vibratoParam / 16 == ch.memory.vibratoParam / 16 && !c.shouldResetVibrato
  {
    ch.(memory := ch.memory.(vibratoParam := UpdateEffectMemoryXY(ch.memory.vibratoParam, ch.current.volumeColumn % 16)),
        shouldResetVibrato := false)
  }

  // ---------------------------------------------------------------------
  // The effect column
  // ---------------------------------------------------------------------

  /**
   * The effect column on the later ticks. The effects that act only on the
   * first tick, and the unknown ones, leave everything alone. `Trap` where
   * the source traps.
   */
  function TickEffect(sh: Shared, amigaPeriod: i16 -> u16, ch: Channel): (r: Outcome)
    requires InstrumentsPlayable(sh.instruments)
    ensures r.Next? ==> SameTables(sh, r.sh)
    ensures r.Next? && !ChangesContextOnLaterTicks(ch.current.effectType) ==> r.sh == sh
  {
    if ChangesContextOnLaterTicks(ch.current.effectType) then ContextTickEffect(sh, amigaPeriod, ch)
    else ChannelTickEffect(sh, ch)
  }

  /** The effects that act on the channel alone on the later ticks. */
  function ChannelTickEffect(sh: Shared, ch: Channel): (r: Outcome)
    requires !ChangesContextOnLaterTicks(ch.current.effectType)
    ensures r.Next? ==> r.sh == sh
  {
    var e := ch.current.effectType;
    var p := ch.current.effectParam;
    if e == EffArpeggio then
      if p != 0 then WithChannel(sh, Arpeggio(sh.isMOD, sh.amiga, sh.currentTick, sh.currentTempo, sh.extraRows, ch))
      else Next(sh, ch)
    else if e == EffPortamentoUp || e == EffPortamentoDown then WithChannel(sh, Portamento(ch))
    else if e == EffTonePortamento then WithChannel(sh, TonePortamento(sh.amiga, ch))
    else if e == EffTonePortamentoVolumeSlide then WithChannel(sh, ThenVolumeSlide(TonePortamento(sh.amiga, ch)))
    else if e == EffVolumeSlide then Next(sh, VolumeSlideEffect(ch))
    else if e == EffVibrato then WithChannel(sh, Vibrato(VibratoEffect(ch)))
    else if e == EffVibratoVolumeSlide then WithChannel(sh, ThenVolumeSlide(Vibrato(ch.(shouldResetVibrato := true))))
    else if e == EffTremolo then Next(sh, Tremolo(TremoloEffect(ch)))
    else if e == EffKeyOff then
      if sh.currentTick == p then KeyOffIn(sh, ch) else Next(sh, ch)
    else if e == EffPanningSlide then Next(sh, PanningSlideEffect(ch))
    else if e == EffTremor then Next(sh, Tremor(ch))
    else if e == EffCutNote then
      if sh.currentTick == p then Next(sh, CutNote(ch)) else Next(sh, ch)
    else Next(sh, ch)
  }

  /** The effects that can change the shared context on the later ticks: Hxy, Rxy, E9x and EDx. */
  function ContextTickEffect(sh: Shared, amigaPeriod: i16 -> u16, ch: Channel): (r: Outcome)
    requires InstrumentsPlayable(sh.instruments) && ChangesContextOnLaterTicks(ch.current.effectType)
    ensures r.Next? ==> SameTables(sh, r.sh)
  {
    var e := ch.current.effectType;
    var p := ch.current.effectParam;
    if e == EffGlobalVolumeSlide then GlobalVolumeSlide(sh, ch)
    else if e == EffMultiRetrigNote then MultiRetrig(sh, amigaPeriod, ch)
    else if e == EffRetriggerNote then
      if p != 0 && sh.currentTick % p == 0 then Restart(sh, amigaPeriod, ch, true) else Next(sh, ch)
    else if sh.currentTick == p then DelayNote(sh, amigaPeriod, ch) else Next(sh, ch)
  }

  /** The effects that can change the shared context on the later ticks of a row. */
  predicate ChangesContextOnLaterTicks(e: u8)
  {
    e in {EffGlobalVolumeSlide, EffMultiRetrigNote, EffRetriggerNote, EffDelayNote}
  }

  /**
   * xm_tick_effects: the volume column, then the effect column, on the
   * channel the volume column left.
   */
  function TickEffects(sh: Shared, amigaPeriod: i16 -> u16, ch: Channel): (r: Outcome)
    requires InstrumentsPlayable(sh.instruments)
    ensures r.Next? ==> SameTables(sh, r.sh)
  {
    var v := TickVolumeColumn(sh.amiga, ch);
    if v.None? then Trap else TickEffect(sh, amigaPeriod, v.value)
  }

  /** 1xx and 2xx: the period slides by four times the remembered parameter, up in pitch for 1xx. */
  function Portamento(ch: Channel): (r: Option<Channel>)
    requires ch.current.effectType == EffPortamentoUp || ch.current.effectType == EffPortamentoDown
    ensures r.Some? ==> SameValidFields(ch, r.value)
    ensures r.Some? && ch.current.effectType == EffPortamentoUp ==>
              r.value.memory.portamentoUpParam == Remember(ch.current.effectParam, ch.memory.portamentoUpParam)
              && r.value.period == Max(UnroundedPeriod(ch) - 4 * r.value.memory.portamentoUpParam, 1)
    ensures r.Some? && ch.current.effectType == EffPortamentoDown ==>
              r.value.memory.portamentoDownParam == Remember(ch.current.effectParam, ch.memory.portamentoDownParam)
              && r.value.period == Max(UnroundedPeriod(ch) + 4 * r.value.memory.portamentoDownParam, 1)
  {
    var p := ch.current.effectParam;
    if ch.current.effectType == EffPortamentoUp then
      var c := ch.(memory := ch.memory.(portamentoUpParam := Remember(p, ch.memory.portamentoUpParam)));
      PitchSlide(c, -4 * c.memory.portamentoUpParam)
    else
      var c := ch.(memory := ch.memory.(portamentoDownParam := Remember(p, ch.memory.portamentoDownParam)));
      PitchSlide(c, 4 * c.memory.portamentoDownParam)
  }

  /** Axy, and the second half of 5xy and 6xy: the volume slides by the remembered parameter. */
  function VolumeSlideEffect(ch: Channel): (r: Channel)
    ensures ch.volume <= MaxVolume ==> r.volume <= MaxVolume
    ensures r.volumeOffset == 0
    ensures r.memory.volumeSlideParam == Remember(ch.current.effectParam, ch.memory.volumeSlideParam)
  {
    var c := ch.(memory := ch.memory.(volumeSlideParam := Remember(ch.current.effectParam, ch.memory.volumeSlideParam)));
    VolumeSlide(c, c.memory.volumeSlideParam)
  }

  /** The volume slide after a tone portamento or a vibrato that did not trap. */
  function ThenVolumeSlide(c: Option<Channel>): (r: Option<Channel>)
    ensures r.Some? <==> c.Some?
  {
    if c.None? then None else Some(VolumeSlideEffect(c.value))
  }

  /** 4xy: the speed and depth nibbles are remembered and the vibrato is reset after the row. */
  function VibratoEffect(ch: Channel): (c: Channel)
    ensures SameValidFields(ch, c) && c.shouldResetVibrato
  {
    ch.(memory := ch.memory.(vibratoParam := UpdateEffectMemoryXY(ch.memory.vibratoParam, ch.current.effectParam)),
        shouldResetVibrato := true)
  }

  /** 7xy: the speed and depth nibbles are remembered. */
  function TremoloEffect(ch: Channel): (c: Channel)
    ensures SameValidFields(ch, c)
  {
    ch.(memory := ch.memory.(tremoloParam := UpdateEffectMemoryXY(ch.memory.tremoloParam, ch.current.effectParam)))
  }

  /** Hxy: the global volume slides by the remembered parameter, within 0 to 64. */
  function GlobalVolumeSlide(sh: Shared, ch: Channel): (r: Outcome)
    ensures r.Next?
    ensures r.sh == sh.(globalVolume := r.sh.globalVolume)
    ensures sh.globalVolume <= MaxVolume ==> r.sh.globalVolume <= MaxVolume
    ensures r.ch == ch.(memory := ch.memory.(globalVolumeSlideParam := r.ch.memory.globalVolumeSlideParam))
    ensures r.ch.memory.globalVolumeSlideParam == Remember(ch.current.effectParam, ch.memory.globalVolumeSlideParam)
  {
    var m := ch.memory.(globalVolumeSlideParam := Remember(ch.current.effectParam, ch.memory.globalVolumeSlideParam));
    Next(sh.(globalVolume := ParamSlide(sh.globalVolume, m.globalVolumeSlideParam, MaxVolume)), ch.(memory := m))
  }

  /** Pxy: the panning slides by the remembered parameter. */
  function PanningSlideEffect(ch: Channel): (r: Channel)
    ensures r.panning < MaxPanning
    ensures r.memory.panningSlideParam == Remember(ch.current.effectParam, ch.memory.panningSlideParam)
  {
    var c := ch.(memory := ch.memory.(panningSlideParam := Remember(ch.current.effectParam, ch.memory.panningSlideParam)));
    PanningSlide(c, c.memory.panningSlideParam)
  }

  /**
   * Txy, the tremor: a counter runs down each tick; when it is already 0
   * the note is switched on or off and the counter restarts at x (on) or
   * y (off). The note is muted through the volume offset.
   */
  function Tremor(ch: Channel): (r: Channel)
    ensures r.memory.tremorParam == Remember(ch.current.effectParam, ch.memory.tremorParam)
    ensures r.tremorOn == (if ch.tremorTicks == 0 then !ch.tremorOn else ch.tremorOn)
    ensures ch.tremorTicks != 0 ==> r.tremorTicks == ch.tremorTicks - 1
    ensures ch.tremorTicks == 0 ==> r.tremorTicks == if r.tremorOn then r.memory.tremorParam / 16 else r.memory.tremorParam % 16
    ensures r.volumeOffset == if r.tremorOn then 0 else MaxVolume as i8
    ensures r == ch.(memory := r.memory, tremorOn := r.tremorOn, tremorTicks := r.tremorTicks, volumeOffset := r.volumeOffset)
  {
    var m := ch.memory.(tremorParam := Remember(ch.current.effectParam, ch.memory.tremorParam));
    var on := TremorOn(ch);
    ch.(memory := m, tremorOn := on, tremorTicks := TremorCounter(ch.tremorTicks, on, m.tremorParam),
        volumeOffset := TremorOffset(on))
  }

  /** Whether the tremor sounds after this tick: it switches when the counter has run out. */
  function TremorOn(ch: Channel): bool
  {
    if ch.tremorTicks == 0 then !ch.tremorOn else ch.tremorOn
  }

  /** The tremor counter after this tick: one less, or restarted at the on or off time. */
  function TremorCounter(ticks: u8, on: bool, param: u8): u8
  {
    if ticks == 0 then (if on then param / 16 else param % 16) else ticks - 1
  }

  /** The volume offset of the tremor: none when on, all of the volume when off. */
  function TremorOffset(on: bool): i8
  {
    if on then 0 else MaxVolume as i8
  }

  /**
   * E9x and the end of EDx: xm_trigger_instrument, then xm_trigger_note
   * when `note` holds, then xm_tick_envelopes. `Trap` where the note or
   * the automatic vibrato traps.
   */
  function Restart(sh: Shared, amigaPeriod: i16 -> u16, ch: Channel, note: bool): (r: Outcome)
    requires InstrumentsPlayable(sh.instruments)
    ensures r.Next? ==> SameTables(sh, r.sh)
  {
    var i := TriggerInstrument(sh, ch);
    var n := if note then TriggerNote(i.sh, amigaPeriod, i.ch) else i;
    if n.Trap? then Trap
    else WithChannel(n.sh, InstrumentTick(n.sh.instruments, n.ch))
  }

  /**
   * EDx on tick x: the slot is read as on a first tick, the instrument is
   * triggered, the note too unless it is a key-off, and the envelopes
   * advance.
   */
  function DelayNote(sh: Shared, amigaPeriod: i16 -> u16, ch: Channel): (r: Outcome)
    requires InstrumentsPlayable(sh.instruments)
    ensures r.Next? ==> SameTables(sh, r.sh)
  {
    var h := HandlePatternSlot(sh, amigaPeriod, ch);
    if h.Trap? then Trap
    else Restart(h.sh, amigaPeriod, h.ch, !IsKeyOff(h.ch.current.note))
  }

  // ---------------------------------------------------------------------
  // What the later ticks keep
  // ---------------------------------------------------------------------

  /** A channel result that, unless the source trapped, fits the tables and still plays the slot of `ch`. */
  predicate Keeps(sh: Shared, ch: Channel, c: Option<Channel>)
  {
    c.Some? ==> ChannelFits(sh, c.value) && c.value.current == ch.current
  }

  /** Such a result, with the context unchanged, is a step that fits. */
  lemma KeepsStep(sh: Shared, length: u16, ch: Channel, c: Option<Channel>)
    requires SharedValid(sh) && JumpValid(sh, length) && Keeps(sh, ch, c)
    ensures SlotStep(sh, length, ch.current, WithChannel(sh, c))
  {
  }

  /**
   * The effects of the later ticks keep a consistent context consistent:
   * the tables, the flags, the time and the song position stay, the
   * global volume stays in range, a requested jump goes to an entry of
   * the order table, and the channel fits the tables and still plays its
   * slot.
   */
  lemma TickEffectsFits(sh: Shared, amigaPeriod: i16 -> u16, ch: Channel, length: u16)
    requires SharedValid(sh) && ChannelFits(sh, ch) && SlotNormal(ch.current, length)
    requires 0 < length && sh.currentTableIndex < length && JumpValid(sh, length)
    ensures InstrumentsPlayable(sh.instruments)
    ensures SlotStep(sh, length, ch.current, TickEffects(sh, amigaPeriod, ch))
  {
    PlayableInstruments(sh);
    var v := TickVolumeColumn(sh.amiga, ch);
    TickVolumeColumnKeeps(sh, ch);
    if v.Some? {
      TickEffectFits(sh, amigaPeriod, v.value, length);
    }
  }

  /** The instruments of a consistent context have playable envelopes. */
  lemma PlayableInstruments(sh: Shared)
    requires SharedValid(sh)
    ensures InstrumentsPlayable(sh.instruments)
  {
    forall i | 0 <= i < |sh.instruments|
      ensures PlayableEnvelope(sh.instruments[i].volumeEnvelope) && PlayableEnvelope(sh.instruments[i].panningEnvelope)
    {
      assert InstrumentValid(sh.instruments[i], |sh.samples|);
    }
  }

  /** The volume column keeps the channel fitting. */
  lemma TickVolumeColumnKeeps(sh: Shared, ch: Channel)
    requires ChannelFits(sh, ch)
    ensures Keeps(sh, ch, TickVolumeColumn(sh.amiga, ch))
  {
    var x := ch.current.volumeColumn / 16;
    if x == VolVibrato {
      VibratoKeeps(sh, VolumeColumnVibrato(ch));
    } else if x == VolTonePortamento {
      TonePortamentoKeeps(sh, ch);
    } else {
      VolumeColumnSlideKeeps(sh, ch);
    }
  }

  /** The volume column's slides keep the volume and the panning in range. */
  lemma VolumeColumnSlideKeeps(sh: Shared, ch: Channel)
    requires ChannelFits(sh, ch)
    ensures Keeps(sh, ch, Some(VolumeColumnSlide(ch)))
  {
    var vc := ch.current.volumeColumn;
    var x := vc / 16;
    if x == VolSlideDown || x == VolSlideUp {
      VolumeColumnVolumeSlideKeeps(sh, ch);
    } else if x == VolPanningSlideLeft || x == VolPanningSlideRight {
      VolumeColumnPanningSlideKeeps(sh, ch);
    }
  }

  lemma VolumeColumnVolumeSlideKeeps(sh: Shared, ch: Channel)
    requires ChannelFits(sh, ch)
    requires ch.current.volumeColumn / 16 == VolSlideDown || ch.current.volumeColumn / 16 == VolSlideUp
    ensures Keeps(sh, ch, Some(VolumeColumnSlide(ch)))
  {
    var vc := ch.current.volumeColumn;
    var k := if vc / 16 == VolSlideDown then vc % 16 else Wrap8(vc * 16);
    VolumeSlideByKeeps(sh, ch, k);
  }

  lemma VolumeColumnPanningSlideKeeps(sh: Shared, ch: Channel)
    requires ChannelFits(sh, ch)
    requires ch.current.volumeColumn / 16 == VolPanningSlideLeft || ch.current.volumeColumn / 16 == VolPanningSlideRight
    ensures Keeps(sh, ch, Some(VolumeColumnSlide(ch)))
  {
    var vc := ch.current.volumeColumn;
    var k := if vc / 16 == VolPanningSlideLeft then vc % 16 else Wrap8(vc * 16);
    PanningSlideByKeeps(sh, ch, k);
  }

  /** A volume slide by any amount keeps the volume in range. */
  lemma VolumeSlideByKeeps(sh: Shared, ch: Channel, rawval: u8)
    requires ChannelFits(sh, ch)
    ensures Keeps(sh, ch, Some(VolumeSlide(ch, rawval)))
  {
  }

  /** A panning slide by any amount keeps the panning in range. */
  lemma PanningSlideByKeeps(sh: Shared, ch: Channel, rawval: u8)
    requires ChannelFits(sh, ch)
    ensures Keeps(sh, ch, Some(PanningSlide(ch, rawval)))
  {
  }

  /** The vibrato changes only the period, its offset and its oscillator. */
  lemma VibratoKeeps(sh: Shared, ch: Channel)
    requires ChannelFits(sh, ch)
    ensures Keeps(sh, ch, Vibrato(ch))
  {
  }

  /** The tone portamento changes only the period and the glissando error. */
  lemma TonePortamentoKeeps(sh: Shared, ch: Channel)
    requires ChannelFits(sh, ch)
    ensures Keeps(sh, ch, TonePortamento(sh.amiga, ch))
  {
  }

  /** The arpeggio changes only the period, the glissando error and the note offset. */
  lemma ArpeggioKeeps(sh: Shared, ch: Channel)
    requires ChannelFits(sh, ch)
    ensures Keeps(sh, ch, Arpeggio(sh.isMOD, sh.amiga, sh.currentTick, sh.currentTempo, sh.extraRows, ch))
  {
  }

  /** A volume slide after a result that fits still fits. */
  lemma ThenVolumeSlideKeeps(sh: Shared, ch: Channel, c: Option<Channel>)
    requires Keeps(sh, ch, c)
    ensures Keeps(sh, ch, ThenVolumeSlide(c))
  {
  }

  /** The effect column keeps a consistent context consistent. */
  lemma TickEffectFits(sh: Shared, amigaPeriod: i16 -> u16, ch: Channel, length: u16)
    requires SharedValid(sh) && ChannelFits(sh, ch) && SlotNormal(ch.current, length)
    requires 0 < length && sh.currentTableIndex < length && JumpValid(sh, length)
    requires InstrumentsPlayable(sh.instruments)
    ensures SlotStep(sh, length, ch.current, TickEffect(sh, amigaPeriod, ch))
  {
    var e := ch.current.effectType;
    if e in {EffArpeggio, EffPortamentoUp, EffPortamentoDown, EffTonePortamento, EffTonePortamentoVolumeSlide,
             EffVibrato, EffVibratoVolumeSlide} {
      PitchEffectFits(sh, amigaPeriod, ch, length);
    } else if e == EffMultiRetrigNote || e == EffRetriggerNote || e == EffDelayNote {
      TriggerEffectFits(sh, amigaPeriod, ch, length);
    } else {
      VolumeEffectFits(sh, amigaPeriod, ch, length);
    }
  }

  /** The effects on the pitch change only the channel, and keep it fitting. */
  lemma PitchEffectFits(sh: Shared, amigaPeriod: i16 -> u16, ch: Channel, length: u16)
    requires SharedValid(sh) && ChannelFits(sh, ch) && JumpValid(sh, length) && InstrumentsPlayable(sh.instruments)
    requires ch.current.effectType in {EffArpeggio, EffPortamentoUp, EffPortamentoDown, EffTonePortamento,
                                       EffTonePortamentoVolumeSlide, EffVibrato, EffVibratoVolumeSlide}
    ensures SlotStep(sh, length, ch.current, TickEffect(sh, amigaPeriod, ch))
  {
    var e := ch.current.effectType;
    var c: Option<Channel>;
    if e == EffArpeggio {
      c := if ch.current.effectParam != 0 then Arpeggio(sh.isMOD, sh.amiga, sh.currentTick, sh.currentTempo, sh.extraRows, ch)
           else Some(ch);
      ArpeggioKeeps(sh, ch);
    } else if e == EffPortamentoUp || e == EffPortamentoDown {
      c := Portamento(ch);
    } else if e == EffTonePortamento || e == EffTonePortamentoVolumeSlide {
      TonePortamentoKeeps(sh, ch);
      ThenVolumeSlideKeeps(sh, ch, TonePortamento(sh.amiga, ch));
      c := if e == EffTonePortamento then TonePortamento(sh.amiga, ch) else ThenVolumeSlide(TonePortamento(sh.amiga, ch));
    } else if e == EffVibrato {
      VibratoKeeps(sh, VibratoEffect(ch));
      c := Vibrato(VibratoEffect(ch));
    } else {
      var d := ch.(shouldResetVibrato := true);
      VibratoKeeps(sh, d);
      ThenVolumeSlideKeeps(sh, d, Vibrato(d));
      c := ThenVolumeSlide(Vibrato(d));
    }
    assert TickEffect(sh, amigaPeriod, ch) == WithChannel(sh, c);
    KeepsStep(sh, length, ch, c);
  }

  /** The effects on the volume, the panning and the note keep the channel fitting; only the global volume changes in the context. */
  lemma VolumeEffectFits(sh: Shared, amigaPeriod: i16 -> u16, ch: Channel, length: u16)
    requires SharedValid(sh) && ChannelFits(sh, ch) && JumpValid(sh, length) && InstrumentsPlayable(sh.instruments)
    requires !(ch.current.effectType in {EffArpeggio, EffPortamentoUp, EffPortamentoDown, EffTonePortamento,
                                         EffTonePortamentoVolumeSlide, EffVibrato, EffVibratoVolumeSlide,
                                         EffMultiRetrigNote, EffRetriggerNote, EffDelayNote})
    ensures SlotStep(sh, length, ch.current, TickEffect(sh, amigaPeriod, ch))
  {
    var e := ch.current.effectType;
    if e == EffGlobalVolumeSlide {
      GlobalVolumeSlideFits(sh, amigaPeriod, ch, length);
    } else if e == EffKeyOff && sh.currentTick == ch.current.effectParam {
      KeyOffEffectFits(sh, amigaPeriod, ch, length);
    } else {
      ChannelOnlyEffectFits(sh, amigaPeriod, ch, length);
    }
  }

  lemma GlobalVolumeSlideFits(sh: Shared, amigaPeriod: i16 -> u16, ch: Channel, length: u16)
    requires SharedValid(sh) && ChannelFits(sh, ch) && JumpValid(sh, length) && InstrumentsPlayable(sh.instruments)
    requires ch.current.effectType == EffGlobalVolumeSlide
    ensures SlotStep(sh, length, ch.current, TickEffect(sh, amigaPeriod, ch))
  {
    assert TickEffect(sh, amigaPeriod, ch) == GlobalVolumeSlide(sh, ch);
  }

  lemma KeyOffEffectFits(sh: Shared, amigaPeriod: i16 -> u16, ch: Channel, length: u16)
    requires SharedValid(sh) && ChannelFits(sh, ch) && JumpValid(sh, length) && InstrumentsPlayable(sh.instruments)
    requires ch.current.effectType == EffKeyOff && sh.currentTick == ch.current.effectParam
    ensures SlotStep(sh, length, ch.current, TickEffect(sh, amigaPeriod, ch))
  {
    assert TickEffect(sh, amigaPeriod, ch) == KeyOffIn(sh, ch);
  }

  lemma ChannelOnlyEffectFits(sh: Shared, amigaPeriod: i16 -> u16, ch: Channel, length: u16)
    requires SharedValid(sh) && ChannelFits(sh, ch) && JumpValid(sh, length) && InstrumentsPlayable(sh.instruments)
    requires !(ch.current.effectType in {EffArpeggio, EffPortamentoUp, EffPortamentoDown, EffTonePortamento,
                                         EffTonePortamentoVolumeSlide, EffVibrato, EffVibratoVolumeSlide,
                                         EffMultiRetrigNote, EffRetriggerNote, EffDelayNote, EffGlobalVolumeSlide})
    requires !(ch.current.effectType == EffKeyOff && sh.currentTick == ch.current.effectParam)
    ensures SlotStep(sh, length, ch.current, TickEffect(sh, amigaPeriod, ch))
  {
    var c := ChannelOnlyEffect(sh, ch);
    ChannelOnlyEffectKeeps(sh, ch);
    assert TickEffect(sh, amigaPeriod, ch) == Next(sh, c);
    KeepsStep(sh, length, ch, Some(c));
  }

  /**
   * The channel after the later-tick effects that act on the channel
   * alone and cannot trap: the volume and panning slides, the tremolo,
   * the tremor and the note cut; the rest leave it alone.
   */
  function ChannelOnlyEffect(sh: Shared, ch: Channel): Channel
  {
    var e := ch.current.effectType;
    if e == EffVolumeSlide then VolumeSlideEffect(ch)
    else if e == EffTremolo then Tremolo(TremoloEffect(ch))
    else if e == EffPanningSlide then PanningSlideEffect(ch)
    else if e == EffTremor then Tremor(ch)
    else if e == EffCutNote && sh.currentTick == ch.current.effectParam then CutNote(ch)
    else ch
  }

  /** Those effects keep the channel fitting. */
  lemma ChannelOnlyEffectKeeps(sh: Shared, ch: Channel)
    requires ChannelFits(sh, ch)
    ensures Keeps(sh, ch, Some(ChannelOnlyEffect(sh, ch)))
  {
    var e := ch.current.effectType;
    if e == EffVolumeSlide {
      VolumeSlideKeeps(sh, ch);
    } else if e == EffTremolo {
      TremoloKeeps(sh, ch);
    } else if e == EffPanningSlide {
      PanningSlideKeeps(sh, ch);
    } else if e == EffTremor {
      TremorKeeps(sh, ch);
    }
  }

  /** The volume slide keeps the volume in range. */
  lemma VolumeSlideKeeps(sh: Shared, ch: Channel)
    requires ChannelFits(sh, ch)
    ensures Keeps(sh, ch, Some(VolumeSlideEffect(ch)))
  {
  }

  /** The tremolo changes only the volume offset, its oscillator and its memory. */
  lemma TremoloKeeps(sh: Shared, ch: Channel)
    requires ChannelFits(sh, ch)
    ensures Keeps(sh, ch, Some(Tremolo(TremoloEffect(ch))))
  {
  }

  /** The panning slide keeps the panning in range. */
  lemma PanningSlideKeeps(sh: Shared, ch: Channel)
    requires ChannelFits(sh, ch)
    ensures Keeps(sh, ch, Some(PanningSlideEffect(ch)))
  {
  }

  /** The tremor changes only its own state and the volume offset. */
  lemma TremorKeeps(sh: Shared, ch: Channel)
    requires ChannelFits(sh, ch)
    ensures Keeps(sh, ch, Some(Tremor(ch)))
  {
  }

  /** The effects that trigger the note again keep the context consistent. */
  lemma TriggerEffectFits(sh: Shared, amigaPeriod: i16 -> u16, ch: Channel, length: u16)
    requires SharedValid(sh) && ChannelFits(sh, ch) && SlotNormal(ch.current, length) && InstrumentsPlayable(sh.instruments)
    requires 0 < length && sh.currentTableIndex < length && JumpValid(sh, length)
    requires ch.current.effectType == EffMultiRetrigNote || ch.current.effectType == EffRetriggerNote
             || ch.current.effectType == EffDelayNote
    ensures SlotStep(sh, length, ch.current, TickEffect(sh, amigaPeriod, ch))
  {
    var e := ch.current.effectType;
    var p := ch.current.effectParam;
    if e == EffMultiRetrigNote {
      MultiRetrigFits(sh, amigaPeriod, ch);
      SampleStepFits(sh, length, MultiRetrig(sh, amigaPeriod, ch));
    } else if e == EffRetriggerNote {
      if p != 0 && sh.currentTick % p == 0 {
        RestartFits(sh, amigaPeriod, ch, true, length);
      }
    } else if sh.currentTick == p {
      DelayNoteFits(sh, amigaPeriod, ch, length);
    }
  }

  /** Triggering the instrument and the note again and advancing the envelopes keep the context consistent. */
  lemma RestartFits(sh: Shared, amigaPeriod: i16 -> u16, ch: Channel, note: bool, length: u16)
    requires SharedValid(sh) && ChannelFits(sh, ch) && JumpValid(sh, length) && InstrumentsPlayable(sh.instruments)
    ensures SlotStep(sh, length, ch.current, Restart(sh, amigaPeriod, ch, note))
  {
    var i := TriggerInstrument(sh, ch);
    TriggerInstrumentFits(sh, ch, length);
    var n := if note then TriggerNote(i.sh, amigaPeriod, i.ch) else i;
    if note {
      TriggerNoteFits(i.sh, amigaPeriod, i.ch);
    }
    if n.Next? {
      InstrumentTickKeepsChannel(n.sh.instruments, n.ch);
    }
  }

  /** A delayed note keeps the context consistent. */
  lemma DelayNoteFits(sh: Shared, amigaPeriod: i16 -> u16, ch: Channel, length: u16)
    requires SharedValid(sh) && ChannelFits(sh, ch) && SlotNormal(ch.current, length) && InstrumentsPlayable(sh.instruments)
    requires 0 < length && sh.currentTableIndex < length && JumpValid(sh, length)
    ensures SlotStep(sh, length, ch.current, DelayNote(sh, amigaPeriod, ch))
  {
    var h := HandlePatternSlot(sh, amigaPeriod, ch);
    HandlePatternSlotFits(sh, amigaPeriod, ch, length);
    if h.Next? {
      RestartFits(h.sh, amigaPeriod, h.ch, !IsKeyOff(h.ch.current.note), length);
    }
  }
}
