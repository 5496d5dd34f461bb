/**
 * Starting notes and reading pattern slots: xm_trigger_instrument,
 * xm_trigger_note, xm_cut_note, xm_key_off, xm_multi_retrig_note and
 * xm_handle_pattern_slot.
 *
 * In the source these take the context and one channel, both `inout`
 * structs. Here they are functions from a `Shared` value (the part of the
 * context a channel's processing reads and writes) and a `Channel` to the
 * new pair, and a runtime trap of the source (an index out of range, a
 * checked conversion that overflows) is the result `Trap`.
 */
module Slots {
  import opened Wrappers
  import opened Ints
  import opened XMTypes
  import opened Effects
  import opened Envelopes
  import opened LoaderFixup

  /** The part of the playback context that the processing of one channel reads or writes. */
  datatype Shared = Shared(
    instruments: seq<Instrument>,
    samples: seq<Sample>,
    instrumentTriggers: map<nat, u32>,
    sampleTriggers: map<nat, u32>,
    numInstruments: u8,
    amiga: bool,
    isMOD: bool,
    generatedSamples: u32,
    currentTableIndex: u16,
    currentTick: u8,
    currentRow: u8,
    extraRows: u8,
    globalVolume: u8,
    currentTempo: u8,
    currentBpm: u8,
    patternBreak: bool,
    positionJump: bool,
    jumpDest: u8,
    jumpRow: u8)

  /**
   * The result of processing a channel: the shared context and the
   * channel after it, or a runtime trap of the source.
   */
  datatype Outcome = Trap | Next(sh: Shared, ch: Channel)

  // ---------------------------------------------------------------------
  // What a loaded module guarantees, and what the player keeps
  // ---------------------------------------------------------------------

  /** An instrument the player can use: 96 note-to-sample entries, samples inside the sample table, playable envelopes. */
  predicate InstrumentValid(inst: Instrument, numSamples: nat)
  {
    && |inst.sampleOfNotes| == MaxNote as nat
    && inst.samplesIndex as nat + inst.numSamples as nat <= numSamples
    && PlayableEnvelope(inst.volumeEnvelope)
    && PlayableEnvelope(inst.panningEnvelope)
  }

  /** A sample's default volume and panning are in range. */
  predicate SampleValid(s: Sample)
  {
    s.volume <= MaxVolume && s.panning < MaxPanning
  }

  /** The tables of the shared context are consistent and the global volume is in range. */
  predicate SharedValid(sh: Shared)
  {
    && |sh.instruments| == sh.numInstruments as nat
    && (forall i :: 0 <= i < |sh.instruments| ==> InstrumentValid(sh.instruments[i], |sh.samples|))
    && (forall i :: 0 <= i < |sh.samples| ==> SampleValid(sh.samples[i]))
    && sh.globalVolume <= MaxVolume
  }

  /** The channel invariant, plus: the channel's instrument and sample exist and its note is a real note or none. */
  predicate ChannelFits(sh: Shared, ch: Channel)
  {
    && ChannelValid(ch)
    && (ch.instrument.Some? ==> ch.instrument.value < |sh.instruments|)
    && (ch.sample.Some? ==> ch.sample.value < |sh.samples|)
    && ch.origNote <= MaxNote
  }

  /** The instrument and sample tables and the module's flags, which playing never changes. */
  predicate SameTables(a: Shared, b: Shared)
  {
    a.instruments == b.instruments && a.samples == b.samples && a.numInstruments == b.numInstruments
    && a.amiga == b.amiga && a.isMOD == b.isMOD
  }

  /**
   * What processing one channel keeps of the shared context: the tables,
   * the module's flags, the time and the song position; and the global
   * volume stays in range.
   */
  predicate Evolves(sh: Shared, sh': Shared)
  {
    && SameTables(sh, sh')
    && sh'.generatedSamples == sh.generatedSamples && sh'.currentTableIndex == sh.currentTableIndex
    && sh'.currentTick == sh.currentTick && sh'.currentRow == sh.currentRow
    && sh'.globalVolume <= MaxVolume
  }

  /** A requested position jump goes to an entry of an order table of `length` entries. */
  predicate JumpValid(sh: Shared, length: u16)
  {
    sh.positionJump ==> sh.jumpDest as int < length as int
  }

  /**
   * The result of processing a channel of a consistent context with the
   * current order entry in the order table: unless the source traps, the
   * context evolves as above, the jump stays valid and the channel fits.
   */
  predicate StepFits(sh: Shared, length: u16, r: Outcome)
  {
    r.Next? ==> Evolves(sh, r.sh) && JumpValid(r.sh, length) && ChannelFits(r.sh, r.ch)
  }

  /**
   * The result of processing a channel changes the context at most in the
   * samples' trigger times, and the channel fits.
   */
  predicate SampleStep(sh: Shared, r: Outcome)
  {
    r.Next? ==> r.sh == sh.(sampleTriggers := r.sh.sampleTriggers) && ChannelFits(r.sh, r.ch)
  }

  /** A step that changes the context at most in its sample table's trigger times fits. */
  lemma SampleStepFits(sh: Shared, length: u16, r: Outcome)
    requires SharedValid(sh) && JumpValid(sh, length) && SampleStep(sh, r)
    ensures StepFits(sh, length, r)
  {
  }

  /** A channel that changes none of the fields the invariant speaks about, with the context unchanged, fits. */
  lemma KeepFits(sh: Shared, ch: Channel, c: Channel)
    requires ChannelFits(sh, ch) && SameValidFields(ch, c)
    ensures SampleStep(sh, Next(sh, c))
  {
  }

  // ---------------------------------------------------------------------
  // Starting an instrument and a note
  // ---------------------------------------------------------------------

  /** Whether the note is a key-off: its bit 7 is set. */
  predicate IsKeyOff(note: u8)
  {
    note >= 128
  }

  /**
   * xm_trigger_instrument: the note is held again and the envelopes, the
   * automatic vibrato, the retrigger and tremor counters and the volume
   * offset restart; the vibrato and tremolo oscillators restart unless
   * their control parameter has bit 2 set. The trigger time is recorded on
   * the channel and on its instrument.
   */
  function TriggerInstrument(sh: Shared, ch: Channel): (r: Outcome)
    ensures r.Next?
    ensures r.ch.sustained && r.ch.volumeOffset == 0 && r.ch.autovibratoTicks == 0
    ensures r.ch.volumeEnvelopeFrameCount == 0 && r.ch.panningEnvelopeFrameCount == 0
    ensures r.ch.multiRetrigTicks == 0 && r.ch.tremorTicks == 0
    ensures r.ch.vibratoTicks == (if (ch.memory.vibratoControlParam / 4) % 2 == 0 then 0 else ch.vibratoTicks)
    ensures r.ch.tremoloTicks == (if (ch.memory.tremoloControlParam / 4) % 2 == 0 then 0 else ch.tremoloTicks)
    ensures r.ch.latestTrigger == sh.generatedSamples
    ensures r.ch == ch.(sustained := true, volumeEnvelopeFrameCount := 0, panningEnvelopeFrameCount := 0,
                        multiRetrigTicks := 0, tremorTicks := 0, autovibratoTicks := 0, volumeOffset := 0,
                        vibratoTicks := r.ch.vibratoTicks, tremoloTicks := r.ch.tremoloTicks,
                        latestTrigger := sh.generatedSamples)
    ensures ch.instrument.Some? && ch.instrument.value < |sh.instruments| ==> r.sh == RecordInstrumentTrigger(sh, ch.instrument.value)
    ensures !(ch.instrument.Some? && ch.instrument.value < |sh.instruments|) ==> r.sh == sh
  {
    var c := ch.(sustained := true, volumeEnvelopeFrameCount := 0, panningEnvelopeFrameCount := 0,
                 multiRetrigTicks := 0, tremorTicks := 0, autovibratoTicks := 0, volumeOffset := 0,
                 vibratoTicks := if (ch.memory.vibratoControlParam / 4) % 2 == 0 then 0 else ch.vibratoTicks,
                 tremoloTicks := if (ch.memory.tremoloControlParam / 4) % 2 == 0 then 0 else ch.tremoloTicks,
                 latestTrigger := sh.generatedSamples);
    if ch.instrument.Some? && ch.instrument.value < |sh.instruments| then
      Next(RecordInstrumentTrigger(sh, ch.instrument.value), c)
    else Next(sh, c)
  }

  /** The context with the trigger time of instrument `ii` set to the current time; nothing else changes. */
  function RecordInstrumentTrigger(sh: Shared, ii: nat): (sh': Shared)
    requires ii < |sh.instruments|
    ensures sh' == sh.(instrumentTriggers := sh'.instrumentTriggers)
    ensures ii in sh'.instrumentTriggers && sh'.instrumentTriggers[ii] == sh.generatedSamples
    ensures forall i :: i != ii ==> (i in sh'.instrumentTriggers <==> i in sh.instrumentTriggers)
    ensures forall i :: i != ii && i in sh.instrumentTriggers ==> sh'.instrumentTriggers[i] == sh.instrumentTriggers[i]
  {
    sh.(instrumentTriggers := sh.instrumentTriggers[ii := sh.generatedSamples])
  }

  /** The channel left silent and without instrument or sample, as after an invalid instrument number. */
  function Released(ch: Channel): (c: Channel)
    ensures c.instrument.None? && c.sample.None? && c.volume == 0 && c.origNote == ch.origNote
    ensures ChannelValid(ch) ==> ChannelValid(c)
  {
    CutNote(ch.(instrument := None, sample := None))
  }

  /** The entry of the instrument's note-to-sample table the channel's note selects (note 0 reads entry 0). */
  function NoteEntry(ch: Channel): nat
  {
    Max(0, ch.origNote - 1)
  }

  /**
   * xm_trigger_note. An instrument number of 0 or above the module's count
   * releases the channel (no instrument, no sample, volume 0); so does a
   * note mapped to a sample the instrument does not have. Otherwise the
   * mapped sample is selected, and unless the slot's note is the note
   * switch the finetune is taken from the slot's set-finetune effect or
   * the sample; for a note (shifted by the sample's relative note) in 1 to
   * 119 the period is set, the sample position restarts (at the sample
   * offset effect's position, flagged invalid past the sample's end), and
   * the trigger time is recorded on the channel and the sample.
   * `Trap` where the source traps: an instrument or sample index past its
   * table, or a finetune that overflows `Int8`.
   */
  function TriggerNote(sh: Shared, amigaPeriod: i16 -> u16, ch: Channel): (r: Outcome)
    ensures r.Next? ==> r.ch.current == ch.current && SameTables(sh, r.sh)
    ensures ch.nextInstrument == 0 || ch.nextInstrument > sh.numInstruments ==>
              r == Next(sh, ch.(instrument := None, sample := None, volume := 0))
  {
    if ch.nextInstrument == 0 || ch.nextInstrument > sh.numInstruments then Next(sh, Released(ch))
    else
      var ii := ch.nextInstrument as nat - 1;
      if ii >= |sh.instruments| then Trap
      else
        var inst := sh.instruments[ii];
        var k := NoteEntry(ch);
        if k >= |inst.sampleOfNotes| then Trap
        else if inst.sampleOfNotes[k] >= inst.numSamples then Next(sh, Released(ch))
        else
          var si := inst.samplesIndex as nat + inst.sampleOfNotes[k] as nat;
          SelectSample(sh, amigaPeriod, ch.(instrument := Some(ii), sample := Some(si)), si)
  }

  /**
   * xm_trigger_note once the sample `si` is selected: nothing more for the
   * note switch; otherwise the finetune, then, for a note in range, the
   * period and the sample start. `Trap` where the source traps.
   */
  function SelectSample(sh: Shared, amigaPeriod: i16 -> u16, ch: Channel, si: nat): (r: Outcome)
    ensures r.Trap? ==> || si >= |sh.samples|
                        || (ch.current.effectType == EffSetFinetune && ch.current.effectParam >= 72)
                        || (ch.current.effectType == EffSetSampleOffset && sh.samples[si].length * SampleMicrosteps > 0xFFFF_FFFF)
    ensures r.Next? ==> SameValidFields(ch, r.ch)
    ensures r.Next? ==> r.sh == sh || (si < |sh.samples| && r.sh == RecordSampleTrigger(sh, si))
    ensures r.Next? ==> SameTables(sh, r.sh)
  {
    if ch.current.note == NoteSwitch then Next(sh, ch)
    else if ch.current.effectType != EffSetFinetune && si >= |sh.samples| then Trap
    else if ch.current.effectType == EffSetFinetune && ch.current.effectParam * 2 - 16 >= 128 then Trap
    else
      var c := ch.(finetune := if ch.current.effectType == EffSetFinetune then ch.current.effectParam * 2 - 16
                               else sh.samples[si].finetune);
      var note := c.origNote + SampleRelativeNote(sh.samples, c);
      if note <= 0 || note >= 120 then Next(sh, c)
      else StartSample(sh, c.(period := Period(sh.amiga, amigaPeriod, 16 * (note - 1) + c.finetune)), si)
  }

  /**
   * The end of xm_trigger_note once the period is set: the sample position
   * restarts and the trigger time is recorded on the channel and the
   * sample. `Trap` where the source traps on the sample index or on the
   * 32-bit product `length * 4096`.
   */
  function StartSample(sh: Shared, ch: Channel, si: nat): (r: Outcome)
    ensures r.Trap? <==> si >= |sh.samples|
                         || (ch.current.effectType == EffSetSampleOffset && sh.samples[si].length * SampleMicrosteps > 0xFFFF_FFFF)
    ensures r.Next? ==> si < |sh.samples| && r.sh == RecordSampleTrigger(sh, si)
                        && r.ch == StartPosition(ch, sh.samples[si].length, sh.generatedSamples)
  {
    if si >= |sh.samples| then Trap
    else if ch.current.effectType == EffSetSampleOffset && sh.samples[si].length * SampleMicrosteps > 0xFFFF_FFFF then Trap
    else Next(RecordSampleTrigger(sh, si), StartPosition(ch, sh.samples[si].length, sh.generatedSamples))
  }

  /** The context with the trigger time of sample `si` set to the current time; nothing else changes. */
  function RecordSampleTrigger(sh: Shared, si: nat): (sh': Shared)
    requires si < |sh.samples|
    ensures sh' == sh.(sampleTriggers := sh'.sampleTriggers) && SameTables(sh, sh')
    ensures si in sh'.sampleTriggers && sh'.sampleTriggers[si] == sh.generatedSamples
    ensures forall i :: i != si ==> (i in sh'.sampleTriggers <==> i in sh.sampleTriggers)
    ensures forall i :: i != si && i in sh.sampleTriggers ==> sh'.sampleTriggers[i] == sh.sampleTriggers[i]
  {
    sh.(sampleTriggers := sh.sampleTriggers[si := sh.generatedSamples])
  }

  /**
   * The sample position restarts: at the sample offset effect's position
   * (its parameter times 256 samples, the parameter remembered when
   * non-zero), flagged invalid when that is past the end of a sample of
   * `length` samples, or else at 0. The glissando error and the vibrato
   * offset restart and the trigger time is `now`.
   */
  function StartPosition(ch: Channel, length: nat, now: u32): (c: Channel)
    requires !(ch.current.effectType == EffSetSampleOffset && length * SampleMicrosteps > 0xFFFF_FFFF)
    ensures SameValidFields(ch, c)
    ensures c.glissandoControlError == 0 && c.vibratoOffset == 0 && c.latestTrigger == now
    ensures ch.current.effectType == EffSetSampleOffset ==>
              && c.memory.sampleOffsetParam == (if ch.current.effectParam > 0 then ch.current.effectParam else ch.memory.sampleOffsetParam)
              && c.samplePosition as int == c.memory.sampleOffsetParam * 256 * SampleMicrosteps
              && (c.sampleOffsetInvalid <==> c.samplePosition >= length * SampleMicrosteps)
    ensures ch.current.effectType != EffSetSampleOffset ==> c.samplePosition == 0 && !c.sampleOffsetInvalid
  {
    var c :=
      if ch.current.effectType == EffSetSampleOffset then
        var param := if ch.current.effectParam > 0 then ch.current.effectParam else ch.memory.sampleOffsetParam;
        var pos := param * 256 * SampleMicrosteps;
        ch.(memory := ch.memory.(sampleOffsetParam := param), samplePosition := pos,
            sampleOffsetInvalid := pos >= length * SampleMicrosteps)
      else ch.(samplePosition := 0, sampleOffsetInvalid := false);
    c.(glissandoControlError := 0, vibratoOffset := 0, latestTrigger := now)
  }

  /** The fields the channel invariant and `ChannelFits` speak about, and the slot being played, are the same in both channels. */
  predicate SameValidFields(ch: Channel, c: Channel)
  {
    && c.current == ch.current
    && c.instrument == ch.instrument && c.sample == ch.sample && c.origNote == ch.origNote
    && c.volume == ch.volume && c.panning == ch.panning && c.fadeoutVolume == ch.fadeoutVolume
    && c.volumeEnvelopeVolume == ch.volumeEnvelopeVolume && c.panningEnvelopePanning == ch.panningEnvelopePanning
  }

  /** A channel that changes none of those fields still fits tables of the same sizes. */
  lemma FitsKept(sh: Shared, sh': Shared, ch: Channel, c: Channel)
    requires ChannelFits(sh, ch) && SameValidFields(ch, c)
    requires |sh'.instruments| == |sh.instruments| && |sh'.samples| == |sh.samples|
    ensures ChannelFits(sh', c)
  {
  }

  /** Whether the channel's next instrument exists and maps the channel's note to one of its samples. */
  predicate SelectsSample(sh: Shared, ch: Channel)
    requires SharedValid(sh) && ch.origNote <= MaxNote
  {
    && 1 <= ch.nextInstrument <= sh.numInstruments
    && var inst := sh.instruments[ch.nextInstrument - 1];
       inst.sampleOfNotes[NoteEntry(ch)] < inst.numSamples
  }

  /** The index of the sample the channel's next instrument maps its note to. */
  function SelectedSample(sh: Shared, ch: Channel): (si: nat)
    requires SharedValid(sh) && ch.origNote <= MaxNote && SelectsSample(sh, ch)
    ensures si < |sh.samples|
  {
    var inst := sh.instruments[ch.nextInstrument - 1];
    assert InstrumentValid(inst, |sh.samples|);
    inst.samplesIndex as nat + inst.sampleOfNotes[NoteEntry(ch)] as nat
  }

  /** Whether the sample the channel's note selects is too long for its end to be a 32-bit position. */
  predicate LongSampleSelected(sh: Shared, ch: Channel)
    requires SharedValid(sh) && ch.origNote <= MaxNote
  {
    SelectsSample(sh, ch) && sh.samples[SelectedSample(sh, ch)].length * SampleMicrosteps > 0xFFFF_FFFF
  }

  /**
   * A triggered note keeps the context and the channel consistent (the
   * tables change only in trigger times) and, with a valid context, it
   * traps only for a set-finetune parameter of 72 or more or for a sample
   * offset into a sample too long for 32-bit positions.
   */
  lemma TriggerNoteFits(sh: Shared, amigaPeriod: i16 -> u16, ch: Channel)
    requires SharedValid(sh) && ChannelFits(sh, ch)
    ensures var r := TriggerNote(sh, amigaPeriod, ch);
            && (r.Trap? ==> (ch.current.effectType == EffSetFinetune && ch.current.effectParam >= 72)
                            || (ch.current.effectType == EffSetSampleOffset && LongSampleSelected(sh, ch)))
            && SampleStep(sh, r)
            && (r.Next? ==> r.ch.current == ch.current)
  {
    TriggerNoteCases(sh, amigaPeriod, ch);
    if SelectsSample(sh, ch) {
      var si := SelectedSample(sh, ch);
      var c := ch.(instrument := Some(ch.nextInstrument as nat - 1), sample := Some(si));
      SelectSampleFits(sh, amigaPeriod, c, si);
      assert TriggerNote(sh, amigaPeriod, ch) == SelectSample(sh, amigaPeriod, c, si);
    } else {
      assert TriggerNote(sh, amigaPeriod, ch) == Next(sh, Released(ch));
    }
  }

  /**
   * With a valid context, xm_trigger_note either selects a sample and
   * continues with it, or releases the channel.
   */
  lemma TriggerNoteCases(sh: Shared, amigaPeriod: i16 -> u16, ch: Channel)
    requires SharedValid(sh) && ch.origNote <= MaxNote
    ensures SelectsSample(sh, ch) ==>
              TriggerNote(sh, amigaPeriod, ch)
              == SelectSample(sh, amigaPeriod, ch.(instrument := Some(ch.nextInstrument as nat - 1),
                                                 sample := Some(SelectedSample(sh, ch))), SelectedSample(sh, ch))
    ensures !SelectsSample(sh, ch) ==> TriggerNote(sh, amigaPeriod, ch) == Next(sh, Released(ch))
  {
    if 1 <= ch.nextInstrument <= sh.numInstruments {
      assert InstrumentValid(sh.instruments[ch.nextInstrument - 1], |sh.samples|);
    }
  }

  /**
   * An instrument is selected exactly when the instrument number is valid
   * and maps the note to one of the instrument's samples; then the
   * instrument and that sample are the channel's.
   */
  lemma TriggerNoteSelects(sh: Shared, amigaPeriod: i16 -> u16, ch: Channel)
    requires SharedValid(sh) && ChannelFits(sh, ch)
    requires TriggerNote(sh, amigaPeriod, ch).Next?
    ensures var c := TriggerNote(sh, amigaPeriod, ch).ch;
            && (c.instrument.Some? <==> SelectsSample(sh, ch))
            && (SelectsSample(sh, ch) ==>
                  c.instrument == Some(ch.nextInstrument as nat - 1) && c.sample == Some(SelectedSample(sh, ch)))
            && (!SelectsSample(sh, ch) ==> c == ch.(instrument := None, sample := None, volume := 0))
  {
    if SelectsSample(sh, ch) {
      TriggerNoteSelected(sh, amigaPeriod, ch);
    } else {
      TriggerNoteCases(sh, amigaPeriod, ch);
      assert TriggerNote(sh, amigaPeriod, ch).ch == Released(ch);
    }
  }

  /** A selected sample is the channel's after the trigger, with its instrument. */
  lemma TriggerNoteSelected(sh: Shared, amigaPeriod: i16 -> u16, ch: Channel)
    requires SharedValid(sh) && ChannelFits(sh, ch) && SelectsSample(sh, ch)
    requires TriggerNote(sh, amigaPeriod, ch).Next?
    ensures var c := TriggerNote(sh, amigaPeriod, ch).ch;
            c.instrument == Some(ch.nextInstrument as nat - 1) && c.sample == Some(SelectedSample(sh, ch))
  {
    TriggerNoteCases(sh, amigaPeriod, ch);
    var si := SelectedSample(sh, ch);
    var r := TriggerNote(sh, amigaPeriod, ch);
    assert SameValidFields(ch.(instrument := Some(ch.nextInstrument as nat - 1), sample := Some(si)), r.ch);
  }

  /** After the sample is selected: the instrument and sample stay, and only the finetune or the sample start can trap. */
  lemma SelectSampleFits(sh: Shared, amigaPeriod: i16 -> u16, ch: Channel, si: nat)
    requires SharedValid(sh) && ChannelFits(sh, ch) && ch.sample == Some(si)
    ensures var r := SelectSample(sh, amigaPeriod, ch, si);
            && (r.Trap? ==> (ch.current.effectType == EffSetFinetune && ch.current.effectParam >= 72)
                            || (ch.current.effectType == EffSetSampleOffset
                                && sh.samples[si].length * SampleMicrosteps > 0xFFFF_FFFF))
            && SampleStep(sh, r)
  {
    var r := SelectSample(sh, amigaPeriod, ch, si);
    if r.Next? {
      FitsKept(sh, r.sh, ch, r.ch);
    }
  }

  // ---------------------------------------------------------------------
  // Multi-retrigger
  // ---------------------------------------------------------------------

  /**
   * xm_multi_retrig_note: the parameter is remembered nibble by nibble;
   * on the first tick of a slot with a volume column nothing else
   * happens. Otherwise the retrigger counter advances and, once it reaches
   * the interval (low nibble), restarts at 0 and the note is triggered
   * again; unless the volume column sets the volume, the volume is then
   * changed by the high nibble's rule (see `RetrigVolume`).
   */
  function MultiRetrig(sh: Shared, amigaPeriod: i16 -> u16, ch: Channel): (r: Outcome)
    ensures var c := ch.(memory := ch.memory.(multiRetrigParam := UpdateEffectMemoryXY(ch.memory.multiRetrigParam, ch.current.effectParam)));
            && (ch.current.volumeColumn != 0 && sh.currentTick == 0 ==> r == Next(sh, c))
            && (!(ch.current.volumeColumn != 0 && sh.currentTick == 0) ==> r == RetrigCount(sh, amigaPeriod, c))
  {
    var c := ch.(memory := ch.memory.(multiRetrigParam := UpdateEffectMemoryXY(ch.memory.multiRetrigParam, ch.current.effectParam)));
    if c.current.volumeColumn != 0 && sh.currentTick == 0 then Next(sh, c)
    else RetrigCount(sh, amigaPeriod, c)
  }

  /**
   * The counting part of xm_multi_retrig_note: the counter advances and,
   * once it reaches the interval (the parameter's low nibble), restarts
   * at 0 and the note is retriggered.
   */
  function RetrigCount(sh: Shared, amigaPeriod: i16 -> u16, ch: Channel): (r: Outcome)
    ensures Wrap8(ch.multiRetrigTicks + 1) < ch.memory.multiRetrigParam % 16 ==>
              r == Next(sh, ch.(multiRetrigTicks := Wrap8(ch.multiRetrigTicks + 1)))
    ensures Wrap8(ch.multiRetrigTicks + 1) >= ch.memory.multiRetrigParam % 16 ==>
              r == Retrigger(sh, amigaPeriod, ch.(multiRetrigTicks := 0))
  {
    var c := ch.(multiRetrigTicks := Wrap8(ch.multiRetrigTicks + 1));
    if c.multiRetrigTicks < c.memory.multiRetrigParam % 16 then Next(sh, c)
    else Retrigger(sh, amigaPeriod, c.(multiRetrigTicks := 0))
  }

  /**
   * The retrigger of xm_multi_retrig_note: the note is triggered again and,
   * unless the volume column sets the volume, the volume changes by the
   * rule the parameter's high nibble selects.
   */
  function Retrigger(sh: Shared, amigaPeriod: i16 -> u16, ch: Channel): (r: Outcome)
    ensures r.Trap? <==> TriggerNote(sh, amigaPeriod, ch).Trap?
    ensures r.Next? ==> r.ch.current == ch.current && SameTables(sh, r.sh)
  {
    var t := TriggerNote(sh, amigaPeriod, ch);
    if t.Trap? then Trap
    else if SetsVolume(t.ch.current.volumeColumn) then t
    else Next(t.sh, t.ch.(volume := RetrigVolume(t.ch.volume, t.ch.memory.multiRetrigParam / 16)))
  }

  /** Whether a volume column sets the volume: 0x10 to 0x50 stand for 0 to 64. */
  predicate SetsVolume(vc: u8)
  {
    0x10 <= vc <= 0x50
  }

  /** A multi-retrigger keeps the context and the channel consistent, and traps only where the triggered note does. */
  lemma MultiRetrigFits(sh: Shared, amigaPeriod: i16 -> u16, ch: Channel)
    requires SharedValid(sh) && ChannelFits(sh, ch)
    ensures SampleStep(sh, MultiRetrig(sh, amigaPeriod, ch))
  {
    var c := ch.(memory := ch.memory.(multiRetrigParam := UpdateEffectMemoryXY(ch.memory.multiRetrigParam, ch.current.effectParam)));
    if ch.current.volumeColumn != 0 && sh.currentTick == 0 {
      KeepFits(sh, ch, c);
    } else {
      FitsKept(sh, sh, ch, c);
      RetrigCountFits(sh, amigaPeriod, c);
    }
  }

  /** Counting towards a retrigger keeps the context and the channel consistent. */
  lemma RetrigCountFits(sh: Shared, amigaPeriod: i16 -> u16, ch: Channel)
    requires SharedValid(sh) && ChannelFits(sh, ch)
    ensures SampleStep(sh, RetrigCount(sh, amigaPeriod, ch))
  {
    if Wrap8(ch.multiRetrigTicks + 1) < ch.memory.multiRetrigParam % 16 {
      RetrigWaitFits(sh, ch, Wrap8(ch.multiRetrigTicks + 1));
      assert RetrigCount(sh, amigaPeriod, ch) == Next(sh, ch.(multiRetrigTicks := Wrap8(ch.multiRetrigTicks + 1)));
    } else {
      RetrigFireFits(sh, amigaPeriod, ch);
    }
  }

  /** Before the interval is reached only the counter changes. */
  lemma RetrigWaitFits(sh: Shared, ch: Channel, ticks: u8)
    requires ChannelFits(sh, ch)
    ensures SampleStep(sh, Next(sh, ch.(multiRetrigTicks := ticks)))
  {
  }

  /** Once it is reached the note is retriggered. */
  lemma RetrigFireFits(sh: Shared, amigaPeriod: i16 -> u16, ch: Channel)
    requires SharedValid(sh) && ChannelFits(sh, ch)
    requires Wrap8(ch.multiRetrigTicks + 1) >= ch.memory.multiRetrigParam % 16
    ensures SampleStep(sh, RetrigCount(sh, amigaPeriod, ch))
  {
    FitsKept(sh, sh, ch, ch.(multiRetrigTicks := 0));
    RetriggerFits(sh, amigaPeriod, ch.(multiRetrigTicks := 0));
  }

  /** A retrigger keeps the context and the channel consistent. */
  lemma RetriggerFits(sh: Shared, amigaPeriod: i16 -> u16, ch: Channel)
    requires SharedValid(sh) && ChannelFits(sh, ch)
    ensures SampleStep(sh, Retrigger(sh, amigaPeriod, ch))
  {
    var t := TriggerNote(sh, amigaPeriod, ch);
    TriggerNoteFits(sh, amigaPeriod, ch);
    if t.Next? && !SetsVolume(t.ch.current.volumeColumn) {
      var v := t.ch.(volume := RetrigVolume(t.ch.volume, t.ch.memory.multiRetrigParam / 16));
      assert Retrigger(sh, amigaPeriod, ch) == Next(t.sh, v);
    }
  }

  // ---------------------------------------------------------------------
  // Reading a pattern slot
  // ---------------------------------------------------------------------

  /**
   * The note part of xm_handle_pattern_slot: a slot instrument becomes the
   * next instrument; a key-off releases the note; a note 1 to 96 either
   * sets the tone portamento target (when the slot slides to it) or
   * becomes the channel's note and is triggered; any other non-zero note
   * triggers the current note again. `Trap` where the source traps.
   */
  function SlotNote(sh: Shared, amigaPeriod: i16 -> u16, ch: Channel): (r: Outcome)
    ensures r.Next? ==> SameTables(sh, r.sh)
    ensures var s := ch.current;
            var c := WithNextInstrument(ch);
            && (s.note == 0 ==> r == Next(sh, c))
            && (IsKeyOff(s.note) && (c.instrument.Some? ==> c.instrument.value < |sh.instruments|) ==>
                  r == Next(sh, KeyOff(sh.instruments, c)))
            && (0 < s.note <= MaxNote && SlotHasTonePortamento(s) ==>
                  r == Next(sh, TonePortamentoTarget(sh.samples, sh.amiga, amigaPeriod, c)))
            && (0 < s.note <= MaxNote && !SlotHasTonePortamento(s) ==>
                  r == TriggerNote(sh, amigaPeriod, c.(origNote := s.note)))
            && (MaxNote < s.note && !IsKeyOff(s.note) ==> r == TriggerNote(sh, amigaPeriod, c))
  {
    var s := ch.current;
    var c := WithNextInstrument(ch);
    if IsKeyOff(s.note) then KeyOffIn(sh, c)
    else if s.note == 0 then Next(sh, c)
    else if s.note <= MaxNote then
      if SlotHasTonePortamento(s) then Next(sh, TonePortamentoTarget(sh.samples, sh.amiga, amigaPeriod, c))
      else TriggerNote(sh, amigaPeriod, c.(origNote := s.note))
    else TriggerNote(sh, amigaPeriod, c)
  }

  /** xm_key_off on the context's instrument table: `Trap` when the channel's instrument is past its end. */
  function KeyOffIn(sh: Shared, ch: Channel): (r: Outcome)
    ensures r.Trap? <==> ch.instrument.Some? && ch.instrument.value >= |sh.instruments|
    ensures r.Next? ==> r == Next(sh, KeyOff(sh.instruments, ch))
  {
    if ch.instrument.Some? && ch.instrument.value >= |sh.instruments| then Trap
    else Next(sh, KeyOff(sh.instruments, ch))
  }

  /**
   * The instrument part of xm_handle_pattern_slot: with an instrument in
   * the slot the channel takes its sample's default volume and panning
   * and, unless the note is a key-off, the instrument is triggered.
   */
  function SlotInstrument(sh: Shared, ch: Channel): (r: Outcome)
    ensures r.Next? ==> SameTables(sh, r.sh)
    ensures r.Trap? <==> ch.current.instrument != 0 && ch.sample.Some? && ch.sample.value >= |sh.samples|
    ensures ch.current.instrument == 0 ==> r == Next(sh, ch)
    ensures r.Next? && ch.current.instrument != 0 && ch.sample.Some? ==>
              r.ch.panning == sh.samples[ch.sample.value].panning
              && r.ch.volume == sh.samples[ch.sample.value].volume
    ensures r.Next? && ch.current.instrument != 0 && !IsKeyOff(ch.current.note) ==> r.ch.sustained
  {
    if ch.current.instrument == 0 then Next(sh, ch)
    else if ch.sample.Some? && ch.sample.value >= |sh.samples| then Trap
    else
      var c := SampleDefaults(sh, ch);
      if IsKeyOff(ch.current.note) then Next(sh, c) else TriggerInstrument(sh, c)
  }

  /** The channel with its sample's default volume and panning, when it has a sample. */
  function SampleDefaults(sh: Shared, ch: Channel): (c: Channel)
    requires ch.sample.Some? ==> ch.sample.value < |sh.samples|
  {
    if ch.sample.Some? then ch.(volume := sh.samples[ch.sample.value].volume,
                                panning := sh.samples[ch.sample.value].panning)
    else ch
  }

  /**
   * The volume column part of xm_handle_pattern_slot: 0x10 to 0x50 set the
   * volume to 0 to 64; 0xCx sets the panning to 16x; 0xFx with x > 0 sets
   * the tone portamento speed to 16x. Without a volume column portamento,
   * a tone portamento effect with a non-zero parameter sets the speed.
   */
  function SlotVolumeColumn(ch: Channel): (r: Channel)
    ensures var vc := ch.current.volumeColumn;
            && (SetsVolume(vc) ==> r.volume == vc - 0x10 && r.volumeOffset == 0)
            && (!SetsVolume(vc) ==> r.volume == ch.volume && r.volumeOffset == ch.volumeOffset)
            && r.panning == (if vc / 16 == VolSetPanning then (vc % 16) * 16 else ch.panning)
            && (vc / 16 == VolTonePortamento && vc % 16 != 0 ==> r.memory.tonePortamentoParam == (vc % 16) * 16)
            && (vc / 16 != VolTonePortamento && ch.current.effectType == EffTonePortamento && ch.current.effectParam > 0 ==>
                  r.memory.tonePortamentoParam == ch.current.effectParam)
    ensures && r.instrument == ch.instrument && r.sample == ch.sample && r.origNote == ch.origNote
            && r.fadeoutVolume == ch.fadeoutVolume && r.volumeEnvelopeVolume == ch.volumeEnvelopeVolume
            && r.panningEnvelopePanning == ch.panningEnvelopePanning && r.period == ch.period
            && r.current == ch.current
  {
    var vc := ch.current.volumeColumn;
    ch.(volume := VolumeColumnVolume(vc, ch.volume),
        volumeOffset := if SetsVolume(vc) then 0 else ch.volumeOffset,
        panning := VolumeColumnPanning(vc, ch.panning),
        memory := VolumeColumnMemory(ch))
  }

  /** The volume a volume column leaves: the value it sets, or the old volume. */
  function VolumeColumnVolume(vc: u8, volume: u8): u8
  {
    if SetsVolume(vc) then vc - 0x10 else volume
  }

  /** The panning a volume column leaves: the value 0xCx sets, or the old panning. */
  function VolumeColumnPanning(vc: u8, panning: u16): u16
  {
    if vc / 16 == VolSetPanning then (vc % 16) * 0x10 else panning
  }

  /** The tone portamento speed remembered after the volume column and the effect of a slot. */
  function VolumeColumnMemory(ch: Channel): EffectMemory
  {
    var vc := ch.current.volumeColumn;
    ch.memory.(tonePortamentoParam :=
      if vc / 16 == VolTonePortamento then (if vc % 16 != 0 then Wrap8(vc * 16) else ch.memory.tonePortamentoParam)
      else if ch.current.effectType == EffTonePortamento && ch.current.effectParam > 0 then ch.current.effectParam
      else ch.memory.tonePortamentoParam)
  }

  /**
   * The effect part of xm_handle_pattern_slot: the effects that act on the
   * first tick of a row. Multi-retrigger and the pattern loop are the
   * parts above and below; the fine pitch slides, the effects on the song
   * position, tempo and global volume, and the effects on the channel alone
   * are the three functions that follow. `Trap` where the source traps.
   */
  function SlotEffect(sh: Shared, amigaPeriod: i16 -> u16, ch: Channel): (r: Outcome)
    ensures r.Trap? ==> MayTrapOnFirstTick(ch.current.effectType)
    ensures r.Next? && !ChangesContextOnFirstTick(ch.current.effectType) ==> r.sh == sh
    ensures r.Next? ==> r.ch.current == ch.current && SameTables(sh, r.sh)
  {
    var e := ch.current.effectType;
    if e == EffMultiRetrigNote then MultiRetrig(sh, amigaPeriod, ch)
    else if e == EffPatternLoop then PatternLoop(sh, ch)
    else if IsFinePortamento(e) then WithChannel(sh, FinePortamento(ch))
    else if ChangesContextOnFirstTick(e) then Next(ContextEffect(sh, ch.current), ch)
    else Next(sh, ChannelEffect(ch))
  }

  /** The four fine pitch slides: extra fine (X1x, X2x) and fine (E1x, E2x). */
  predicate IsFinePortamento(e: u8)
  {
    e in {EffExtraFinePortamentoUp, EffExtraFinePortamentoDown, EffFinePortamentoUp, EffFinePortamentoDown}
  }

  /**
   * The fine pitch slides: the parameter is remembered as the next
   * function says, and the period moves by the remembered amount, up for
   * the "up" effects and down for the others. `None` when the source's
   * period conversion traps.
   */
  function FinePortamento(ch: Channel): (r: Option<Channel>)
    requires IsFinePortamento(ch.current.effectType)
    ensures r.Some? ==> r.value.period >= 1
    ensures r.Some? ==> r.value.glissandoControlError == 0 && r.value.vibratoOffset == 0
    ensures r.Some? ==> SameValidFields(ch, r.value)
  {
    var c := FineSlideMemory(ch);
    var e := ch.current.effectType;
    if e == EffExtraFinePortamentoUp then PitchSlide(c, -(c.memory.extraFinePortamentoUpParam as int))
    else if e == EffExtraFinePortamentoDown then PitchSlide(c, c.memory.extraFinePortamentoDownParam)
    else if e == EffFinePortamentoUp then PitchSlide(c, -(c.memory.finePortamentoUpParam as int))
    else PitchSlide(c, c.memory.finePortamentoDownParam)
  }

  /**
   * What a fine pitch slide remembers: a non-zero parameter, four times it
   * in 8 bits for the fine slides; the extra fine slide up remembers its
   * parameter only when the low nibble is non-zero.
   */
  function FineSlideMemory(ch: Channel): (c: Channel)
    requires IsFinePortamento(ch.current.effectType)
    ensures SameValidFields(ch, c)
    ensures var e := ch.current.effectType;
            var p := ch.current.effectParam;
            && (e == EffExtraFinePortamentoUp ==>
                  c.memory.extraFinePortamentoUpParam == if p % 16 != 0 then p else ch.memory.extraFinePortamentoUpParam)
            && (e == EffFinePortamentoUp && p != 0 ==> c.memory.finePortamentoUpParam == (4 * p) % 256)
  {
    var e := ch.current.effectType;
    var p := ch.current.effectParam;
    if e == EffExtraFinePortamentoUp then
      if p % 16 != 0 then ch.(memory := ch.memory.(extraFinePortamentoUpParam := p)) else ch
    else if e == EffExtraFinePortamentoDown then
      if p != 0 then ch.(memory := ch.memory.(extraFinePortamentoDownParam := p)) else ch
    else if e == EffFinePortamentoUp then
      if p != 0 then ch.(memory := ch.memory.(finePortamentoUpParam := Wrap8(p * 4))) else ch
    else
      if p != 0 then ch.(memory := ch.memory.(finePortamentoDownParam := Wrap8(p * 4))) else ch
  }

  /**
   * The first-tick effects on the song position, the speed and the global
   * volume: a position jump to the order entry in the parameter (row 0), a
   * pattern break to the row `BreakRow` reads from the parameter, the
   * tempo, the BPM, the global volume and the pattern delay. Nothing else
   * of the context changes.
   */
  function ContextEffect(sh: Shared, s: Slot): (r: Shared)
    ensures s.effectType == EffJumpToOrder ==> r.positionJump && r.jumpDest == s.effectParam && r.jumpRow == 0
    ensures s.effectType == EffPatternBreak ==> r.patternBreak && r.jumpRow == BreakRow(s.effectParam)
    ensures r.globalVolume == (if s.effectType == EffSetGlobalVolume then s.effectParam else sh.globalVolume)
    ensures s.effectType != EffJumpToOrder ==> r.positionJump == sh.positionJump && r.jumpDest == sh.jumpDest
    ensures r == sh.(positionJump := r.positionJump, jumpDest := r.jumpDest, jumpRow := r.jumpRow,
                     patternBreak := r.patternBreak, currentTempo := r.currentTempo,
                     currentBpm := r.currentBpm, globalVolume := r.globalVolume, extraRows := r.extraRows)
  {
    var p := s.effectParam;
    var e := s.effectType;
    if e == EffJumpToOrder then sh.(positionJump := true, jumpDest := p, jumpRow := 0)
    else if e == EffPatternBreak then sh.(patternBreak := true, jumpRow := BreakRow(p))
    else if e == EffSetTempo then sh.(currentTempo := p)
    else if e == EffSetBpm then sh.(currentBpm := p)
    else if e == EffSetGlobalVolume then sh.(globalVolume := p)
    else if e == EffDelayPattern then sh.(extraRows := p)
    else sh
  }

  /**
   * The effect memory after the first-tick channel effects: a fine volume
   * slide with a nonzero parameter replaces the memory of its direction
   * (the slide up remembers sixteen times its parameter, so that it is an
   * upward `ParamSlide`), and the glissando, vibrato and tremolo control
   * effects store their parameter.
   */
  function ChannelEffectMemory(ch: Channel): EffectMemory
  {
    var p := ch.current.effectParam;
    var e := ch.current.effectType;
    var m := ch.memory;
    m.(fineVolumeSlideUpParam := if e == EffFineVolumeSlideUp && p != 0 then Wrap8(p * 16) else m.fineVolumeSlideUpParam,
       fineVolumeSlideDownParam := if e == EffFineVolumeSlideDown && p != 0 then p else m.fineVolumeSlideDownParam,
       glissandoControlParam := if e == EffSetGlissandoControl then p else m.glissandoControlParam,
       vibratoControlParam := if e == EffSetVibratoControl then p else m.vibratoControlParam,
       tremoloControlParam := if e == EffSetTremoloControl then p else m.tremoloControlParam)
  }

  /** The effects that set the volume directly: set volume and the two fine volume slides. */
  predicate IsVolumeEffect(e: u8)
  {
    e == EffSetVolume || e == EffFineVolumeSlideUp || e == EffFineVolumeSlideDown
  }

  /** The volume after the first-tick volume effects: set, or a fine slide up or down by the remembered parameter. */
  function EffectVolume(ch: Channel): (v: u8)
    ensures ch.volume <= MaxVolume && (ch.current.effectType == EffSetVolume ==> ch.current.effectParam <= MaxVolume)
            ==> v <= MaxVolume
  {
    var e := ch.current.effectType;
    var m := ChannelEffectMemory(ch);
    if e == EffSetVolume then ch.current.effectParam
    else if e == EffFineVolumeSlideUp then ParamSlide(ch.volume, m.fineVolumeSlideUpParam, MaxVolume)
    else if e == EffFineVolumeSlideDown then ParamSlide(ch.volume, m.fineVolumeSlideDownParam, MaxVolume)
    else ch.volume
  }

  /** The envelope frame counter after the first-tick effects: set envelope position moves it to the parameter. */
  function EffectEnvelopeFrame(s: Slot, frame: u16): u16
  {
    if s.effectType == EffSetEnvelopePosition then s.effectParam else frame
  }

  /**
   * The first-tick effects on the channel alone: set the volume and fine
   * volume slides (which also clear the tremolo offset), set the panning,
   * set both envelope positions, and store the glissando, vibrato and
   * tremolo controls.
   */
  function ChannelEffect(ch: Channel): (r: Channel)
    ensures ch.volume <= MaxVolume && (ch.current.effectType == EffSetVolume ==> ch.current.effectParam <= MaxVolume)
            ==> r.volume <= MaxVolume
    ensures r.panning == (if ch.current.effectType == EffSetPanning then ch.current.effectParam else ch.panning)
    ensures && r.instrument == ch.instrument && r.sample == ch.sample && r.origNote == ch.origNote
            && r.fadeoutVolume == ch.fadeoutVolume && r.volumeEnvelopeVolume == ch.volumeEnvelopeVolume
            && r.panningEnvelopePanning == ch.panningEnvelopePanning && r.period == ch.period
  {
    ch.(volume := EffectVolume(ch),
        volumeOffset := if IsVolumeEffect(ch.current.effectType) then 0 else ch.volumeOffset,
        panning := if ch.current.effectType == EffSetPanning then ch.current.effectParam else ch.panning,
        volumeEnvelopeFrameCount := EffectEnvelopeFrame(ch.current, ch.volumeEnvelopeFrameCount),
        panningEnvelopeFrameCount := EffectEnvelopeFrame(ch.current, ch.panningEnvelopeFrameCount),
        memory := ChannelEffectMemory(ch))
  }

  /** The first-tick effects that can trap: those that retrigger, slide the pitch or loop the pattern. */
  predicate MayTrapOnFirstTick(e: u8)
  {
    e in {EffMultiRetrigNote, EffPatternLoop, EffExtraFinePortamentoUp, EffExtraFinePortamentoDown,
          EffFinePortamentoUp, EffFinePortamentoDown}
  }

  /** The first-tick effects that change the shared context. */
  predicate ChangesContextOnFirstTick(e: u8)
  {
    e in {EffJumpToOrder, EffPatternBreak, EffSetTempo, EffSetBpm, EffSetGlobalVolume,
          EffMultiRetrigNote, EffPatternLoop, EffDelayPattern}
  }

  /** A channel result paired with an unchanged shared context. */
  function WithChannel(sh: Shared, c: Option<Channel>): (r: Outcome)
    ensures r.Next? <==> c.Some?
    ensures r.Next? ==> r.sh == sh && r.ch == c.value
  {
    if c.None? then Trap else Next(sh, c.value)
  }

  /**
   * The row a pattern break jumps to: the parameter read as two decimal
   * digits, `p - 6 * (p >> 4)`, in wrapping 8-bit arithmetic.
   */
  function BreakRow(p: u8): (r: u8)
    ensures p / 16 < 10 && p % 16 < 10 ==> r == 10 * (p / 16) + p % 16
  {
    Wrap8(p - Wrap8((p / 16) * 6))
  }

  /**
   * The pattern loop effect (E6x): with x = 0 the current row becomes the
   * loop origin (and the row to jump to); otherwise the loop counter
   * counts up to x, each time requesting a jump back to the origin in the
   * current order entry, and resets once it reaches x. `Trap` when the
   * order index does not fit the source's `UInt8` conversion.
   */
  function PatternLoop(sh: Shared, ch: Channel): (r: Outcome)
    ensures r.Trap? <==> ch.current.effectParam != 0 && ch.current.effectParam != ch.patternLoopCount
                         && sh.currentTableIndex >= 256
    ensures ch.current.effectParam == 0 ==>
              r == Next(sh.(jumpRow := sh.currentRow), ch.(patternLoopOrigin := sh.currentRow))
    ensures ch.current.effectParam != 0 && ch.current.effectParam == ch.patternLoopCount ==>
              r == Next(sh, ch.(patternLoopCount := 0))
    ensures r.Next? && ch.current.effectParam != 0 && ch.current.effectParam != ch.patternLoopCount ==>
              && r.sh == sh.(positionJump := true, jumpRow := ch.patternLoopOrigin, jumpDest := sh.currentTableIndex)
              && r.ch == ch.(patternLoopCount := (ch.patternLoopCount + 1) % 256)
  {
    var p := ch.current.effectParam;
    if p != 0 then
      if p == ch.patternLoopCount then Next(sh, ch.(patternLoopCount := 0))
      else if sh.currentTableIndex >= 256 then Trap
      else
        Next(sh.(positionJump := true, jumpRow := ch.patternLoopOrigin, jumpDest := sh.currentTableIndex),
                  ch.(patternLoopCount := Wrap8(ch.patternLoopCount + 1)))
    else Next(sh.(jumpRow := sh.currentRow), ch.(patternLoopOrigin := sh.currentRow))
  }

  /**
   * xm_handle_pattern_slot: the note, then the instrument, then the volume
   * column, then the effect, each as the part above describes.
   */
  function HandlePatternSlot(sh: Shared, amigaPeriod: i16 -> u16, ch: Channel): (r: Outcome)
    ensures r.Next? ==> SameTables(sh, r.sh)
  {
    var n := SlotNote(sh, amigaPeriod, ch);
    if n.Trap? then Trap
    else
      var i := SlotInstrument(n.sh, n.ch);
      if i.Trap? then Trap
      else SlotEffect(i.sh, amigaPeriod, SlotVolumeColumn(i.ch))
  }

  /**
   * The first-tick effects keep a consistent context consistent: set
   * volume and set global volume stay in range because a loaded slot's
   * parameter is at most 64, and a requested jump goes to an order entry
   * because a loaded jump's parameter is one and a pattern loop jumps to
   * the current entry.
   */
  lemma SlotEffectFits(sh: Shared, amigaPeriod: i16 -> u16, ch: Channel, length: u16)
    requires SharedValid(sh) && ChannelFits(sh, ch) && SlotNormal(ch.current, length)
    requires 0 < length && sh.currentTableIndex < length && JumpValid(sh, length)
    ensures StepFits(sh, length, SlotEffect(sh, amigaPeriod, ch))
  {
    var e := ch.current.effectType;
    if e == EffMultiRetrigNote {
      MultiRetrigFits(sh, amigaPeriod, ch);
      SampleStepFits(sh, length, MultiRetrig(sh, amigaPeriod, ch));
    } else if e == EffPatternLoop {
      PatternLoopFits(sh, ch, length);
    } else if IsFinePortamento(e) {
      var c := FinePortamento(ch);
      if c.Some? {
        FitsKept(sh, sh, ch, c.value);
      }
    } else if ChangesContextOnFirstTick(e) {
      ContextEffectFits(sh, ch, length);
    } else {
      ChannelEffectFits(sh, ch);
    }
  }

  /** The pattern loop jumps, if at all, to the current order entry. */
  lemma PatternLoopFits(sh: Shared, ch: Channel, length: u16)
    requires ChannelFits(sh, ch) && sh.globalVolume <= MaxVolume
    requires sh.currentTableIndex < length && JumpValid(sh, length)
    ensures StepFits(sh, length, PatternLoop(sh, ch))
  {
    var p := ch.current.effectParam;
    if p == 0 {
      LoopOriginFits(sh, ch, length);
    } else if p == ch.patternLoopCount {
      LoopDoneFits(sh, ch, length);
    } else if sh.currentTableIndex < 256 {
      LoopBackFits(sh, ch, length);
    }
  }

  /** Setting the loop origin keeps the context consistent. */
  lemma LoopOriginFits(sh: Shared, ch: Channel, length: u16)
    requires ChannelFits(sh, ch) && sh.globalVolume <= MaxVolume && JumpValid(sh, length)
    ensures StepFits(sh, length, Next(sh.(jumpRow := sh.currentRow), ch.(patternLoopOrigin := sh.currentRow)))
  {
  }

  /** Ending a loop keeps the context consistent. */
  lemma LoopDoneFits(sh: Shared, ch: Channel, length: u16)
    requires ChannelFits(sh, ch) && sh.globalVolume <= MaxVolume && JumpValid(sh, length)
    ensures StepFits(sh, length, Next(sh, ch.(patternLoopCount := 0)))
  {
  }

  /** Jumping back to the loop origin in the current order entry keeps the context consistent. */
  lemma LoopBackFits(sh: Shared, ch: Channel, length: u16)
    requires ChannelFits(sh, ch) && sh.globalVolume <= MaxVolume
    requires sh.currentTableIndex < length && sh.currentTableIndex < 256
    ensures StepFits(sh, length,
                     Next(sh.(positionJump := true, jumpRow := ch.patternLoopOrigin, jumpDest := sh.currentTableIndex),
                          ch.(patternLoopCount := Wrap8(ch.patternLoopCount + 1))))
  {
  }

  /**
   * The effects on the song position, the speed and the global volume
   * keep the tables, keep the global volume in range and jump only to an
   * entry of the order table.
   */
  lemma ContextEffectFits(sh: Shared, ch: Channel, length: u16)
    requires SharedValid(sh) && ChannelFits(sh, ch) && SlotNormal(ch.current, length)
    requires 0 < length && JumpValid(sh, length)
    ensures var r := ContextEffect(sh, ch.current);
            Evolves(sh, r) && JumpValid(r, length) && ChannelFits(r, ch)
  {
  }

  /** The effects on the channel alone keep the channel invariant. */
  lemma ChannelEffectFits(sh: Shared, ch: Channel)
    requires ChannelFits(sh, ch)
    requires ch.current.effectType == EffSetVolume ==> ch.current.effectParam <= MaxVolume
    ensures ChannelFits(sh, ChannelEffect(ch))
  {
  }

  /** A step that fits, and in which the channel still plays the slot `s`. */
  predicate SlotStep(sh: Shared, length: u16, s: Slot, r: Outcome)
  {
    StepFits(sh, length, r) && (r.Next? ==> r.ch.current == s)
  }

  /**
   * Reading a pattern slot keeps a consistent context consistent: its
   * tables, flags, time and song position stay, the global volume stays in
   * range, a requested jump goes to an entry of the order table, and the
   * channel fits the tables and still plays the slot.
   */
  lemma HandlePatternSlotFits(sh: Shared, amigaPeriod: i16 -> u16, ch: Channel, length: u16)
    requires SharedValid(sh) && ChannelFits(sh, ch) && SlotNormal(ch.current, length)
    requires 0 < length && sh.currentTableIndex < length && JumpValid(sh, length)
    ensures SlotStep(sh, length, ch.current, HandlePatternSlot(sh, amigaPeriod, ch))
  {
    var n := SlotNote(sh, amigaPeriod, ch);
    SlotNoteFits(sh, amigaPeriod, ch, length);
    if n.Next? {
      var i := SlotInstrument(n.sh, n.ch);
      SlotInstrumentFits(n.sh, n.ch, length);
      if i.Next? {
        var v := SlotVolumeColumn(i.ch);
        SlotEffectFits(i.sh, amigaPeriod, v, length);
        assert HandlePatternSlot(sh, amigaPeriod, ch) == SlotEffect(i.sh, amigaPeriod, v);
      }
    }
  }

  /** The note part keeps the context consistent and the channel fitting. */
  lemma SlotNoteFits(sh: Shared, amigaPeriod: i16 -> u16, ch: Channel, length: u16)
    requires SharedValid(sh) && ChannelFits(sh, ch) && JumpValid(sh, length)
    ensures SlotStep(sh, length, ch.current, SlotNote(sh, amigaPeriod, ch))
  {
    var s := ch.current;
    if IsKeyOff(s.note) {
      SlotNoteKeyOffFits(sh, amigaPeriod, ch, length);
    } else if s.note == 0 || (s.note <= MaxNote && SlotHasTonePortamento(s)) {
      SlotNoteKeepsFits(sh, amigaPeriod, ch, length);
    } else {
      SlotNoteTriggerFits(sh, amigaPeriod, ch, length);
    }
  }

  /** The channel after the slot's instrument number, if any, became the next instrument. */
  function WithNextInstrument(ch: Channel): (c: Channel)
    ensures SameValidFields(ch, c)
  {
    if ch.current.instrument != 0 then ch.(nextInstrument := ch.current.instrument) else ch
  }

  /** A key-off note releases the channel. */
  lemma SlotNoteKeyOffFits(sh: Shared, amigaPeriod: i16 -> u16, ch: Channel, length: u16)
    requires SharedValid(sh) && ChannelFits(sh, ch) && JumpValid(sh, length) && IsKeyOff(ch.current.note)
    ensures SlotStep(sh, length, ch.current, SlotNote(sh, amigaPeriod, ch))
  {
    var c := WithNextInstrument(ch);
    assert SlotNote(sh, amigaPeriod, ch) == Next(sh, KeyOff(sh.instruments, c));
    KeyOffFits(sh, c, length);
  }

  /** No note, or a tone portamento target, leaves the fields the invariant speaks about alone. */
  lemma SlotNoteKeepsFits(sh: Shared, amigaPeriod: i16 -> u16, ch: Channel, length: u16)
    requires SharedValid(sh) && ChannelFits(sh, ch) && JumpValid(sh, length)
    requires ch.current.note == 0 || (0 < ch.current.note <= MaxNote && SlotHasTonePortamento(ch.current))
    ensures SlotStep(sh, length, ch.current, SlotNote(sh, amigaPeriod, ch))
  {
    var c := WithNextInstrument(ch);
    if ch.current.note == 0 {
      assert SlotNote(sh, amigaPeriod, ch) == Next(sh, c);
      KeepFits(sh, c, c);
    } else {
      var t := TonePortamentoTarget(sh.samples, sh.amiga, amigaPeriod, c);
      assert SlotNote(sh, amigaPeriod, ch) == Next(sh, t);
      KeepFits(sh, c, t);
    }
  }

  /** Any other note triggers the note. */
  lemma SlotNoteTriggerFits(sh: Shared, amigaPeriod: i16 -> u16, ch: Channel, length: u16)
    requires SharedValid(sh) && ChannelFits(sh, ch) && JumpValid(sh, length)
    requires ch.current.note != 0 && !IsKeyOff(ch.current.note)
    requires !(ch.current.note <= MaxNote && SlotHasTonePortamento(ch.current))
    ensures SlotStep(sh, length, ch.current, SlotNote(sh, amigaPeriod, ch))
  {
    var c := WithNextInstrument(ch);
    var t := if ch.current.note <= MaxNote then c.(origNote := ch.current.note) else c;
    assert SlotNote(sh, amigaPeriod, ch) == TriggerNote(sh, amigaPeriod, t);
    TriggerNoteFits(sh, amigaPeriod, t);
    SampleStepFits(sh, length, TriggerNote(sh, amigaPeriod, t));
  }

  /** A key-off in the slot keeps the context and the channel fitting. */
  lemma KeyOffFits(sh: Shared, ch: Channel, length: u16)
    requires SharedValid(sh) && ChannelFits(sh, ch) && JumpValid(sh, length)
    ensures SlotStep(sh, length, ch.current, Next(sh, KeyOff(sh.instruments, ch)))
  {
  }

  /** The instrument part keeps the context consistent and the channel fitting. */
  lemma SlotInstrumentFits(sh: Shared, ch: Channel, length: u16)
    requires SharedValid(sh) && ChannelFits(sh, ch) && JumpValid(sh, length)
    ensures SlotStep(sh, length, ch.current, SlotInstrument(sh, ch))
  {
    if ch.current.instrument != 0 && !(ch.sample.Some? && ch.sample.value >= |sh.samples|) {
      var c := SampleDefaults(sh, ch);
      SampleDefaultsFit(sh, ch);
      if IsKeyOff(ch.current.note) {
        assert SlotInstrument(sh, ch) == Next(sh, c);
      } else {
        assert SlotInstrument(sh, ch) == TriggerInstrument(sh, c);
        TriggerInstrumentFits(sh, c, length);
      }
    }
  }

  /** A sample's default volume and panning are in range. */
  lemma SampleDefaultsFit(sh: Shared, ch: Channel)
    requires SharedValid(sh) && ChannelFits(sh, ch)
    ensures var c := SampleDefaults(sh, ch);
            ChannelFits(sh, c) && c.current == ch.current
  {
    if ch.sample.Some? {
      assert SampleValid(sh.samples[ch.sample.value]);
    }
  }

  /** Triggering the instrument changes the context only in trigger times and keeps the channel fitting. */
  lemma TriggerInstrumentFits(sh: Shared, ch: Channel, length: u16)
    requires SharedValid(sh) && ChannelFits(sh, ch) && JumpValid(sh, length)
    ensures SlotStep(sh, length, ch.current, TriggerInstrument(sh, ch))
  {
  }
}
