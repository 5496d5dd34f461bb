/**
 * The data model of the module player: constants, effect codes, and the
 * records for envelopes, samples, instruments, pattern slots, patterns, the
 * module header and the per-channel playback state. The Swift source keeps
 * these as value-typed structs; here each is a datatype, and an in-place
 * update of a struct field is a datatype update.
 */
module XMTypes {
  import opened Wrappers
  import opened Ints

  // ---------------------------------------------------------------------
  // Constants
  // ---------------------------------------------------------------------

  const WaveformSine: u8 := 0
  const WaveformRampDown: u8 := 1
  const WaveformSquare: u8 := 2
  const WaveformRampUp: u8 := 3

  const PatternOrderTableLength: nat := 256
  const MaxNote: u8 := 96
  const MaxEnvelopePoints: nat := 12
  const MaxRowsPerPattern: nat := 256
  const MaxVolume: u8 := 64
  const MaxFadeoutVolume: u16 := 32768
  const MaxPanning: u16 := 256
  const MaxEnvelopeValue: u8 := 64
  const MinBpm: u8 := 32
  const MaxBpm: u8 := 255
  const MaxPatterns: nat := 256
  const MaxInstruments: nat := 255
  const MaxChannels: nat := 255
  const MaxSamplesPerInstrument: nat := 255

  /** Special note values of a pattern slot. */
  const NoteKeyOff: u8 := 128
  const NoteRetrigger: u8 := MaxNote + 1
  const NoteSwitch: u8 := MaxNote + 2

  /** Sub-divisions of a tick and of a sample frame, in fixed point. */
  const TickSubsamples: u32 := 0x2000
  const SampleMicrosteps: u32 := 0x1000
  /** The longest sample whose position, in microsteps, fits in 32 bits. */
  const MaxSampleLength: u32 := 0xFFFF_FFFF / SampleMicrosteps

  /** The default sample rate of a module, in Hz. */
  const DefaultRate: u16 := 48000

  // Effect codes of the effect column (after the loader's renumbering:
  // the `Exy` family becomes `32 | x`).
  const EffArpeggio: u8 := 0
  const EffPortamentoUp: u8 := 1
  const EffPortamentoDown: u8 := 2
  const EffTonePortamento: u8 := 3
  const EffVibrato: u8 := 4
  const EffTonePortamentoVolumeSlide: u8 := 5
  const EffVibratoVolumeSlide: u8 := 6
  const EffTremolo: u8 := 7
  const EffSetPanning: u8 := 8
  const EffSetSampleOffset: u8 := 9
  const EffVolumeSlide: u8 := 0xA
  const EffJumpToOrder: u8 := 0xB
  const EffSetVolume: u8 := 0xC
  const EffPatternBreak: u8 := 0xD
  const EffSetTempo: u8 := 0xE
  const EffSetBpm: u8 := 0xF
  const EffSetGlobalVolume: u8 := 16
  const EffGlobalVolumeSlide: u8 := 17
  const EffExtraFinePortamentoUp: u8 := 18
  const EffExtraFinePortamentoDown: u8 := 19
  const EffKeyOff: u8 := 20
  const EffSetEnvelopePosition: u8 := 21
  const EffPanningSlide: u8 := 25
  const EffMultiRetrigNote: u8 := 27
  const EffTremor: u8 := 29
  const EffFinePortamentoUp: u8 := 33
  const EffFinePortamentoDown: u8 := 34
  const EffSetGlissandoControl: u8 := 35
  const EffSetVibratoControl: u8 := 36
  const EffSetFinetune: u8 := 37
  const EffPatternLoop: u8 := 38
  const EffSetTremoloControl: u8 := 39
  const EffRetriggerNote: u8 := 41
  const EffFineVolumeSlideUp: u8 := 42
  const EffFineVolumeSlideDown: u8 := 43
  const EffCutNote: u8 := 44
  const EffDelayNote: u8 := 45
  const EffDelayPattern: u8 := 46

  // Volume-column effects, by the high nibble of the volume column.
  const VolSlideDown: u8 := 6
  const VolSlideUp: u8 := 7
  const VolFineSlideDown: u8 := 8
  const VolFineSlideUp: u8 := 9
  const VolVibratoSpeed: u8 := 0xA
  const VolVibrato: u8 := 0xB
  const VolSetPanning: u8 := 0xC
  const VolPanningSlideLeft: u8 := 0xD
  const VolPanningSlideRight: u8 := 0xE
  const VolTonePortamento: u8 := 0xF

  // ---------------------------------------------------------------------
  // Records
  // ---------------------------------------------------------------------

  /** `n` copies of `x`: the initial contents of a fixed-size table. */
  function Repeat<T>(x: T, n: nat): (r: seq<T>)
    ensures |r| == n && forall i :: 0 <= i < n ==> r[i] == x
  {
    if n == 0 then [] else [x] + Repeat(x, n - 1)
  }

  datatype EnvelopePoint = EnvelopePoint(frame: u16, value: u8)

  datatype Envelope = Envelope(
    points: seq<EnvelopePoint>,
    numPoints: u8,
    sustainPoint: u8,
    loopStartPoint: u8,
    loopEndPoint: u8)

  /** The default envelope: twelve zero points and no point in use, i.e. disabled. */
  const DefaultEnvelope: Envelope :=
    Envelope(Repeat(EnvelopePoint(0, 0), MaxEnvelopePoints), 0, 0, 0, 0)

  /** The frames of the first `n` points strictly increase. */
  predicate FramesIncreasing(points: seq<EnvelopePoint>, n: nat)
    requires n <= |points|
  {
    forall i :: 1 <= i < n ==> points[i - 1].frame < points[i].frame
  }

  /**
   * An envelope the player can use: 2 to 12 points with increasing frames,
   * a loop that is either absent (both ends 0) or runs forward between two
   * points, and a sustain point that is a point or 128 (none).
   */
  predicate EnvelopeUsable(env: Envelope)
  {
    && |env.points| == MaxEnvelopePoints
    && 2 <= env.numPoints as nat <= MaxEnvelopePoints
    && FramesIncreasing(env.points, env.numPoints as nat)
    && (env.loopStartPoint < env.loopEndPoint < env.numPoints
        || env.loopStartPoint == env.loopEndPoint == 0)
    && (env.sustainPoint < env.numPoints || env.sustainPoint == 128)
  }

  datatype Sample = Sample(
    index: u32,
    length: u32,
    loopLength: u32,
    pingPong: bool,
    volume: u8,
    panning: u16,
    finetune: i8,
    relativeNote: i8,
    name: seq<u8>)

  const DefaultSample: Sample := Sample(0, 0, 0, false, MaxVolume, MaxPanning / 2, 0, 0, [])

  datatype Instrument = Instrument(
    volumeEnvelope: Envelope,
    panningEnvelope: Envelope,
    sampleOfNotes: seq<u8>,
    samplesIndex: u16,
    numSamples: u8,
    volumeFadeout: u16,
    vibratoType: u8,
    vibratoSweep: u8,
    vibratoDepth: u8,
    vibratoRate: u8,
    muted: bool,
    name: seq<u8>)

  const DefaultInstrument: Instrument :=
    Instrument(DefaultEnvelope, DefaultEnvelope, Repeat(0, MaxNote as nat), 0, 0, 0, 0, 0, 0, 0, false, [])

  datatype Slot = Slot(note: u8, instrument: u8, volumeColumn: u8, effectType: u8, effectParam: u8)

  const EmptySlot: Slot := Slot(0, 0, 0, 0, 0)

  datatype Pattern = Pattern(rowsIndex: u16, numRows: u16)

  datatype Module = Module(
    samplesDataLength: u32,
    numRows: u32,
    length: u16,
    numPatterns: u16,
    numSamples: u16,
    rate: u16,
    numChannels: u8,
    numInstruments: u8,
    patternTable: seq<u8>,
    restartPosition: u8,
    maxLoopCount: u8,
    tempo: u8,
    bpm: u8,
    amigaFrequencies: bool,
    isMOD: bool,
    name: seq<u8>,
    trackerName: seq<u8>)

  const DefaultModule: Module :=
    Module(0, 0, 0, 0, 0, DefaultRate, 0, 0, Repeat(0, PatternOrderTableLength), 0, 0,
           MinBpm - 1, 125, false, false, [], [])

  /**
   * The effect parameters a channel remembers: an effect given with a zero
   * parameter (or zero nibbles) reuses the one remembered here.
   */
  datatype EffectMemory = EffectMemory(
    volumeSlideParam: u8,
    fineVolumeSlideUpParam: u8,
    fineVolumeSlideDownParam: u8,
    globalVolumeSlideParam: u8,
    panningSlideParam: u8,
    portamentoUpParam: u8,
    portamentoDownParam: u8,
    finePortamentoUpParam: u8,
    finePortamentoDownParam: u8,
    extraFinePortamentoUpParam: u8,
    extraFinePortamentoDownParam: u8,
    glissandoControlParam: u8,
    tonePortamentoParam: u8,
    multiRetrigParam: u8,
    sampleOffsetParam: u8,
    tremoloParam: u8,
    tremoloControlParam: u8,
    vibratoParam: u8,
    vibratoControlParam: u8,
    tremorParam: u8)

  /** A fresh channel remembers no parameters. */
  const NoMemory: EffectMemory := EffectMemory(0, 0, 0, 0, 0, 0, 0, 0, 0, 0, 0, 0, 0, 0, 0, 0, 0, 0, 0, 0)

  /**
   * The playback state of one channel. The floating-point ramping state
   * (actual and target volume, ramp frame count, end of the previous sample)
   * is not part of this model.
   */
  datatype Channel = Channel(
    instrument: Option<nat>,
    sample: Option<nat>,
    current: Slot,
    latestTrigger: u32,
    samplePosition: u32,
    step: u32,
    period: u16,
    tonePortamentoTargetPeriod: u16,
    fadeoutVolume: u16,
    autovibratoTicks: u16,
    volumeEnvelopeFrameCount: u16,
    panningEnvelopeFrameCount: u16,
    volumeEnvelopeVolume: u8,
    panningEnvelopePanning: u8,
    volume: u8,
    volumeOffset: i8,
    panning: u16,
    origNote: u8,
    finetune: i8,
    nextInstrument: u8,
    memory: EffectMemory,
    glissandoControlError: i8,
    multiRetrigTicks: u8,
    patternLoopOrigin: u8,
    patternLoopCount: u8,
    sampleOffsetInvalid: bool,
    tremoloTicks: u8,
    vibratoTicks: u8,
    vibratoOffset: i8,
    shouldResetVibrato: bool,
    autovibratoOffset: i8,
    shouldResetArpeggio: bool,
    arpNoteOffset: u8,
    tremorTicks: u8,
    tremorOn: bool,
    sustained: bool,
    muted: bool)

  const DefaultChannel: Channel := Channel(
    None, None, EmptySlot, 0, 0, 0, 0, 0, MaxFadeoutVolume - 1, 0, 0, 0,
    MaxEnvelopeValue, MaxEnvelopeValue / 2, MaxVolume, 0, MaxPanning / 2, 0, 0, 0,
    NoMemory, 0, 0, 0, 0, false, 0, 0, 0, true, 0, false, 0, 0, false, true, false)

  /**
   * What the player keeps true of every channel: a sample is only selected
   * together with an instrument, and the volume, panning, fade-out and
   * envelope outputs stay in their ranges.
   */
  predicate ChannelValid(ch: Channel)
  {
    && (ch.instrument.None? ==> ch.sample.None?)
    && ch.volume <= MaxVolume
    && ch.panning < MaxPanning
    && ch.fadeoutVolume < MaxFadeoutVolume
    && ch.volumeEnvelopeVolume <= MaxEnvelopeValue
    && ch.panningEnvelopePanning <= MaxEnvelopeValue
  }

  /** A freshly reset channel satisfies the channel invariant, at full volume and centre panning. */
  lemma DefaultChannelValid()
    ensures ChannelValid(DefaultChannel)
    ensures DefaultChannel.volume == MaxVolume && DefaultChannel.panning == MaxPanning / 2
    ensures DefaultChannel.fadeoutVolume == MaxFadeoutVolume - 1
    ensures DefaultChannel.volumeEnvelopeVolume == MaxEnvelopeValue
    ensures DefaultChannel.instrument.None? && DefaultChannel.sample.None?
  {
  }

  /** Fixed-point sizes: one sample frame is 2^12 microsteps and one tick 2^13 subsamples; a
      sample of the longest allowed length still has its last microstep position in 32 bits. */
  lemma FixedPointLimits()
    ensures SampleMicrosteps as int == 4096 && TickSubsamples as int == 8192
    ensures MaxSampleLength as int * SampleMicrosteps as int <= 0xFFFF_FFFF
    ensures (MaxSampleLength as int + 1) * SampleMicrosteps as int > 0xFFFF_FFFF
    ensures NoteRetrigger == 97 && NoteSwitch == 98 && NoteKeyOff == 128
  {
  }

  /** The extended `Exy` commands are numbered `32 + x` after their sub-command nibble `x`. */
  lemma ExtendedEffectCodes()
    ensures EffFinePortamentoUp == 32 + 0x1 && EffFinePortamentoDown == 32 + 0x2
    ensures EffSetGlissandoControl == 32 + 0x3 && EffSetVibratoControl == 32 + 0x4
    ensures EffSetFinetune == 32 + 0x5 && EffPatternLoop == 32 + 0x6 && EffSetTremoloControl == 32 + 0x7
    ensures EffRetriggerNote == 32 + 0x9 && EffFineVolumeSlideUp == 32 + 0xA && EffFineVolumeSlideDown == 32 + 0xB
    ensures EffCutNote == 32 + 0xC && EffDelayNote == 32 + 0xD && EffDelayPattern == 32 + 0xE
  {
  }

  /** The default envelope has no point in use: the "no envelope" state, which is never a usable one. */
  lemma DefaultEnvelopeDisabled()
    ensures DefaultEnvelope.numPoints == 0 && |DefaultEnvelope.points| == MaxEnvelopePoints
    ensures !EnvelopeUsable(DefaultEnvelope)
  {
  }

  /**
   * The whole playback context: the loaded module and its tables, plus the
   * sequencer cursor. The source keeps it in one struct passed `inout`;
   * here it is an object whose fields the loader, the player and the API
   * methods update.
   */
  class Context {
    var patterns: seq<Pattern>
    var patternSlots: seq<Slot>
    var instruments: seq<Instrument>
    var samples: seq<Sample>
    var instrumentTriggers: map<nat, u32>
    var sampleTriggers: map<nat, u32>
    var samplesData: seq<i16>
    var channels: seq<Channel>
    var rowLoopCount: seq<u8>
    var mod: Module
    var remainingSamplesInTick: u32
    var generatedSamples: u32
    var currentTableIndex: u16
    var currentTick: u8
    var currentRow: u8
    var extraRowsDone: u8
    var extraRows: u8
    var globalVolume: u8
    var currentTempo: u8
    var currentBpm: u8
    var patternBreak: bool
    var positionJump: bool
    var jumpDest: u8
    var jumpRow: u8
    var loopCount: u8

    /** A context with empty tables, full global volume and the slowest tempo and BPM. */
    constructor ()
      ensures patterns == [] && patternSlots == [] && instruments == [] && samples == []
      ensures instrumentTriggers == map[] && sampleTriggers == map[]
      ensures samplesData == [] && channels == [] && rowLoopCount == []
      ensures mod == DefaultModule
      ensures remainingSamplesInTick == 0 && generatedSamples == 0
      ensures currentTableIndex == 0 && currentTick == 0 && currentRow == 0
      ensures extraRowsDone == 0 && extraRows == 0
      ensures globalVolume == MaxVolume && currentTempo == MinBpm - 1 && currentBpm == MinBpm
      ensures !patternBreak && !positionJump && jumpDest == 0 && jumpRow == 0 && loopCount == 0
    {
      patterns, patternSlots, instruments, samples := [], [], [], [];
      instrumentTriggers, sampleTriggers := map[], map[];
      samplesData, channels, rowLoopCount := [], [], [];
      mod := DefaultModule;
      remainingSamplesInTick, generatedSamples := 0, 0;
      currentTableIndex, currentTick, currentRow := 0, 0, 0;
      extraRowsDone, extraRows := 0, 0;
      globalVolume, currentTempo, currentBpm := MaxVolume, MinBpm - 1, MinBpm;
      patternBreak, positionJump := false, false;
      jumpDest, jumpRow, loopCount := 0, 0, 0;
    }
  }
}
