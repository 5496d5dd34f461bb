/**
 * The last pass of the loader, shared by the XM and MOD formats: the
 * playback state starts at full global volume and the module's tempo and
 * BPM, and every slot of the pattern table is rewritten from the file's
 * effect coding into the player's: `E` commands become effects 32 to 47,
 * the `X` command becomes the extra-fine portamentos, a small `F`
 * parameter becomes a tempo change, out-of-range parameters are clamped
 * or dropped, and effects whose parameter 0 would do nothing are removed.
 */
module LoaderFixup {
  import opened Ints
  import opened XMTypes

  /** Effect codes as they come from the file, before the pass renumbers them. */
  const RawExtended: u8 := 0xE
  const RawExtraFinePortamento: u8 := 33
  const RawCoarsePanning: u8 := 40

  /** The rate the loader sets; playback converts every step from it. */
  const LoadedRate: u16 := 48000

  // ---------------------------------------------------------------------
  // Vibrato and tremolo control parameters
  // ---------------------------------------------------------------------

  /**
   * A usable waveform-control parameter: waveform 3 is not selected by
   * the two low bits, and bit 3 is clear.
   */
  predicate ControlNormal(p: u8)
  {
    var b := p as bv8;
    b & 3 != 3 && b & 8 == 0
  }

  /** The mask keeps the high nibble and bit 2, and leaves a usable parameter as it is. */
  lemma ControlMaskBits(b: bv8)
    ensures var q := b & (if b & 3 == 3 then 0xF6 else 0xF7);
      && q & 3 != 3 && q & 8 == 0
      && q & 0xF4 == b & 0xF4
      && (b & 3 != 3 && b & 8 == 0 ==> q == b)
  {
  }

  lemma Bv8RoundTrip(b: bv8)
    ensures (b as int) as bv8 == b
  {
  }

  /**
   * The control parameter with its waveform bits masked: bit 3 is cleared,
   * and so is bit 0 when the low two bits select waveform 3 (making it 2).
   */
  function ControlParam(p: u8): (q: u8)
    ensures ControlNormal(q)
  {
    var b := p as bv8;
    var q := b & (if b & 3 == 3 then 0xF6 else 0xF7);
    ControlMaskBits(b);
    Bv8RoundTrip(q);
    q as int
  }

  // ---------------------------------------------------------------------
  // One slot
  // ---------------------------------------------------------------------

  /**
   * What the player can rely on in a fixed-up slot of a module whose
   * order table has `length` entries.
   */
  predicate SlotNormal(s: Slot, length: u16)
  {
    && (s.effectType == EffSetTempo ==> s.effectParam < MinBpm)
    && (s.effectType == EffSetBpm ==> s.effectParam >= MinBpm)
    && s.effectType != RawCoarsePanning
    && (s.effectType == EffJumpToOrder ==> s.effectParam as int < length as int || s.effectParam == 0)
    && (s.effectType == EffSetVolume || s.effectType == EffSetGlobalVolume ==> s.effectParam <= MaxVolume)
    && (s.effectType == EffSetVibratoControl || s.effectType == EffSetTremoloControl ==> ControlNormal(s.effectParam))
    && (s.effectType == EffCutNote || s.effectType == EffDelayNote || s.effectType == EffRetriggerNote ==> s.effectParam != 0)
    && s.volumeColumn != 0xA0
  }

  /**
   * The fix-up of one slot, rule by rule in the order the loader applies
   * them. (The loader's `>> 4`, `& 0x0F` and `32 | x` on a nibble `x`
   * are the `/ 16`, `% 16` and `32 + x` written here.)
   */
  function FixSlot(s: Slot, length: u16): (r: Slot)
    ensures SlotNormal(r, length)
    ensures r.instrument == s.instrument
    ensures r.volumeColumn == if s.volumeColumn == 0xA0 then 0 else s.volumeColumn
    ensures s.note == NoteRetrigger ==> r.note == NoteKeyOff
    ensures r.note == NoteRetrigger ==> s.note == 0
    ensures r.note != s.note ==> s.note == NoteRetrigger || (s.note == 0 && r.note == NoteRetrigger)
  {
    var s := if s.note == NoteRetrigger then s.(note := NoteKeyOff) else s;
    var s :=
      if s.effectType != RawExtraFinePortamento then s
      else if s.effectParam / 16 == 1 then s.(effectType := EffExtraFinePortamentoUp, effectParam := s.effectParam % 16)
      else if s.effectParam / 16 == 2 then s.(effectType := EffExtraFinePortamentoDown, effectParam := s.effectParam % 16)
      else s.(effectType := 0, effectParam := 0);
    var s := if s.effectType == RawExtended then s.(effectType := 32 + s.effectParam / 16, effectParam := s.effectParam % 16) else s;
    var s := if s.effectType == EffSetBpm && s.effectParam < MinBpm then s.(effectType := EffSetTempo) else s;
    var s := if s.effectType == EffJumpToOrder && s.effectParam as int >= length as int then s.(effectParam := 0) else s;
    var s :=
      if (s.effectType == EffSetVolume || s.effectType == EffSetGlobalVolume) && s.effectParam > MaxVolume
      then s.(effectParam := MaxVolume) else s;
    var s :=
      if s.effectType == EffSetVibratoControl || s.effectType == EffSetTremoloControl
      then s.(effectParam := ControlParam(s.effectParam)) else s;
    var s := if s.effectType == RawCoarsePanning then s.(effectType := EffSetPanning, effectParam := Wrap8(s.effectParam * 0x10)) else s;
    var s := if s.effectType == EffCutNote && s.effectParam == 0 then s.(effectType := EffSetVolume) else s;
    var s := if s.effectType == EffDelayNote && s.effectParam == 0 then s.(effectType := 0) else s;
    var s :=
      if s.effectType == EffRetriggerNote && s.effectParam == 0
      then s.(note := if s.note != 0 then s.note else NoteRetrigger, effectType := 0)
      else s;
    if s.volumeColumn == 0xA0 then s.(volumeColumn := 0) else s
  }

  /** The extended `E` commands: `Exy` becomes effect `32 + x` with parameter `y`. */
  lemma FixSlotExtended(s: Slot, length: u16)
    requires s.effectType == RawExtended
    ensures var r := FixSlot(s, length);
      && (s.effectParam / 16 !in {4, 7, 8} && s.effectParam % 16 != 0 ==>
            r.effectType == 32 + s.effectParam / 16 && r.effectParam == s.effectParam % 16)
      && (s.effectParam / 16 in {4, 7} ==>
            r.effectType == 32 + s.effectParam / 16 && r.effectParam == ControlParam(s.effectParam % 16))
      && (s.effectParam / 16 == 8 ==> r.effectType == EffSetPanning && r.effectParam == 16 * (s.effectParam % 16))
  {
  }

  /** Fine portamento up (effect 33) only ever comes from `E1x`. */
  lemma FixSlotFinePortamento(s: Slot, length: u16)
    requires FixSlot(s, length).effectType == EffFinePortamentoUp
    ensures s.effectType == RawExtended && s.effectParam / 16 == 1
  {
  }

  /** The `X` command: `X1y` and `X2y` are the extra-fine portamentos, anything else is dropped. */
  lemma FixSlotExtraFine(s: Slot, length: u16)
    requires s.effectType == RawExtraFinePortamento
    ensures var r := FixSlot(s, length);
      if s.effectParam / 16 == 1 then r.effectType == EffExtraFinePortamentoUp && r.effectParam == s.effectParam % 16
      else if s.effectParam / 16 == 2 then r.effectType == EffExtraFinePortamentoDown && r.effectParam == s.effectParam % 16
      else r.effectType == 0 && r.effectParam == 0
  {
  }

  /**
   * A small `F` parameter is a tempo, a large one a BPM; an order jump
   * past the end of the order table jumps to order 0; volumes are clamped.
   */
  lemma FixSlotRanges(s: Slot, length: u16)
    ensures var r := FixSlot(s, length);
      && (s.effectType == EffSetBpm ==>
            r.effectParam == s.effectParam && r.effectType == if s.effectParam < MinBpm then EffSetTempo else EffSetBpm)
      && (s.effectType == EffJumpToOrder ==>
            r.effectType == s.effectType && r.effectParam == if s.effectParam as int >= length as int then 0 else s.effectParam)
      && (s.effectType == EffSetVolume || s.effectType == EffSetGlobalVolume ==>
            r.effectType == s.effectType && r.effectParam == Min(s.effectParam, MaxVolume))
  {
  }

  /** Every other effect passes through unchanged. */
  lemma FixSlotOthers(s: Slot, length: u16)
    requires s.effectType !in {EffJumpToOrder, EffSetVolume, RawExtended, EffSetBpm, EffSetGlobalVolume,
                               RawExtraFinePortamento, EffSetVibratoControl, EffSetTremoloControl,
                               RawCoarsePanning, EffRetriggerNote, EffCutNote, EffDelayNote}
    ensures FixSlot(s, length).effectType == s.effectType && FixSlot(s, length).effectParam == s.effectParam
  {
  }

  // ---------------------------------------------------------------------
  // The whole context
  // ---------------------------------------------------------------------

  /**
   * The fix-up pass over a loaded context: full global volume, the
   * module's tempo and BPM as the current ones, the fixed rate, and every
   * slot of the `numRows` rows of `numChannels` slots fixed up against the
   * module's order-table length. Nothing else changes.
   */
  method FixupContext(ctx: Context)
    requires ctx.mod.numRows as nat * ctx.mod.numChannels as nat <= |ctx.patternSlots|
    modifies ctx
    ensures ctx.globalVolume == MaxVolume
    ensures ctx.currentTempo == old(ctx.mod.tempo) && ctx.currentBpm == old(ctx.mod.bpm)
    ensures ctx.mod == old(ctx.mod).(rate := LoadedRate)
    ensures |ctx.patternSlots| == |old(ctx.patternSlots)|
    ensures forall i :: 0 <= i < |ctx.patternSlots| ==>
      ctx.patternSlots[i] ==
        if i < old(ctx.mod.numRows as nat * ctx.mod.numChannels as nat) then FixSlot(old(ctx.patternSlots)[i], old(ctx.mod.length))
        else old(ctx.patternSlots)[i]
    ensures ctx.patterns == old(ctx.patterns) && ctx.instruments == old(ctx.instruments)
    ensures ctx.samples == old(ctx.samples) && ctx.samplesData == old(ctx.samplesData)
    ensures ctx.channels == old(ctx.channels) && ctx.rowLoopCount == old(ctx.rowLoopCount)
    ensures ctx.currentTableIndex == old(ctx.currentTableIndex) && ctx.currentRow == old(ctx.currentRow)
    ensures ctx.currentTick == old(ctx.currentTick) && ctx.remainingSamplesInTick == old(ctx.remainingSamplesInTick)
  {
    ctx.globalVolume := MaxVolume;
    ctx.currentTempo := ctx.mod.tempo;
    ctx.currentBpm := ctx.mod.bpm;
    ctx.mod := ctx.mod.(rate := LoadedRate);

    var totalSlots := ctx.mod.numRows as nat * ctx.mod.numChannels as nat;
    var length := ctx.mod.length;
    var i := 0;
    while i < totalSlots
      invariant i <= totalSlots && |ctx.patternSlots| == |old(ctx.patternSlots)|
      invariant forall m :: 0 <= m < |ctx.patternSlots| ==>
        ctx.patternSlots[m] == if m < i then FixSlot(old(ctx.patternSlots)[m], length) else old(ctx.patternSlots)[m]
      invariant ctx.globalVolume == MaxVolume && ctx.mod == old(ctx.mod).(rate := LoadedRate)
      invariant ctx.currentTempo == old(ctx.mod.tempo) && ctx.currentBpm == old(ctx.mod.bpm)
      invariant ctx.patterns == old(ctx.patterns) && ctx.instruments == old(ctx.instruments)
      invariant ctx.samples == old(ctx.samples) && ctx.samplesData == old(ctx.samplesData)
      invariant ctx.channels == old(ctx.channels) && ctx.rowLoopCount == old(ctx.rowLoopCount)
      invariant ctx.currentTableIndex == old(ctx.currentTableIndex) && ctx.currentRow == old(ctx.currentRow)
      invariant ctx.currentTick == old(ctx.currentTick) && ctx.remainingSamplesInTick == old(ctx.remainingSamplesInTick)
    {
      ctx.patternSlots := ctx.patternSlots[i := FixSlot(ctx.patternSlots[i], length)];
      i := i + 1;
    }
  }

  /** After the pass, every slot of the pattern rows is in the form the player relies on. */
  lemma FixedRowsNormal(before: seq<Slot>, after: seq<Slot>, total: nat, length: u16)
    requires total <= |before| == |after|
    requires forall i :: 0 <= i < total ==> after[i] == FixSlot(before[i], length)
    ensures forall i :: 0 <= i < total ==> SlotNormal(after[i], length)
  {
  }
}
