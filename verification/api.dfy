/**
 * The public API's operations on a playback context: the panning-law
 * setting, seeking, muting channels and instruments, the position and
 * instrument getters, and the reset to the start of the song. The getters
 * are functions of the context's values (`TablesOf`, `SongOf`); the
 * setters are methods that assign the fields of the `Context` object, as
 * the source assigns the fields of the `inout` struct.
 */
module Api {
  import opened Wrappers
  import opened Ints
  import opened XMTypes
  import opened LoaderFixup
  import opened Slots
  import opened Sequencer
  import opened Playback

  // ---------------------------------------------------------------------
  // Build configuration
  // ---------------------------------------------------------------------

  /** The largest panning law: 8 selects the square-root law. */
  const MaxPanningType: int := 8

  /** The run-time settings of the player that the API can change. */
  class BuildConfig {
    var panningType: int
    var ramping: bool

    /** Square-root panning and volume ramping are on by default. */
    constructor ()
      ensures panningType == MaxPanningType && ramping
    {
      panningType, ramping := MaxPanningType, true;
    }
  }

  /** The panning law a request selects: the request clamped into 0...8. */
  function PanningTypeOf(requested: int): (r: int)
    ensures 0 <= r <= MaxPanningType
    ensures 0 <= requested <= MaxPanningType ==> r == requested
    ensures requested < 0 ==> r == 0
    ensures requested > MaxPanningType ==> r == MaxPanningType
  {
    var upper := if requested < MaxPanningType then requested else MaxPanningType;
    if 0 < upper then upper else 0
  }

  /** setPanningType: store the clamped request. */
  method SetPanningType(cfg: BuildConfig, requested: int)
    modifies cfg`panningType
    ensures cfg.panningType == PanningTypeOf(requested)
    ensures 0 <= cfg.panningType <= MaxPanningType
  {
    cfg.panningType := PanningTypeOf(requested);
  }

  // ---------------------------------------------------------------------
  // Position
  // ---------------------------------------------------------------------

  /** What getPosition reports: the order index, the pattern there, the row and the samples generated. */
  datatype Position = Position(patternIndex: u8, pattern: u8, row: u8, samples: u32)

  /**
   * getPosition. The order index is narrowed to 8 bits and looked up in
   * the order table; both steps trap when out of range (`None`). The row
   * reported is the one before `currentRow`, the row that was played last.
   */
  function GetPosition(m: Module, sh: Shared): (r: Option<Position>)
    ensures r.Some? <==> sh.currentTableIndex < 0x100 && (sh.currentTableIndex as int) < |m.patternTable|
    ensures r.Some? ==> r.value.patternIndex == sh.currentTableIndex
                        && r.value.pattern == m.patternTable[sh.currentTableIndex]
                        && Wrap8(r.value.row + 1) == sh.currentRow
                        && r.value.samples == sh.generatedSamples
  {
    if sh.currentTableIndex >= 0x100 then None
    else if sh.currentTableIndex as int >= |m.patternTable| then None
    else Some(Position(sh.currentTableIndex, m.patternTable[sh.currentTableIndex],
                       Wrap8(sh.currentRow as int - 1), sh.generatedSamples))
  }

  /** The shared context after seek: the position is set and the tick starts afresh. */
  function Sought(sh: Shared, pot: u8, row: u8, tick: u8): Shared
  {
    sh.(currentTableIndex := pot, currentRow := row, currentTick := tick)
  }

  /**
   * After seeking to an order entry of the table, getPosition reports that
   * entry, its pattern and the row before the one sought, and no samples
   * are lost.
   */
  lemma SeekThenPosition(m: Module, sh: Shared, pot: u8, row: u8, tick: u8)
    requires (pot as int) < |m.patternTable|
    ensures GetPosition(m, Sought(sh, pot, row, tick))
            == Some(Position(pot, m.patternTable[pot], Wrap8(row as int - 1), sh.generatedSamples))
  {
    var r := GetPosition(m, Sought(sh, pot, row, tick));
    assert r.Some?;
    assert Wrap8(r.value.row + 1) == row;
  }

  /** Seeking inside the song keeps a playable context playable. */
  lemma SeekKeepsValid(t: Tables, s: Song, pot: u8, row: u8, tick: u8)
    requires SongValid(t, s)
    requires (pot as int) < (t.mod.length as int)
    ensures SongValid(t, s.(sh := Sought(s.sh, pot, row, tick), remainingSamplesInTick := 0))
  {
    var s' := s.(sh := Sought(s.sh, pot, row, tick), remainingSamplesInTick := 0);
    ReadyAcross(s.sh, s'.sh, s.channels, t.mod.length);
  }

  /** seek: set the order index, the row and the tick, and start a fresh tick. */
  method Seek(ctx: Context, pot: u8, row: u8, tick: u8)
    modifies ctx`currentTableIndex, ctx`currentRow, ctx`currentTick, ctx`remainingSamplesInTick
    ensures SharedOf(ctx) == Sought(old(SharedOf(ctx)), pot, row, tick)
    ensures ctx.remainingSamplesInTick == 0
    ensures old(ContextValid(ctx)) && (pot as int) < (ctx.mod.length as int) ==> ContextValid(ctx)
    ensures (pot as int) < |ctx.mod.patternTable| ==>
              GetPosition(ctx.mod, SharedOf(ctx))
              == Some(Position(pot, ctx.mod.patternTable[pot], Wrap8(row as int - 1), ctx.generatedSamples))
  {
    ghost var s := SongOf(ctx);
    ctx.currentTableIndex := pot;
    ctx.currentRow := row;
    ctx.currentTick := tick;
    ctx.remainingSamplesInTick := 0;
    assert SongOf(ctx) == s.(sh := Sought(s.sh, pot, row, tick), remainingSamplesInTick := 0);
    if SongValid(TablesOf(ctx), s) && (pot as int) < (ctx.mod.length as int) {
      SeekKeepsValid(TablesOf(ctx), s, pot, row, tick);
    }
    if (pot as int) < |ctx.mod.patternTable| {
      SeekThenPosition(ctx.mod, s.sh, pot, row, tick);
    }
  }

  // ---------------------------------------------------------------------
  // Muting
  // ---------------------------------------------------------------------

  /**
   * A table of channels or instruments with entry `idx` (counted from
   * zero) muted or unmuted by `setMuted`; every other entry is kept.
   */
  function MuteIn<T>(xs: seq<T>, idx: nat, mute: bool, setMuted: (T, bool) -> T): (r: seq<T>)
    requires idx < |xs|
    ensures |r| == |xs| && r[idx] == setMuted(xs[idx], mute)
    ensures forall k :: 0 <= k < |r| && k != idx ==> r[k] == xs[k]
  {
    xs[idx := setMuted(xs[idx], mute)]
  }

  function ChannelMuted(ch: Channel, mute: bool): Channel
  {
    ch.(muted := mute)
  }

  function InstrumentMuted(inst: Instrument, mute: bool): Instrument
  {
    inst.(muted := mute)
  }

  /** Muting a channel and then giving it back its old flag restores every channel. */
  lemma MuteChannelRestores(chans: seq<Channel>, idx: nat, mute: bool)
    requires idx < |chans|
    ensures MuteIn(MuteIn(chans, idx, mute, ChannelMuted), idx, chans[idx].muted, ChannelMuted) == chans
  {
    var r := MuteIn(MuteIn(chans, idx, mute, ChannelMuted), idx, chans[idx].muted, ChannelMuted);
    assert r[idx] == chans[idx];
  }

  /** The mute flag of a channel is not part of what playback relies on. */
  lemma MuteChannelKeepsValid(t: Tables, s: Song, idx: nat, mute: bool)
    requires SongValid(t, s) && idx < |s.channels|
    ensures SongValid(t, s.(channels := MuteIn(s.channels, idx, mute, ChannelMuted)))
  {
    var chans := MuteIn(s.channels, idx, mute, ChannelMuted);
    assert ChannelReady(s.sh, s.channels[idx], t.mod.length);
    assert ChannelReady(s.sh, chans[idx], t.mod.length);
  }

  /**
   * muteChannel: channels are numbered from 1; the source traps on a
   * number outside the module's channels and on a channel missing from the
   * context's array. Returns the flag the channel had.
   */
  method MuteChannel(ctx: Context, channel: u8, mute: bool) returns (wasMuted: bool)
    requires 1 <= channel <= ctx.mod.numChannels
    requires (channel as int) <= |ctx.channels|
    modifies ctx`channels
    ensures wasMuted == old(ctx.channels[channel - 1].muted)
    ensures ctx.channels == MuteIn(old(ctx.channels), channel - 1, mute, ChannelMuted)
    ensures old(ContextValid(ctx)) ==> ContextValid(ctx)
  {
    ghost var s := SongOf(ctx);
    var idx := channel - 1;
    wasMuted := ctx.channels[idx].muted;
    ctx.channels := ctx.channels[idx := ctx.channels[idx].(muted := mute)];
    assert SongOf(ctx) == s.(channels := MuteIn(s.channels, idx, mute, ChannelMuted));
    if SongValid(TablesOf(ctx), s) {
      MuteChannelKeepsValid(TablesOf(ctx), s, idx, mute);
    }
  }

  /** Muting an instrument and then giving it back its old flag restores every instrument. */
  lemma MuteInstrumentRestores(insts: seq<Instrument>, idx: nat, mute: bool)
    requires idx < |insts|
    ensures MuteIn(MuteIn(insts, idx, mute, InstrumentMuted), idx, insts[idx].muted, InstrumentMuted) == insts
  {
    var r := MuteIn(MuteIn(insts, idx, mute, InstrumentMuted), idx, insts[idx].muted, InstrumentMuted);
    assert r[idx] == insts[idx];
  }

  /** Muting an instrument keeps a playable context playable. */
  lemma MuteInstrumentKeepsValid(t: Tables, s: Song, idx: nat, mute: bool)
    requires SongValid(t, s) && idx < |s.sh.instruments|
    ensures SongValid(t, s.(sh := s.sh.(instruments := MuteIn(s.sh.instruments, idx, mute, InstrumentMuted))))
  {
    var sh' := s.sh.(instruments := MuteIn(s.sh.instruments, idx, mute, InstrumentMuted));
    assert InstrumentValid(s.sh.instruments[idx], |s.sh.samples|);
    assert InstrumentValid(sh'.instruments[idx], |s.sh.samples|);
    ReadyAcross(s.sh, sh', s.channels, t.mod.length);
  }

  /**
   * muteInstrument: instruments are numbered from 1; the source traps on a
   * number outside the module's instruments and on an instrument missing
   * from the context's array. Returns the flag the instrument had.
   */
  method MuteInstrument(ctx: Context, instrument: u8, mute: bool) returns (wasMuted: bool)
    requires 1 <= instrument <= ctx.mod.numInstruments
    requires (instrument as int) <= |ctx.instruments|
    modifies ctx`instruments
    ensures wasMuted == old(ctx.instruments[instrument - 1].muted)
    ensures ctx.instruments == MuteIn(old(ctx.instruments), instrument - 1, mute, InstrumentMuted)
    ensures old(ContextValid(ctx)) ==> ContextValid(ctx)
  {
    ghost var s := SongOf(ctx);
    var idx := instrument - 1;
    wasMuted := ctx.instruments[idx].muted;
    ctx.instruments := ctx.instruments[idx := ctx.instruments[idx].(muted := mute)];
    assert SongOf(ctx) == s.(sh := s.sh.(instruments := MuteIn(s.sh.instruments, idx, mute, InstrumentMuted)));
    if SongValid(TablesOf(ctx), s) {
      MuteInstrumentKeepsValid(TablesOf(ctx), s, idx, mute);
    }
  }

  // ---------------------------------------------------------------------
  // Instrument of a channel
  // ---------------------------------------------------------------------

  /**
   * getInstrumentOfChannel: the channel's instrument number counted from
   * 1, else its sample number counted from 1, else 0. Narrowing the
   * number to 8 bits traps when it does not fit (`None`).
   */
  function InstrumentOfChannel(numChannels: u8, chans: seq<Channel>, channel: u8): (r: Option<u8>)
    requires 1 <= channel <= numChannels && (channel as int) <= |chans|
    ensures r == Some(0) <==> chans[channel - 1].instrument.None? && chans[channel - 1].sample.None?
    ensures chans[channel - 1].instrument.Some? ==>
              && (r.Some? <==> chans[channel - 1].instrument.value < 0xFF)
              && (r.Some? ==> r.value == chans[channel - 1].instrument.value + 1)
    ensures chans[channel - 1].instrument.None? && chans[channel - 1].sample.Some? ==>
              && (r.Some? <==> chans[channel - 1].sample.value < 0xFF)
              && (r.Some? ==> r.value == chans[channel - 1].sample.value + 1)
  {
    var ch := chans[channel - 1];
    if ch.instrument.Some? then
      (if ch.instrument.value + 1 < 0x100 then Some(ch.instrument.value + 1) else None)
    else if ch.sample.Some? then
      (if ch.sample.value + 1 < 0x100 then Some(ch.sample.value + 1) else None)
    else Some(0)
  }

  /**
   * In a playable context the getter never traps and never falls back to
   * the sample number: it reports exactly the instrument counted from 1,
   * or 0 for a channel without one.
   */
  lemma InstrumentOfReadyChannel(t: Tables, s: Song, channel: u8)
    requires SongValid(t, s)
    requires 1 <= channel <= t.mod.numChannels
    ensures var r := InstrumentOfChannel(t.mod.numChannels, s.channels, channel);
            var ch := s.channels[channel - 1];
            && r.Some?
            && (r.value == 0 <==> ch.instrument.None?)
            && (ch.instrument.Some? ==> r.value as int == ch.instrument.value + 1)
  {
    var ch := s.channels[channel - 1];
    assert ChannelReady(s.sh, ch, t.mod.length);
    assert ch.instrument.Some? ==> ch.instrument.value < s.sh.numInstruments as int;
  }

  // ---------------------------------------------------------------------
  // Reset
  // ---------------------------------------------------------------------

  /**
   * The latest-trigger time of entry `i` of the instrument or sample
   * table: the model keeps these times in a map beside the table, and an
   * entry without one was never triggered.
   */
  function LatestTrigger(triggers: map<nat, u32>, i: nat): u32
  {
    if i in triggers then triggers[i] else 0
  }

  /** The trigger times after zeroing those of the first `n` table entries, one entry at a time. */
  function ClearTriggers(triggers: map<nat, u32>, n: nat): (r: map<nat, u32>)
    ensures forall i :: 0 <= i < n ==> i in r && r[i] == 0
    ensures forall i :: i >= n ==> (i in r <==> i in triggers)
    ensures forall i :: i >= n && i in r ==> r[i] == triggers[i]
  {
    if n == 0 then triggers else ClearTriggers(triggers, n - 1)[n - 1 := 0]
  }

  /** Zeroing the trigger times a second time changes nothing. */
  lemma ClearTriggersTwice(triggers: map<nat, u32>, n: nat)
    ensures ClearTriggers(ClearTriggers(triggers, n), n) == ClearTriggers(triggers, n)
  {
    var once := ClearTriggers(triggers, n);
    var twice := ClearTriggers(once, n);
    assert twice.Keys == once.Keys;
    forall i | i in twice
      ensures twice[i] == once[i]
    {
    }
  }

  /**
   * resetContext: every channel back to its default state, the per-row
   * visit counters (when the module has them) back to zero, the song
   * position, the time and the pattern-delay and loop counters back to
   * zero, full global volume, the module's initial tempo and BPM, no
   * pending break or jump, and no trigger times. The jump destination and
   * the tables are kept.
   */
  function Reset(t: Tables, s: Song): (r: Song)
  {
    var sh := s.sh.(instrumentTriggers := ClearTriggers(s.sh.instrumentTriggers, |s.sh.instruments|),
                    sampleTriggers := ClearTriggers(s.sh.sampleTriggers, |s.sh.samples|),
                    generatedSamples := 0, currentTableIndex := 0, currentTick := 0, currentRow := 0,
                    extraRows := 0, globalVolume := MaxVolume, currentTempo := t.mod.tempo,
                    currentBpm := t.mod.bpm, patternBreak := false, positionJump := false, jumpRow := 0);
    var counts := if |s.rowLoopCount| == 0 then s.rowLoopCount else Repeat(0, |s.rowLoopCount|);
    Song(sh, Repeat(DefaultChannel, |s.channels|), counts, 0, 0, 0)
  }

  /**
   * A reset context is playable whenever it was, keeps its tables and
   * array sizes, forgets every trigger time, and reports the first order
   * entry with the row before row 0 (255) and no samples generated.
   */
  lemma ResetKeepsValid(t: Tables, s: Song)
    ensures var r := Reset(t, s);
            && (SongValid(t, s) ==> SongValid(t, r))
            && SameTables(s.sh, r.sh)
            && |r.channels| == |s.channels| && |r.rowLoopCount| == |s.rowLoopCount|
            && (forall i :: 0 <= i < |s.sh.instruments| ==> LatestTrigger(r.sh.instrumentTriggers, i) == 0)
            && (forall i :: 0 <= i < |s.sh.samples| ==> LatestTrigger(r.sh.sampleTriggers, i) == 0)
            && (0 < |t.mod.patternTable| ==>
                  GetPosition(t.mod, r.sh) == Some(Position(0, t.mod.patternTable[0], 255, 0)))
  {
    var r := Reset(t, s);
    if SongValid(t, s) {
      DefaultChannelValid();
      assert SlotNormal(EmptySlot, t.mod.length);
      forall k | 0 <= k < |r.channels|
        ensures ChannelReady(r.sh, r.channels[k], t.mod.length)
      {
        assert r.channels[k] == DefaultChannel;
      }
    }
  }

  /** Resetting twice is resetting once. */
  lemma ResetTwice(t: Tables, s: Song)
    ensures Reset(t, Reset(t, s)) == Reset(t, s)
  {
    var r := Reset(t, s);
    ClearTriggersTwice(s.sh.instrumentTriggers, |s.sh.instruments|);
    ClearTriggersTwice(s.sh.sampleTriggers, |s.sh.samples|);
    assert Repeat(DefaultChannel, |r.channels|) == r.channels;
    assert |r.rowLoopCount| != 0 ==> Repeat(0, |r.rowLoopCount|) == r.rowLoopCount;
  }

  /** The source's loops that zero the trigger time of each instrument, or of each sample, in turn. */
  method ClearedTriggers(triggers: map<nat, u32>, count: nat) returns (r: map<nat, u32>)
    ensures r == ClearTriggers(triggers, count)
  {
    r := triggers;
    for i := 0 to count
      invariant r == ClearTriggers(triggers, i)
    {
      r := r[i := 0];
    }
  }

  /**
   * resetContext. The new state is computed on the context's values, with
   * the source's two loops over the trigger times, and written back in one
   * step; the tables and the jump destination are kept.
   */
  method ResetContext(ctx: Context)
    modifies ctx`instrumentTriggers, ctx`sampleTriggers, ctx`generatedSamples, ctx`globalVolume, ctx`currentTempo,
             ctx`currentTableIndex, ctx`currentTick, ctx`currentRow, ctx`jumpDest, ctx`jumpRow,
             ctx`patternBreak, ctx`positionJump, ctx`extraRows, ctx`currentBpm,
             ctx`channels, ctx`rowLoopCount, ctx`loopCount, ctx`extraRowsDone, ctx`remainingSamplesInTick
    ensures SongOf(ctx) == Reset(TablesOf(ctx), old(SongOf(ctx)))
    ensures old(ContextValid(ctx)) ==> ContextValid(ctx)
  {
    ghost var s, t := SongOf(ctx), TablesOf(ctx);
    var instrumentTriggers := ClearedTriggers(ctx.instrumentTriggers, |ctx.instruments|);
    var sampleTriggers := ClearedTriggers(ctx.sampleTriggers, |ctx.samples|);
    var counts := if |ctx.rowLoopCount| == 0 then ctx.rowLoopCount else Repeat(0, |ctx.rowLoopCount|);
    var sh := SharedOf(ctx).(instrumentTriggers := instrumentTriggers, sampleTriggers := sampleTriggers,
                             generatedSamples := 0, currentTableIndex := 0, currentTick := 0, currentRow := 0,
                             extraRows := 0, globalVolume := MaxVolume, currentTempo := ctx.mod.tempo,
                             currentBpm := ctx.mod.bpm, patternBreak := false, positionJump := false, jumpRow := 0);
    StoreSong(ctx, Song(sh, Repeat(DefaultChannel, |ctx.channels|), counts, 0, 0, 0));
    ResetKeepsValid(t, s);
  }
}
