/**
 * xm_row, maybeRestartPOT and xm_tick. The source passes the context, a
 * struct, `inout`, which is a copy in and a copy out; here the row and the
 * tick run on the values `TablesOf(ctx)`, which playback only reads, and
 * `SongOf(ctx)`, which it rewrites, each specified by the function of
 * `Sequencer` it computes, and `Tick` writes the new song back into the
 * `Context` object. The channel loops work on local copies of the shared
 * context and the channels, as the source does with `var ch`.
 */
module Playback {
  import opened Wrappers
  import opened Ints
  import opened XMTypes
  import opened Effects
  import opened Envelopes
  import opened Slots
  import opened TickEffects
  import opened Sequencer

  function TablesOf(ctx: Context): Tables
    reads ctx`mod, ctx`patterns, ctx`patternSlots, ctx`samplesData
  {
    Tables(ctx.mod, ctx.patterns, ctx.patternSlots, ctx.samplesData)
  }

  function SharedOf(ctx: Context): Shared
    reads ctx
  {
    Shared(ctx.instruments, ctx.samples, ctx.instrumentTriggers, ctx.sampleTriggers,
           ctx.mod.numInstruments, ctx.mod.amigaFrequencies, ctx.mod.isMOD, ctx.generatedSamples,
           ctx.currentTableIndex, ctx.currentTick, ctx.currentRow, ctx.extraRows, ctx.globalVolume,
           ctx.currentTempo, ctx.currentBpm, ctx.patternBreak, ctx.positionJump, ctx.jumpDest, ctx.jumpRow)
  }

  function SongOf(ctx: Context): Song
    reads ctx
  {
    Song(SharedOf(ctx), ctx.channels, ctx.rowLoopCount, ctx.loopCount, ctx.extraRowsDone, ctx.remainingSamplesInTick)
  }

  /** A context that can play: see `SongValid`. */
  predicate ContextValid(ctx: Context)
    reads ctx
  {
    SongValid(TablesOf(ctx), SongOf(ctx))
  }

  // ---------------------------------------------------------------------
  // Writing a shared context back
  // ---------------------------------------------------------------------

  method StoreCounters(ctx: Context, sh: Shared)
    modifies ctx`instrumentTriggers, ctx`sampleTriggers, ctx`generatedSamples, ctx`globalVolume, ctx`currentTempo
    ensures ctx.instrumentTriggers == sh.instrumentTriggers && ctx.sampleTriggers == sh.sampleTriggers
    ensures ctx.generatedSamples == sh.generatedSamples && ctx.globalVolume == sh.globalVolume
    ensures ctx.currentTempo == sh.currentTempo
  {
    ctx.instrumentTriggers, ctx.sampleTriggers := sh.instrumentTriggers, sh.sampleTriggers;
    ctx.generatedSamples, ctx.globalVolume, ctx.currentTempo := sh.generatedSamples, sh.globalVolume, sh.currentTempo;
  }

  method StorePosition(ctx: Context, sh: Shared)
    modifies ctx`currentTableIndex, ctx`currentTick, ctx`currentRow, ctx`jumpDest, ctx`jumpRow
    ensures ctx.currentTableIndex == sh.currentTableIndex && ctx.currentTick == sh.currentTick
    ensures ctx.currentRow == sh.currentRow && ctx.jumpDest == sh.jumpDest && ctx.jumpRow == sh.jumpRow
  {
    ctx.currentTableIndex, ctx.currentTick, ctx.currentRow := sh.currentTableIndex, sh.currentTick, sh.currentRow;
    ctx.jumpDest, ctx.jumpRow := sh.jumpDest, sh.jumpRow;
  }

  method StoreFlags(ctx: Context, sh: Shared)
    modifies ctx`patternBreak, ctx`positionJump, ctx`extraRows, ctx`currentBpm
    ensures ctx.patternBreak == sh.patternBreak && ctx.positionJump == sh.positionJump
    ensures ctx.extraRows == sh.extraRows && ctx.currentBpm == sh.currentBpm
  {
    ctx.patternBreak, ctx.positionJump := sh.patternBreak, sh.positionJump;
    ctx.extraRows, ctx.currentBpm := sh.extraRows, sh.currentBpm;
  }

  /** Writes a shared context over the same tables back into the context. */
  method StoreShared(ctx: Context, sh: Shared)
    requires SameTables(SharedOf(ctx), sh)
    modifies ctx`instrumentTriggers, ctx`sampleTriggers, ctx`generatedSamples, ctx`globalVolume, ctx`currentTempo,
             ctx`currentTableIndex, ctx`currentTick, ctx`currentRow, ctx`jumpDest, ctx`jumpRow,
             ctx`patternBreak, ctx`positionJump, ctx`extraRows, ctx`currentBpm
    ensures SharedOf(ctx) == sh
  {
    StoreCounters(ctx, sh);
    StorePosition(ctx, sh);
    StoreFlags(ctx, sh);
  }

  /** Writes a song over the same tables back into the context. */
  method StoreSong(ctx: Context, s: Song)
    requires SameTables(SharedOf(ctx), s.sh)
    modifies ctx`instrumentTriggers, ctx`sampleTriggers, ctx`generatedSamples, ctx`globalVolume, ctx`currentTempo,
             ctx`currentTableIndex, ctx`currentTick, ctx`currentRow, ctx`jumpDest, ctx`jumpRow,
             ctx`patternBreak, ctx`positionJump, ctx`extraRows, ctx`currentBpm,
             ctx`channels, ctx`rowLoopCount, ctx`loopCount, ctx`extraRowsDone, ctx`remainingSamplesInTick
    ensures SongOf(ctx) == s
  {
    StoreShared(ctx, s.sh);
    StoreChannels(ctx, s);
  }

  /** Writes the channels and the counters of a song back into the context. */
  method StoreChannels(ctx: Context, s: Song)
    modifies ctx`channels, ctx`rowLoopCount, ctx`loopCount, ctx`extraRowsDone, ctx`remainingSamplesInTick
    ensures ctx.channels == s.channels && ctx.rowLoopCount == s.rowLoopCount && ctx.loopCount == s.loopCount
    ensures ctx.extraRowsDone == s.extraRowsDone && ctx.remainingSamplesInTick == s.remainingSamplesInTick
  {
    ctx.channels, ctx.rowLoopCount, ctx.loopCount := s.channels, s.rowLoopCount, s.loopCount;
    ctx.extraRowsDone, ctx.remainingSamplesInTick := s.extraRowsDone, s.remainingSamplesInTick;
  }

  // ---------------------------------------------------------------------
  // xm_row
  // ---------------------------------------------------------------------

  /** maybeRestartPOT: an order index past the end of the order table goes back to the restart position. */
  method MaybeRestartPOT(sh: Shared, length: u16, restart: u8) returns (sh': Shared)
    ensures sh' == sh.(currentTableIndex := RestartIndex(sh.currentTableIndex, length, restart))
  {
    sh' := sh;
    if sh'.currentTableIndex >= length {
      sh' := sh'.(currentTableIndex := restart as u16);
    }
  }

  /** The start of xm_row: a pending jump or break. */
  method StartRow(sh: Shared, length: u16, restart: u8) returns (sh': Shared)
    ensures sh' == ApplyJump(sh, length, restart)
  {
    sh' := sh;
    if sh'.positionJump || sh'.patternBreak {
      if sh'.positionJump {
        sh' := sh'.(currentTableIndex := sh'.jumpDest as u16);
      } else {
        sh' := sh'.(currentTableIndex := Wrap16(sh'.currentTableIndex as int + 1));
        sh' := MaybeRestartPOT(sh', length, restart);
      }
      sh' := sh'.(patternBreak := false, positionJump := false);
      sh' := sh'.(currentRow := sh'.jumpRow, jumpRow := 0);
    }
  }

  /** The end of xm_row: the next row, or the next order entry. */
  method EndRow(sh: Shared, numRows: u16, length: u16, restart: u8) returns (sh': Shared)
    ensures sh' == AdvanceRow(sh, numRows, length, restart)
  {
    sh' := sh.(currentRow := Wrap8(sh.currentRow as int + 1));
    if !sh'.positionJump && !sh'.patternBreak {
      if sh'.currentRow as int >= numRows as int || sh'.currentRow == 0 {
        sh' := sh'.(currentRow := sh'.jumpRow, jumpRow := 0);
        sh' := sh'.(currentTableIndex := Wrap16(sh'.currentTableIndex as int + 1));
        sh' := MaybeRestartPOT(sh', length, restart);
      }
    }
  }

  /** One channel of xm_row, on copies of the shared context and the channel. */
  method ReadRowSlot(handle: SlotHandler, sh: Shared, amigaPeriod: i16 -> u16, ch: Channel, s: Slot) returns (o: Outcome)
    ensures o == RowChannel(handle, sh, amigaPeriod, ch, s)
  {
    var sh', c := sh, ch.(current := s);
    if !(sh.currentTick == 0 && sh.extraRows != 0 && c.current.effectType == EffDelayNote) {
      var h := handle(sh, amigaPeriod, c);
      if h.Trap? {
        return Trap;
      }
      sh', c := h.sh, h.ch;
    }
    if c.shouldResetVibrato && !SlotHasVibrato(c.current) {
      c := c.(vibratoOffset := 0);
    }
    return Next(sh', c);
  }

  /** The channel loop of xm_row on copies of the shared context and the channels. */
  method RowChannelsLoop(handle: SlotHandler, sh: Shared, amigaPeriod: i16 -> u16, chans: seq<Channel>, slots: seq<Slot>,
                         start: nat, n: nat)
    returns (ok: bool, sh': Shared, chans': seq<Channel>, inLoop: bool)
    ensures var p := RowChannels(handle, sh, amigaPeriod, chans, slots, start, n);
            (ok <==> p.RowPass?) && (ok ==> p == RowPass(sh', chans', inLoop))
  {
    sh', chans', inLoop := sh, chans, false;
    var k := 0;
    while k < n
      invariant k <= n
      invariant RowChannels(handle, sh, amigaPeriod, chans, slots, start, k) == RowPass(sh', chans', inLoop)
    {
      if k >= |chans'| || start + k >= |slots| {
        RowTrapStays(handle, sh, amigaPeriod, chans, slots, start, k + 1, n);
        return false, sh', chans', inLoop;
      }
      var o := ReadRowSlot(handle, sh', amigaPeriod, chans'[k], slots[start + k]);
      RowChannelsNext(handle, sh, amigaPeriod, chans, slots, start, k, RowPass(sh', chans', inLoop), o);
      if o.Trap? {
        RowTrapStays(handle, sh, amigaPeriod, chans, slots, start, k + 1, n);
        return false, sh', chans', inLoop;
      }
      if o.ch.patternLoopCount > 0 {
        inLoop := true;
      }
      sh', chans' := o.sh, chans'[k := o.ch];
      k := k + 1;
    }
    return true, sh', chans', inLoop;
  }

  /** xm_row on the song; `None` where the source traps. */
  method Row(handle: SlotHandler, t: Tables, amigaPeriod: i16 -> u16, s: Song) returns (r: Option<Song>)
    ensures r == RowStep(handle, t, amigaPeriod, s)
  {
    var sh := StartRow(s.sh, t.mod.length, t.mod.restartPosition);
    if sh.currentTableIndex as nat >= |t.mod.patternTable| {
      return None;
    }
    var pi := t.mod.patternTable[sh.currentTableIndex] as nat;
    if pi >= |t.patterns| {
      return None;
    }
    var pat := t.patterns[pi];
    var nc := t.mod.numChannels as nat;
    var ok, sh', chans, inLoop := RowChannelsLoop(handle, sh, amigaPeriod, s.channels, t.patternSlots,
                                                  pat.rowsIndex as nat * nc + sh.currentRow as nat * nc, nc);
    if !ok {
      return None;
    }
    var loopCount, counts := s.loopCount, s.rowLoopCount;
    if !inLoop {
      var idx := sh'.currentTableIndex as nat * MaxRowsPerPattern + sh'.currentRow as nat;
      if idx < |counts| {
        loopCount := counts[idx];
        counts := counts[idx := Wrap8(counts[idx] as int + 1)];
      }
    }
    sh' := EndRow(sh', pat.numRows, t.mod.length, t.mod.restartPosition);
    return Some(s.(sh := sh', channels := chans, loopCount := loopCount, rowLoopCount := counts));
  }

  // ---------------------------------------------------------------------
  // xm_tick
  // ---------------------------------------------------------------------

  /** The start of xm_tick: the clock; `latch` says whether a row is to be read. */
  method StartTick(c: Clock, tempo: u8) returns (c': Clock, latch: bool)
    ensures (c', latch) == ClockStart(c, tempo)
  {
    c' := c;
    if c'.tick >= tempo {
      c' := c'.(tick := 0, extraRowsDone := Wrap8(c'.extraRowsDone as int + 1));
    }
    latch := c'.tick == 0 && (c'.extraRows == 0 || c'.extraRowsDone > c'.extraRows);
    if latch {
      c' := c'.(extraRows := 0, extraRowsDone := 0);
    }
  }

  /**
   * The body of xm_tick's channel loop, step by step on copies of the
   * shared context and the channel: the function `TickChannel` it computes
   * is the channel tick `Ticker` hands to the loop.
   */
  method TickChannelStep(sh: Shared, amigaPeriod: i16 -> u16, frequency: (bool, u16, u8) -> u32, rate: u16,
                         extraRowsDone: u8, ch: Channel) returns (o: Outcome)
    requires InstrumentsPlayable(sh.instruments)
    ensures o == TickChannel(sh, amigaPeriod, frequency, rate, extraRowsDone, ch)
  {
    var e := TickEnvelopes(sh.instruments, ch);
    if e.None? {
      return Trap;
    }
    var sh', c := sh, e.value;
    if sh.currentTick != 0 || extraRowsDone != 0 {
      var t := TickEffects.TickEffects(sh, amigaPeriod, c);
      if t.Trap? {
        return Trap;
      }
      sh', c := t.sh, t.ch;
    }
    if c.period != 0 {
      var step := Effects.SampleStep(frequency(sh'.amiga, FrequencyPeriod(c), c.arpNoteOffset), rate as u32);
      if step.None? || VolumeBase(c, sh'.globalVolume) >= 0x8000_0000 {
        return Trap;
      }
      c := c.(step := step.value);
    }
    return Next(sh', c);
  }

  /** The channel loop of xm_tick on copies of the shared context and the channels, with the channel tick `step`. */
  method TickChannelsLoop(step: ChannelTick, sh: Shared, extraRowsDone: u8, chans: seq<Channel>, n: nat)
    returns (ok: bool, sh': Shared, chans': seq<Channel>)
    ensures var p := TickChannels(step, sh, extraRowsDone, chans, n);
            (ok <==> p.TickPass?) && (ok ==> p == TickPass(sh', chans'))
  {
    sh', chans' := sh, chans;
    var k := 0;
    while k < n
      invariant k <= n
      invariant TickChannels(step, sh, extraRowsDone, chans, k) == TickPass(sh', chans')
    {
      if k >= |chans'| {
        TickTrapStays(step, sh, extraRowsDone, chans, k + 1, n);
        return false, sh', chans';
      }
      var o := step(sh', extraRowsDone, chans'[k]);
      if o.Trap? {
        TickTrapStays(step, sh, extraRowsDone, chans, k + 1, n);
        return false, sh', chans';
      }
      sh', chans' := o.sh, chans'[k := o.ch];
      k := k + 1;
    }
    return true, sh', chans';
  }

  /** xm_tick on the song, with the player's channel tick; `None` where the source traps. */
  method TickSong(handle: SlotHandler, step: ChannelTick, t: Tables, amigaPeriod: i16 -> u16, s: Song)
    returns (r: Option<Song>)
    ensures r == TickStep(handle, step, t, amigaPeriod, s)
  {
    var c, latch := StartTick(ClockOf(s), s.sh.currentTempo);
    var u := WithClock(s, c);
    if latch {
      var row := Row(handle, t, amigaPeriod, u);
      if row.None? {
        return None;
      }
      u := row.value;
    }
    r := TickChannelsAndTime(step, t, u);
  }

  /** The part of xm_tick after the row: every channel, then the tick and the samples of the tick counted. */
  method TickChannelsAndTime(step: ChannelTick, t: Tables, u: Song)
    returns (r: Option<Song>)
    ensures r == TickAfterRow(step, t, u)
  {
    var ok, sh, chans := TickChannelsLoop(step, u.sh, u.extraRowsDone, u.channels, t.mod.numChannels as nat);
    if !ok {
      return None;
    }
    var samples := SamplesInTick(t.mod.rate, sh.currentBpm);
    if samples.None? {
      return None;
    }
    sh := sh.(currentTick := Wrap8(sh.currentTick as int + 1));
    return Some(u.(sh := sh, channels := chans,
                   remainingSamplesInTick := Wrap32(u.remainingSamplesInTick as int + samples.value as int)));
  }

  /** A tick of the player keeps a playing context valid. */
  lemma PlayerTickKeeps(t: Tables, amigaPeriod: i16 -> u16, frequency: (bool, u16, u8) -> u32, s: Song)
    requires SongValid(t, s)
    ensures var r := TickStep(HandlePatternSlot, Ticker(amigaPeriod, frequency, t.mod.rate), t, amigaPeriod, s);
            r.Some? ==> SongValid(t, r.value) && SameTables(s.sh, r.value.sh)
  {
    PlayerHandler(t.mod.length);
    PlayerTicker(amigaPeriod, frequency, t.mod.rate, t.mod.length);
    TickStepKeeps(HandlePatternSlot, Ticker(amigaPeriod, frequency, t.mod.rate), t, amigaPeriod, s);
  }

  /** A tick keeps the tables of any song, and keeps a valid song valid. */
  lemma TickOutcome(handle: SlotHandler, step: ChannelTick, t: Tables, amigaPeriod: i16 -> u16, s: Song)
    requires HandlerFits(handle, t.mod.length) && TickerFits(step, t.mod.length)
    requires HandlerKeepsTables(handle) && TickerKeepsTables(step)
    ensures var r := TickStep(handle, step, t, amigaPeriod, s);
            r.Some? ==> SameTables(s.sh, r.value.sh) && (SongValid(t, s) ==> SongValid(t, r.value))
  {
    TickStepKeepsTables(handle, step, t, amigaPeriod, s);
    if SongValid(t, s) {
      TickStepKeeps(handle, step, t, amigaPeriod, s);
    }
  }

  /**
   * xm_tick on the context, with the slot processing `handle` and the
   * channel tick `step`. `ok` is false where the source traps; the model
   * then leaves the context as it was. Any loaded context can be ticked,
   * also one whose order table is empty; a valid one stays valid.
   */
  method Tick(ctx: Context, handle: SlotHandler, step: ChannelTick, amigaPeriod: i16 -> u16) returns (ok: bool)
    requires HandlerFits(handle, ctx.mod.length) && TickerFits(step, ctx.mod.length)
    requires HandlerKeepsTables(handle) && TickerKeepsTables(step)
    modifies ctx`instrumentTriggers, ctx`sampleTriggers, ctx`generatedSamples, ctx`globalVolume, ctx`currentTempo,
             ctx`currentTableIndex, ctx`currentTick, ctx`currentRow, ctx`jumpDest, ctx`jumpRow,
             ctx`patternBreak, ctx`positionJump, ctx`extraRows, ctx`currentBpm,
             ctx`channels, ctx`rowLoopCount, ctx`loopCount, ctx`extraRowsDone, ctx`remainingSamplesInTick
    ensures var r := TickStep(handle, step, TablesOf(ctx), amigaPeriod, old(SongOf(ctx)));
            && (ok <==> r.Some?)
            && (ok ==> SongOf(ctx) == r.value)
            && (ok && old(ContextValid(ctx)) ==> ContextValid(ctx))
            && (!ok ==> SongOf(ctx) == old(SongOf(ctx)))
  {
    ghost var t, s := TablesOf(ctx), SongOf(ctx);
    var r := TickSong(handle, step, TablesOf(ctx), amigaPeriod, SongOf(ctx));
    if r.None? {
      return false;
    }
    TickOutcome(handle, step, t, amigaPeriod, s);
    StoreSong(ctx, r.value);
    assert TablesOf(ctx) == t;
    return true;
  }

  /** xm_tick with the player's own slot processing and channel tick. */
  method PlayerTick(ctx: Context, amigaPeriod: i16 -> u16, frequency: (bool, u16, u8) -> u32) returns (ok: bool)
    modifies ctx`instrumentTriggers, ctx`sampleTriggers, ctx`generatedSamples, ctx`globalVolume, ctx`currentTempo,
             ctx`currentTableIndex, ctx`currentTick, ctx`currentRow, ctx`jumpDest, ctx`jumpRow,
             ctx`patternBreak, ctx`positionJump, ctx`extraRows, ctx`currentBpm,
             ctx`channels, ctx`rowLoopCount, ctx`loopCount, ctx`extraRowsDone, ctx`remainingSamplesInTick
    ensures var r := TickStep(HandlePatternSlot, Ticker(amigaPeriod, frequency, ctx.mod.rate), TablesOf(ctx), amigaPeriod,
                              old(SongOf(ctx)));
            && (ok <==> r.Some?)
            && (ok ==> SongOf(ctx) == r.value)
            && (ok && old(ContextValid(ctx)) ==> ContextValid(ctx))
            && (!ok ==> SongOf(ctx) == old(SongOf(ctx)))
  {
    PlayerHandler(ctx.mod.length);
    PlayerTicker(amigaPeriod, frequency, ctx.mod.rate, ctx.mod.length);
    ok := Tick(ctx, HandlePatternSlot, Ticker(amigaPeriod, frequency, ctx.mod.rate), amigaPeriod);
  }
}
