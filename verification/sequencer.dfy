/**
 * The sequencer of the player as functions on values: xm_row, which reads
 * the next row of the current pattern into the channels and then moves the
 * song position, and xm_tick, which counts the ticks of a row, latches a
 * new row on its first tick and runs the per-tick processing of every
 * channel. `Playback` runs them on the context.
 *
 * The float part of xm_tick (the output volumes and the panning law) is
 * not modelled; the frequency of a period is a parameter.
 */
module Sequencer {
  import opened Wrappers
  import opened Ints
  import opened XMTypes
  import opened Effects
  import opened Envelopes
  import opened LoaderFixup
  import opened Slots
  import opened TickEffects

  // ---------------------------------------------------------------------
  // The context as values
  // ---------------------------------------------------------------------

  /** What playback reads and never writes: the module header, the patterns, their slots and the sample data. */
  datatype Tables = Tables(mod: Module, patterns: seq<Pattern>, patternSlots: seq<Slot>, samplesData: seq<i16>)

  /**
   * What playback writes: the shared context, the channels, the per-row
   * visit counters, the loop count, the passes of a pattern delay done so
   * far and the samples left in the current tick.
   */
  datatype Song = Song(
    sh: Shared,
    channels: seq<Channel>,
    rowLoopCount: seq<u8>,
    loopCount: u8,
    extraRowsDone: u8,
    remainingSamplesInTick: u32)

  /** A channel that fits the tables and plays a fixed-up slot. */
  predicate ChannelReady(sh: Shared, ch: Channel, length: u16)
  {
    ChannelFits(sh, ch) && SlotNormal(ch.current, length)
  }

  predicate AllReady(sh: Shared, chans: seq<Channel>, length: u16)
  {
    forall k :: 0 <= k < |chans| ==> ChannelReady(sh, chans[k], length)
  }

  predicate SlotsNormal(slots: seq<Slot>, length: u16)
  {
    forall k :: 0 <= k < |slots| ==> SlotNormal(slots[k], length)
  }

  /**
   * What a loaded context keeps while it plays: consistent tables, an
   * order table of at least one entry with the restart position and the
   * current entry inside it, a requested jump inside it too, one fitting
   * channel per module channel, and fixed-up pattern slots.
   */
  predicate SongValid(t: Tables, s: Song)
  {
    && SharedValid(s.sh)
    && 0 < t.mod.length
    && (t.mod.restartPosition as int) < (t.mod.length as int)
    && s.sh.currentTableIndex < t.mod.length
    && JumpValid(s.sh, t.mod.length)
    && |s.channels| == t.mod.numChannels as nat
    && AllReady(s.sh, s.channels, t.mod.length)
    && SlotsNormal(t.patternSlots, t.mod.length)
  }

  /** Channels that were ready stay ready over tables of the same sizes. */
  lemma ReadyAcross(sh: Shared, sh': Shared, chans: seq<Channel>, length: u16)
    requires AllReady(sh, chans, length)
    requires |sh'.instruments| == |sh.instruments| && |sh'.samples| == |sh.samples|
    ensures AllReady(sh', chans, length)
  {
    forall k | 0 <= k < |chans|
      ensures ChannelReady(sh', chans[k], length)
    {
      assert ChannelReady(sh, chans[k], length);
    }
  }

  /** Replacing one channel by a ready one keeps all channels ready. */
  lemma ReadyUpdate(sh: Shared, chans: seq<Channel>, k: nat, c: Channel, length: u16)
    requires AllReady(sh, chans, length) && k < |chans| && ChannelReady(sh, c, length)
    ensures AllReady(sh, chans[k := c], length)
  {
    var cs := chans[k := c];
    forall j | 0 <= j < |cs|
      ensures ChannelReady(sh, cs[j], length)
    {
      if j != k {
        assert ChannelReady(sh, chans[j], length);
      }
    }
  }

  // ---------------------------------------------------------------------
  // The song position
  // ---------------------------------------------------------------------

  /** maybeRestartPOT: an order index past the end of the order table goes back to the restart position. */
  function RestartIndex(index: u16, length: u16, restart: u8): u16
  {
    if index >= length then restart as u16 else index
  }

  /** The entry after an entry of the order table is the next one, or the restart position after the last. */
  lemma NextEntry(index: u16, length: u16, restart: u8)
    requires index < length && (restart as int) < (length as int)
    ensures var r := RestartIndex(Wrap16(index as int + 1), length, restart);
            && r < length
            && (index as int + 1 < length as int ==> r == index + 1)
            && (index as int + 1 == length as int ==> r == restart as u16)
  {
  }

  /**
   * The start of xm_row: a pending position jump goes to its order entry
   * and a pending pattern break to the next entry (the restart position
   * after the last), either way at the requested row; both requests are
   * cleared.
   */
  function ApplyJump(sh: Shared, length: u16, restart: u8): Shared
  {
    if sh.positionJump || sh.patternBreak then
      var index := if sh.positionJump then sh.jumpDest as u16
                   else RestartIndex(Wrap16(sh.currentTableIndex as int + 1), length, restart);
      sh.(currentTableIndex := index, patternBreak := false, positionJump := false,
          currentRow := sh.jumpRow, jumpRow := 0)
    else sh
  }

  /**
   * After the start of a row the order index is in the order table,
   * nothing is pending, the row is the requested one when a request was
   * pending, and nothing but the position changed.
   */
  lemma ApplyJumpLands(sh: Shared, length: u16, restart: u8)
    requires sh.currentTableIndex < length && (restart as int) < (length as int) && JumpValid(sh, length)
    ensures var r := ApplyJump(sh, length, restart);
            && r.currentTableIndex < length && !r.positionJump && !r.patternBreak
            && r.currentRow == (if sh.positionJump || sh.patternBreak then sh.jumpRow else sh.currentRow)
            && (sh.positionJump ==> r.currentTableIndex == sh.jumpDest as u16)
            && r == sh.(currentTableIndex := r.currentTableIndex, currentRow := r.currentRow, jumpRow := r.jumpRow,
                        positionJump := false, patternBreak := false)
  {
    if !sh.positionJump && sh.patternBreak {
      NextEntry(sh.currentTableIndex, length, restart);
    }
  }

  /**
   * The end of xm_row: the row advances (wrapping at 256). Unless a jump
   * or a break was requested during the row, passing the pattern's last
   * row moves to the next order entry, at the row a pattern loop left
   * requested (0 otherwise).
   */
  function AdvanceRow(sh: Shared, numRows: u16, length: u16, restart: u8): Shared
  {
    var row := Wrap8(sh.currentRow as int + 1);
    if !sh.positionJump && !sh.patternBreak && (row as int >= numRows as int || row == 0) then
      sh.(currentRow := sh.jumpRow, jumpRow := 0,
          currentTableIndex := RestartIndex(Wrap16(sh.currentTableIndex as int + 1), length, restart))
    else sh.(currentRow := row)
  }

  /**
   * Inside a pattern, or with a request pending, the row just advances;
   * past the pattern's last row the song goes on at the next order entry,
   * or at the restart position after the last entry. The order index stays
   * in the order table.
   */
  lemma RowAdvances(sh: Shared, numRows: u16, length: u16, restart: u8)
    requires sh.currentTableIndex < length && (restart as int) < (length as int)
    ensures var r := AdvanceRow(sh, numRows, length, restart);
            && r.currentTableIndex < length
            && (sh.currentRow < 255 && (sh.positionJump || sh.patternBreak || sh.currentRow as int + 1 < numRows as int) ==>
                  r.currentRow as int == sh.currentRow as int + 1 && r.currentTableIndex == sh.currentTableIndex)
            && (!sh.positionJump && !sh.patternBreak && (sh.currentRow == 255 || sh.currentRow as int + 1 >= numRows as int) ==>
                  && r.currentRow == sh.jumpRow && r.jumpRow == 0
                  && r.currentTableIndex == (if sh.currentTableIndex as int + 1 < length as int then sh.currentTableIndex + 1 else restart as u16))
            && r == sh.(currentTableIndex := r.currentTableIndex, currentRow := r.currentRow, jumpRow := r.jumpRow)
  {
    NextEntry(sh.currentTableIndex, length, restart);
  }

  // ---------------------------------------------------------------------
  // A row
  // ---------------------------------------------------------------------

  /** On the first tick of a delayed pattern a note delay slot is not read again. */
  predicate DelaysSlot(sh: Shared, s: Slot)
  {
    sh.currentTick == 0 && sh.extraRows != 0 && s.effectType == EffDelayNote
  }

  /**
   * One channel of xm_row: the channel takes the slot; the slot is read
   * unless `DelaysSlot`; a vibrato that ended is reset when the new slot
   * has none.
   */
  function RowChannel(handle: SlotHandler, sh: Shared, amigaPeriod: i16 -> u16, ch: Channel, s: Slot): Outcome
  {
    var c := ch.(current := s);
    var h := if DelaysSlot(sh, s) then Next(sh, c) else handle(sh, amigaPeriod, c);
    if h.Trap? then Trap else Next(h.sh, EndVibrato(h.ch))
  }

  /**
   * The vibrato offset is cleared when a vibrato asked for it and the slot
   * has no vibrato; nothing else of the channel changes.
   */
  function EndVibrato(ch: Channel): (c: Channel)
    ensures c == ch.(vibratoOffset := c.vibratoOffset)
    ensures c.vibratoOffset != ch.vibratoOffset ==> c.vibratoOffset == 0 && ch.shouldResetVibrato && !SlotHasVibrato(ch.current)
    ensures ch.shouldResetVibrato && !SlotHasVibrato(ch.current) ==> c.vibratoOffset == 0
  {
    if ch.shouldResetVibrato && !SlotHasVibrato(ch.current) then ch.(vibratoOffset := 0) else ch
  }

  /**
   * What reads a pattern slot into a channel: `HandlePatternSlot` in the
   * player. The sequencer takes it as a parameter and asks of it only what
   * `HandlerKeeps` and `HandlerFits` say, which `PlayerHandler` proves of
   * `HandlePatternSlot`.
   */
  type SlotHandler = (Shared, i16 -> u16, Channel) -> Outcome

  /**
   * The handler applied to a slot. The properties below are stated on this
   * name, so that a proof draws on them only where it names a handler step.
   */
  ghost function Handled(handle: SlotHandler, sh: Shared, ap: i16 -> u16, ch: Channel): Outcome
  {
    handle(sh, ap, ch)
  }

  /** The handler keeps a consistent context consistent and the channel fitting (see `SlotStep`). */
  ghost predicate HandlerFits(handle: SlotHandler, length: u16)
  {
    forall sh: Shared, ap: i16 -> u16, ch: Channel {:trigger Handled(handle, sh, ap, ch)} ::
      SharedValid(sh) && ChannelFits(sh, ch) && SlotNormal(ch.current, length)
      && 0 < length && sh.currentTableIndex < length && JumpValid(sh, length)
      ==> SlotStep(sh, length, ch.current, Handled(handle, sh, ap, ch))
  }

  /** The handler never changes the tables or the module's flags, whatever the context. */
  ghost predicate HandlerKeepsTables(handle: SlotHandler)
  {
    forall sh: Shared, ap: i16 -> u16, ch: Channel {:trigger Handled(handle, sh, ap, ch)} ::
      Handled(handle, sh, ap, ch).Next? ==> SameTables(sh, Handled(handle, sh, ap, ch).sh)
  }

  /** The player's slot processing is a handler the sequencer can use. */
  lemma PlayerHandler(length: u16)
    ensures HandlerFits(HandlePatternSlot, length) && HandlerKeepsTables(HandlePatternSlot)
  {
    forall sh: Shared, ap: i16 -> u16, ch: Channel |
      SharedValid(sh) && ChannelFits(sh, ch) && SlotNormal(ch.current, length)
      && 0 < length && sh.currentTableIndex < length && JumpValid(sh, length)
      ensures SlotStep(sh, length, ch.current, Handled(HandlePatternSlot, sh, ap, ch))
    {
      HandlePatternSlotFits(sh, ap, ch, length);
    }
  }

  /** The state of xm_row's channel loop: the context, the channels, and whether a channel is in a pattern loop. */
  datatype RowPass = RowTrapped | RowPass(sh: Shared, channels: seq<Channel>, inLoop: bool)

  /**
   * The first `n` channels of xm_row, the slots read from `start` on.
   * Reading a channel or a slot past the end of its table traps.
   */
  function RowChannels(handle: SlotHandler, sh: Shared, amigaPeriod: i16 -> u16, chans: seq<Channel>, slots: seq<Slot>,
                       start: nat, n: nat): (r: RowPass)
    ensures r.RowPass? ==> |r.channels| == |chans|
  {
    if n == 0 then RowPass(sh, chans, false)
    else
      var p := RowChannels(handle, sh, amigaPeriod, chans, slots, start, n - 1);
      if p.RowTrapped? || n - 1 >= |p.channels| || start + n - 1 >= |slots| then RowTrapped
      else
        var o := RowChannel(handle, p.sh, amigaPeriod, p.channels[n - 1], slots[start + n - 1]);
        if o.Trap? then RowTrapped
        else RowPass(o.sh, p.channels[n - 1 := o.ch], p.inLoop || o.ch.patternLoopCount > 0)
  }

  /** One more channel of xm_row's channel loop. */
  lemma RowChannelsNext(handle: SlotHandler, sh: Shared, amigaPeriod: i16 -> u16, chans: seq<Channel>, slots: seq<Slot>, start: nat, k: nat,
                        p: RowPass, o: Outcome)
    requires RowChannels(handle, sh, amigaPeriod, chans, slots, start, k) == p && p.RowPass?
    requires k < |p.channels| && start + k < |slots| && o == RowChannel(handle, p.sh, amigaPeriod, p.channels[k], slots[start + k])
    ensures o.Trap? ==> RowChannels(handle, sh, amigaPeriod, chans, slots, start, k + 1).RowTrapped?
    ensures o.Next? ==> RowChannels(handle, sh, amigaPeriod, chans, slots, start, k + 1) ==
                          RowPass(o.sh, p.channels[k := o.ch], p.inLoop || o.ch.patternLoopCount > 0)
  {
  }

  /** A trap ends xm_row's channel loop: the later channels are not reached. */
  lemma {:induction false} RowTrapStays(handle: SlotHandler, sh: Shared, amigaPeriod: i16 -> u16, chans: seq<Channel>, slots: seq<Slot>,
                                        start: nat, k: nat, n: nat)
    requires k <= n && RowChannels(handle, sh, amigaPeriod, chans, slots, start, k).RowTrapped?
    ensures RowChannels(handle, sh, amigaPeriod, chans, slots, start, n).RowTrapped?
    decreases n
  {
    if k < n {
      RowTrapStays(handle, sh, amigaPeriod, chans, slots, start, k, n - 1);
    }
  }

  /**
   * The row-visit counter of the row at order entry `index`: the loop
   * count becomes the number of earlier visits and the counter counts this
   * one (wrapping at 256); a row without a counter changes nothing.
   */
  function CountVisit(counts: seq<u8>, loopCount: u8, index: u16, row: u8): (r: (u8, seq<u8>))
    ensures |r.1| == |counts|
    ensures forall j :: 0 <= j < |counts| && j != index as nat * MaxRowsPerPattern + row as nat ==> r.1[j] == counts[j]
  {
    var i := index as nat * MaxRowsPerPattern + row as nat;
    if i < |counts| then (counts[i], counts[i := Wrap8(counts[i] as int + 1)]) else (loopCount, counts)
  }

  /**
   * xm_row: the pending jump, the row's slots into every channel, the
   * visit count of the row unless a channel is in a pattern loop, and the
   * advance of the position. `None` where the source traps: an order index
   * past the order table, a pattern index past the patterns, a slot past
   * the pattern data, or a channel's slot processing.
   */
  function RowStep(handle: SlotHandler, t: Tables, amigaPeriod: i16 -> u16, s: Song): (r: Option<Song>)
    ensures r.Some? ==> |r.value.channels| == |s.channels|
  {
    var m := t.mod;
    var sh := ApplyJump(s.sh, m.length, m.restartPosition);
    if sh.currentTableIndex as nat >= |m.patternTable| then None
    else
      var pi := m.patternTable[sh.currentTableIndex] as nat;
      if pi >= |t.patterns| then None else RowFrom(handle, t, amigaPeriod, s, sh, t.patterns[pi])
  }

  /**
   * xm_row once the position is settled on a row of pattern `pat`: the
   * slots of the row into every channel, then the end of the row.
   */
  function RowFrom(handle: SlotHandler, t: Tables, amigaPeriod: i16 -> u16, s: Song, sh: Shared, pat: Pattern): (r: Option<Song>)
    ensures r.Some? ==> |r.value.channels| == |s.channels|
  {
    var nc := t.mod.numChannels as nat;
    var p := RowChannels(handle, sh, amigaPeriod, s.channels, t.patternSlots, pat.rowsIndex as nat * nc + sh.currentRow as nat * nc, nc);
    if p.RowTrapped? then None else Some(RowEnd(t, s, p, pat.numRows))
  }

  /**
   * The end of xm_row once its channels are read: the visit count of the
   * row unless a channel is in a pattern loop, and the advance of the
   * position in a pattern of `numRows` rows.
   */
  function RowEnd(t: Tables, s: Song, p: RowPass, numRows: u16): (r: Song)
    requires p.RowPass?
    ensures r.channels == p.channels && r.extraRowsDone == s.extraRowsDone
    ensures r.remainingSamplesInTick == s.remainingSamplesInTick
  {
    var visit := if p.inLoop then (s.loopCount, s.rowLoopCount)
                 else CountVisit(s.rowLoopCount, s.loopCount, p.sh.currentTableIndex, p.sh.currentRow);
    s.(sh := AdvanceRow(p.sh, numRows, t.mod.length, t.mod.restartPosition),
       channels := p.channels, loopCount := visit.0, rowLoopCount := visit.1)
  }

  // ---------------------------------------------------------------------
  // What a row keeps
  // ---------------------------------------------------------------------

  /** One channel of a row keeps the context consistent, and the channel fits and plays the slot. */
  lemma RowChannelFits(handle: SlotHandler, sh: Shared, amigaPeriod: i16 -> u16, ch: Channel, s: Slot, length: u16)
    requires HandlerFits(handle, length)
    requires SharedValid(sh) && ChannelFits(sh, ch) && SlotNormal(s, length)
    requires 0 < length && sh.currentTableIndex < length && JumpValid(sh, length)
    ensures SlotStep(sh, length, s, RowChannel(handle, sh, amigaPeriod, ch, s))
  {
    var c := ch.(current := s);
    assert ChannelFits(sh, c);
    var h := if DelaysSlot(sh, s) then Next(sh, c) else Handled(handle, sh, amigaPeriod, c);

    if h.Next? {
      FitsKept(h.sh, h.sh, h.ch, EndVibrato(h.ch));
      assert RowChannel(handle, sh, amigaPeriod, ch, s) == Next(h.sh, EndVibrato(h.ch));
    }
  }

  /** One step of xm_row's channel loop keeps the loop's invariant. */
  lemma RowPassStep(handle: SlotHandler, sh0: Shared, p: RowPass, amigaPeriod: i16 -> u16, s: Slot, k: nat, length: u16)
    requires HandlerFits(handle, length) && SharedValid(sh0) && 0 < length && sh0.currentTableIndex < length
    requires p.RowPass? && Evolves(sh0, p.sh) && JumpValid(p.sh, length) && AllReady(p.sh, p.channels, length)
    requires k < |p.channels| && SlotNormal(s, length)
    ensures var o := RowChannel(handle, p.sh, amigaPeriod, p.channels[k], s);
            o.Next? ==> Evolves(sh0, o.sh) && JumpValid(o.sh, length) && AllReady(o.sh, p.channels[k := o.ch], length)
  {
    assert ChannelReady(p.sh, p.channels[k], length);
    RowChannelFits(handle, p.sh, amigaPeriod, p.channels[k], s, length);
    var o := RowChannel(handle, p.sh, amigaPeriod, p.channels[k], s);
    if o.Next? {
      ReadyAcross(p.sh, o.sh, p.channels, length);
      ReadyUpdate(o.sh, p.channels, k, o.ch, length);
    }
  }

  /**
   * The channel loop of a row keeps the context consistent, and every
   * channel fits and plays a fixed-up slot.
   */
  lemma {:induction false} RowChannelsFit(handle: SlotHandler, sh: Shared, amigaPeriod: i16 -> u16, chans: seq<Channel>, slots: seq<Slot>,
                                          start: nat, n: nat, length: u16)
    requires HandlerFits(handle, length)
    requires SharedValid(sh) && 0 < length && sh.currentTableIndex < length && JumpValid(sh, length)
    requires AllReady(sh, chans, length) && SlotsNormal(slots, length)
    ensures var r := RowChannels(handle, sh, amigaPeriod, chans, slots, start, n);
            r.RowPass? ==> Evolves(sh, r.sh) && JumpValid(r.sh, length) && AllReady(r.sh, r.channels, length)
  {
    if n > 0 {
      RowChannelsFit(handle, sh, amigaPeriod, chans, slots, start, n - 1, length);
      var p := RowChannels(handle, sh, amigaPeriod, chans, slots, start, n - 1);
      if p.RowPass? && n - 1 < |p.channels| && start + n - 1 < |slots| {
        RowPassStep(handle, sh, p, amigaPeriod, slots[start + n - 1], n - 1, length);
      }
    }
  }

  /** The start of a row keeps a playing context valid. */
  lemma ApplyJumpValid(t: Tables, s: Song)
    requires SongValid(t, s)
    ensures SongValid(t, s.(sh := ApplyJump(s.sh, t.mod.length, t.mod.restartPosition)))
  {
    ApplyJumpLands(s.sh, t.mod.length, t.mod.restartPosition);
    ReadyAcross(s.sh, ApplyJump(s.sh, t.mod.length, t.mod.restartPosition), s.channels, t.mod.length);
  }

  /** The end of a row keeps a playing context valid. */
  lemma AdvanceRowValid(t: Tables, s: Song, numRows: u16)
    requires SongValid(t, s)
    ensures SongValid(t, s.(sh := AdvanceRow(s.sh, numRows, t.mod.length, t.mod.restartPosition)))
  {
    RowAdvances(s.sh, numRows, t.mod.length, t.mod.restartPosition);
    ReadyAcross(s.sh, AdvanceRow(s.sh, numRows, t.mod.length, t.mod.restartPosition), s.channels, t.mod.length);
  }

  /** The channels and the end of a row keep a playing context valid. */
  lemma RowEndValid(t: Tables, s: Song, sh: Shared, p: RowPass, numRows: u16)
    requires SongValid(t, s.(sh := sh)) && SameTables(s.sh, sh)
    requires p.RowPass? && Evolves(sh, p.sh) && JumpValid(p.sh, t.mod.length) && AllReady(p.sh, p.channels, t.mod.length)
    requires |p.channels| == |s.channels|
    ensures SongValid(t, RowEnd(t, s, p, numRows)) && SameTables(s.sh, RowEnd(t, s, p, numRows).sh)
  {
    var visit := if p.inLoop then (s.loopCount, s.rowLoopCount)
                 else CountVisit(s.rowLoopCount, s.loopCount, p.sh.currentTableIndex, p.sh.currentRow);
    var s1 := s.(sh := p.sh, channels := p.channels, loopCount := visit.0, rowLoopCount := visit.1);
    assert SongValid(t, s1);
    AdvanceRowValid(t, s1, numRows);
  }

  /** The channels of a row, read from a consistent position, keep a playing context valid. */
  lemma RowFromKeeps(handle: SlotHandler, t: Tables, amigaPeriod: i16 -> u16, s: Song, sh: Shared, pat: Pattern)
    requires HandlerFits(handle, t.mod.length) && SongValid(t, s.(sh := sh)) && SameTables(s.sh, sh)
    ensures var r := RowFrom(handle, t, amigaPeriod, s, sh, pat);
            r.Some? ==> SongValid(t, r.value) && SameTables(s.sh, r.value.sh)
  {
    var nc := t.mod.numChannels as nat;
    var start := pat.rowsIndex as nat * nc + sh.currentRow as nat * nc;
    RowChannelsFit(handle, sh, amigaPeriod, s.channels, t.patternSlots, start, nc, t.mod.length);
    var p := RowChannels(handle, sh, amigaPeriod, s.channels, t.patternSlots, start, nc);
    if p.RowPass? {
      RowEndValid(t, s, sh, p, pat.numRows);
    }
  }

  /** A row keeps a playing context valid. */
  lemma RowStepKeeps(handle: SlotHandler, t: Tables, amigaPeriod: i16 -> u16, s: Song)
    requires HandlerFits(handle, t.mod.length) && SongValid(t, s)
    ensures var r := RowStep(handle, t, amigaPeriod, s);
            r.Some? ==> SongValid(t, r.value) && SameTables(s.sh, r.value.sh)
  {
    var m := t.mod;
    var sh := ApplyJump(s.sh, m.length, m.restartPosition);
    ApplyJumpValid(t, s);
    if sh.currentTableIndex as nat < |m.patternTable| {
      var pi := m.patternTable[sh.currentTableIndex] as nat;
      if pi < |t.patterns| {
        RowFromKeeps(handle, t, amigaPeriod, s, sh, t.patterns[pi]);
      }
    }
  }

  // ---------------------------------------------------------------------
  // The tick clock
  // ---------------------------------------------------------------------

  /** The tick within the row, the passes of a pattern delay done, and the passes requested. */
  datatype Clock = Clock(tick: u8, extraRowsDone: u8, extraRows: u8)

  function ClockOf(s: Song): Clock
  {
    Clock(s.sh.currentTick, s.extraRowsDone, s.sh.extraRows)
  }

  /** The song with its clock set to `c`. */
  function WithClock(s: Song, c: Clock): (r: Song)
    ensures ClockOf(r) == c
  {
    s.(sh := s.sh.(currentTick := c.tick, extraRows := c.extraRows), extraRowsDone := c.extraRowsDone)
  }

  /**
   * The start of xm_tick: at the tempo the tick goes back to 0 and one
   * more pass of the row is done; on tick 0, with no pattern delay or the
   * delay's passes all done, the clock is cleared and a new row is read
   * (the second component).
   */
  function ClockStart(c: Clock, tempo: u8): (r: (Clock, bool))
    ensures r.1 ==> r.0 == Clock(0, 0, 0)
    ensures !r.1 ==> r.0.extraRows == c.extraRows
    ensures 0 < c.tick < tempo ==> r == (c, false)
    ensures c.extraRows == 0 && (c.tick == 0 || c.tick >= tempo) ==> r.1
    ensures c.extraRows != 0 && c.tick >= tempo && c.extraRowsDone < c.extraRows ==>
              r == (Clock(0, c.extraRowsDone + 1, c.extraRows), false)
  {
    var c1 := if c.tick >= tempo then c.(tick := 0, extraRowsDone := Wrap8(c.extraRowsDone as int + 1)) else c;
    if c1.tick == 0 && (c1.extraRows == 0 || c1.extraRowsDone > c1.extraRows) then (Clock(0, 0, 0), true)
    else (c1, false)
  }

  /** The clock over a whole tick: its start, and the tick counted at the end (wrapping at 256). */
  function ClockTick(c: Clock, tempo: u8): (Clock, bool)
  {
    var r := ClockStart(c, tempo);
    (r.0.(tick := Wrap8(r.0.tick as int + 1)), r.1)
  }

  /** The clock after `n` ticks at a fixed tempo and delay, and the number of rows read on the way. */
  function ClockRun(c: Clock, tempo: u8, n: nat): (Clock, nat)
    decreases n
  {
    if n == 0 then (c, 0)
    else
      var r := ClockTick(c, tempo);
      var q := ClockRun(r.0, tempo, n - 1);
      (q.0, q.1 + if r.1 then 1 else 0)
  }

  /** Running `a` ticks and then `b` more is running `a + b`. */
  lemma {:induction false} ClockRunAdd(c: Clock, tempo: u8, a: nat, b: nat)
    ensures var p := ClockRun(c, tempo, a);
            var q := ClockRun(p.0, tempo, b);
            ClockRun(c, tempo, a + b) == (q.0, p.1 + q.1)
    decreases a
  {
    if a > 0 {
      var r := ClockTick(c, tempo);
      ClockRunAdd(r.0, tempo, a - 1, b);
      assert a + b - 1 == (a - 1) + b;
    }
  }

  /** Inside one pass of a row the tick just counts up and no row is read. */
  lemma {:induction false} WithinPass(tempo: u8, done: u8, delay: u8, k: nat)
    requires 1 <= k as int <= tempo as int
    ensures ClockRun(Clock(1, done, delay), tempo, k - 1) == (Clock(k as u8, done, delay), 0)
  {
    if k > 1 {
      WithinPass(tempo, done, delay, k - 1);
      ClockRunAdd(Clock(1, done, delay), tempo, k - 2, 1);
      var c := Clock((k - 1) as u8, done, delay);
      assert ClockTick(c, tempo) == (Clock(k as u8, done, delay), false);
    }
  }

  /** The first `j + 1` passes of a row delayed by `delay` passes read no row. */
  lemma {:induction false} DelayPasses(tempo: u8, delay: u8, j: nat)
    requires 1 <= tempo && j <= delay as nat
    ensures ClockRun(Clock(1, 0, delay), tempo, (j + 1) * tempo as nat - 1) == (Clock(tempo, j as u8, delay), 0)
  {
    if j == 0 {
      WithinPass(tempo, 0, delay, tempo as nat);
    } else {
      DelayPasses(tempo, delay, j - 1);
      var a := j * tempo as nat - 1;
      ClockRunAdd(Clock(1, 0, delay), tempo, a, 1);
      assert ClockTick(Clock(tempo, (j - 1) as u8, delay), tempo) == (Clock(1, j as u8, delay), false);
      WithinPass(tempo, j as u8, delay, tempo as nat);
      ClockRunAdd(Clock(1, 0, delay), tempo, a + 1, tempo as nat - 1);
      assert (j + 1) * tempo as nat - 1 == a + 1 + (tempo as nat - 1);
    }
  }

  /**
   * A row read with a pattern delay of `delay` passes (none for 0) lasts
   * exactly `(delay + 1) * tempo` ticks: no row is read before, and the
   * next tick reads the next one with a cleared delay.
   */
  lemma PatternDelayTicks(tempo: u8, delay: u8)
    requires 1 <= tempo && delay < 255
    ensures ClockRun(Clock(1, 0, delay), tempo, (delay as nat + 1) * tempo as nat - 1) == (Clock(tempo, delay, delay), 0)
    ensures ClockTick(Clock(tempo, delay, delay), tempo) == (Clock(1, 0, 0), true)
    ensures ClockRun(Clock(1, 0, delay), tempo, (delay as nat + 1) * tempo as nat) == (Clock(1, 0, 0), 1)
  {
    DelayPasses(tempo, delay, delay as nat);
    var n := (delay as nat + 1) * tempo as nat - 1;
    ClockRunAdd(Clock(1, 0, delay), tempo, n, 1);
  }

  // ---------------------------------------------------------------------
  // A tick
  // ---------------------------------------------------------------------

  /**
   * The period the frequency is taken of: the channel's period less its
   * vibrato and autovibrato offsets, clamped to at least 1 and at most
   * 65535.
   */
  function FrequencyPeriod(ch: Channel): (p: u16)
    ensures 1 <= p
    ensures var q := ch.period as int - ch.vibratoOffset as int - ch.autovibratoOffset as int;
            (1 <= q <= 0xFFFF ==> p as int == q) && (q < 1 ==> p == 1) && (q > 0xFFFF ==> p == 0xFFFF)
  {
    var q := ch.period as int - ch.vibratoOffset as int - ch.autovibratoOffset as int;
    if q < 1 then 1 else if q > 0xFFFF then 0xFFFF else q
  }

  /**
   * One channel of xm_tick: the envelopes, the effects on every tick but
   * the first of the row's first pass, and for a playing period the step
   * through the sample (the frequency of a period, an arpeggio offset and
   * the frequency mode is the parameter `frequency`). The source traps where
   * the envelopes, the effects or the step trap, or where the volume
   * overflows 32 bits.
   */
  function TickChannel(sh: Shared, amigaPeriod: i16 -> u16, frequency: (bool, u16, u8) -> u32, rate: u16,
                       extraRowsDone: u8, ch: Channel): (r: Outcome)
    requires InstrumentsPlayable(sh.instruments)
    ensures r.Next? ==> SameTables(sh, r.sh)
  {
    var o := ChannelEffects(sh, amigaPeriod, extraRowsDone, ch);
    if o.Trap? then Trap else ChannelStepping(o.sh, frequency, rate, o.ch)
  }

  /** The first part of a channel's tick: the envelopes, then the effects unless on the row's very first tick. */
  function ChannelEffects(sh: Shared, amigaPeriod: i16 -> u16, extraRowsDone: u8, ch: Channel): (r: Outcome)
    requires InstrumentsPlayable(sh.instruments)
  {
    var e := InstrumentTick(sh.instruments, ch);
    if e.None? then Trap
    else if sh.currentTick != 0 || extraRowsDone != 0 then TickEffects.TickEffects(sh, amigaPeriod, e.value)
    else Next(sh, e.value)
  }

  /** The second part: for a playing period, the step through the sample and the 32-bit volume check. */
  function ChannelStepping(sh: Shared, frequency: (bool, u16, u8) -> u32, rate: u16, ch: Channel): (r: Outcome)
    ensures r.Next? ==> r.sh == sh && r.ch == ch.(step := r.ch.step)
  {
    if ch.period == 0 then Next(sh, ch)
    else
      var step := Effects.SampleStep(frequency(sh.amiga, FrequencyPeriod(ch), ch.arpNoteOffset), rate as u32);
      if step.None? || VolumeBase(ch, sh.globalVolume) >= 0x8000_0000 then Trap
      else Next(sh, ch.(step := step.value))
  }

  /**
   * With the channel invariant and the global volume in range the volume
   * check never fails: stepping traps exactly where the sample step does.
   */
  lemma SteppingTraps(sh: Shared, frequency: (bool, u16, u8) -> u32, rate: u16, ch: Channel)
    requires ChannelValid(ch) && sh.globalVolume <= MaxVolume
    ensures ChannelStepping(sh, frequency, rate, ch).Trap? <==>
              ch.period != 0 && Effects.SampleStep(frequency(sh.amiga, FrequencyPeriod(ch), ch.arpNoteOffset), rate as u32).None?
  {
    VolumeBaseFits(ch, sh.globalVolume);
  }

  /** The envelopes and effects of a consistent context keep it consistent. */
  lemma ChannelEffectsFits(sh: Shared, amigaPeriod: i16 -> u16, extraRowsDone: u8, ch: Channel, length: u16)
    requires SharedValid(sh) && ChannelFits(sh, ch) && SlotNormal(ch.current, length)
    requires 0 < length && sh.currentTableIndex < length && JumpValid(sh, length)
    ensures InstrumentsPlayable(sh.instruments)
    ensures SlotStep(sh, length, ch.current, ChannelEffects(sh, amigaPeriod, extraRowsDone, ch))
  {
    PlayableInstruments(sh);
    InstrumentTickKeepsChannel(sh.instruments, ch);
    var e := InstrumentTick(sh.instruments, ch);
    if e.Some? {
      assert ChannelFits(sh, e.value);
      if sh.currentTick != 0 || extraRowsDone != 0 {
        TickEffectsFits(sh, amigaPeriod, e.value, length);
      }
    }
  }

  /**
   * What processes one channel in a tick, given the passes of a pattern
   * delay done: `TickChannel` in the player, see `Ticker`. The channel loop
   * of xm_tick takes it as a parameter and asks of it only what
   * `TickerFits` says, which `PlayerTicker` proves of the player's.
   */
  type ChannelTick = (Shared, u8, Channel) -> Outcome

  /**
   * The player's channel tick. An instrument table with an envelope the
   * player cannot walk is one the loader never produces; a step on it is
   * taken to trap.
   */
  function Ticker(amigaPeriod: i16 -> u16, frequency: (bool, u16, u8) -> u32, rate: u16): ChannelTick
  {
    (sh: Shared, extraRowsDone: u8, ch: Channel) =>
      if InstrumentsPlayable(sh.instruments) then TickChannel(sh, amigaPeriod, frequency, rate, extraRowsDone, ch) else Trap
  }

  /** The channel tick applied to a channel; the property below is stated on this name (see `Handled`). */
  ghost function Ticked(step: ChannelTick, sh: Shared, extraRowsDone: u8, ch: Channel): Outcome
  {
    step(sh, extraRowsDone, ch)
  }

  /** The channel tick keeps a consistent context consistent and the channel fitting (see `SlotStep`). */
  ghost predicate TickerFits(step: ChannelTick, length: u16)
  {
    forall sh: Shared, extraRowsDone: u8, ch: Channel {:trigger Ticked(step, sh, extraRowsDone, ch)} ::
      SharedValid(sh) && ChannelFits(sh, ch) && SlotNormal(ch.current, length)
      && 0 < length && sh.currentTableIndex < length && JumpValid(sh, length)
      ==> SlotStep(sh, length, ch.current, Ticked(step, sh, extraRowsDone, ch))
  }

  /** The tick of one channel keeps the context consistent, and the channel fits and still plays its slot. */
  lemma TickChannelFits(sh: Shared, amigaPeriod: i16 -> u16, frequency: (bool, u16, u8) -> u32, rate: u16,
                        extraRowsDone: u8, ch: Channel, length: u16)
    requires SharedValid(sh) && ChannelFits(sh, ch) && SlotNormal(ch.current, length)
    requires 0 < length && sh.currentTableIndex < length && JumpValid(sh, length)
    ensures InstrumentsPlayable(sh.instruments)
    ensures SlotStep(sh, length, ch.current, TickChannel(sh, amigaPeriod, frequency, rate, extraRowsDone, ch))
  {
    ChannelEffectsFits(sh, amigaPeriod, extraRowsDone, ch, length);
    var o := ChannelEffects(sh, amigaPeriod, extraRowsDone, ch);
    if o.Next? {
      var r := ChannelStepping(o.sh, frequency, rate, o.ch);
      if r.Next? {
        FitsKept(o.sh, r.sh, o.ch, r.ch);
      }
    }
  }

  /**
   * In a consistent context the volume of a channel never overflows: the
   * tick of a channel traps only where its envelopes, its effects or its
   * sample step trap.
   */
  lemma TickVolumeFits(sh: Shared, amigaPeriod: i16 -> u16, frequency: (bool, u16, u8) -> u32, rate: u16,
                       extraRowsDone: u8, ch: Channel, length: u16)
    requires SharedValid(sh) && ChannelFits(sh, ch) && SlotNormal(ch.current, length)
    requires 0 < length && sh.currentTableIndex < length && JumpValid(sh, length)
    ensures InstrumentsPlayable(sh.instruments)
    ensures var o := ChannelEffects(sh, amigaPeriod, extraRowsDone, ch);
            TickChannel(sh, amigaPeriod, frequency, rate, extraRowsDone, ch).Trap? <==>
              o.Trap? || (o.ch.period != 0 && Effects.SampleStep(frequency(o.sh.amiga, FrequencyPeriod(o.ch), o.ch.arpNoteOffset), rate as u32).None?)
  {
    ChannelEffectsFits(sh, amigaPeriod, extraRowsDone, ch, length);
    var o := ChannelEffects(sh, amigaPeriod, extraRowsDone, ch);
    if o.Next? {
      SteppingTraps(o.sh, frequency, rate, o.ch);
    }
  }

  /** The player's channel tick is one the tick's channel loop can use. */
  lemma PlayerTicker(amigaPeriod: i16 -> u16, frequency: (bool, u16, u8) -> u32, rate: u16, length: u16)
    ensures TickerFits(Ticker(amigaPeriod, frequency, rate), length) && TickerKeepsTables(Ticker(amigaPeriod, frequency, rate))
  {
    forall sh: Shared, extraRowsDone: u8, ch: Channel |
      SharedValid(sh) && ChannelFits(sh, ch) && SlotNormal(ch.current, length)
      && 0 < length && sh.currentTableIndex < length && JumpValid(sh, length)
      ensures SlotStep(sh, length, ch.current, Ticked(Ticker(amigaPeriod, frequency, rate), sh, extraRowsDone, ch))
    {
      TickChannelFits(sh, amigaPeriod, frequency, rate, extraRowsDone, ch, length);
    }
  }

  /** The channel tick never changes the tables or the module's flags, whatever the context. */
  ghost predicate TickerKeepsTables(step: ChannelTick)
  {
    forall sh: Shared, extraRowsDone: u8, ch: Channel {:trigger Ticked(step, sh, extraRowsDone, ch)} ::
      Ticked(step, sh, extraRowsDone, ch).Next? ==> SameTables(sh, Ticked(step, sh, extraRowsDone, ch).sh)
  }

  /** The state of xm_tick's channel loop. */
  datatype TickPass = TickTrapped | TickPass(sh: Shared, channels: seq<Channel>)

  /** The first `n` channels of xm_tick; reading a channel past the end of the table traps. */
  function TickChannels(step: ChannelTick, sh: Shared, extraRowsDone: u8, chans: seq<Channel>, n: nat): (r: TickPass)
    ensures r.TickPass? ==> |r.channels| == |chans|
  {
    if n == 0 then TickPass(sh, chans)
    else
      var p := TickChannels(step, sh, extraRowsDone, chans, n - 1);
      if p.TickTrapped? || n - 1 >= |p.channels| then TickTrapped
      else
        var o := step(p.sh, extraRowsDone, p.channels[n - 1]);
        if o.Trap? then TickTrapped else TickPass(o.sh, p.channels[n - 1 := o.ch])
  }

  /** A trap ends xm_tick's channel loop: the later channels are not reached. */
  lemma {:induction false} TickTrapStays(step: ChannelTick, sh: Shared, extraRowsDone: u8, chans: seq<Channel>, k: nat, n: nat)
    requires k <= n && TickChannels(step, sh, extraRowsDone, chans, k).TickTrapped?
    ensures TickChannels(step, sh, extraRowsDone, chans, n).TickTrapped?
    decreases n
  {
    if k < n {
      TickTrapStays(step, sh, extraRowsDone, chans, k, n - 1);
    }
  }

  /**
   * xm_tick: the clock, a row when the clock latches one, the channels,
   * the tick counted, and the samples of the tick added to the samples
   * left (wrapping at 2^32). `None` where the source traps, including a
   * BPM of 0.
   */
  function TickStep(handle: SlotHandler, step: ChannelTick, t: Tables, amigaPeriod: i16 -> u16, s: Song): (r: Option<Song>)
    ensures r.Some? ==> |r.value.channels| == |s.channels|
  {
    var c := ClockStart(ClockOf(s), s.sh.currentTempo);
    var s1 := WithClock(s, c.0);
    var s2 := if c.1 then RowStep(handle, t, amigaPeriod, s1) else Some(s1);
    if s2.None? then None else TickAfterRow(step, t, s2.value)
  }

  /**
   * The part of xm_tick after the row: every channel, the tick counted,
   * and the samples of the tick added to the samples left.
   */
  function TickAfterRow(step: ChannelTick, t: Tables, u: Song): (r: Option<Song>)
    ensures r.Some? ==> |r.value.channels| == |u.channels|
  {
    var p := TickChannels(step, u.sh, u.extraRowsDone, u.channels, t.mod.numChannels as nat);
    if p.TickTrapped? then None
    else
      var samples := SamplesInTick(t.mod.rate, p.sh.currentBpm);
      if samples.None? then None
      else Some(u.(sh := p.sh.(currentTick := Wrap8(p.sh.currentTick as int + 1)), channels := p.channels,
                   remainingSamplesInTick := Wrap32(u.remainingSamplesInTick as int + samples.value as int)))
  }

  // ---------------------------------------------------------------------
  // What a tick keeps
  // ---------------------------------------------------------------------

  /** One step of xm_tick's channel loop keeps the loop's invariant. */
  lemma TickPassStep(step: ChannelTick, sh0: Shared, p: TickPass, extraRowsDone: u8, k: nat, length: u16)
    requires TickerFits(step, length) && SharedValid(sh0) && 0 < length && sh0.currentTableIndex < length
    requires p.TickPass? && Evolves(sh0, p.sh) && JumpValid(p.sh, length) && AllReady(p.sh, p.channels, length)
    requires k < |p.channels|
    ensures var o := step(p.sh, extraRowsDone, p.channels[k]);
            o.Next? ==> Evolves(sh0, o.sh) && JumpValid(o.sh, length) && AllReady(o.sh, p.channels[k := o.ch], length)
  {
    assert ChannelReady(p.sh, p.channels[k], length);
    var o := Ticked(step, p.sh, extraRowsDone, p.channels[k]);
    if o.Next? {
      ReadyAcross(p.sh, o.sh, p.channels, length);
      ReadyUpdate(o.sh, p.channels, k, o.ch, length);
    }
  }

  /**
   * The channel loop of a tick keeps the context consistent, and every
   * channel fits and still plays its slot.
   */
  lemma {:induction false} TickChannelsFit(step: ChannelTick, sh: Shared, extraRowsDone: u8, chans: seq<Channel>, n: nat,
                                           length: u16)
    requires TickerFits(step, length)
    requires SharedValid(sh) && 0 < length && sh.currentTableIndex < length && JumpValid(sh, length)
    requires AllReady(sh, chans, length)
    ensures var r := TickChannels(step, sh, extraRowsDone, chans, n);
            r.TickPass? ==> Evolves(sh, r.sh) && JumpValid(r.sh, length) && AllReady(r.sh, r.channels, length)
  {
    if n > 0 {
      TickChannelsFit(step, sh, extraRowsDone, chans, n - 1, length);
      var p := TickChannels(step, sh, extraRowsDone, chans, n - 1);
      if p.TickPass? && n - 1 < |p.channels| {
        TickPassStep(step, sh, p, extraRowsDone, n - 1, length);
      }
    }
  }

  /** The start of a tick keeps a playing context valid. */
  lemma ClockValid(t: Tables, s: Song, c: Clock)
    requires SongValid(t, s)
    ensures SongValid(t, WithClock(s, c))
  {
    ReadyAcross(s.sh, WithClock(s, c).sh, s.channels, t.mod.length);
  }

  /** The channels and the end of a tick keep a playing context valid. */
  lemma TickAfterRowKeeps(step: ChannelTick, t: Tables, u: Song)
    requires TickerFits(step, t.mod.length) && SongValid(t, u)
    ensures var r := TickAfterRow(step, t, u);
            r.Some? ==> SongValid(t, r.value) && SameTables(u.sh, r.value.sh)
  {
    TickChannelsFit(step, u.sh, u.extraRowsDone, u.channels, t.mod.numChannels as nat, t.mod.length);
    var p := TickChannels(step, u.sh, u.extraRowsDone, u.channels, t.mod.numChannels as nat);
    if p.TickPass? {
      ReadyAcross(p.sh, p.sh.(currentTick := Wrap8(p.sh.currentTick as int + 1)), p.channels, t.mod.length);
    }
  }

  /** A tick keeps a playing context valid. */
  lemma TickStepKeeps(handle: SlotHandler, step: ChannelTick, t: Tables, amigaPeriod: i16 -> u16, s: Song)
    requires HandlerFits(handle, t.mod.length) && TickerFits(step, t.mod.length) && SongValid(t, s)
    ensures var r := TickStep(handle, step, t, amigaPeriod, s);
            r.Some? ==> SongValid(t, r.value) && SameTables(s.sh, r.value.sh)
  {
    var c := ClockStart(ClockOf(s), s.sh.currentTempo);
    var s1 := WithClock(s, c.0);
    ClockValid(t, s, c.0);
    var s2 := if c.1 then RowStep(handle, t, amigaPeriod, s1) else Some(s1);
    if c.1 {
      RowStepKeeps(handle, t, amigaPeriod, s1);
    }
    if s2.Some? {
      TickAfterRowKeeps(step, t, s2.value);
    }
  }

  /** The channels and the end of a tick keep the song position and count the tick. */
  lemma TickAfterRowMoves(step: ChannelTick, t: Tables, u: Song)
    requires TickerFits(step, t.mod.length) && SongValid(t, u)
    ensures var r := TickAfterRow(step, t, u);
            r.Some? ==>
              && r.value.sh.currentTableIndex == u.sh.currentTableIndex && r.value.sh.currentRow == u.sh.currentRow
              && r.value.sh.currentTick == Wrap8(u.sh.currentTick as int + 1) && r.value.extraRowsDone == u.extraRowsDone
  {
    TickChannelsFit(step, u.sh, u.extraRowsDone, u.channels, t.mod.numChannels as nat, t.mod.length);
  }

  /**
   * A tick that reads no row keeps the song position, and its clock moves
   * as `ClockTick` says.
   */
  lemma TickMovesOnlyOnLatch(handle: SlotHandler, step: ChannelTick, t: Tables, amigaPeriod: i16 -> u16, s: Song)
    requires TickerFits(step, t.mod.length) && SongValid(t, s)
    ensures var c := ClockTick(ClockOf(s), s.sh.currentTempo);
            var r := TickStep(handle, step, t, amigaPeriod, s);
            !c.1 && r.Some? ==>
              && r.value.sh.currentTableIndex == s.sh.currentTableIndex && r.value.sh.currentRow == s.sh.currentRow
              && r.value.sh.currentTick == c.0.tick && r.value.extraRowsDone == c.0.extraRowsDone
  {
    var c := ClockStart(ClockOf(s), s.sh.currentTempo);
    if !c.1 {
      ClockValid(t, s, c.0);
      TickAfterRowMoves(step, t, WithClock(s, c.0));
    }
  }

  // ---------------------------------------------------------------------
  // What a tick keeps in any context
  // ---------------------------------------------------------------------

  /** xm_row's channel loop never changes the tables, even in a song with no order entry. */
  lemma {:induction false} RowChannelsKeepTables(handle: SlotHandler, sh: Shared, amigaPeriod: i16 -> u16, chans: seq<Channel>,
                                                 slots: seq<Slot>, start: nat, n: nat)
    requires HandlerKeepsTables(handle)
    ensures var r := RowChannels(handle, sh, amigaPeriod, chans, slots, start, n);
            r.RowPass? ==> SameTables(sh, r.sh)
  {
    if n > 0 {
      RowChannelsKeepTables(handle, sh, amigaPeriod, chans, slots, start, n - 1);
      var p := RowChannels(handle, sh, amigaPeriod, chans, slots, start, n - 1);
      if p.RowPass? && n - 1 < |p.channels| && start + n - 1 < |slots| {
        var c := p.channels[n - 1].(current := slots[start + n - 1]);
        if !DelaysSlot(p.sh, slots[start + n - 1]) {
          assert Handled(handle, p.sh, amigaPeriod, c) == handle(p.sh, amigaPeriod, c);
        }
      }
    }
  }

  /** xm_tick's channel loop never changes the tables. */
  lemma {:induction false} TickChannelsKeepTables(step: ChannelTick, sh: Shared, extraRowsDone: u8, chans: seq<Channel>, n: nat)
    requires TickerKeepsTables(step)
    ensures var r := TickChannels(step, sh, extraRowsDone, chans, n);
            r.TickPass? ==> SameTables(sh, r.sh)
  {
    if n > 0 {
      TickChannelsKeepTables(step, sh, extraRowsDone, chans, n - 1);
      var p := TickChannels(step, sh, extraRowsDone, chans, n - 1);
      if p.TickPass? && n - 1 < |p.channels| {
        assert Ticked(step, p.sh, extraRowsDone, p.channels[n - 1]) == step(p.sh, extraRowsDone, p.channels[n - 1]);
      }
    }
  }

  /** The channels and the end of a row never change the tables. */
  lemma RowFromKeepsTables(handle: SlotHandler, t: Tables, amigaPeriod: i16 -> u16, s: Song, sh: Shared, pat: Pattern)
    requires HandlerKeepsTables(handle) && SameTables(s.sh, sh)
    ensures var r := RowFrom(handle, t, amigaPeriod, s, sh, pat);
            r.Some? ==> SameTables(s.sh, r.value.sh)
  {
    var nc := t.mod.numChannels as nat;
    var start := pat.rowsIndex as nat * nc + sh.currentRow as nat * nc;
    RowChannelsKeepTables(handle, sh, amigaPeriod, s.channels, t.patternSlots, start, nc);
  }

  /** xm_row never changes the tables, whatever the song. */
  lemma RowStepKeepsTables(handle: SlotHandler, t: Tables, amigaPeriod: i16 -> u16, s: Song)
    requires HandlerKeepsTables(handle)
    ensures var r := RowStep(handle, t, amigaPeriod, s);
            r.Some? ==> SameTables(s.sh, r.value.sh)
  {
    var m := t.mod;
    var sh := ApplyJump(s.sh, m.length, m.restartPosition);
    if sh.currentTableIndex as nat < |m.patternTable| {
      var pi := m.patternTable[sh.currentTableIndex] as nat;
      if pi < |t.patterns| {
        RowFromKeepsTables(handle, t, amigaPeriod, s, sh, t.patterns[pi]);
      }
    }
  }

  /**
   * A tick never changes the tables, whatever the song: also one whose
   * order table is empty, which the loaders accept and xm_tick plays.
   */
  lemma TickStepKeepsTables(handle: SlotHandler, step: ChannelTick, t: Tables, amigaPeriod: i16 -> u16, s: Song)
    requires HandlerKeepsTables(handle) && TickerKeepsTables(step)
    ensures var r := TickStep(handle, step, t, amigaPeriod, s);
            r.Some? ==> SameTables(s.sh, r.value.sh)
  {
    var c := ClockStart(ClockOf(s), s.sh.currentTempo);
    var s1 := WithClock(s, c.0);
    var s2 := if c.1 then RowStep(handle, t, amigaPeriod, s1) else Some(s1);
    if c.1 {
      RowStepKeepsTables(handle, t, amigaPeriod, s1);
    }
    if s2.Some? {
      TickChannelsKeepTables(step, s2.value.sh, s2.value.extraRowsDone, s2.value.channels, t.mod.numChannels as nat);
    }
  }
}
