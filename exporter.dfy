/**
 * The offline export of eight bars (com.groovegarden.music.MidiExporter): a
 * tempo meta event, then the drum, melody and bass tracks, each written slot
 * by slot for slot j = bar * 16 + step at tick j * 120. Drums are gated by
 * Math.random, which is replaced by one injected draw per slot; melody and
 * bass are a deterministic function of the grid and the scale. Writing the
 * file is left out: the result is the event list of the track.
 */
module Exporter {
  import opened JavaInt
  import Scale
  import Automaton
  import Grid
  import Engine

  const TicksPerBeat := 480
  const BarsToExport := 8
  const StepsPerBar := 16
  /** The number of (bar, step) slots written per track. */
  const Slots := 128

  const DrumChannel := 9
  const MelodyChannel := 0
  const BassChannel := 1

  /** A channel message with its two data bytes, or a meta message with its type and data bytes. */
  datatype Message =
    | NoteOn(channel: int, note: int, velocity: int)
    | NoteOff(channel: int, note: int, velocity: int)
    | Meta(metaType: int, data: seq<int>)

  datatype MidiEvent = MidiEvent(message: Message, tick: int)

  /** The growing event list of the one track of the exported sequence, in the order events are added. */
  class Track {
    var events: seq<MidiEvent>

    constructor ()
      ensures events == []
    {
      events := [];
    }

    method Add(e: MidiEvent)
      modifies this
      ensures events == old(events) + [e]
    {
      events := events + [e];
    }
  }

  /** The range checks of ShortMessage.setMessage: a 4-bit channel and two 7-bit data bytes. */
  predicate ValidShort(channel: int, data1: int, data2: int) {
    0 <= channel < 16 && 0 <= data1 < 128 && 0 <= data2 < 128
  }

  /**
   * What addNote adds: the note-on at `tick` and the note-off with velocity 0
   * `duration` ticks later, or nothing when the note-on message is rejected
   * (the exception is caught before anything is added).
   */
  function NoteEvents(channel: int, note: int, velocity: int, tick: int, duration: int): (es: seq<MidiEvent>)
    ensures ValidShort(channel, note, velocity) ==>
      (|es| == 2
       && es[0] == MidiEvent(NoteOn(channel, note, velocity), tick)
       && es[1] == MidiEvent(NoteOff(channel, note, 0), tick + duration))
    ensures !ValidShort(channel, note, velocity) ==> es == []
  {
    if ValidShort(channel, note, velocity) then
      [MidiEvent(NoteOn(channel, note, velocity), tick), MidiEvent(NoteOff(channel, note, 0), tick + duration)]
    else []
  }

  /** The onset of a slot: sixteenth notes at 480 ticks per beat. */
  function SlotTick(bar: int, step: int): (t: int)
    ensures t == (bar * StepsPerBar + step) * 120
  {
    (bar * StepsPerBar + step) * TicksPerBeat / 4
  }

  /** The drum hits of a step that the oracle let through: kick on the beat, snare on the off-beat, hi-hat always. */
  function DrumSlot(step: int, tick: int, play: bool): seq<MidiEvent> {
    if !play then []
    else
      (if step % 4 == 0 then NoteEvents(DrumChannel, 36, 100, tick, 120) else [])
      + (if step % 4 == 2 then NoteEvents(DrumChannel, 38, 80, tick, 120) else [])
      + NoteEvents(DrumChannel, 42, 60, tick, 60)
  }

  /** The grid shape the note rules read: 8 by 8 cells and layers. */
  ghost predicate GridShape(cells: Automaton.Board, layers: seq<seq<int>>) {
    && Automaton.Square(cells, Grid.GridSize)
    && |layers| == Grid.GridSize
    && forall r :: 0 <= r < Grid.GridSize ==> |layers[r]| == Grid.GridSize
  }

  /**
   * generateMelodyNote: the cell at row step % 8, column bar % 8 sounds when
   * it is active on the melody layer (1), at degree row % size in octave
   * 4 + column / 8; otherwise -1.
   */
  function GenerateMelodyNote(cells: Automaton.Board, layers: seq<seq<int>>, bar: nat, step: nat, s: Scale.Scale): (note: int)
    requires GridShape(cells, layers) && Scale.Size(s) > 0
    ensures var row, col := step % Grid.GridSize, bar % Grid.GridSize;
      if cells[row][col] && layers[row][col] == 1 then note == s.rootNote + 48 + s.intervals[row % Scale.Size(s)] else note == -1
  {
    var row := step % Grid.GridSize;
    var col := bar % Grid.GridSize;
    if cells[row][col] && layers[row][col] == 1 then
      Scale.GetNote(s, row % Scale.Size(s), 4 + col / 8)
    else -1
  }

  /** generateBassNote: on steps 0, 4, 8 and 12 the degree (bar + step / 4) % size in octave 2; otherwise -1. */
  function GenerateBassNote(bar: nat, step: nat, s: Scale.Scale): (note: int)
    requires Scale.Size(s) > 0
    ensures if step % 4 == 0 then note == s.rootNote + 24 + s.intervals[(bar + step / 4) % Scale.Size(s)] else note == -1
  {
    if step % 4 == 0 then Scale.GetNote(s, (bar + step / 4) % Scale.Size(s), 2) else -1
  }

  /** The drum events of one step: the slot's draw against 0.8 times the density gates the hits. */
  function RhythmSlot(draws: seq<real>, density: real, bar: nat, step: nat): seq<MidiEvent>
    requires bar * StepsPerBar + step < |draws|
  {
    DrumSlot(step, SlotTick(bar, step), draws[bar * StepsPerBar + step] < density * 0.8)
  }

  /** The drum events of the first k steps of a bar. */
  function RhythmBar(draws: seq<real>, density: real, bar: nat, k: nat): seq<MidiEvent>
    requires k <= StepsPerBar && (bar + 1) * StepsPerBar <= |draws|
  {
    if k == 0 then [] else RhythmBar(draws, density, bar, k - 1) + RhythmSlot(draws, density, bar, k - 1)
  }

  /** The drum events of the first k bars, for one draw per slot and the grid density. */
  function RhythmTrack(draws: seq<real>, density: real, k: nat): seq<MidiEvent>
    requires k * StepsPerBar <= |draws|
  {
    if k == 0 then [] else RhythmTrack(draws, density, k - 1) + RhythmBar(draws, density, k - 1, StepsPerBar)
  }

  function MelodySlot(cells: Automaton.Board, layers: seq<seq<int>>, s: Scale.Scale, bar: nat, step: nat): seq<MidiEvent>
    requires GridShape(cells, layers) && Scale.Size(s) > 0
  {
    var note := GenerateMelodyNote(cells, layers, bar, step, s);
    if note > 0 then NoteEvents(MelodyChannel, note, 80, SlotTick(bar, step), 240) else []
  }

  function MelodyBar(cells: Automaton.Board, layers: seq<seq<int>>, s: Scale.Scale, bar: nat, k: nat): seq<MidiEvent>
    requires GridShape(cells, layers) && Scale.Size(s) > 0
  {
    if k == 0 then [] else MelodyBar(cells, layers, s, bar, k - 1) + MelodySlot(cells, layers, s, bar, k - 1)
  }

  /** The melody events of the first k bars. */
  function MelodyTrack(cells: Automaton.Board, layers: seq<seq<int>>, s: Scale.Scale, k: nat): seq<MidiEvent>
    requires GridShape(cells, layers) && Scale.Size(s) > 0
  {
    if k == 0 then [] else MelodyTrack(cells, layers, s, k - 1) + MelodyBar(cells, layers, s, k - 1, StepsPerBar)
  }

  function BassSlot(s: Scale.Scale, bar: nat, step: nat): seq<MidiEvent>
    requires Scale.Size(s) > 0
  {
    var note := GenerateBassNote(bar, step, s);
    if note > 0 then NoteEvents(BassChannel, note, 70, SlotTick(bar, step), 480) else []
  }

  function BassBar(s: Scale.Scale, bar: nat, k: nat): seq<MidiEvent>
    requires Scale.Size(s) > 0
  {
    if k == 0 then [] else BassBar(s, bar, k - 1) + BassSlot(s, bar, k - 1)
  }

  /** The bass events of the first k bars. */
  function BassTrack(s: Scale.Scale, k: nat): seq<MidiEvent>
    requires Scale.Size(s) > 0
  {
    if k == 0 then [] else BassTrack(s, k - 1) + BassBar(s, k - 1, StepsPerBar)
  }

  /**
   * createTempoMessage: microseconds per quarter note, 60000000 / bpm, as the
   * meta event 0x51 with three big-endian bytes (each shift-and-mask taken as
   * an unsigned byte value).
   */
  function CreateTempoMessage(bpm: int): (m: Message)
    requires bpm != 0
    ensures m.Meta? && m.metaType == 0x51 && |m.data| == 3
    ensures forall i :: 0 <= i < 3 ==> 0 <= m.data[i] < 256
  {
    var tempo := JavaDiv(60000000, bpm);
    Meta(0x51, [(tempo / 0x1_0000) % 256, (tempo / 256) % 256, tempo % 256])
  }

  /** The density getGridDensity returns for a board. */
  function Density(cells: Automaton.Board): real {
    Grid.ActiveCount(cells) as real / 64.0
  }

  /**
   * export(): the tempo event at tick 0, then the drum, melody and bass
   * tracks in that order. It only reads the grid and the engine's scale.
   */
  method Export(grid: Grid.GridModel, engine: Engine.MidiEngine, draws: seq<real>) returns (track: Track)
    requires grid.Valid() && Scale.Size(engine.currentScale) > 0
    requires |draws| == Slots
    ensures fresh(track)
    ensures track.events ==
      [MidiEvent(CreateTempoMessage(120), 0)]
      + RhythmTrack(draws, Density(Automaton.Contents(grid.activeCells)), BarsToExport)
      + MelodyTrack(Automaton.Contents(grid.activeCells), Grid.Layers(grid.cellLayers), engine.currentScale, BarsToExport)
      + BassTrack(engine.currentScale, BarsToExport)
    ensures unchanged(grid, grid.activeCells, grid.cellLayers, engine)
  {
    track := new Track();
    var tempoMessage := CreateTempoMessage(120);
    track.Add(MidiEvent(tempoMessage, 0));
    ExportRhythmTrack(track, grid, draws);
    ExportMelodyTrack(track, grid, engine);
    ExportBassTrack(track, engine);
  }

  method AddNote(track: Track, channel: int, note: int, velocity: int, tick: int, duration: int)
    modifies track
    ensures track.events == old(track.events) + NoteEvents(channel, note, velocity, tick, duration)
  {
    if ValidShort(channel, note, velocity) {
      track.Add(MidiEvent(NoteOn(channel, note, velocity), tick));
      track.Add(MidiEvent(NoteOff(channel, note, 0), tick + duration));
    }
  }

  /** exportRhythmTrack: the grid's density, read once since nothing changes it, gates every slot. */
  method ExportRhythmTrack(track: Track, grid: Grid.GridModel, draws: seq<real>)
    requires grid.Valid() && |draws| == Slots
    modifies track
    ensures track.events == old(track.events)
      + RhythmTrack(draws, Density(Automaton.Contents(grid.activeCells)), BarsToExport)
  {
    var density := grid.GetGridDensity();
    WriteRhythm(track, draws, density);
  }

  /** The bar loop of exportRhythmTrack, with the density each shouldPlayRhythm call computes. */
  method WriteRhythm(track: Track, draws: seq<real>, density: real)
    requires |draws| == Slots
    modifies track
    ensures track.events == old(track.events) + RhythmTrack(draws, density, BarsToExport)
  {
    var bar := 0;
    while bar < BarsToExport
      invariant 0 <= bar <= BarsToExport
      invariant track.events == old(track.events) + RhythmTrack(draws, density, bar)
    {
      ghost var before := track.events;
      WriteRhythmBar(track, draws, density, bar);
      RhythmTrackGrows(old(track.events), before, draws, density, bar);
      bar := bar + 1;
    }
  }

  /** Appending one more bar to a track of `bar` bars gives the track of bar + 1 bars. */
  lemma RhythmTrackGrows(prefix: seq<MidiEvent>, before: seq<MidiEvent>, draws: seq<real>, density: real, bar: nat)
    requires (bar + 1) * StepsPerBar <= |draws|
    requires before == prefix + RhythmTrack(draws, density, bar)
    ensures before + RhythmBar(draws, density, bar, StepsPerBar) == prefix + RhythmTrack(draws, density, bar + 1)
  {
    AppendAssoc(prefix, RhythmTrack(draws, density, bar), RhythmBar(draws, density, bar, StepsPerBar));
  }

  /** The step loop of exportRhythmTrack for one bar. */
  method WriteRhythmBar(track: Track, draws: seq<real>, density: real, bar: nat)
    requires bar < BarsToExport && |draws| == Slots
    modifies track
    ensures track.events == old(track.events) + RhythmBar(draws, density, bar, StepsPerBar)
  {
    var step := 0;
    while step < StepsPerBar
      invariant 0 <= step <= StepsPerBar
      invariant track.events == old(track.events) + RhythmBar(draws, density, bar, step)
    {
      var tick := (bar * StepsPerBar + step) * TicksPerBeat / 4;
      var shouldPlay := draws[bar * StepsPerBar + step] < density * 0.8;
      WriteDrumStep(track, step, tick, shouldPlay);
      AppendAssoc(old(track.events), RhythmBar(draws, density, bar, step), RhythmSlot(draws, density, bar, step));
      step := step + 1;
    }
  }

  /** The body of the step loop of exportRhythmTrack: the hits of one step, when the oracle lets it through. */
  method WriteDrumStep(track: Track, step: int, tick: int, shouldPlay: bool)
    modifies track
    ensures track.events == old(track.events) + DrumSlot(step, tick, shouldPlay)
  {
    if shouldPlay {
      if step % 4 == 0 {
        AddNote(track, DrumChannel, 36, 100, tick, 120);
      }
      if step % 4 == 2 {
        AddNote(track, DrumChannel, 38, 80, tick, 120);
      }
      AddNote(track, DrumChannel, 42, 60, tick, 60);
    }
  }

  /** exportMelodyTrack: the loops read the grid's cells and layers, which nothing changes during export. */
  method ExportMelodyTrack(track: Track, grid: Grid.GridModel, engine: Engine.MidiEngine)
    requires grid.Valid() && Scale.Size(engine.currentScale) > 0
    modifies track
    ensures track.events == old(track.events)
      + MelodyTrack(Automaton.Contents(grid.activeCells), Grid.Layers(grid.cellLayers), engine.currentScale, BarsToExport)
  {
    var cells := Automaton.Contents(grid.activeCells);
    var layers := Grid.Layers(grid.cellLayers);
    assert GridShape(cells, layers);
    WriteMelody(track, cells, layers, engine.currentScale);
  }

  /** The bar loop of exportMelodyTrack. */
  method WriteMelody(track: Track, cells: Automaton.Board, layers: seq<seq<int>>, s: Scale.Scale)
    requires GridShape(cells, layers) && Scale.Size(s) > 0
    modifies track
    ensures track.events == old(track.events) + MelodyTrack(cells, layers, s, BarsToExport)
  {
    var bar := 0;
    while bar < BarsToExport
      invariant 0 <= bar <= BarsToExport
      invariant track.events == old(track.events) + MelodyTrack(cells, layers, s, bar)
    {
      ghost var before := track.events;
      WriteMelodyBar(track, cells, layers, s, bar);
      MelodyTrackGrows(old(track.events), before, cells, layers, s, bar);
      bar := bar + 1;
    }
  }

  /** Appending one more bar to a melody track of `bar` bars gives the track of bar + 1 bars. */
  lemma MelodyTrackGrows(prefix: seq<MidiEvent>, before: seq<MidiEvent>, cells: Automaton.Board, layers: seq<seq<int>>,
                         s: Scale.Scale, bar: nat)
    requires GridShape(cells, layers) && Scale.Size(s) > 0
    requires before == prefix + MelodyTrack(cells, layers, s, bar)
    ensures before + MelodyBar(cells, layers, s, bar, StepsPerBar) == prefix + MelodyTrack(cells, layers, s, bar + 1)
  {
    AppendAssoc(prefix, MelodyTrack(cells, layers, s, bar), MelodyBar(cells, layers, s, bar, StepsPerBar));
  }

  /** The step loop of exportMelodyTrack for one bar. */
  method WriteMelodyBar(track: Track, cells: Automaton.Board, layers: seq<seq<int>>, s: Scale.Scale, bar: nat)
    requires GridShape(cells, layers) && Scale.Size(s) > 0
    modifies track
    ensures track.events == old(track.events) + MelodyBar(cells, layers, s, bar, StepsPerBar)
  {
    var step := 0;
    while step < StepsPerBar
      invariant 0 <= step <= StepsPerBar
      invariant track.events == old(track.events) + MelodyBar(cells, layers, s, bar, step)
    {
      var tick := (bar * StepsPerBar + step) * TicksPerBeat / 4;
      var note := GenerateMelodyNote(cells, layers, bar, step, s);
      if note > 0 {
        AddNote(track, MelodyChannel, note, 80, tick, 240);
      }
      AppendAssoc(old(track.events), MelodyBar(cells, layers, s, bar, step), MelodySlot(cells, layers, s, bar, step));
      step := step + 1;
    }
  }

  method ExportBassTrack(track: Track, engine: Engine.MidiEngine)
    requires Scale.Size(engine.currentScale) > 0
    modifies track
    ensures track.events == old(track.events) + BassTrack(engine.currentScale, BarsToExport)
  {
    var s := engine.currentScale;
    var bar := 0;
    while bar < BarsToExport
      invariant 0 <= bar <= BarsToExport
      invariant track.events == old(track.events) + BassTrack(s, bar)
    {
      var step := 0;
      while step < StepsPerBar
        invariant 0 <= step <= StepsPerBar
        invariant track.events == old(track.events) + BassTrack(s, bar) + BassBar(s, bar, step)
      {
        var tick := (bar * StepsPerBar + step) * TicksPerBeat / 4;
        var note := GenerateBassNote(bar, step, s);
        if note > 0 {
          AddNote(track, BassChannel, note, 70, tick, 480);
        }
        AppendAssoc(old(track.events) + BassTrack(s, bar), BassBar(s, bar, step), BassSlot(s, bar, step));
        step := step + 1;
      }
      AppendAssoc(old(track.events), BassTrack(s, bar), BassBar(s, bar, StepsPerBar));
      bar := bar + 1;
    }
  }

  /** A scale whose every exported pitch is a valid MIDI data byte: octaves 2 and 4 above a root in [0, 68]. */
  ghost predicate Exportable(s: Scale.Scale) {
    Scale.WellFormed(s) && 0 <= s.rootNote <= 68
  }

  lemma PredefinedExportable(s: Scale.Scale)
    requires s in Scale.PredefinedScales.Values
    ensures Exportable(s)
  {
    Scale.PredefinedWellFormed(s);
  }

  /** Every event of es is a note message on channel c. */
  ghost predicate OnChannel(es: seq<MidiEvent>, c: int) {
    forall e :: e in es ==> (e.message.NoteOn? || e.message.NoteOff?) && e.message.channel == c
  }

  lemma OnChannelAppend(a: seq<MidiEvent>, b: seq<MidiEvent>, c: int)
    requires OnChannel(a, c) && OnChannel(b, c)
    ensures OnChannel(a + b, c)
  {
  }

  /**
   * The tempo event: the three bytes are the big-endian digits of
   * 60000000 / bpm whenever that fits in 24 bits, and 120 bpm gives
   * 500000 microseconds, 0x07 0xA1 0x20.
   */
  lemma TempoBytes(bpm: int)
    requires bpm != 0 && 0 <= JavaDiv(60000000, bpm) < 0x100_0000
    ensures var d := CreateTempoMessage(bpm).data;
      d[0] * 0x1_0000 + d[1] * 256 + d[2] == JavaDiv(60000000, bpm)
  {
    var tempo := JavaDiv(60000000, bpm);
    var hi := tempo / 0x1_0000;
    var mid := (tempo / 256) % 256;
    assert tempo / 256 == hi * 256 + mid;
    assert tempo == (tempo / 256) * 256 + tempo % 256;
  }

  lemma Tempo120()
    ensures CreateTempoMessage(120) == Meta(0x51, [0x07, 0xA1, 0x20])
    ensures JavaDiv(60000000, 120) == 500000
  {
  }

  /**
   * The drum rule of an exported step: with the oracle's approval the kick
   * (36, velocity 100) sounds iff the step is a multiple of 4, the snare
   * (38, velocity 80) iff it is 2 past one, the hi-hat (42, velocity 60)
   * always, each released 120, 120 and 60 ticks later; without it nothing.
   */
  lemma DrumSlotRule(step: int, tick: int, play: bool)
    ensures MidiEvent(NoteOn(DrumChannel, 36, 100), tick) in DrumSlot(step, tick, play) <==> play && step % 4 == 0
    ensures MidiEvent(NoteOn(DrumChannel, 38, 80), tick) in DrumSlot(step, tick, play) <==> play && step % 4 == 2
    ensures MidiEvent(NoteOn(DrumChannel, 42, 60), tick) in DrumSlot(step, tick, play) <==> play
    ensures play ==> MidiEvent(NoteOff(DrumChannel, 42, 0), tick + 60) in DrumSlot(step, tick, play)
    ensures play && step % 4 == 0 ==> MidiEvent(NoteOff(DrumChannel, 36, 0), tick + 120) in DrumSlot(step, tick, play)
    ensures play && step % 4 == 2 ==> MidiEvent(NoteOff(DrumChannel, 38, 0), tick + 120) in DrumSlot(step, tick, play)
    ensures !play ==> DrumSlot(step, tick, play) == []
    ensures OnChannel(DrumSlot(step, tick, play), DrumChannel)
  {
    if play {
      var kick := if step % 4 == 0 then NoteEvents(DrumChannel, 36, 100, tick, 120) else [];
      var snare := if step % 4 == 2 then NoteEvents(DrumChannel, 38, 80, tick, 120) else [];
      var hat := NoteEvents(DrumChannel, 42, 60, tick, 60);
      assert DrumSlot(step, tick, play) == kick + snare + hat;
      assert |kick| == 0 || |snare| == 0;
    }
  }

  lemma {:induction false} RhythmBarSilent(draws: seq<real>, density: real, bar: nat, k: nat)
    requires k <= StepsPerBar && (bar + 1) * StepsPerBar <= |draws|
    requires forall i :: 0 <= i < |draws| ==> draws[i] >= density * 0.8
    ensures RhythmBar(draws, density, bar, k) == []
  {
    if k > 0 {
      RhythmBarSilent(draws, density, bar, k - 1);
    }
  }

  /** An oracle that never lets a step through leaves the drum track empty. */
  lemma {:induction false} RhythmTrackSilent(draws: seq<real>, density: real, k: nat)
    requires k * StepsPerBar <= |draws|
    requires forall i :: 0 <= i < |draws| ==> draws[i] >= density * 0.8
    ensures RhythmTrack(draws, density, k) == []
  {
    if k > 0 {
      RhythmTrackSilent(draws, density, k - 1);
      RhythmBarSilent(draws, density, k - 1, StepsPerBar);
    }
  }

  /** An empty grid has density 0, and every draw in [0, 1) then fails the gate. */
  lemma EmptyGridSilent(draws: seq<real>)
    requires |draws| == Slots
    requires forall i :: 0 <= i < |draws| ==> 0.0 <= draws[i]
    ensures RhythmTrack(draws, 0.0, BarsToExport) == []
  {
    RhythmTrackSilent(draws, 0.0, BarsToExport);
  }

  lemma {:induction false} RhythmBarOnChannel(draws: seq<real>, density: real, bar: nat, k: nat)
    requires k <= StepsPerBar && (bar + 1) * StepsPerBar <= |draws|
    ensures OnChannel(RhythmBar(draws, density, bar, k), DrumChannel)
  {
    if k > 0 {
      RhythmBarOnChannel(draws, density, bar, k - 1);
      var step := k - 1;
      DrumSlotRule(step, SlotTick(bar, step), draws[bar * StepsPerBar + step] < density * 0.8);
      OnChannelAppend(RhythmBar(draws, density, bar, k - 1), RhythmSlot(draws, density, bar, step), DrumChannel);
    }
  }

  /** The drum track uses channel 9 only. */
  lemma {:induction false} RhythmTrackOnChannel(draws: seq<real>, density: real, k: nat)
    requires k * StepsPerBar <= |draws|
    ensures OnChannel(RhythmTrack(draws, density, k), DrumChannel)
  {
    if k > 0 {
      RhythmTrackOnChannel(draws, density, k - 1);
      RhythmBarOnChannel(draws, density, k - 1, StepsPerBar);
      OnChannelAppend(RhythmTrack(draws, density, k - 1), RhythmBar(draws, density, k - 1, StepsPerBar), DrumChannel);
    }
  }

  /**
   * The melody rule of one slot: a note sounds iff the cell at row step % 8,
   * column bar % 8 is active on layer 1 (layer 2 is excluded), at degree
   * row % size in octave 4, velocity 80, released 240 ticks after its onset.
   */
  lemma MelodySlotRule(cells: Automaton.Board, layers: seq<seq<int>>, s: Scale.Scale, bar: nat, step: nat)
    requires GridShape(cells, layers) && Exportable(s)
    ensures var row, col := step % Grid.GridSize, bar % Grid.GridSize;
      var note := Scale.GetNote(s, row % Scale.Size(s), 4);
      MelodySlot(cells, layers, s, bar, step) ==
        if cells[row][col] && layers[row][col] == 1 then
          [MidiEvent(NoteOn(MelodyChannel, note, 80), SlotTick(bar, step)),
           MidiEvent(NoteOff(MelodyChannel, note, 0), SlotTick(bar, step) + 240)]
        else []
  {
    var row, col := step % Grid.GridSize, bar % Grid.GridSize;
    assert col / 8 == 0;
    var d := row % Scale.Size(s);
    assert 0 <= s.intervals[d] < 12;
  }

  /**
   * The bass rule of one slot: exactly steps 0, 4, 8 and 12 sound, at degree
   * (bar + step / 4) % size in octave 2, velocity 70, released 480 ticks
   * after the onset, whatever the grid holds.
   */
  lemma BassSlotRule(s: Scale.Scale, bar: nat, step: nat)
    requires Exportable(s)
    ensures var note := Scale.GetNote(s, (bar + step / 4) % Scale.Size(s), 2);
      BassSlot(s, bar, step) ==
        if step % 4 == 0 then
          [MidiEvent(NoteOn(BassChannel, note, 70), SlotTick(bar, step)),
           MidiEvent(NoteOff(BassChannel, note, 0), SlotTick(bar, step) + 480)]
        else []
  {
    var d := (bar + step / 4) % Scale.Size(s);
    assert 0 <= s.intervals[d] < 12;
  }

  lemma BassSlotLength(s: Scale.Scale, bar: nat, step: nat)
    requires Exportable(s)
    ensures |BassSlot(s, bar, step)| == if step % 4 == 0 then 2 else 0
  {
    BassSlotRule(s, bar, step);
  }

  /** Each bar of the bass track holds four notes, two events each. */
  lemma {:induction false} BassBarLength(s: Scale.Scale, bar: nat, k: nat)
    requires Exportable(s) && k <= StepsPerBar
    ensures |BassBar(s, bar, k)| == 2 * ((k + 3) / 4)
  {
    if k > 0 {
      BassBarLength(s, bar, k - 1);
      BassSlotLength(s, bar, k - 1);
      QuarterCeilingStep(k);
      assert |BassBar(s, bar, k)| == |BassBar(s, bar, k - 1)| + |BassSlot(s, bar, k - 1)|;
    }
  }

  /** Counting the multiples of 4 below k: one more exactly when k - 1 is one. */
  lemma QuarterCeilingStep(k: nat)
    requires k > 0
    ensures (k + 3) / 4 == (k + 2) / 4 + (if (k - 1) % 4 == 0 then 1 else 0)
  {
    var q, r := (k - 1) / 4, (k - 1) % 4;
    assert k - 1 == 4 * q + r && 0 <= r < 4;
    assert (k + 2) / 4 == q + (if r == 0 then 0 else 1);
    assert (k + 3) / 4 == q + 1;
  }

  lemma {:induction false} BassBarOnChannel(s: Scale.Scale, bar: nat, k: nat)
    requires Exportable(s)
    ensures OnChannel(BassBar(s, bar, k), BassChannel)
  {
    if k > 0 {
      BassBarOnChannel(s, bar, k - 1);
      BassSlotRule(s, bar, k - 1);
      OnChannelAppend(BassBar(s, bar, k - 1), BassSlot(s, bar, k - 1), BassChannel);
    }
  }

  /** The bass track of k bars has 8k events, all on channel 1. */
  lemma {:induction false} BassTrackLength(s: Scale.Scale, k: nat)
    requires Exportable(s)
    ensures |BassTrack(s, k)| == 8 * k
    ensures OnChannel(BassTrack(s, k), BassChannel)
  {
    if k > 0 {
      BassTrackLength(s, k - 1);
      BassBarLength(s, k - 1, StepsPerBar);
      BassBarOnChannel(s, k - 1, StepsPerBar);
      OnChannelAppend(BassTrack(s, k - 1), BassBar(s, k - 1, StepsPerBar), BassChannel);
    }
  }

  lemma {:induction false} MelodyBarOnChannel(cells: Automaton.Board, layers: seq<seq<int>>, s: Scale.Scale, bar: nat, k: nat)
    requires GridShape(cells, layers) && Exportable(s)
    ensures OnChannel(MelodyBar(cells, layers, s, bar, k), MelodyChannel)
  {
    if k > 0 {
      MelodyBarOnChannel(cells, layers, s, bar, k - 1);
      MelodySlotRule(cells, layers, s, bar, k - 1);
      OnChannelAppend(MelodyBar(cells, layers, s, bar, k - 1), MelodySlot(cells, layers, s, bar, k - 1), MelodyChannel);
    }
  }

  /** The melody track uses channel 0 only. */
  lemma {:induction false} MelodyTrackOnChannel(cells: Automaton.Board, layers: seq<seq<int>>, s: Scale.Scale, k: nat)
    requires GridShape(cells, layers) && Exportable(s)
    ensures OnChannel(MelodyTrack(cells, layers, s, k), MelodyChannel)
  {
    if k > 0 {
      MelodyTrackOnChannel(cells, layers, s, k - 1);
      MelodyBarOnChannel(cells, layers, s, k - 1, StepsPerBar);
      OnChannelAppend(MelodyTrack(cells, layers, s, k - 1), MelodyBar(cells, layers, s, k - 1, StepsPerBar), MelodyChannel);
    }
  }
}
