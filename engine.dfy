/**
 * The live playback step machine (com.groovegarden.music.MidiEngine). Each
 * tick re-derives the rhythm from the grid's density, plays the drum hits of
 * the current step, draws one melody degree from the Markov table, and
 * advances the step counter through a 16-step bar. The synthesizer is
 * replaced by an event log; whether MIDI came up at all, and which channels
 * exist, is a parameter.
 */
module Engine {
  import opened JavaInt
  import Scale
  import Euclidean
  import Markov
  import Automaton
  import Grid

  const MelodyChannel := 0
  const BassChannel := 1
  const DrumChannel := 9
  const StepsPerBar := 16
  const HistoryLength := 8

  /** What the engine sends to a channel; a deferred note-off is recorded with its delay. */
  datatype Event =
    | ProgramChange(channel: int, program: int)
    | NoteOn(channel: int, pitch: int, velocity: int)
    | NoteOffAfter(channel: int, pitch: int, delayMs: int)
    | AllNotesOff(channel: int)

  /** None: the synthesizer was unavailable. Some(p): channel i exists iff p[i]. */
  type Channels = Option<seq<bool>>

  /** initializeMidi indexes channels 0, 1 and 9 of the synthesizer's array, so it has at least ten. */
  ghost predicate ChannelsShape(channels: Channels) {
    channels.Some? ==> |channels.value| > DrumChannel
  }

  /**
   * The program changes initializeMidi sends: piano (0) to the melody
   * channel, acoustic bass (32) to the bass channel and the standard kit (0)
   * to the drum channel, each only if that channel exists, in channel order.
   */
  function SetupEvents(channels: Channels): (es: seq<Event>)
    requires ChannelsShape(channels)
    ensures channels.None? ==> es == []
    ensures forall e :: e in es ==> e.ProgramChange?
    ensures channels.Some? ==> forall c, q :: ProgramChange(c, q) in es <==>
      && (c == MelodyChannel || c == BassChannel || c == DrumChannel)
      && channels.value[c] && q == (if c == BassChannel then 32 else 0)
    ensures forall i, j :: 0 <= i < j < |es| ==> es[i].channel < es[j].channel
  {
    if channels.None? then []
    else
      var p := channels.value;
      (if p[MelodyChannel] then [ProgramChange(MelodyChannel, 0)] else [])
      + (if p[BassChannel] then [ProgramChange(BassChannel, 32)] else [])
      + (if p[DrumChannel] then [ProgramChange(DrumChannel, 0)] else [])
  }

  /** The all-notes-off messages for the existing channels among the first k. */
  function AllOff(p: seq<bool>, k: nat): seq<Event>
    requires k <= |p|
  {
    if k == 0 then [] else AllOff(p, k - 1) + (if p[k - 1] then [AllNotesOff(k - 1)] else [])
  }

  /** The timer task of scheduleNoteOff, recorded as the note-off it sends after its delay. */
  function ScheduleNoteOff(channel: int, note: int, delayMs: int): Event {
    NoteOffAfter(channel, note, delayMs)
  }

  /** The drum hits of one step: only on a pulse; kick on the beat, snare on the off-beat, hi-hat always. */
  function DrumEvents(step: int, pulse: bool): seq<Event> {
    if !pulse then []
    else
      (if step % 4 == 0 then [NoteOn(DrumChannel, 36, 100), NoteOffAfter(DrumChannel, 36, 200)] else [])
      + (if step % 4 == 2 then [NoteOn(DrumChannel, 38, 80), NoteOffAfter(DrumChannel, 38, 200)] else [])
      + [NoteOn(DrumChannel, 42, 60), NoteOffAfter(DrumChannel, 42, 100)]
  }

  /** The melody note of one step and its deferred note-off. */
  function MelodyEvents(pitch: int): seq<Event> {
    [NoteOn(MelodyChannel, pitch, 80), NoteOffAfter(MelodyChannel, pitch, 300)]
  }

  /** The drum hits generateRhythm sends: none when the drum channel is missing. */
  function DrumsSent(present: seq<bool>, step: int, pulse: bool): seq<Event>
    requires |present| > DrumChannel
  {
    if present[DrumChannel] then DrumEvents(step, pulse) else []
  }

  /** The melody note generateMelody sends: none when the melody channel is missing. */
  function MelodySent(present: seq<bool>, pitch: int): seq<Event>
    requires |present| > DrumChannel
  {
    if present[MelodyChannel] then MelodyEvents(pitch) else []
  }

  /** What one playing tick sends: the drum hits of the step, then the melody note. */
  function StepEvents(present: seq<bool>, step: int, pulse: bool, pitch: int): seq<Event>
    requires |present| > DrumChannel
  {
    DrumsSent(present, step, pulse) + MelodySent(present, pitch)
  }

  /** The history after appending one degree: the last at most eight values. */
  function Remember(history: seq<int>, degree: int): (h: seq<int>)
    requires |history| <= HistoryLength
    ensures |h| == if |history| < HistoryLength then |history| + 1 else HistoryLength
    ensures h == LastN(history + [degree], HistoryLength)
  {
    Push(history, degree, HistoryLength)
  }

  /**
   * One generateNextNote call: the table and degree list it read, the
   * history it was given, the order in which it walked the successors, and
   * the degree it returned.
   */
  datatype MelodyDraw = MelodyDraw(table: Markov.Table, degrees: seq<int>, history: seq<int>,
                                   keyOrder: seq<int>, degree: int)

  /** The draw's degree is what generateNextNote returns for its order-2 table, history and successor order. */
  ghost predicate DrawnFrom(m: MelodyDraw, draw: nat, spare: nat) {
    && |m.degrees| > 0
    && Markov.WellFormedTable(m.table, m.degrees, 2)
    && (|m.history| >= 2 && Markov.Suffix(m.history, 2) in m.table ==>
          Markov.Enumerates(m.keyOrder, m.table[Markov.Suffix(m.history, 2)]))
    && m.degree == Markov.NextNote(m.degrees, m.table, 2, m.history, m.keyOrder, draw, spare)
  }

  /** The pulse count derived from the grid: at least one, one more per eight active cells. */
  function PulsesFor(activeCount: nat): int {
    Max(1, activeCount / 8)
  }

  class MidiEngine {
    var channels: Channels
    var currentScale: Scale.Scale
    var isPlaying: bool
    var currentStep: int
    var currentBar: int
    var euclideanRhythm: Euclidean.EuclideanRhythm
    var markovMelody: Markov.MarkovMelody
    var melodyHistory: seq<int>
    var rhythmPattern: array<bool>
    var tempo: int
    /** Everything sent to the synthesizer so far, in order. */
    var events: seq<Event>

    /** The engine's invariant; it does not depend on the event log, which every tick extends. */
    ghost predicate Valid()
      reads this`channels, this`currentScale, this`currentStep, this`rhythmPattern, this`melodyHistory
      reads this`euclideanRhythm, this`markovMelody, euclideanRhythm, markovMelody
    {
      && ChannelsShape(channels)
      && Scale.WellFormed(currentScale)
      && euclideanRhythm.steps == StepsPerBar
      && markovMelody.Valid() && markovMelody.order == 2
      && markovMelody.scaleDegrees == Scale.ScaleDegrees(currentScale)
      && 0 <= currentStep < StepsPerBar
      && rhythmPattern.Length == StepsPerBar
      && |melodyHistory| <= HistoryLength
    }

    /** C Dorian, stopped at step 0 of bar 0, tempo 120, a (16, 4) rhythm and an order-2 Markov table. */
    constructor (channels: Channels)
      requires ChannelsShape(channels)
      ensures Valid()
      ensures this.channels == channels && currentScale == Scale.Dorian
      ensures !isPlaying && currentStep == 0 && currentBar == 0 && tempo == 120
      ensures euclideanRhythm.pulses == 4 && melodyHistory == []
      ensures forall i :: 0 <= i < rhythmPattern.Length ==> !rhythmPattern[i]
      ensures markovMelody.transitionMatrix == Markov.BuildTable(Scale.ScaleDegrees(Scale.Dorian), 2)
      ensures events == SetupEvents(channels)
    {
      this.channels := channels;
      currentScale := Scale.GetScale("C Dorian");
      isPlaying := false;
      currentStep := 0;
      currentBar := 0;
      tempo := 120;
      euclideanRhythm := new Euclidean.EuclideanRhythm(16, 4);
      markovMelody := new Markov.MarkovMelody(2);
      melodyHistory := [];
      rhythmPattern := new bool[16](_ => false);
      events := SetupEvents(channels);
      new;
      Scale.PredefinedWellFormed(currentScale);
      markovMelody.SetScaleDegrees(Scale.ScaleDegrees(currentScale));
    }

    method Start()
      modifies this`isPlaying, this`currentStep, this`currentBar
      ensures isPlaying && currentStep == 0 && currentBar == 0
      ensures channels == old(channels) && currentScale == old(currentScale) && events == old(events)
      ensures melodyHistory == old(melodyHistory) && rhythmPattern == old(rhythmPattern) && tempo == old(tempo)
      ensures euclideanRhythm == old(euclideanRhythm) && markovMelody == old(markovMelody)
    {
      isPlaying := true;
      currentStep := 0;
      currentBar := 0;
    }

    /** Stops playback and silences every existing channel, in channel order. */
    method Stop()
      modifies this`isPlaying, this`events
      ensures !isPlaying
      ensures events == old(events) + (if channels.Some? then AllOff(channels.value, |channels.value|) else [])
    {
      isPlaying := false;
      if channels.Some? {
        var p := channels.value;
        var i := 0;
        while i < |p|
          invariant 0 <= i <= |p|
          invariant events == old(events) + AllOff(p, i) && !isPlaying
        {
          if p[i] {
            events := events + [AllNotesOff(i)];
          }
          i := i + 1;
        }
      }
    }

    /**
     * One step of playback. Stopped: nothing happens. Playing: the rhythm is
     * regenerated from the grid, the drum hits and the melody note of the
     * current step are sent, and the step advances (a new bar after step 15).
     * The ghost result records the melody draw.
     */
    method Tick(grid: Grid.GridModel, draw: nat, spare: nat)
      returns (ghost drawn: MelodyDraw, ghost step: int, ghost pulse: bool, ghost sent: seq<Event>)
      requires Valid() && grid.Valid()
      requires isPlaying ==> channels.Some?
      modifies this`currentStep, this`currentBar, this`rhythmPattern, this`events, this`melodyHistory
      modifies euclideanRhythm, markovMelody
      ensures Valid()
      ensures markovMelody.transitionMatrix == old(markovMelody.transitionMatrix)
      ensures !old(isPlaying) ==>
        && currentStep == old(currentStep) && currentBar == old(currentBar)
        && melodyHistory == old(melodyHistory) && sent == []
        && rhythmPattern == old(rhythmPattern) && euclideanRhythm.pulses == old(euclideanRhythm.pulses)
      ensures old(isPlaying) ==>
        && currentStep == (old(currentStep) + 1) % StepsPerBar
        && currentBar == old(currentBar) + (if currentStep == 0 then 1 else 0)
        && euclideanRhythm.pulses == PulsesFor(old(Grid.ActiveCount(Automaton.Contents(grid.activeCells))))
        && rhythmPattern[..] == Euclidean.Layout(StepsPerBar, euclideanRhythm.pulses)
      ensures old(isPlaying) && channels.value[MelodyChannel] ==>
        && drawn.table == markovMelody.transitionMatrix && drawn.degrees == Scale.ScaleDegrees(currentScale)
        && drawn.history == old(melodyHistory) && DrawnFrom(drawn, draw, spare)
        && drawn.degree in Scale.ScaleDegrees(currentScale)
        && melodyHistory == Remember(old(melodyHistory), drawn.degree)
      ensures old(isPlaying) && !channels.value[MelodyChannel] ==> melodyHistory == old(melodyHistory)
      ensures old(isPlaying) ==>
        && step == old(currentStep) && pulse == rhythmPattern[step]
        && sent == StepEvents(channels.value, step, pulse, Scale.GetNote(currentScale, drawn.degree, 4 + step / 8))
      ensures events == old(events) + sent
    {
      drawn, step, pulse, sent := MelodyDraw(map[], [], [], [], 0), currentStep, false, [];
      if isPlaying {
        UpdateAlgorithms(grid);
        pulse := rhythmPattern[step];
        drawn, sent := PlayStep(draw, spare, step, pulse);
      }
    }

    /** What tick() does after updateAlgorithms: generateRhythm, generateMelody, then the step advance. */
    method PlayStep(draw: nat, spare: nat, ghost step: int, ghost pulse: bool)
      returns (ghost drawn: MelodyDraw, ghost sent: seq<Event>)
      requires Valid() && channels.Some?
      requires step == currentStep && pulse == rhythmPattern[currentStep]
      modifies this`currentStep, this`currentBar, this`events, this`melodyHistory
      ensures Valid()
      ensures currentStep == (step + 1) % StepsPerBar
      ensures currentBar == old(currentBar) + (if currentStep == 0 then 1 else 0)
      ensures channels.value[MelodyChannel] ==>
        && drawn.table == markovMelody.transitionMatrix && drawn.degrees == Scale.ScaleDegrees(currentScale)
        && drawn.history == old(melodyHistory) && DrawnFrom(drawn, draw, spare)
        && drawn.degree in Scale.ScaleDegrees(currentScale)
        && melodyHistory == Remember(old(melodyHistory), drawn.degree)
      ensures !channels.value[MelodyChannel] ==> melodyHistory == old(melodyHistory)
      ensures sent == StepEvents(channels.value, step, pulse, Scale.GetNote(currentScale, drawn.degree, 4 + step / 8))
      ensures events == old(events) + sent
    {
      drawn, sent := PlayCurrentStep(draw, spare, step, pulse);
      AdvanceStep();
    }

    /** generateRhythm() followed by generateMelody(), both for the current step. */
    method PlayCurrentStep(draw: nat, spare: nat, ghost step: int, ghost pulse: bool)
      returns (ghost drawn: MelodyDraw, ghost sent: seq<Event>)
      requires Valid() && channels.Some?
      requires step == currentStep && pulse == rhythmPattern[currentStep]
      modifies this`events, this`melodyHistory
      ensures Valid()
      ensures channels.value[MelodyChannel] ==>
        && drawn.table == markovMelody.transitionMatrix && drawn.degrees == Scale.ScaleDegrees(currentScale)
        && drawn.history == old(melodyHistory) && DrawnFrom(drawn, draw, spare)
        && drawn.degree in Scale.ScaleDegrees(currentScale)
        && melodyHistory == Remember(old(melodyHistory), drawn.degree)
      ensures !channels.value[MelodyChannel] ==> melodyHistory == old(melodyHistory)
      ensures sent == StepEvents(channels.value, step, pulse, Scale.GetNote(currentScale, drawn.degree, 4 + step / 8))
      ensures events == old(events) + sent
    {
      ghost var drums := GenerateRhythm();
      assert drums == DrumsSent(channels.value, step, pulse);
      ghost var melody: seq<Event> := [];
      drawn, melody := GenerateMelody(draw, spare);
      sent := drums + melody;
      StepEventsSplit(channels.value, step, pulse, Scale.GetNote(currentScale, drawn.degree, 4 + step / 8), drums, melody);
      AppendAssoc(old(events), drums, melody);
    }

    /** currentStep = (currentStep + 1) % 16, and a new bar when it wraps to 0. */
    method AdvanceStep()
      requires 0 <= currentStep < StepsPerBar
      modifies this`currentStep, this`currentBar
      ensures currentStep == (old(currentStep) + 1) % StepsPerBar
      ensures currentBar == old(currentBar) + (if currentStep == 0 then 1 else 0)
    {
      currentStep := (currentStep + 1) % 16;
      if currentStep == 0 {
        currentBar := currentBar + 1;
      }
    }

    /** Pulses from the grid density, a fresh pattern, and the Markov table rebuilt from the same scale. */
    method UpdateAlgorithms(grid: Grid.GridModel)
      requires Valid() && grid.Valid()
      modifies this`rhythmPattern, euclideanRhythm, markovMelody
      ensures Valid()
      ensures euclideanRhythm.pulses == PulsesFor(old(Grid.ActiveCount(Automaton.Contents(grid.activeCells))))
      ensures rhythmPattern[..] == Euclidean.Layout(StepsPerBar, euclideanRhythm.pulses)
      ensures markovMelody.transitionMatrix == old(markovMelody.transitionMatrix)
    {
      var density := grid.GetGridDensity();
      var count := Grid.ActiveCount(Automaton.Contents(grid.activeCells));
      Grid.CountBound(Automaton.Contents(grid.activeCells), Grid.GridSize);
      var pulses := Max(1, TruncateReal(density * 8.0));
      PulsesFromDensity(count);
      euclideanRhythm.SetPulses(pulses);
      rhythmPattern := euclideanRhythm.Generate();
      markovMelody.SetScaleDegrees(Scale.ScaleDegrees(currentScale));
    }

    /** The drum hits of the current step, when the drum channel exists. */
    method GenerateRhythm() returns (ghost sent: seq<Event>)
      requires Valid() && channels.Some?
      modifies this`events
      ensures sent == DrumsSent(channels.value, currentStep, rhythmPattern[currentStep])
      ensures events == old(events) + sent
    {
      sent := DrumsSent(channels.value, currentStep, rhythmPattern[currentStep]);
      if !channels.value[DrumChannel] {
        return;
      }
      if rhythmPattern[currentStep] {
        if currentStep % 4 == 0 {
          events := events + [NoteOn(DrumChannel, 36, 100), ScheduleNoteOff(DrumChannel, 36, 200)];
        }
        if currentStep % 4 == 2 {
          events := events + [NoteOn(DrumChannel, 38, 80), ScheduleNoteOff(DrumChannel, 38, 200)];
        }
        events := events + [NoteOn(DrumChannel, 42, 60), ScheduleNoteOff(DrumChannel, 42, 100)];
      }
    }

    /**
     * One melody note, when the melody channel exists: a degree from the
     * Markov table given the history, played in octave 4 for steps 0-7 and 5
     * for steps 8-15, then remembered.
     */
    method GenerateMelody(draw: nat, spare: nat) returns (ghost drawn: MelodyDraw, ghost sent: seq<Event>)
      requires Valid() && channels.Some?
      modifies this`events, this`melodyHistory
      ensures Valid()
      ensures channels.value[MelodyChannel] ==>
        && drawn.table == markovMelody.transitionMatrix && drawn.degrees == Scale.ScaleDegrees(currentScale)
        && drawn.history == old(melodyHistory) && DrawnFrom(drawn, draw, spare)
        && drawn.degree in Scale.ScaleDegrees(currentScale)
        && melodyHistory == Remember(old(melodyHistory), drawn.degree)
      ensures !channels.value[MelodyChannel] ==> melodyHistory == old(melodyHistory)
      ensures sent == MelodySent(channels.value, Scale.GetNote(currentScale, drawn.degree, 4 + currentStep / 8))
      ensures events == old(events) + sent
    {
      drawn, sent := MelodyDraw(map[], [], [], [], 0), [];
      if !channels.value[MelodyChannel] {
        return;
      }
      var scaleDegree := 0;
      scaleDegree, drawn := DrawDegree(draw, spare);
      var octave := 4 + currentStep / 8;
      var midiNote := Scale.GetNote(currentScale, scaleDegree, octave);
      PlayNote(midiNote);
      sent := MelodyEvents(midiNote);
      RememberDegree(scaleDegree);
    }

    /** The melody note-on and its deferred note-off. */
    method PlayNote(midiNote: int)
      modifies this`events
      ensures events == old(events) + MelodyEvents(midiNote)
    {
      events := events + [NoteOn(MelodyChannel, midiNote, 80), ScheduleNoteOff(MelodyChannel, midiNote, 300)];
    }

    /** Appends the degree to the history and drops the oldest entry beyond eight. */
    method RememberDegree(degree: int)
      requires |melodyHistory| <= HistoryLength
      modifies this`melodyHistory
      ensures melodyHistory == Remember(old(melodyHistory), degree)
    {
      melodyHistory := melodyHistory + [degree];
      if |melodyHistory| > 8 {
        melodyHistory := melodyHistory[1..];
      }
    }

    /** markovMelody.generateNextNote(melodyHistory), with the table's iteration order made explicit. */
    method DrawDegree(draw: nat, spare: nat) returns (degree: int, ghost drawn: MelodyDraw)
      requires Valid()
      ensures drawn.table == markovMelody.transitionMatrix && drawn.degrees == Scale.ScaleDegrees(currentScale)
      ensures drawn.history == melodyHistory && drawn.degree == degree && DrawnFrom(drawn, draw, spare)
      ensures degree in Scale.ScaleDegrees(currentScale)
    {
      var candidates := markovMelody.IterationOrder(melodyHistory);
      degree := markovMelody.GenerateNextNote(melodyHistory, candidates, draw, spare);
      drawn := MelodyDraw(markovMelody.transitionMatrix, Scale.ScaleDegrees(currentScale), melodyHistory, candidates, degree);
    }

    /** Installs the named scale (C Dorian when unknown) and rebuilds the Markov table from its intervals. */
    method SetScale(scaleName: string)
      requires Valid()
      modifies this`currentScale, markovMelody
      ensures Valid()
      ensures currentScale == Scale.GetScale(scaleName)
      ensures markovMelody.transitionMatrix == Markov.BuildTable(Scale.GetScale(scaleName).intervals, 2)
    {
      currentScale := Scale.GetScale(scaleName);
      Scale.PredefinedWellFormed(currentScale);
      markovMelody.SetScaleDegrees(Scale.ScaleDegrees(currentScale));
    }

    method SetTempo(tempo: int)
      modifies this`tempo
      ensures this.tempo == tempo
    {
      this.tempo := tempo;
    }
  }

  /**
   * getGridDensity() * 8, truncated, is the active count divided by 8: the
   * density is count / 64 and both steps are exact for counts up to 64.
   */
  lemma PulsesFromDensity(count: nat)
    requires count <= 64
    ensures Max(1, TruncateReal((count as real / 64.0) * 8.0)) == PulsesFor(count)
    ensures 1 <= PulsesFor(count) <= 8
  {
    var x := (count as real / 64.0) * 8.0;
    assert x == count as real / 8.0;
    var q := count / 8;
    assert count == 8 * q + count % 8;
    assert q as real <= x < q as real + 1.0;
    assert x.Floor == q;
  }

  /** The events of one tick are the drum part followed by the melody part. */
  lemma StepEventsSplit(present: seq<bool>, step: int, pulse: bool, pitch: int, drums: seq<Event>, melody: seq<Event>)
    requires |present| > DrumChannel
    requires drums == DrumsSent(present, step, pulse) && melody == MelodySent(present, pitch)
    ensures drums + melody == StepEvents(present, step, pulse, pitch)
  {
  }

  /** stop() silences exactly the channels that exist, each once. */
  lemma {:induction false} AllOffChannels(p: seq<bool>, k: nat)
    requires k <= |p|
    ensures forall c :: AllNotesOff(c) in AllOff(p, k) <==> 0 <= c < k && p[c]
    ensures forall e :: e in AllOff(p, k) ==> e.AllNotesOff?
    ensures forall i, j :: 0 <= i < j < |AllOff(p, k)| ==> AllOff(p, k)[i] != AllOff(p, k)[j]
  {
    if k > 0 {
      AllOffChannels(p, k - 1);
    }
  }

  /**
   * The drum rule: on a pulse the kick sounds iff the step is a multiple of 4,
   * the snare iff it is 2 past one, the hi-hat always; every note-on has its
   * note-off right after it; a rest sends nothing.
   */
  lemma DrumRule(step: nat, pulse: bool)
    ensures NoteOn(DrumChannel, 36, 100) in DrumEvents(step, pulse) <==> pulse && step % 4 == 0
    ensures NoteOn(DrumChannel, 38, 80) in DrumEvents(step, pulse) <==> pulse && step % 4 == 2
    ensures NoteOn(DrumChannel, 42, 60) in DrumEvents(step, pulse) <==> pulse
    ensures !pulse ==> DrumEvents(step, pulse) == []
    ensures forall i :: 0 <= i < |DrumEvents(step, pulse)| && DrumEvents(step, pulse)[i].NoteOn? ==>
      i + 1 < |DrumEvents(step, pulse)| && DrumEvents(step, pulse)[i + 1] ==
        NoteOffAfter(DrumChannel, DrumEvents(step, pulse)[i].pitch, if DrumEvents(step, pulse)[i].pitch == 42 then 100 else 200)
  {
    var es := DrumEvents(step, pulse);
    if pulse {
      var kick := if step % 4 == 0 then [NoteOn(DrumChannel, 36, 100), NoteOffAfter(DrumChannel, 36, 200)] else [];
      var snare := if step % 4 == 2 then [NoteOn(DrumChannel, 38, 80), NoteOffAfter(DrumChannel, 38, 200)] else [];
      var hat := [NoteOn(DrumChannel, 42, 60), NoteOffAfter(DrumChannel, 42, 100)];
      assert es == kick + snare + hat;
      assert |kick| == 0 || |snare| == 0;
    }
  }

  /**
   * The step counter visits 0..15 and a bar is completed every sixteen
   * playing ticks: after k ticks from (step, bar) the position is
   * (step + k) mod 16 in bar bar + (step + k) / 16.
   */
  function Advance(step: nat, bar: int, k: nat): (r: (nat, int))
    requires step < StepsPerBar
    ensures r.0 < StepsPerBar
  {
    if k == 0 then (step, bar)
    else
      var (s, b) := Advance(step, bar, k - 1);
      var s' := (s + 1) % StepsPerBar;
      (s', if s' == 0 then b + 1 else b)
  }

  lemma {:induction false} AdvancePosition(step: nat, bar: int, k: nat)
    requires step < StepsPerBar
    ensures Advance(step, bar, k) == ((step + k) % StepsPerBar, bar + (step + k) / StepsPerBar)
  {
    if k > 0 {
      AdvancePosition(step, bar, k - 1);
      var n := step + k - 1;
      assert n == 16 * (n / 16) + n % 16;
      if n % 16 == 15 {
        assert n + 1 == 16 * (n / 16 + 1);
      } else {
        assert n + 1 == 16 * (n / 16) + (n % 16 + 1);
      }
    }
  }

  /**
   * The melody is fed the interval list as degrees, so in C Dorian the
   * values 7, 9 and 10 are past the last degree and always sound the root
   * 60, whatever the octave; 0, 2, 3, 5 map to 60, 63, 65, 69 plus the octave.
   */
  lemma DorianMelodyPitches(degree: int, octave: int)
    requires degree in Scale.ScaleDegrees(Scale.Dorian)
    ensures degree >= 7 ==> Scale.GetNote(Scale.Dorian, degree, octave) == 60
    ensures degree == 0 ==> Scale.GetNote(Scale.Dorian, degree, octave) == 60 + 12 * octave
    ensures degree == 2 ==> Scale.GetNote(Scale.Dorian, degree, octave) == 63 + 12 * octave
    ensures degree == 3 ==> Scale.GetNote(Scale.Dorian, degree, octave) == 65 + 12 * octave
    ensures degree == 5 ==> Scale.GetNote(Scale.Dorian, degree, octave) == 69 + 12 * octave
  {
  }
}
