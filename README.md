# GrooveGarden generative core in Dafny

GrooveGarden is a desktop groovebox. An 8 by 8 grid of cells feeds several
generators:

- a Life automaton that grows the pattern;
- a bucket-fill step generator whose pulse count follows the grid's density;
- an order-2 Markov melody model over the current scale.

A playback engine turns these into drum hits and melody notes, one 16-step
bar at a time. An exporter writes eight bars of drums, melody and bass as
MIDI events. A score panel rates the recent output for diversity, flow and
harmony from bounded histories.

This project models that core and proves properties of the model. There is
one module per Java class:

| module | Java class |
|---|---|
| `Scale` | `music.Scale` |
| `Euclidean` | `algo.EuclideanRhythm` |
| `Markov`, `MarkovFacts` | `algo.MarkovMelody` (operations, then the facts about the table and the sampler) |
| `Automaton` | `model.CellularAutomaton` |
| `Grid` | `model.GridModel` |
| `Engine` | `music.MidiEngine` |
| `Exporter` | `music.MidiExporter` |
| `Score` | `score.ScoreEngine` |
| `Similarity` | `util.Similarity` |
| `JavaInt` | Java semantics used throughout (see below) |

`JavaInt` holds the parts of Java's semantics that the model needs:

- truncating `/` and `%`;
- the saturating `(int)` cast of a double;
- `Math.min`/`Math.max`;
- the add-then-drop-oldest bounded list.

The classes that change state in place are Dafny classes: `EuclideanRhythm`,
`MarkovMelody`, `CellularAutomaton`, `GridModel`, `MidiEngine`, `Track` and
`ScoreEngine`. Each has its fields, `modifies` frames and loops with
invariants. Arrays stay arrays (`array<bool>` buckets, `array2<bool>`
boards, the `array2` DTW table). Each method is proved against a function
of the old state, and the properties are proved about those functions.

Nondeterminism and the outside world become parameters:

- **Randomness.** Each `Random.nextInt(bound)` is an injected natural number
  taken modulo `bound`. Each `Math.random()` gate is an injected real.
- **HashMap iteration order.** It is an explicit listing of the keys; any
  listing is allowed.
- **Synthesizer.** It is an append-only event log, and which MIDI channels
  exist is a parameter. The deferred note-offs of `java.util.Timer` are
  log entries that carry their delay.
- **Exported track.** It is the list of events added to it.

Doubles are exact reals. The cosine similarity and the autocorrelation keep
their square roots and quotients symbolic: the result is the numbers the
Java code divides. Shannon entropy and the double value of a cosine are
function parameters of the score engine.

A few behaviours of the code are worth knowing, and the model keeps them
as written:

- The step generator writes, for each of the `pulses` buckets, a run of
  `size` pulses followed by one rest, cut off at `steps`. It does not place
  one pulse per bucket. So `generate(16, 4)` is `1111011110111101`, with
  thirteen pulses (`Euclidean.SixteenFour`). The class name and the
  `// Bjorklund's algorithm` comment (EuclideanRhythm.java:25) suggest one
  evenly placed pulse per bucket; the model follows the code.
- The engine hands the scale's interval list, not its degree indices, to
  the Markov model as "degrees". Values that are not valid degree indices
  then sound the scale's root. In C Dorian these are 7, 9 and 10
  (`Engine.DorianMelodyPitches`).
- `Scale.isInScale` and `getDegree` use Java's truncating remainder. Below
  the root, only whole octaves match (`Scale.BelowRootInScale`).

## Model

| member | source | states |
|---|---|---|
| JavaInt.JavaRem | src/main/java/com/groovegarden/music/Scale.java:57 | Java's `%`: quotient times divisor plus remainder is the dividend, the remainder has the dividend's sign and is smaller than the divisor |
| JavaInt.DoubleToInt | src/main/java/com/groovegarden/score/ScoreEngine.java:229-234 | Java's `(int)` cast of a double: truncation toward zero inside the int range, saturation at `Integer.MIN_VALUE`/`MAX_VALUE` outside it |
| JavaInt.Push | src/main/java/com/groovegarden/score/ScoreEngine.java:96-103 | `add` then `remove(0)` past the cap: the result is the last `cap` entries of the list with the new entry appended, so the length grows by one until it reaches the cap, then stays there |
| JavaInt.PushWindow | src/main/java/com/groovegarden/score/ScoreEngine.java:96-103 | after a push the list ends with the new entry, the rest are the newest entries of the old list, and nothing is dropped while there is room |
| JavaInt.PushLast | src/main/java/com/groovegarden/score/ScoreEngine.java:96-112 | a history fed one value at a time holds exactly the last `cap` values of everything it was fed |
| Scale.GetScale | src/main/java/com/groovegarden/music/Scale.java:29-31 | the result is a predefined scale: the one with the given name, or C Dorian when the name is unknown |
| Scale.ScaleDegrees | src/main/java/com/groovegarden/music/Scale.java:42-44 | a copy of the interval list, of length `getSize()` |
| Scale.GetDegree | src/main/java/com/groovegarden/music/Scale.java:62-73 | the first index whose interval equals the truncated remainder of (pitch - root) by 12; -1 exactly when `isInScale` is false |
| Scale.PredefinedWellFormed | src/main/java/com/groovegarden/music/Scale.java:12-21 | each predefined scale has a non-empty, strictly increasing interval list in [0, 12) that starts at 0 |
| Scale.UnknownNameIsDorian | src/main/java/com/groovegarden/music/Scale.java:29-31 | an unknown name gives root 60 and intervals 0,2,3,5,7,9,10, whose degree 2 in octave 0 is 63 |
| Scale.GetNote | src/main/java/com/groovegarden/music/Scale.java:33-40 | an in-range degree is its interval above the root, shifted by 12 per octave; a degree outside [0, size) gives the root |
| Scale.IsInScale | src/main/java/com/groovegarden/music/Scale.java:54-60 | at or above the root, membership is ordinary pitch-class membership of the distance from the root |
| Scale.NoteInRange | src/main/java/com/groovegarden/music/Scale.java:33-40 | an in-range degree gives root + interval + 12 * octave |
| Scale.NoteOutOfRange | src/main/java/com/groovegarden/music/Scale.java:34-36 | an out-of-range degree gives the root in every octave |
| Scale.DegreeOfNote | src/main/java/com/groovegarden/music/Scale.java:33-73 | for a well-formed scale and a non-negative octave, the note of a degree is in the scale and `getDegree` gives that degree back |
| Scale.BelowRootInScale | src/main/java/com/groovegarden/music/Scale.java:54-60 | below the root, a pitch is in the scale iff it lies a whole number of octaves below the root |
| Euclidean.EuclideanRhythm.constructor | src/main/java/com/groovegarden/algo/EuclideanRhythm.java:7-10 | stores `steps` and `min(pulses, steps)` |
| Euclidean.EuclideanRhythm.SetSteps | src/main/java/com/groovegarden/algo/EuclideanRhythm.java:50-52 | sets `steps` and leaves the pulse count unclamped |
| Euclidean.EuclideanRhythm.SetPulses | src/main/java/com/groovegarden/algo/EuclideanRhythm.java:54-56 | stores `min(pulses, steps)` |
| Euclidean.EuclideanRhythm.Generate | src/main/java/com/groovegarden/algo/EuclideanRhythm.java:12-48 | the returned array is a new array of `steps` entries and is the layout of the stored steps and pulses |
| Euclidean.FillBuckets | src/main/java/com/groovegarden/algo/EuclideanRhythm.java:26-39 | the bucket loop leaves 1 where the bucket runs, cut or padded to the array's length, have a pulse and 0 elsewhere |
| Euclidean.GenerateFor | src/main/java/com/groovegarden/algo/EuclideanRhythm.java:66-69 | the static `generate` is the layout of `steps` and the clamped pulse count, so it depends only on the two arguments |
| Euclidean.LayoutLength | src/main/java/com/groovegarden/algo/EuclideanRhythm.java:12-47 | the pattern has exactly `steps` entries |
| Euclidean.LayoutEdgeCases | src/main/java/com/groovegarden/algo/EuclideanRhythm.java:13-23 | no pulses gives only rests; as many pulses as steps gives only pulses |
| Euclidean.ClampedRequestAllPulses | src/main/java/com/groovegarden/algo/EuclideanRhythm.java:7-23 | a request of at least `steps` pulses is clamped and gives only pulses |
| Euclidean.WrittenLength | src/main/java/com/groovegarden/algo/EuclideanRhythm.java:31-39 | the buckets write `i * (steps / pulses + 1) + min(i, steps % pulses)` entries before the cut |
| Euclidean.WrittenRestsIsolated | src/main/java/com/groovegarden/algo/EuclideanRhythm.java:31-39 | the written entries start with a pulse, end with a rest, and no two rests touch |
| Euclidean.LayoutShape | src/main/java/com/groovegarden/algo/EuclideanRhythm.java:26-39 | for 0 < pulses < steps the pattern starts with a pulse and never has two rests in a row |
| Euclidean.SixteenFour | src/main/java/com/groovegarden/algo/EuclideanRhythm.java:26-39 | `generate(16, 4)` is 1111011110111101, with thirteen pulses |
| Markov.MarkovMelody.constructor | src/main/java/com/groovegarden/algo/MarkovMelody.java:11-16 | the given order, no degrees and an empty table |
| Markov.MarkovMelody.SetScaleDegrees | src/main/java/com/groovegarden/algo/MarkovMelody.java:18-21 | stores the degrees and rebuilds the table from them, keeping the order |
| Markov.MarkovMelody.SetOrder | src/main/java/com/groovegarden/algo/MarkovMelody.java:87-90 | stores the order and rebuilds the table, keeping the degrees |
| Markov.MarkovMelody.BuildTransitionMatrix | src/main/java/com/groovegarden/algo/MarkovMelody.java:23-37 | the cleared table is refilled with exactly the table built from the current degrees and order |
| Markov.MarkovMelody.BuildContext | src/main/java/com/groovegarden/algo/MarkovMelody.java:39-46 | the key of a window is the `order` degrees starting at the index |
| Markov.MarkovMelody.BuildContextFromList | src/main/java/com/groovegarden/algo/MarkovMelody.java:78-85 | the key of a context list is its last `order` elements |
| Markov.MarkovMelody.IterationOrder | src/main/java/com/groovegarden/algo/MarkovMelody.java:67 | a listing of the successors stored for the context, each exactly once |
| Markov.EnumerateKeys | src/main/java/com/groovegarden/algo/MarkovMelody.java:67 | lists every key of a row exactly once, in an unspecified order |
| Markov.MarkovMelody.GenerateNextNote | src/main/java/com/groovegarden/algo/MarkovMelody.java:48-76 | the fallbacks and the cumulative walk in the given successor order; the result is one of the degrees |
| Markov.BuildTableWellFormed | src/main/java/com/groovegarden/algo/MarkovMelody.java:29-36 | every key of a rebuilt table has length `order`, every row is non-empty, every count is positive and every successor is a degree |
| MarkovFacts.RecordCount | src/main/java/com/groovegarden/algo/MarkovMelody.java:33-35 | one `put(next, getOrDefault(next, 0) + 1)` adds one to that count and changes no other |
| MarkovFacts.TableCounts | src/main/java/com/groovegarden/algo/MarkovMelody.java:23-36 | fewer than order + 1 degrees leave the table empty; otherwise each stored count is the number of windows showing that context followed by that successor |
| MarkovFacts.TableCountsPositive | src/main/java/com/groovegarden/algo/MarkovMelody.java:33-35 | every stored count is at least 1, its successor is a degree and its key has length `order` |
| MarkovFacts.BuildTableTotal | src/main/java/com/groovegarden/algo/MarkovMelody.java:29-36 | all counts add up to the number of windows, `|degrees| - order` |
| MarkovFacts.PickFirstExceeding | src/main/java/com/groovegarden/algo/MarkovMelody.java:66-72 | for a draw in [0, total) the walk returns the first successor whose running weight exceeds the draw |
| MarkovFacts.NextNoteFromTable | src/main/java/com/groovegarden/algo/MarkovMelody.java:54-75 | for a context the table knows, the total is positive, the fallbacks are unreachable and the result is a recorded successor, the first whose running weight exceeds the draw |
| MarkovFacts.NextNoteInDegrees | src/main/java/com/groovegarden/algo/MarkovMelody.java:48-76 | every value `generateNextNote` can return is one of the degrees |
| MarkovFacts.NextNoteSuffixOnly | src/main/java/com/groovegarden/algo/MarkovMelody.java:78-85 | two contexts with the same last `order` elements give the same note |
| MarkovFacts.DorianOrderTwo | src/main/java/com/groovegarden/algo/MarkovMelody.java:29-36 | order 2 over 0,2,3,5,7,9,10 gives five contexts, each followed once by one successor |
| Automaton.CellularAutomaton.constructor | src/main/java/com/groovegarden/model/CellularAutomaton.java:8-12 | two fresh, distinct, all-dead buffers of the given size |
| Automaton.CellularAutomaton.Update | src/main/java/com/groovegarden/model/CellularAutomaton.java:14-42 | the buffers swap; the new current buffer is the next generation of the input's top-left corner, the other holds the copied corner, and an input that is not the old next buffer is not written |
| Automaton.CellularAutomaton.CopyCorner | src/main/java/com/groovegarden/model/CellularAutomaton.java:16-20 | the buffer receives the input's top-left n by n corner and the input is unchanged |
| Automaton.CellularAutomaton.WriteNextGeneration | src/main/java/com/groovegarden/model/CellularAutomaton.java:23-36 | the next buffer holds Life's rule applied to every cell of the current buffer |
| Automaton.CellularAutomaton.CountNeighbors | src/main/java/com/groovegarden/model/CellularAutomaton.java:44-64 | the nine-offset loop counts the live on-board neighbours of the cell |
| Automaton.CellularAutomaton.GetCurrentState | src/main/java/com/groovegarden/model/CellularAutomaton.java:66-68 | the current buffer itself, not a copy |
| Automaton.CellularAutomaton.SetCell | src/main/java/com/groovegarden/model/CellularAutomaton.java:70-74 | writes an on-board cell and changes nothing else; off-board coordinates change nothing |
| Automaton.CellularAutomaton.Clear | src/main/java/com/groovegarden/model/CellularAutomaton.java:76-83 | every cell of both buffers is dead |
| Automaton.NeighborsAreSurrounding | src/main/java/com/groovegarden/model/CellularAutomaton.java:44-64 | the loop's count equals the count of the eight surrounding cells that are on the board and alive, with no wrap-around |
| Automaton.StepRule | src/main/java/com/groovegarden/model/CellularAutomaton.java:23-35 | a live cell survives iff it has 2 or 3 live neighbours; a dead cell is born iff it has 3 |
| Automaton.NeighborsBounds | src/main/java/com/groovegarden/model/CellularAutomaton.java:44-64 | a cell has at most 8 neighbours, at most 3 in a corner and at most 5 on an edge |
| Automaton.EmptyStaysEmpty | src/main/java/com/groovegarden/model/CellularAutomaton.java:28-35 | an all-dead board stays all dead |
| Automaton.StepTranspose | src/main/java/com/groovegarden/model/CellularAutomaton.java:23-64 | stepping commutes with transposing the board |
| Automaton.Blinker | src/main/java/com/groovegarden/model/CellularAutomaton.java:14-64 | a vertical bar of three on a 3 by 3 board turns horizontal |
| Grid.GridModel.constructor | src/main/java/com/groovegarden/model/GridModel.java:12-16 | all cells inactive on layer 0, a fresh all-dead automaton and scale "C Dorian" |
| Grid.GridModel.ToggleCell | src/main/java/com/groovegarden/model/GridModel.java:26-31 | flips only that cell; switching it off puts it on layer 0; the invariant (layers in {0,1,2}, inactive on layer 0) is kept |
| Grid.GridModel.CycleCellLayer | src/main/java/com/groovegarden/model/GridModel.java:33-37 | on an active cell the layer becomes (layer + 1) % 3; an inactive cell is left alone |
| Grid.GridModel.SetScale | src/main/java/com/groovegarden/model/GridModel.java:39-41 | stores the name and leaves the cells alone |
| Grid.GridModel.Update | src/main/java/com/groovegarden/model/GridModel.java:47-60 | the active cells become the OR of the old cells and their next Life generation; layers and the invariant are kept |
| Grid.GridModel.MergeInto | src/main/java/com/groovegarden/model/GridModel.java:53-59 | every cell live in the automaton's state becomes active; no cell is switched off |
| Grid.GridModel.GetActiveCellCount | src/main/java/com/groovegarden/model/GridModel.java:74-82 | the number of active cells, at most 64 |
| Grid.GridModel.GetGridDensity | src/main/java/com/groovegarden/model/GridModel.java:84-86 | the count over 64, in [0, 1] |
| Grid.GridModel.Clear | src/main/java/com/groovegarden/model/GridModel.java:88-97 | every cell inactive on layer 0 and both automaton buffers dead |
| Grid.CountBound | src/main/java/com/groovegarden/model/GridModel.java:74-82 | an n by n board has at most n * n live cells |
| Grid.UpdateMonotone | src/main/java/com/groovegarden/model/GridModel.java:47-60 | live cells stay live, a dead cell switches on iff it has exactly three live neighbours, and the count never drops |
| Grid.EmptyCount | src/main/java/com/groovegarden/model/GridModel.java:88-97 | a cleared board counts no active cells |
| Engine.SetupEvents | src/main/java/com/groovegarden/music/MidiEngine.java:48-68 | no synthesizer sends nothing; otherwise exactly program 0 to channel 0, program 32 to channel 1 and program 0 to channel 9, each one only if that channel exists, in that order |
| Engine.Remember | src/main/java/com/groovegarden/music/MidiEngine.java:151-154 | the history becomes the last eight entries of the old history with the degree appended |
| Engine.MidiEngine.constructor | src/main/java/com/groovegarden/music/MidiEngine.java:32-46 | C Dorian, stopped at step 0 of bar 0, tempo 120, pulse count 4, an all-rest pattern, an empty history, the order-2 table of the Dorian intervals, and the setup events |
| Engine.MidiEngine.Start | src/main/java/com/groovegarden/music/MidiEngine.java:70-74 | playing from step 0 of bar 0; nothing else changes |
| Engine.MidiEngine.Stop | src/main/java/com/groovegarden/music/MidiEngine.java:76-86 | not playing; one all-notes-off per existing channel, in channel order |
| Engine.MidiEngine.Tick | src/main/java/com/groovegarden/music/MidiEngine.java:88-103 | stopped: nothing changes. Playing: the rhythm is regenerated, the drum hits and the melody note of the step are sent, the history keeps the last eight degrees, and the step advances with a new bar after step 15 |
| Engine.MidiEngine.PlayStep | src/main/java/com/groovegarden/music/MidiEngine.java:94-102 | the step's drum and melody events, then step + 1 modulo 16 and the bar count |
| Engine.MidiEngine.PlayCurrentStep | src/main/java/com/groovegarden/music/MidiEngine.java:94-96 | the drum events of the step followed by its melody events |
| Engine.MidiEngine.AdvanceStep | src/main/java/com/groovegarden/music/MidiEngine.java:99-102 | step becomes (step + 1) % 16, and the bar count grows exactly when it wraps to 0 |
| Engine.MidiEngine.UpdateAlgorithms | src/main/java/com/groovegarden/music/MidiEngine.java:105-114 | pulses become max(1, activeCount / 8), the pattern is regenerated for 16 steps, and the Markov table stays the one of the current scale |
| Engine.MidiEngine.GenerateRhythm | src/main/java/com/groovegarden/music/MidiEngine.java:116-136 | the drum hits of the current step, or nothing when the drum channel is missing |
| Engine.MidiEngine.GenerateMelody | src/main/java/com/groovegarden/music/MidiEngine.java:138-155 | when the melody channel exists: one note at `getNote(degree, 4 + step / 8)` with velocity 80 and its note-off after 300 ms, and the degree is remembered; otherwise nothing |
| Engine.MidiEngine.PlayNote | src/main/java/com/groovegarden/music/MidiEngine.java:147-148 | the note-on with velocity 80 and its deferred note-off |
| Engine.MidiEngine.RememberDegree | src/main/java/com/groovegarden/music/MidiEngine.java:151-154 | appends the degree and drops the oldest entry beyond eight |
| Engine.MidiEngine.DrawDegree | src/main/java/com/groovegarden/music/MidiEngine.java:142 | the Markov draw for the history, which is one of the scale's intervals |
| Engine.MidiEngine.SetScale | src/main/java/com/groovegarden/music/MidiEngine.java:174-177 | installs the named scale (C Dorian when unknown) and rebuilds the order-2 table from its intervals |
| Engine.MidiEngine.SetTempo | src/main/java/com/groovegarden/music/MidiEngine.java:179-181 | stores the tempo |
| Engine.PulsesFromDensity | src/main/java/com/groovegarden/music/MidiEngine.java:107-108 | `max(1, (int) (density * 8))` with density count / 64 equals max(1, count / 8), which lies in [1, 8] |
| Engine.AllOffChannels | src/main/java/com/groovegarden/music/MidiEngine.java:76-86 | `stop` silences a channel iff it exists, each once, and sends nothing else |
| Engine.DrumRule | src/main/java/com/groovegarden/music/MidiEngine.java:116-136 | on a pulse: kick 36 iff step % 4 == 0, snare 38 iff step % 4 == 2, hi-hat 42 always, each note-on followed by its note-off; a rest sends nothing |
| Engine.AdvancePosition | src/main/java/com/groovegarden/music/MidiEngine.java:99-102 | after k playing ticks the position is (step + k) mod 16 in bar bar + (step + k) / 16 |
| Engine.DorianMelodyPitches | src/main/java/com/groovegarden/music/MidiEngine.java:142-144 | in C Dorian, the "degrees" 7, 9 and 10 sound the root 60 in every octave; 0, 2, 3 and 5 sound 60, 63, 65 and 69 plus the octave |
| Exporter.Track.constructor | src/main/java/com/groovegarden/music/MidiExporter.java:19 | an empty track |
| Exporter.Track.Add | src/main/java/com/groovegarden/music/MidiExporter.java:23 | appends one event |
| Exporter.NoteEvents | src/main/java/com/groovegarden/music/MidiExporter.java:134-149 | a valid note gives a note-on at the tick and a velocity-0 note-off `duration` later; an invalid one adds nothing |
| Exporter.SlotTick | src/main/java/com/groovegarden/music/MidiExporter.java:47 | slot (bar, step) starts at tick (bar * 16 + step) * 120 |
| Exporter.CreateTempoMessage | src/main/java/com/groovegarden/music/MidiExporter.java:151-166 | a meta event of type 0x51 with three byte values |
| Exporter.TempoBytes | src/main/java/com/groovegarden/music/MidiExporter.java:151-160 | the three bytes are the big-endian digits of 60000000 / bpm when that fits in 24 bits |
| Exporter.Tempo120 | src/main/java/com/groovegarden/music/MidiExporter.java:22-23 | 120 bpm gives 500000 microseconds, bytes 0x07 0xA1 0x20 |
| Exporter.Export | src/main/java/com/groovegarden/music/MidiExporter.java:15-40 | the tempo event at tick 0, then the drum, melody and bass tracks in order; the grid and the engine are unchanged |
| Exporter.AddNote | src/main/java/com/groovegarden/music/MidiExporter.java:134-149 | appends the note's events |
| Exporter.ExportRhythmTrack | src/main/java/com/groovegarden/music/MidiExporter.java:42-68 | appends the drum track of eight bars, gated by the grid's density |
| Exporter.WriteRhythm | src/main/java/com/groovegarden/music/MidiExporter.java:45-67 | the bar loop appends the drum events of all eight bars |
| Exporter.WriteRhythmBar | src/main/java/com/groovegarden/music/MidiExporter.java:46-66 | the step loop appends the drum events of one bar |
| Exporter.WriteDrumStep | src/main/java/com/groovegarden/music/MidiExporter.java:52-65 | appends the hits of one step when the draw allows it |
| Exporter.ExportMelodyTrack | src/main/java/com/groovegarden/music/MidiExporter.java:70-85 | appends the melody track of eight bars from the grid and the engine's scale |
| Exporter.WriteMelody | src/main/java/com/groovegarden/music/MidiExporter.java:73-84 | the bar loop appends the melody events of all eight bars |
| Exporter.WriteMelodyBar | src/main/java/com/groovegarden/music/MidiExporter.java:74-83 | the step loop appends the melody events of one bar |
| Exporter.ExportBassTrack | src/main/java/com/groovegarden/music/MidiExporter.java:87-102 | appends the bass track of eight bars |
| Exporter.PredefinedExportable | src/main/java/com/groovegarden/music/MidiExporter.java:110-132 | every pitch a predefined scale can export is a valid MIDI data byte |
| Exporter.DrumSlotRule | src/main/java/com/groovegarden/music/MidiExporter.java:52-65 | with the draw's approval: kick 36/100 iff step % 4 == 0, snare 38/80 iff step % 4 == 2, hi-hat 42/60 always, released after 120, 120 and 60 ticks, all on channel 9; without it nothing |
| Exporter.RhythmTrackSilent | src/main/java/com/groovegarden/music/MidiExporter.java:104-108 | draws that never pass the gate give an empty drum track |
| Exporter.EmptyGridSilent | src/main/java/com/groovegarden/music/MidiExporter.java:104-108 | an empty grid has density 0, so draws in [0, 1) give no drums |
| Exporter.RhythmTrackOnChannel | src/main/java/com/groovegarden/music/MidiExporter.java:42-68 | every drum event is a note message on channel 9 |
| Exporter.GenerateMelodyNote | src/main/java/com/groovegarden/music/MidiExporter.java:110-122 | a cell active on layer 1 gives the interval of degree row % size above the root, always in octave 4 since the column is below 8; any other cell gives -1 |
| Exporter.MelodySlotRule | src/main/java/com/groovegarden/music/MidiExporter.java:110-122 | a slot sounds iff cell (step % 8, bar % 8) is active on layer 1, at degree row % size in octave 4, velocity 80, released after 240 ticks |
| Exporter.MelodyTrackOnChannel | src/main/java/com/groovegarden/music/MidiExporter.java:70-85 | every melody event is a note message on channel 0 |
| Exporter.GenerateBassNote | src/main/java/com/groovegarden/music/MidiExporter.java:124-132 | steps divisible by 4 give the interval of degree (bar + step / 4) % size above the root in octave 2; other steps give -1 |
| Exporter.BassSlotRule | src/main/java/com/groovegarden/music/MidiExporter.java:124-132 | exactly steps 0, 4, 8 and 12 sound, at degree (bar + step / 4) % size in octave 2, velocity 70, released after 480 ticks, whatever the grid holds |
| Exporter.BassBarLength | src/main/java/com/groovegarden/music/MidiExporter.java:90-101 | each bar of bass holds four notes of two events each |
| Exporter.BassTrackLength | src/main/java/com/groovegarden/music/MidiExporter.java:87-102 | k bars of bass hold 8k events, all on channel 1 |
| Score.ScoreEngine.constructor | src/main/java/com/groovegarden/score/ScoreEngine.java:31-44 | empty histories, zero cached scores, not updating |
| Score.ScoreEngine.AddPitchEvent | src/main/java/com/groovegarden/score/ScoreEngine.java:96-103 | the pitch history is the bounded push with cap 100; nothing else changes |
| Score.ScoreEngine.AddRhythmEvent | src/main/java/com/groovegarden/score/ScoreEngine.java:105-112 | the rhythm history is the bounded push with cap 100; nothing else changes |
| Score.ScoreEngine.AddBar | src/main/java/com/groovegarden/score/ScoreEngine.java:114-123 | a 16-step bar is stored by reference, keeping the last ten; any other length is ignored |
| Score.ScoreEngine.CalculateFlow | src/main/java/com/groovegarden/score/ScoreEngine.java:212-244 | the flow of the stored bars' contents |
| Score.ScoreEngine.CalculateHarmony | src/main/java/com/groovegarden/score/ScoreEngine.java:246-272 | the harmony of the pitch history, from the count of pitches C Dorian accepts |
| Score.ScoreEngine.UpdateScores | src/main/java/com/groovegarden/score/ScoreEngine.java:128-152 | while an update runs nothing changes; otherwise the three scores of the current histories are cached; the flag is as before on the way out |
| Score.TruncateBar | src/main/java/com/groovegarden/score/ScoreEngine.java:229-234 | the casting loop gives every value of the bar cast to int |
| Score.PushKeeps | src/main/java/com/groovegarden/score/ScoreEngine.java:114-123 | pushing a full bar onto full bars keeps every stored bar full |
| Score.EmptyScores | src/main/java/com/groovegarden/score/ScoreEngine.java:192-272 | an empty list gives diversity 0, fewer than two bars flow 0, no pitches harmony 0 |
| Score.Diversity | src/main/java/com/groovegarden/score/ScoreEngine.java:192-210 | 0 when either list is empty, never above 100, and 50 per bit of combined entropy below the cap |
| Score.DiversityRange | src/main/java/com/groovegarden/score/ScoreEngine.java:192-210 | with non-negative entropies, diversity lies in [0, 100] |
| Score.FlowScoreRange | src/main/java/com/groovegarden/score/ScoreEngine.java:239-243 | the flow score lies in [0, 100], is 100 exactly at similarity 0.5, and is 0 at or beyond 0 and 1 |
| Score.FlowLastTwo | src/main/java/com/groovegarden/score/ScoreEngine.java:222-223 | flow reads only the last two bars |
| Score.SilentBarsNoFlow | src/main/java/com/groovegarden/score/ScoreEngine.java:212-244 | a last bar that casts to zeros gives similarity 0 and so flow 0 |
| Score.CountWhereBounds | src/main/java/com/groovegarden/score/ScoreEngine.java:256-264 | the in-scale count is at most the total; it equals the total iff every pitch is accepted and is 0 iff none is |
| Score.HarmonyRange | src/main/java/com/groovegarden/score/ScoreEngine.java:266-271 | harmony lies in [0, 100]; it is 100 when every pitch is in C Dorian and 10 when none is |
| Similarity.CalculateSimilarity | src/main/java/com/groovegarden/util/Similarity.java:7-34 | the guard, then the dot product and the two norms of the common prefix |
| Similarity.CalculateSimilarityArrays | src/main/java/com/groovegarden/util/Similarity.java:36-53 | the array overload equals the list overload on the arrays' contents |
| Similarity.CopyToList | src/main/java/com/groovegarden/util/Similarity.java:44-50 | the copy holds the array's contents in order |
| Similarity.NormNonNegative | src/main/java/com/groovegarden/util/Similarity.java:20-31 | a norm is non-negative and zero iff the prefix is all zeros |
| Similarity.CosinePrefix | src/main/java/com/groovegarden/util/Similarity.java:13-27 | only the first min(len a, len b) elements are read, where len is a list's length |
| Similarity.CosineSymmetric | src/main/java/com/groovegarden/util/Similarity.java:7-34 | swapping the lists swaps the norms and keeps the dot product |
| Similarity.CosineZero | src/main/java/com/groovegarden/util/Similarity.java:8-31 | the result is 0 iff a list is missing or empty or a compared prefix is all zeros; otherwise both norms are positive |
| Similarity.CosineSelf | src/main/java/com/groovegarden/util/Similarity.java:20-33 | a non-zero list against itself has dot product equal to both norms (cosine 1) |
| Similarity.CalculateAutoCorrelation | src/main/java/com/groovegarden/util/Similarity.java:55-73 | the guard, the mean and variance, then the lagged sum over pairs times variance; a negative lag gives 0.0 on empty or constant data, 0.0 when the 32-bit pair count `data.size() - lag` wraps, and otherwise the IndexOutOfBoundsException of reading index `lag` |
| Similarity.DeviationsNonNegative | src/main/java/com/groovegarden/util/Similarity.java:61 | the squared deviations are non-negative and zero iff every value equals the mean |
| Similarity.VarianceZero | src/main/java/com/groovegarden/util/Similarity.java:60-65 | the variance is zero iff every value is the same |
| Similarity.ConstantDataUncorrelated | src/main/java/com/groovegarden/util/Similarity.java:63-65 | constant data gives autocorrelation 0 |
| Similarity.NegativeLag | src/main/java/com/groovegarden/util/Similarity.java:56-69 | for a negative lag whose pair count fits in an int, the call throws iff the data is not constant, and returns 0.0 otherwise |
| Similarity.WrappedPairCount | src/main/java/com/groovegarden/util/Similarity.java:67-72 | a negative lag at or below size - 2^31 wraps the pair count, skips the loop and returns 0.0 for every list |
| Similarity.LagZeroIsOne | src/main/java/com/groovegarden/util/Similarity.java:67-72 | at lag 0 the lagged sum is pairs times variance: the autocorrelation of non-constant data is 1 |
| Similarity.DTWTable | src/main/java/com/groovegarden/util/Similarity.java:84-99 | every table entry is the DTW recurrence: 0 at (0, 0), infinity elsewhere on row and column 0, else cost plus the cheapest predecessor |
| Similarity.CalculateDTWSimilarity | src/main/java/com/groovegarden/util/Similarity.java:75-103 | the guard, then 1 / (1 + the last table entry) |
| Similarity.DistanceFinite | src/main/java/com/groovegarden/util/Similarity.java:84-99 | entries off the border, and (0, 0), are finite and non-negative; the rest of the border is infinite |
| Similarity.DistanceSymmetric | src/main/java/com/groovegarden/util/Similarity.java:84-99 | the warping distance does not depend on which sequence comes first |
| Similarity.DistanceSelf | src/main/java/com/groovegarden/util/Similarity.java:84-99 | a sequence is at distance 0 from itself |
| Similarity.DTWSimilarityRange | src/main/java/com/groovegarden/util/Similarity.java:76-102 | missing or empty inputs give 0; two non-empty inputs give a value in (0, 1] |
| Similarity.DTWSimilaritySymmetric | src/main/java/com/groovegarden/util/Similarity.java:75-103 | the similarity is symmetric |
| Similarity.DTWSimilaritySelf | src/main/java/com/groovegarden/util/Similarity.java:91-102 | identical non-empty sequences have similarity exactly 1 |

## Left out

- Floating point. Doubles are exact reals, so rounding, NaN and infinities
  are not modelled. The DTW infinity is its own table value.
- Similarity.CalculateSimilarity: returns the dot product and the two norms
  instead of `dot / (sqrt(norm1) * sqrt(norm2))`. Dafny has no square root
  on reals.
- Similarity.CalculateAutoCorrelation: returns the lagged sum, the pair
  count and the variance instead of their quotient. `lag + 1` is computed
  without 32-bit wrap-around: at `Integer.MAX_VALUE` Java's guard lets
  non-constant data through to an empty loop and returns -0.0, where the
  model returns 0. Where `data.size() - lag` wraps, Java also returns -0.0;
  the model returns 0 there too, since reals have no signed zero.
- Similarity.CalculateDTWSimilarity: requires every input value to lie in
  [-2^30, 2^30), so that the Java `int` subtraction cannot overflow.
- Score.ScoreEngine.UpdateScores: entropy is a function parameter. The
  double value of the cosine is another parameter, also taken by
  Score.ScoreEngine.CalculateFlow. Entropy.java is not part of this model.
- Score.ScoreEngine.UpdateScores: the UI refresh through
  `Platform.runLater` is not modelled, and neither are the timestamps.
- ScoreEngine's widgets, the scheduled executor, `shouldUpdateScores`, the
  `synchronized` blocks and `volatile` fields (everything is
  single-threaded here), `shutdown` and the cached-score getters.
- Score.ScoreEngine.AddBar: the bar is a non-null array; Java throws on
  `null`.
- javax.sound.midi:
  - Synthesizer, MidiChannel and `MidiSystem.write` become event logs.
  - `Sequence` and the file itself are not modelled.
  - The timing of `java.util.Timer` is not modelled.
  - `close()` is left out.
- Exporter.Track.Add: appends in call order. A javax `Track` keeps its
  events sorted by tick.
- Exporter.Export: the file write and its exception handler are left out.
  The grid's density is read once per drum track, not once per slot:
  nothing changes it during export.
- Exporter.Export, Exporter.ExportMelodyTrack, Exporter.ExportBassTrack:
  require a scale with at least one interval. Java's `% getSize()` would
  throw on an empty scale, and every predefined scale has seven.
- Exporter.CreateTempoMessage: requires a non-zero bpm, where Java divides
  by zero. The unreachable `null` return of its exception handler is left
  out.
- Engine.SetupEvents, Engine.MidiEngine.constructor: require a
  synthesizer to have at least ten channels. Java indexes channels 0, 1
  and 9 without a length check, and the `ArrayIndexOutOfBoundsException`
  of a shorter array escapes the `MidiUnavailableException` handler.
- Engine.MidiEngine.Tick: requires the channel array to exist while
  playing. Java dereferences it unchecked and throws when MIDI is
  unavailable.
- Engine: the getters `getCurrentScale`, `isPlaying`, `getCurrentStep` and
  `getCurrentBar` are plain field reads.
- Markov.MarkovMelody.GenerateNextNote: requires a non-empty degree list.
  With no degrees the table is empty, so every call reaches
  `Random.nextInt(0)`, which throws.
- Markov.MarkovMelody.SetOrder: the order is a natural number, and so is
  the constructor's. A negative order makes the Java rebuild read before
  the start of the list.
- Markov: the table is keyed by the context sequence, not by its
  comma-joined string; the join is injective for a fixed order. The
  getters `getOrder` and `getScaleDegrees` are left out.
- Euclidean.EuclideanRhythm.Generate: requires `steps >= 0`; Java throws
  `NegativeArraySizeException` otherwise. The getters `getSteps` and
  `getPulses` are left out.
- Automaton.CellularAutomaton.Update: requires an input of at least
  gridSize by gridSize, where Java throws on a smaller one. The input is an
  `array2`, a rectangular array, not an array of row arrays.
- Grid.GridModel.ToggleCell, Grid.GridModel.CycleCellLayer: require
  on-board coordinates, where Java throws.
- Grid: `isCellActive`, `getCellLayer`, `getScale`, `getActiveCells`,
  `getCellLayers` and `getGridSize` are field reads.
- Scale: `getRootNote`, `getName`, `getSize` and `getAvailableScales` are
  field reads. The registry's `HashMap` is a Dafny `map`.
- The JavaFX user interface, the application shell, the configuration
  file, the error dialogs and the memory monitor are not part of this
  model.
