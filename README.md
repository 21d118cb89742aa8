# drum-hero transcription core in Dafny

This project models how drum-hero turns a MIDI drum track into sheet music. It defines the model in Dafny and proves properties of it. Three parts of the repository are modelled:

- **`MidiParser`** (`src/midi-parser/parser.ts`). Its constructor finds the track named `PART DRUMS` and runs six stages over it:
  1. build the duration table from ppq;
  2. classify the track's notes into raw notes (grouped by start tick) and tom-modifier notes;
  3. lay out the measures of each time-signature segment and split each measure into equal beats;
  4. scan every tick of every beat for hits and opening rests;
  5. give each event its length, name it from the table, and split or replace the events whose length has no name;
  6. flatten each measure's beats and merge runs of quarter rests.
- **`Song`** (`src/renderer/song.ts`). This earlier, one-pass version scans the expert notes every `ppq / 16` ticks. It opens a new measure when the tick counter fills the current signature's measure. It tracks the active tom modifiers as it goes, then gives every empty measure a whole rest.
- **`format`** (`src/renderer/util.ts`). It writes a number of seconds as `[h:]mm:ss`.

The model keeps the source's form:

- The `MidiParser` and `Song` classes keep their fields, and their methods update them under `modifies` clauses.
- Every loop of the source is a `while` loop with invariants. Each method is proved equal to a specification function of its inputs, or of its old state.
- The properties the source promises are proved as lemmas about those functions.

The records (events, beats, measures, raw notes, modifier notes) are datatypes.

Modules, one per file:

| module | file | models |
|---|---|---|
| Wrappers | wrappers.dfy | `Option` (an `undefined` or `??` default) and `Result` (a thrown error) |
| MidiInput | midi_input.dfy | the loaded MIDI header, tracks and notes; `tracks.find`; beat and measure lengths; `Math.ceil` |
| ParserTypes | parser_types.dfy | the parser's `Note`, `Beat`, `Measure`, `RawMidiNote`, `ModifierNote`, `Duration`, `Difficulty` |
| DrumMapping | drum_mapping.dfy | the pitch tables, the tom modifiers, `getNoteKey`, and the grouping done by `processNotes` |
| DurationTable | duration_table.dfy | `constructDurationMap` and the key list `Object.keys` gives |
| SubsetSearch | subsets.dfy | `getSubsets` and its recursive `fork` |
| MeasureGrid | measure_grid.dfy | `createMeasures` and `getBeats` as functions |
| BeatFiller | beat_filler.dfy | the tick scan of `fillBeats` |
| DurationResolver | duration_resolver.dfy | `extendNoteDuration`, `processCompositeDuration`, `getClosestDuration` |
| RestCollapse | rest_collapse.dfy | `flattenMeasures`, `collapseQRests`, `getCollapsedRest` |
| Parser | parser.dfy | the `MidiParser` class: the constructor and its stage methods |
| PipelineProperties | pipeline_props.dfy | what the stages guarantee together |
| SongParser | song.dfy | the `Song` class, `parse`'s loop body as a state step, and `addWholeRests` |
| SongProperties | song_props.dfy | the invariant of `parse`'s scan and what it gives: measure boundaries, hits, keys |
| TimeFormat | time_format.dfy | `format`, a reader for its output, and the corrected formatter |

Where the repository's specification and its code disagree, the model follows the code:

- **Composite split.** Every piece of a split is a rest when the event was one. The first piece is a rest in any case (`note.isRest || index === 0`).
- **Scan step.** The parser scans every tick: its step is 1, not a thirty-second note. The `Song` scan steps by `ppq / 16`.
- **Parser modifier window.** It is closed at both ends: a modifier covers `ticks .. ticks + durationTicks`, both included.
- **Song modifier window.**
  - A modifier note is added at a scanned step equal to its start tick. It is dropped at a scanned step equal to its end tick.
  - So for a modifier whose start and end fall on steps, the window is half-open.
  - A modifier that starts off the grid never becomes active. One that ends off the grid stays active to the end of the track.
- **Rest merging.**
  - Merging looks for `qr` events, after durations are resolved. It does not look for `32r` before resolution.
  - A run is written out when a non-`qr` event arrives, when a `qr` arrives with four already held, or at the end. In the second case that fifth `qr` passes through unmerged.
  - Merging is not idempotent. Six quarter rests become `wr, qr, qr`, and a second pass turns these into `wr, hr` (`RestCollapse.CollapseNotIdempotent`).

## Model

| member | source | states |
|---|---|---|
| MidiInput.FindTrack | src/midi-parser/parser.ts:123 | no result exactly when no track has the name; otherwise the first track with that name |
| MidiInput.PulsesPerDivision | src/midi-parser/parser.ts:189 | the ticks of one beat, `ppq / (den / 4)`, are positive |
| MidiInput.PulsesExact | src/midi-parser/parser.ts:189 | `den` beats of the signature make exactly four quarters (`4·ppq`) |
| MidiInput.MeasureLength | src/midi-parser/parser.ts:199 | a measure, `num` beats, is a positive number of ticks |
| MidiInput.MeasureSplits | src/midi-parser/parser.ts:221-223 | the measure length divides by `num` exactly, and each part is one beat |
| MidiInput.CeilDivSpec | src/midi-parser/parser.ts:194-196 | `Math.ceil(a / b)` is the least `r` with `a <= b·r`; it is positive exactly when `a` is |
| DrumMapping.GetNoteKey | src/midi-parser/parser.ts:161-166 | with no modifier for the note's pitch, the key is the mapped key; otherwise it is the key of the first such modifier |
| DrumMapping.ModifierTable | src/midi-parser/parser.ts:95-108 | the modifier pitches are 110, 111 and 112; no difficulty maps them; each retargets an expert tom |
| DrumMapping.ModifiersOnlyRetargetExpert | src/midi-parser/parser.ts:64-108 | an easy, medium or hard note keeps its mapped key, whatever table modifiers are active |
| DrumMapping.NotesAtSound | src/midi-parser/parser.ts:143-151 | every raw note under tick `t` is a track note starting at `t` with a mapped pitch and that pitch's key |
| DrumMapping.MappedTicksExact | src/midi-parser/parser.ts:143-151 | a tick gets an entry exactly when some mapped note starts there |
| DrumMapping.ClassifyNote | src/midi-parser/parser.ts:143-159 | each note with a mapped pitch is grouped under its start tick; an unmapped note with a modifier pitch becomes a modifier note |
| DrumMapping.ModifiersInSound | src/midi-parser/parser.ts:152-157 | every modifier note comes from a track note with an unmapped modifier pitch and carries that pitch's modifier; other notes are dropped |
| DrumMapping.GroupNotesSpec | src/midi-parser/parser.ts:144-151 | grouping appends, under each tick, the mapped notes starting there in track order, and adds exactly the ticks that carry them |
| DrumMapping.GroupFromEmpty | src/midi-parser/parser.ts:143-159 | grouping into an empty map gives exactly the tick-to-notes map of the track |
| DurationTable.Units | src/midi-parser/parser.ts:461-479 | for ppq a multiple of 96 every table key is a whole multiple of ppq/96 |
| DurationTable.AvailableDurations | src/midi-parser/parser.ts:365-367 | 13 positive keys in strictly ascending order, exactly the keys of the table |
| DurationTable.DurationNames | src/midi-parser/parser.ts:464-478 | every entry has a non-empty name; the entry for ppq is a plain quarter `q` |
| SubsetSearch.Subsets | src/midi-parser/parser.ts:439-459 | with nothing to reach, the only answer is the empty pick |
| SubsetSearch.Fork | src/midi-parser/parser.ts:442-454 | the recursive search pushes exactly the picks of the search function, in push order |
| SubsetSearch.GetSubsets | src/midi-parser/parser.ts:439-459 | the result is the search from entry 0 with sum 0 and an empty pick |
| SubsetSearch.ForkSplit | src/midi-parser/parser.ts:450-453 | the picks that take entry `i` come before those that skip it |
| SubsetSearch.ForkSound | src/midi-parser/parser.ts:442-454 | every pushed pick is ascending, uses table entries and adds up to the sum |
| SubsetSearch.ForkComplete | src/midi-parser/parser.ts:442-454 | every ascending pick from the remaining entries that completes the sum is pushed after the current prefix |
| SubsetSearch.SubsetsExact | src/midi-parser/parser.ts:439-459 | a pick is returned if and only if it uses distinct table entries in ascending order and adds up to the target |
| MeasureGrid.GetBeats | src/midi-parser/parser.ts:216-230 | exactly `num` beats |
| MeasureGrid.BeatsTile | src/midi-parser/parser.ts:221-229 | the beats are empty and equally long; they start at the measure's start, each begins where the previous ends, and the last ends at the measure's end |
| MeasureGrid.EffectiveSigs | src/midi-parser/parser.ts:172-180 | the header's signatures, or a single 4/4 at tick 0 when it has none |
| MeasureGrid.MeasureCountSpec | src/midi-parser/parser.ts:190-196 | a segment gets the fewest whole measures that cover its ticks |
| MeasureGrid.MeasureAtSpec | src/midi-parser/parser.ts:199-209 | a fresh measure is one measure length long and empty; its `num` beats tile it, each one beat long |
| MeasureGrid.LayoutPrefix | src/midi-parser/parser.ts:184-213 | the measures of the earlier segments are never changed by the later ones |
| MeasureGrid.SegmentContiguous | src/midi-parser/parser.ts:198-212 | a segment's measures carry its signature; each starts where the previous ends, one measure length apart |
| MeasureGrid.LayoutMeasures | src/midi-parser/parser.ts:184-213 | every measure is a fresh measure of a header signature, and only the first has the clef |
| MeasureGrid.LayoutContiguous | src/midi-parser/parser.ts:182-213 | the first measure starts at tick 0; each measure starts where the previous one ends |
| MeasureGrid.SegmentBlock | src/midi-parser/parser.ts:198-209 | measure `m` of segment `k` has `k`'s signature; it marks a change iff `m = 0`, has the clef iff `k = m = 0`, and starts at its computed tick |
| MeasureGrid.LayoutCovers | src/midi-parser/parser.ts:190-196 | the measures of the first segments reach at least to the next change, or to the end of the track |
| MeasureGrid.NoSignatures | src/midi-parser/parser.ts:172-213 | with no signatures: `ceil(eot / 4·ppq)` 4/4 measures of `4·ppq` ticks from tick 0; only the first has the clef and the change mark |
| BeatFiller.ActiveExact | src/midi-parser/parser.ts:244-248 | a modifier note is active at `t` exactly when `ticks <= t <= ticks + durationTicks` |
| BeatFiller.KeyUnmodified | src/midi-parser/parser.ts:252-254 | with no active modifier for its pitch, a raw note keeps its mapped key |
| BeatFiller.KeyModified | src/midi-parser/parser.ts:252-254 | a raw note takes the key of the first active modifier, in track order, that targets its pitch |
| BeatFiller.Keys | src/midi-parser/parser.ts:252-254 | one key per raw note of the tick, in order, each resolved against the active modifiers |
| BeatFiller.FillBeatNotes | src/midi-parser/parser.ts:237-271 | the per-beat loop appends exactly the scan's events for the beat's ticks |
| BeatFiller.ScanShape | src/midi-parser/parser.ts:237-271 | a beat with ticks gets an event at its start, the `32r` opening rest exactly when no raw note starts there; event ticks strictly increase and stay in the beat; only the opening event can be a rest |
| BeatFiller.ScanHits | src/midi-parser/parser.ts:250-260 | a tick has a hit event exactly when raw notes start there; that event is a `32` with the tick's resolved keys |
| DurationResolver.FirstMin | src/midi-parser/parser.ts:387 | the index of a least key, with every earlier key strictly larger (a stable sort's first element) |
| DurationResolver.FirstMinUnique | src/midi-parser/parser.ts:387 | any index that is least with all earlier keys larger is that index |
| DurationResolver.FirstMinStep | src/midi-parser/parser.ts:415-421 | one more key moves the first least index only to a strictly smaller key |
| DurationResolver.Reverse | src/midi-parser/parser.ts:388 | the entries in the opposite order |
| DurationResolver.ReverseSorted | src/midi-parser/parser.ts:388 | an ascending pick sorted by `b - a` is strictly decreasing, with the same entries and the same sum |
| DurationResolver.ExtendNoteSpec | src/midi-parser/parser.ts:340-358 | the length becomes `durationTicks`; the event is named (plus `r` on a rest) iff the length is a table key; the entry's flags are switched on; keys, tick and rest flag stay |
| DurationResolver.ExtendBeatNotes | src/midi-parser/parser.ts:339-359 | the loop gives each event the length up to the next event's tick, or to the beat's end |
| DurationResolver.ExtendPrefixSum | src/midi-parser/parser.ts:340-343 | the lengths of the first `k` events add up to the first event's distance to the end of event `k - 1` |
| DurationResolver.ExtendBeatSum | src/midi-parser/parser.ts:339-343 | a beat's extended lengths add up to the span from its first event to the beat's end |
| DurationResolver.Nearest | src/midi-parser/parser.ts:412-424 | the nearest entry is a table key |
| DurationResolver.GetClosestKey | src/midi-parser/parser.ts:413-421 | the running minimum ends at the first key of least distance to the target, or at the fallback when there are no keys |
| DurationResolver.ProcessCompositeNote | src/midi-parser/parser.ts:372-406 | a named event is kept; otherwise it is split by the subset search, or replaced by the nearest entry |
| DurationResolver.ProcessCompositeBeat | src/midi-parser/parser.ts:371-407 | a beat's events are replaced, in order, by their resolutions, concatenated |
| DurationResolver.PiecesTicks | src/midi-parser/parser.ts:389-405 | the pieces carry the picked lengths, in order |
| DurationResolver.CompositeSplit | src/midi-parser/parser.ts:377-405 | a split adds up to the event's length; it has no more pieces than any subset sum of it; its pieces are largest first |
| DurationResolver.CompositeShape | src/midi-parser/parser.ts:389-405 | the pieces are named `b/4` events at tick 0 with table lengths; the first is a rest, and all are when the event was one |
| DurationResolver.ClosestFallback | src/midi-parser/parser.ts:412-437 | with no subset sum, the event becomes one piece named after the first nearest entry; it keeps the event's own length |
| DurationResolver.ResolveNoteSpec | src/midi-parser/parser.ts:372-406 | resolution keeps an event's total length and leaves every event named |
| DurationResolver.ResolveAllSpec | src/midi-parser/parser.ts:371-407 | resolving a beat keeps its total length and leaves every event named |
| RestCollapse.GetCollapsedRest | src/midi-parser/parser.ts:308-334 | a `b/4` rest at tick 0 standing for the run: `hr`, `hrd` (dotted), `wr` for 2, 3, 4, and `qr` otherwise |
| RestCollapse.CollapseQRests | src/midi-parser/parser.ts:284-306 | the loop with its `result` and `consecutiveRests` arrays computes the collapse function |
| RestCollapse.CollapseFromPreserves | src/midi-parser/parser.ts:288-303 | held-back quarter rests are paid out once: the quarter units and the other events are kept |
| RestCollapse.CollapsePreserves | src/midi-parser/parser.ts:284-306 | every event that is not a quarter, half or whole rest is kept in order; the quarter units are kept; the list never grows |
| RestCollapse.RunJoins | src/midi-parser/parser.ts:289-290 | quarter rests join the held run while it has fewer than four |
| RestCollapse.RunCollapses | src/midi-parser/parser.ts:288-303 | a run of 1 to 4 quarter rests, ended by the list's end or a non-`qr` event, becomes one rest of its length; that event passes through |
| RestCollapse.FifthPassesThrough | src/midi-parser/parser.ts:289-298 | a `qr` arriving with four held flushes them as `wr` and passes through itself |
| RestCollapse.CollapseNotIdempotent | src/midi-parser/parser.ts:284-306 | six quarter rests give `wr, qr, qr`, and collapsing again changes that |
| Parser.FillMeasureBeats | src/midi-parser/parser.ts:236-272 | each beat of the measure is filled by the tick scan |
| Parser.ExtendMeasureBeats | src/midi-parser/parser.ts:338-360 | each beat of the measure is extended |
| Parser.ResolveMeasureBeats | src/midi-parser/parser.ts:370-408 | each beat of the measure is resolved |
| Parser.FlattenBeats | src/midi-parser/parser.ts:279 | the beats' events, concatenated in beat order |
| Parser.PushSegment | src/midi-parser/parser.ts:198-212 | the inner loop appends exactly segment `index`'s measures and advances the start tick by them |
| Parser.MidiParser.constructor | src/midi-parser/parser.ts:122-141 | the fields are the header, the end tick, the table, the classified notes, and the measures of the six stages run in order |
| Parser.MidiParser.ProcessNotes | src/midi-parser/parser.ts:143-159 | the map gains the mapped notes under their ticks, and the modifier list gains the modifier notes, both in track order |
| Parser.MidiParser.CreateMeasures | src/midi-parser/parser.ts:168-214 | the measures gain the layout of the effective signatures |
| Parser.MidiParser.FillBeats | src/midi-parser/parser.ts:232-274 | every measure's beats are filled by the tick scan |
| Parser.MidiParser.ExtendNoteDuration | src/midi-parser/parser.ts:336-362 | every event of every beat gets its length and, if the table has it, its name |
| Parser.MidiParser.ProcessCompositeDuration | src/midi-parser/parser.ts:364-410 | every beat's events are resolved |
| Parser.MidiParser.FlattenMeasures | src/midi-parser/parser.ts:276-282 | each measure's events become its beats' events, concatenated, with the quarter-rest runs collapsed |
| Parser.Create | src/midi-parser/parser.ts:122-141 | fails with "no drum part" exactly when no track is named `PART DRUMS`; otherwise it builds the parser from the first such track |
| PipelineProperties.BeatPipeline | src/midi-parser/parser.ts:137-139 | after scan, extension and resolution, a beat with ticks keeps its span; its events are all named and their lengths add up to the span |
| PipelineProperties.PipelinePerMeasure | src/midi-parser/parser.ts:135-140 | the constructor's measures are the laid-out measures, one to one, each run through the stages on its own |
| PipelineProperties.PipelineBeats | src/midi-parser/parser.ts:135-140 | every final measure keeps its layout span, signature, flags and `num` beats; every beat keeps its span and is filled with named events adding up to it |
| PipelineProperties.FourQuarters | src/midi-parser/parser.ts:289-321 | four quarter rests become one whole rest |
| PipelineProperties.ScanQuiet | src/midi-parser/parser.ts:237-271 | scanning ticks where no note starts gives the opening rest alone |
| PipelineProperties.QuarterExtend | src/midi-parser/parser.ts:340-351 | a length of one quarter names an event `q`, or `qr` on a rest |
| PipelineProperties.QuietFill | src/midi-parser/parser.ts:261-269 | an empty beat where no note starts is filled with its opening rest |
| PipelineProperties.QuietExtend | src/midi-parser/parser.ts:340-351 | a lone opening rest in a quarter-long beat becomes a `qr` of one quarter |
| PipelineProperties.QuietResolve | src/midi-parser/parser.ts:373-375 | resolution keeps a named quarter rest |
| PipelineProperties.QuietQuarterBeat | src/midi-parser/parser.ts:137-139 | an empty quarter-long beat where no note starts ends as a single `qr` |
| PipelineProperties.FlattenFour | src/midi-parser/parser.ts:279 | four one-event beats flatten to their events in order |
| PipelineProperties.FourFourLayout | src/midi-parser/parser.ts:216-230 | a fresh 4/4 measure has four empty quarter-long beats inside it |
| PipelineProperties.QuietFourFour | src/midi-parser/parser.ts:137-139 | each beat of a quiet 4/4 measure ends as one `qr` |
| PipelineProperties.FourQuarterBeats | src/midi-parser/parser.ts:276-282 | four beats of one `qr` each flatten to a single `wr` |
| PipelineProperties.EmptyMeasureWholeRest | src/midi-parser/parser.ts:135-140 | a 4/4 measure where no note starts ends as a single whole rest `wr` on `b/4` |
| SongParser.StepOf | src/renderer/song.ts:146 | the step `ppq / 16` is positive and exact |
| SongParser.TimeSigEqual | src/renderer/song.ts:108-110 | true exactly when the signatures are equal |
| SongParser.FirstAfter | src/renderer/song.ts:114-116 | the index of the first change after `t`, every earlier change at or before `t`, or the length when there is none |
| SongParser.CurrentTimeSigSorted | src/renderer/song.ts:112-124 | on a sorted list: 4/4 before the first change, else the signature of the last change at or before `t` |
| SongParser.MeasureFullLength | src/renderer/song.ts:154-156 | for whole-tick beats the measure check holds exactly at the parser's measure length |
| SongParser.SongKeys | src/renderer/song.ts:193-195 | one key per raw note of the tick, in order, resolved against the active modifiers |
| SongParser.Boundary | src/renderer/song.ts:153-176 | the measure check keeps at least one measure and the active modifiers |
| SongParser.Record | src/renderer/song.ts:191-199 | recording a hit keeps the number of measures |
| SongParser.Advance | src/renderer/song.ts:178-201 | the rest of the iteration keeps the number of measures |
| SongParser.ScanFrom | src/renderer/song.ts:148-202 | the scan always leaves at least one measure |
| SongParser.CheckMeasure | src/renderer/song.ts:153-176 | the loop's measure check computes the state step's measure check, and `notes` stays empty |
| SongParser.ScanTick | src/renderer/song.ts:178-201 | the modifier update, the hit record and the counter advance compute the state step |
| SongParser.Song.constructor | src/renderer/song.ts:73-88 | the fields are the header, the end tick, the expert-classified notes, and the parsed measures with whole rests added |
| SongParser.Song.ProcessNotes | src/renderer/song.ts:90-106 | the map gains the expert-mapped notes under their ticks, and the modifier list gains the modifier notes, in track order |
| SongParser.Song.Parse | src/renderer/song.ts:133-203 | the measures gain the opening measure and the scan's measures from tick 0 to the end of the track |
| SongParser.Song.AddWholeRests | src/renderer/song.ts:205-215 | each measure without hits gets one whole rest |
| SongParser.CreateSong | src/renderer/song.ts:73-88 | fails with "no drum part" exactly when no track is named `PART DRUMS`; otherwise it builds the song from the first such track |
| SongProperties.StartingAtExact | src/renderer/song.ts:180-184 | a modifier note is added at `t` exactly when it starts at `t` |
| SongProperties.NotEndingAtExact | src/renderer/song.ts:186-189 | a modifier note survives the filter at `t` exactly when it does not end at `t` |
| SongProperties.ActiveAfterExact | src/renderer/song.ts:180-189 | after the steps before `t`, a modifier note is active exactly when it started at a visited step and did not end at one |
| SongProperties.ActiveWindow | src/renderer/song.ts:180-189 | a modifier note that starts and ends on steps is in force at step `u` exactly when `start <= u < end` |
| SongProperties.ActiveCovers | src/renderer/song.ts:180-189 | a modifier note is in force at a step exactly when it covers that step |
| SongProperties.InitInv | src/renderer/song.ts:135-149 | the opening state satisfies the scan invariant |
| SongProperties.BoundaryFires | src/renderer/song.ts:156-176 | a measure check that fires closes the measure at `t` and opens one that follows it correctly |
| SongProperties.BoundaryHolds | src/renderer/song.ts:156 | a measure check that does not fire extends the stretch with no boundary |
| SongProperties.NewFollows | src/renderer/song.ts:156-172 | the new measure starts where the closed one ends; it takes the current signature, marks a change iff that signature differs, has no clef, and records the closed measure's length in steps |
| SongProperties.NewHit | src/renderer/song.ts:191-199 | a recorded hit holds the keys of the tick's raw notes at the tick's step offset, after the measure's earlier hits |
| SongProperties.AdvanceKeeps | src/renderer/song.ts:178-201 | the rest of the iteration keeps the scan invariant |
| SongProperties.StepKeeps | src/renderer/song.ts:153-201 | one iteration of the loop keeps the scan invariant |
| SongProperties.ScanEnd | src/renderer/song.ts:148-151 | the scan stops at the first step at or after the end of the track |
| SongProperties.ScanKeeps | src/renderer/song.ts:148-202 | the whole remaining scan keeps the invariant |
| SongProperties.ParsedInv | src/renderer/song.ts:133-203 | the invariant holds when `parse` ends |
| SongProperties.SongMeasures | src/renderer/song.ts:135-176 | the first measure is 4/4 with clef and change mark at tick 0; every later measure follows its predecessor at the first step its signature fills; the last stays open, with no boundary before the end |
| SongProperties.SongHits | src/renderer/song.ts:191-199 | every hit lies on a step of its own measure that carries raw notes before the end, with those notes' keys; a measure's hits are in increasing tick order |
| SongProperties.SongComplete | src/renderer/song.ts:148-199 | the hit ticks are exactly the steps before the end that carry raw notes, each recorded once |
| SongProperties.TrackModifiers | src/renderer/song.ts:99-104 | every modifier note carries the modifier its pitch selects |
| SongProperties.HitKey | src/renderer/song.ts:126-131 | a raw note at step `u` gets its tom's cymbal key when a modifier for its pitch is in force, else its mapped key |
| SongProperties.HitKeys | src/renderer/song.ts:191-198 | a recorded hit has one key per raw note of its tick, each given by that rule |
| SongProperties.SongKeysFromTrack | src/renderer/song.ts:191-198 | for a song built from a track, each key of each hit follows that rule with the track's expert notes and modifiers |
| SongProperties.WholeRestsFill | src/renderer/song.ts:205-215 | every measure ends with at least one entry: an empty one gets exactly the `c/5` whole rest at tick 0, and the others are unchanged |
| SongProperties.WholeRestsIdempotent | src/renderer/song.ts:205-215 | adding whole rests twice is the same as once |
| TimeFormat.Decimal | src/renderer/util.ts:10-11 | `String(n)` is non-empty decimal digits, one digit exactly when `n < 10`, with no leading zero |
| TimeFormat.DecimalRoundTrip | src/renderer/util.ts:10-11 | reading the decimal text of `n` gives `n` |
| TimeFormat.PadStart | src/renderer/util.ts:10 | `padStart(n, c)` is as long as the longer of the text and `n`: copies of `c`, then the text |
| TimeFormat.Fields | src/renderer/util.ts:2-4 | minutes and seconds are below 60; the fields add back up to the time; hours are positive exactly from 3600 |
| TimeFormat.PaddedIsTwoDigits | src/renderer/util.ts:10 | the padded minutes below 100 are their two digits |
| TimeFormat.SecondsIsTwoDigits | src/renderer/util.ts:10-11 | the `'0'` for seconds below ten plus the seconds is their two digits |
| TimeFormat.MinSec | src/renderer/util.ts:10-11 | the `mm:ss` part is five characters: two minute digits, `:`, two second digits |
| TimeFormat.ClockShape | src/renderer/util.ts:6-12 | the text is the hours part followed by `mm:ss` |
| TimeFormat.FormatShape | src/renderer/util.ts:1-13 | `format(t)` is the hours part of its fields followed by `mm:ss` |
| TimeFormat.SecondsField | src/renderer/util.ts:10-11 | the text always ends in `:ss`, the seconds as two digits |
| TimeFormat.UnderAnHour | src/renderer/util.ts:7-12 | below 3600 the text is exactly `mm:ss`, five characters |
| TimeFormat.HoursPrefix | src/renderer/util.ts:7-9 | `h:` leads the text exactly when the time is 3600 or more |
| TimeFormat.FormatAsWritten | src/renderer/util.ts:7-11 | from an hour on: `h:mm:ss`, with an extra `'0'` before minutes below ten |
| TimeFormat.DoubledMinutePadding | src/renderer/util.ts:8-10 | 3725 seconds are written `1:002:05` |
| TimeFormat.MinSecRoundTrip | src/renderer/util.ts:10-11 | `mm:ss` reads back as `60·mm + ss` |
| TimeFormat.HoursFieldRoundTrip | src/renderer/util.ts:7-9 | the hours field reads back to the hours |
| TimeFormat.DoubledZeroRejected | src/renderer/util.ts:8 | an hours part ending in the extra `'0'` does not read back |
| TimeFormat.FieldsRoundTrip | src/renderer/util.ts:2-11 | a clock built from fields with the minutes padded once reads back to them |
| TimeFormat.FormatClockRoundTrip | src/renderer/util.ts:1-13 | the corrected formatter always reads back to the time |
| TimeFormat.ClockRoundTrip | src/renderer/util.ts:6-12 | `format`'s text from fields reads back to them, except hours with minutes below ten |
| TimeFormat.FormatRoundTrip | src/renderer/util.ts:1-13 | `format(t)` reads back to `t` exactly unless `t >= 3600` and the minutes are below ten |
| TimeFormat.SameHours | src/renderer/util.ts:7-9 | without the extra `'0'` the two hours parts agree |
| TimeFormat.DoubledRejected | src/renderer/util.ts:8-10 | hours with minutes below ten give text that does not read back |
| TimeFormat.ClockAgrees | src/renderer/util.ts:6-12 | the text from fields equals the corrected one exactly when not (hours and minutes below ten) |
| TimeFormat.FormatClockAgrees | src/renderer/util.ts:1-13 | `format` agrees with the corrected formatter exactly when not (`t >= 3600` and minutes below ten) |

## Left out

- Parser.Create: requires `ValidHeader`. This means ppq is a positive multiple of 96 and every signature has a positive numerator and a denominator dividing `4·ppq`. Then every table key, beat length and measure length is a whole number of ticks. The source accepts any header and computes in floating point, so fractional ticks are not modelled.
- Parser.MidiParser.constructor: has the same `ValidHeader` precondition, for the same reason.
- SongParser.CreateSong: requires a ppq that is a positive multiple of 16, so the scan step `ppq / 16` is a whole tick. The `Song` properties also assume positive signature numerators and denominators.
- SongParser.Song.constructor: has the same ppq precondition.
- SongParser.MeasureFull: compares `measureTicks · den` with `4 · ppq · num` exactly. With fractional beats the source compares floating-point values, and rounding is not modelled.
- `endOfTrackTicks` is taken as already defaulted (`|| 0` and `?? 0`), a natural number.
- `durationMap` is keyed by integers. JavaScript's string-keyed object and `Object.keys` are modelled only by the ascending key order they produce.
- Reading binary MIDI is left out; the model takes the loaded note and header records. A note keeps only its pitch, start tick and length.
- `console.log` in the `Song` constructor is I/O and is left out.
- Aliasing is not modelled. Events, beats and measures are values inside the classes' `seq` fields. The source's in-place updates become updates of those sequences. This includes `currentMeasure`, which aliases the last measure during `parse`, and the events mutated by `extendNoteDuration`. No object is shared between two places that are later updated separately.
- TimeFormat.Fields: `format` is modelled over whole, non-negative seconds. The `~~` truncation of fractional or negative input is not modelled.
- SongProperties.ActiveWindow: states the half-open window only for modifier notes that start and end on a scan step. Off the grid the window is not half-open. `SongProperties.ActiveAfterExact` gives the general rule.
- `getClosestDuration` starts its distance at `Infinity`. This is modelled as no distance yet (`None`).
- `getSubsets`' result array and the sorts in `processCompositeDuration` are modelled as values. The in-place reordering of `atomicDurations` is not modelled. The sorts are stable: the fewest-piece pick is the first found, and the second sort reverses the ascending pick.

## Findings

| source | as written | input that shows it | evidently intended | confidence | as-written member | corrected member |
|---|---|---|---|---|---|---|
| src/renderer/util.ts:8-10 | from an hour on, minutes below ten get a `'0'` from the hours part and are padded to two digits again, giving three digits | `format(3725)` gives `1:002:05`, which does not read back as a clock | `1:02:05`: minutes padded once to two digits, so the text reads back to the time | not executed | TimeFormat.FormatRoundTrip | TimeFormat.FormatClockRoundTrip |
