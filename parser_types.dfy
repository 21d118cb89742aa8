/** The records of the drum-chart transcription: events, beats and measures
    as the parser builds them, and the classified raw notes. */
module ParserTypes {
  import opened Wrappers
  import opened MidiInput

  /** A notated event: the keys it sounds (`notes`), its symbolic duration, its
      flags, its tick and, once known, its length in ticks. */
  datatype Note = Note(notes: seq<string>, dotted: bool, duration: string, isTriplet: bool,
                       isRest: bool, tick: int, durationTicks: Option<int>)

  /** A beat of a measure, covering the ticks [startTick, endTick). */
  datatype Beat = Beat(notes: seq<Note>, startTick: int, endTick: int)

  datatype Measure = Measure(timeSig: TimeSig, sigChange: bool, hasClef: bool, notes: seq<Note>,
                             beats: seq<Beat>, startTick: int, endTick: int)

  /** A track note whose pitch the difficulty's mapping knows, with its key. */
  datatype RawMidiNote = RawMidiNote(note: NoteJson, key: string)

  /** A tom modifier: the pitch it retargets and the key it substitutes. */
  datatype Modifier = Modifier(forNote: int, key: string)

  datatype ModifierNote = ModifierNote(note: NoteJson, modifier: Modifier)

  /** An entry of the duration table (a missing `isTriplet`/`dotted` is false). */
  datatype Duration = Duration(duration: string, isTriplet: bool, dotted: bool)

  datatype Difficulty = Easy | Medium | Hard | Expert

  /** The sum of the events' lengths in ticks (`durationTicks ?? 0`). */
  function SumTicks(ns: seq<Note>): int
  {
    if ns == [] then 0 else SumTicks(ns[..|ns| - 1]) + ns[|ns| - 1].durationTicks.GetOr(0)
  }

  lemma {:induction false} SumTicksAppend(a: seq<Note>, b: seq<Note>)
    ensures SumTicks(a + b) == SumTicks(a) + SumTicks(b)
    decreases |b|
  {
    if b == [] {
      assert a + b == a;
    } else {
      assert (a + b)[..|a + b| - 1] == a + b[..|b| - 1];
      SumTicksAppend(a, b[..|b| - 1]);
    }
  }
}
