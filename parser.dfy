/** The `MidiParser` class: its constructor runs the six stages in order
    over the drum part, filling the parser's fields. */
module Parser {
  import opened Wrappers
  import opened MidiInput
  import opened ParserTypes
  import opened DrumMapping
  import opened DurationTable
  import opened MeasureGrid
  import opened BeatFiller
  import opened DurationResolver
  import opened RestCollapse

  // The stages on one measure, and on all measures in order.

  function FillMeasure(raw: map<int, seq<RawMidiNote>>, mods: seq<ModifierNote>, m: Measure): Measure {
    m.(beats := seq(|m.beats|, j requires 0 <= j < |m.beats| => FillBeat(raw, mods, m.beats[j])))
  }

  function ExtendMeasure(ppq: int, m: Measure): Measure
    requires ValidPpq(ppq)
  {
    m.(beats := seq(|m.beats|, j requires 0 <= j < |m.beats| => ExtendBeat(ppq, m.beats[j])))
  }

  function ResolveMeasure(ppq: int, m: Measure): Measure
    requires ValidPpq(ppq)
  {
    m.(beats := seq(|m.beats|, j requires 0 <= j < |m.beats| => ResolveBeat(ppq, m.beats[j])))
  }

  function FillStage(raw: map<int, seq<RawMidiNote>>, mods: seq<ModifierNote>, ms: seq<Measure>): seq<Measure> {
    seq(|ms|, i requires 0 <= i < |ms| => FillMeasure(raw, mods, ms[i]))
  }

  function ExtendStage(ppq: int, ms: seq<Measure>): seq<Measure>
    requires ValidPpq(ppq)
  {
    seq(|ms|, i requires 0 <= i < |ms| => ExtendMeasure(ppq, ms[i]))
  }

  function ResolveStage(ppq: int, ms: seq<Measure>): seq<Measure>
    requires ValidPpq(ppq)
  {
    seq(|ms|, i requires 0 <= i < |ms| => ResolveMeasure(ppq, ms[i]))
  }

  function FlattenStage(ms: seq<Measure>): seq<Measure> {
    seq(|ms|, i requires 0 <= i < |ms| => FlattenMeasure(ms[i]))
  }

  /** The measures the constructor leaves for a drum part. */
  function Pipeline(h: Header, track: Track, d: Difficulty): seq<Measure>
    requires ValidHeader(h)
  {
    var raw := RawNotes(track.notes, d);
    var mods := ModifiersIn(track.notes, d);
    FlattenStage(ResolveStage(h.ppq, ExtendStage(h.ppq, FillStage(raw, mods, CreatedMeasures(h, track.endOfTrackTicks)))))
  }

  // One measure at a time: the inner `beat` loops of the stages.

  method FillMeasureBeats(raw: map<int, seq<RawMidiNote>>, mods: seq<ModifierNote>, m: Measure) returns (r: Measure)
    ensures r == FillMeasure(raw, mods, m)
  {
    var beats := m.beats;
    var j := 0;
    while j < |beats|
      invariant 0 <= j <= |beats| == |m.beats|
      invariant forall k :: 0 <= k < j ==> beats[k] == FillBeat(raw, mods, m.beats[k])
      invariant forall k :: j <= k < |beats| ==> beats[k] == m.beats[k]
    {
      var b := FillBeatNotes(raw, mods, beats[j]);
      beats := beats[j := b];
      j := j + 1;
    }
    r := m.(beats := beats);
  }

  method ExtendMeasureBeats(ppq: int, m: Measure) returns (r: Measure)
    requires ValidPpq(ppq)
    ensures r == ExtendMeasure(ppq, m)
  {
    var beats := m.beats;
    var j := 0;
    while j < |beats|
      invariant 0 <= j <= |beats| == |m.beats|
      invariant forall k :: 0 <= k < j ==> beats[k] == ExtendBeat(ppq, m.beats[k])
      invariant forall k :: j <= k < |beats| ==> beats[k] == m.beats[k]
    {
      var b := ExtendBeatNotes(ppq, beats[j]);
      beats := beats[j := b];
      j := j + 1;
    }
    r := m.(beats := beats);
  }

  method ResolveMeasureBeats(ppq: int, m: Measure) returns (r: Measure)
    requires ValidPpq(ppq)
    ensures r == ResolveMeasure(ppq, m)
  {
    var beats := m.beats;
    var j := 0;
    while j < |beats|
      invariant 0 <= j <= |beats| == |m.beats|
      invariant forall k :: 0 <= k < j ==> beats[k] == ResolveBeat(ppq, m.beats[k])
      invariant forall k :: j <= k < |beats| ==> beats[k] == m.beats[k]
    {
      var b := ProcessCompositeBeat(ppq, beats[j]);
      beats := beats[j := b];
      j := j + 1;
    }
    r := m.(beats := beats);
  }

  /** `measure.beats.map(beat => beat.notes).flat()`, beat by beat. */
  method FlattenBeats(beats: seq<Beat>) returns (notes: seq<Note>)
    ensures notes == Flatten(beats)
  {
    notes := [];
    var j := 0;
    while j < |beats|
      invariant 0 <= j <= |beats|
      invariant notes == Flatten(beats[..j])
    {
      assert beats[..j + 1][..j] == beats[..j];
      notes := notes + beats[j].notes;
      j := j + 1;
    }
    assert beats[..j] == beats;
  }

  /** The inner loop of `createMeasures`: the measures of segment `index`,
      pushed one by one from `startTick`. */
  method PushSegment(ms: seq<Measure>, ppq: int, timeSignatures: seq<TimeSignatureEvent>, eot: int, index: nat,
                     startTick: int) returns (r: seq<Measure>, next: int)
    requires ValidPpq(ppq) && ValidSigs(ppq, timeSignatures) && index < |timeSignatures|
    ensures r == ms + SegmentMeasures(ppq, timeSignatures, eot, index, startTick)
    ensures next == startTick + MeasureCount(ppq, timeSignatures, eot, index) * MeasureLength(ppq, timeSignatures[index].timeSignature)
  {
    var timeSignature := timeSignatures[index].timeSignature;
    var pulsesPerDivision := 4 * ppq / timeSignature.den;
    var totalTimeSigTicks := SegmentTicks(timeSignatures, eot, index);
    var numberOfMeasures := CeilDiv(totalTimeSigTicks, timeSignature.num * pulsesPerDivision);
    ghost var segment := SegmentMeasures(ppq, timeSignatures, eot, index, startTick);
    r := ms;
    next := startTick;
    var measure := 0;
    while measure < numberOfMeasures
      invariant 0 <= measure <= |segment|
      invariant |r| == |ms| + measure
      invariant forall k :: 0 <= k < |ms| ==> r[k] == ms[k]
      invariant forall k :: 0 <= k < measure ==> r[|ms| + k] == segment[k]
      invariant next == startTick + measure * MeasureLength(ppq, timeSignature)
    {
      var endTick := next + timeSignature.num * pulsesPerDivision;
      r := r + [Measure(timeSignature, measure == 0, index == 0 && measure == 0, [],
                        GetBeats(timeSignature, next, endTick), next, endTick)];
      next := next + timeSignature.num * pulsesPerDivision;
      measure := measure + 1;
    }
    assert r == ms + segment;
  }

  class MidiParser {
    var measures: seq<Measure>
    var rawMidiNotes: map<int, seq<RawMidiNote>>
    var endOfTrackTicks: int
    var modifierNotes: seq<ModifierNote>
    var header: Header
    var durationMap: map<int, Duration>

    /** The constructor once the drum part is found: the fields are set, then
        the stages run in order. */
    constructor (drumPart: Track, h: Header, difficulty: Difficulty)
      requires ValidHeader(h)
      ensures header == h && endOfTrackTicks == drumPart.endOfTrackTicks && durationMap == DurationMap(h.ppq)
      ensures rawMidiNotes == RawNotes(drumPart.notes, difficulty)
      ensures modifierNotes == ModifiersIn(drumPart.notes, difficulty)
      ensures measures == Pipeline(h, drumPart, difficulty)
    {
      measures := [];
      rawMidiNotes := map[];
      modifierNotes := [];
      endOfTrackTicks := drumPart.endOfTrackTicks;
      header := h;
      durationMap := DurationMap(h.ppq);
      new;
      ProcessNotes(drumPart, difficulty);
      GroupFromEmpty(drumPart.notes, difficulty);
      assert [] + ModifiersIn(drumPart.notes, difficulty) == ModifiersIn(drumPart.notes, difficulty);
      CreateMeasures();
      ghost var created := measures;
      assert created == CreatedMeasures(h, drumPart.endOfTrackTicks);
      FillBeats();
      ExtendNoteDuration();
      ProcessCompositeDuration();
      FlattenMeasures();
      assert measures == FlattenStage(ResolveStage(h.ppq, ExtendStage(h.ppq, FillStage(rawMidiNotes, modifierNotes, created))));
    }

    /** `processNotes`: each note of the track, in order, is appended under its
        start tick when the difficulty maps its pitch, or to the modifier notes
        when its pitch is a modifier pitch; other notes are dropped. */
    method ProcessNotes(trackData: Track, difficulty: Difficulty)
      modifies this`rawMidiNotes, this`modifierNotes
      ensures rawMidiNotes == GroupNotes(old(rawMidiNotes), trackData.notes, difficulty)
      ensures modifierNotes == old(modifierNotes) + ModifiersIn(trackData.notes, difficulty)
    {
      var notes := trackData.notes;
      var raw := rawMidiNotes;
      var mods := modifierNotes;
      var i := 0;
      while i < |notes|
        modifies {}
        invariant 0 <= i <= |notes|
        invariant raw == GroupNotes(old(rawMidiNotes), notes[..i], difficulty)
        invariant mods == old(modifierNotes) + ModifiersIn(notes[..i], difficulty)
      {
        var note := notes[i];
        assert notes[..i + 1][..i] == notes[..i];
        var mapping := Mapping(difficulty);
        if note.midi in mapping {
          var tickData := Lookup(raw, note.ticks);
          raw := raw[note.ticks := tickData + [RawMidiNote(note, mapping[note.midi])]];
        } else if note.midi in TomModifiers {
          mods := mods + [ModifierNote(note, TomModifiers[note.midi])];
        }
        i := i + 1;
      }
      assert notes[..i] == notes;
      rawMidiNotes := raw;
      modifierNotes := mods;
    }

    /** `createMeasures`: for each signature segment in turn, its measures
        are pushed one after another, the start tick running on. */
    method CreateMeasures()
      requires ValidHeader(header)
      modifies this`measures
      ensures measures == old(measures) + CreatedMeasures(header, endOfTrackTicks)
    {
      var ppq := header.ppq;
      var eot := endOfTrackTicks;
      var timeSignatures := EffectiveSigs(header);
      EffectiveSigsValid(header);
      var ms := measures;
      var startTick := 0;
      var index := 0;
      while index < |timeSignatures|
        modifies {}
        invariant 0 <= index <= |timeSignatures|
        invariant ms == old(measures) + Layout(ppq, timeSignatures, eot, index)
        invariant startTick == LayoutEnd(ppq, timeSignatures, eot, index)
      {
        ms, startTick := PushSegment(ms, ppq, timeSignatures, eot, index, startTick);
        index := index + 1;
      }
      measures := ms;
    }

    /** `fillBeats`: the tick scan, measure by measure and beat by beat. */
    method FillBeats()
      modifies this`measures
      ensures measures == FillStage(rawMidiNotes, modifierNotes, old(measures))
    {
      var ms := measures;
      var i := 0;
      while i < |ms|
        modifies {}
        invariant 0 <= i <= |ms| == |old(measures)|
        invariant forall k :: 0 <= k < i ==> ms[k] == FillMeasure(rawMidiNotes, modifierNotes, old(measures)[k])
        invariant forall k :: i <= k < |ms| ==> ms[k] == old(measures)[k]
      {
        var m := FillMeasureBeats(rawMidiNotes, modifierNotes, ms[i]);
        ms := ms[i := m];
        i := i + 1;
      }
      measures := ms;
    }

    /** `extendNoteDuration`: every event gets its length and, if the table
        has it, its name. */
    method ExtendNoteDuration()
      requires ValidHeader(header)
      modifies this`measures
      ensures measures == ExtendStage(header.ppq, old(measures))
    {
      var ppq := header.ppq;
      var ms := measures;
      var i := 0;
      while i < |ms|
        modifies {}
        invariant 0 <= i <= |ms| == |old(measures)|
        invariant forall k :: 0 <= k < i ==> ms[k] == ExtendMeasure(ppq, old(measures)[k])
        invariant forall k :: i <= k < |ms| ==> ms[k] == old(measures)[k]
      {
        var m := ExtendMeasureBeats(ppq, ms[i]);
        ms := ms[i := m];
        i := i + 1;
      }
      measures := ms;
    }

    /** `processCompositeDuration`: every unnamed event is split or replaced. */
    method ProcessCompositeDuration()
      requires ValidHeader(header)
      modifies this`measures
      ensures measures == ResolveStage(header.ppq, old(measures))
    {
      var ppq := header.ppq;
      var ms := measures;
      var i := 0;
      while i < |ms|
        modifies {}
        invariant 0 <= i <= |ms| == |old(measures)|
        invariant forall k :: 0 <= k < i ==> ms[k] == ResolveMeasure(ppq, old(measures)[k])
        invariant forall k :: i <= k < |ms| ==> ms[k] == old(measures)[k]
      {
        var m := ResolveMeasureBeats(ppq, ms[i]);
        ms := ms[i := m];
        i := i + 1;
      }
      measures := ms;
    }

    /** `flattenMeasures`: each measure's events become its beats' events,
        concatenated, with quarter-rest runs collapsed. */
    method FlattenMeasures()
      modifies this`measures
      ensures measures == FlattenStage(old(measures))
    {
      var ms := measures;
      var i := 0;
      while i < |ms|
        modifies {}
        invariant 0 <= i <= |ms| == |old(measures)|
        invariant forall k :: 0 <= k < i ==> ms[k] == FlattenMeasure(old(measures)[k])
        invariant forall k :: i <= k < |ms| ==> ms[k] == old(measures)[k]
      {
        var measure := ms[i];
        var flat := FlattenBeats(measure.beats);
        var collapsed := CollapseQRests(flat);
        ms := ms[i := measure.(notes := collapsed)];
        i := i + 1;
      }
      measures := ms;
    }
  }

  /** The constructor: it fails with "no drum part" exactly when no track is
      named "PART DRUMS"; otherwise it runs the stages over the first such track. */
  method Create(data: MidiJson, difficulty: Difficulty) returns (r: Result<MidiParser, string>)
    requires ValidHeader(data.header)
    ensures r.Failure? <==> FindTrack(data.tracks, DrumPartName).None?
    ensures r.Failure? ==> r.error == "no drum part"
    ensures r.Success? ==> fresh(r.value)
    ensures r.Success? ==> r.value.measures == Pipeline(data.header, FindTrack(data.tracks, DrumPartName).value, difficulty)
    ensures r.Success? ==> r.value.rawMidiNotes == RawNotes(FindTrack(data.tracks, DrumPartName).value.notes, difficulty)
    ensures r.Success? ==> r.value.modifierNotes == ModifiersIn(FindTrack(data.tracks, DrumPartName).value.notes, difficulty)
  {
    var drumPart := FindTrack(data.tracks, DrumPartName);
    if drumPart.None? {
      return Failure("no drum part");
    }
    var p := new MidiParser(drumPart.value, data.header, difficulty);
    r := Success(p);
  }
}
