/** Properties of the whole pipeline: what the constructor's stages, run in
    order, guarantee about every beat and about an empty measure. */
module PipelineProperties {
  import opened Wrappers
  import opened MidiInput
  import opened ParserTypes
  import opened DrumMapping
  import opened DurationTable
  import opened MeasureGrid
  import opened BeatFiller
  import opened DurationResolver
  import opened RestCollapse
  import opened Parser

  /** A beat after the scan, the extension and the resolution. */
  function ProcessedBeat(ppq: int, raw: map<int, seq<RawMidiNote>>, mods: seq<ModifierNote>, b: Beat): Beat
    requires ValidPpq(ppq)
  {
    ResolveBeat(ppq, ExtendBeat(ppq, FillBeat(raw, mods, b)))
  }

  /** An empty beat of positive length ends up with events whose lengths add up to
      the beat's length, every one of them with a name, and its span kept. */
  lemma BeatPipeline(ppq: int, raw: map<int, seq<RawMidiNote>>, mods: seq<ModifierNote>, b: Beat)
    requires ValidPpq(ppq) && b.notes == [] && b.startTick < b.endTick
    ensures var r := ProcessedBeat(ppq, raw, mods, b);
      r.startTick == b.startTick && r.endTick == b.endTick &&
      SumTicks(r.notes) == b.endTick - b.startTick &&
      forall n :: n in r.notes ==> n.duration != ""
  {
    var f := FillBeat(raw, mods, b);
    ScanShape(raw, mods, b.startTick, b.endTick);
    assert f.notes == ScanTicks(raw, mods, b.startTick, b.endTick);
    ExtendBeatSum(ppq, f);
    ResolveAllSpec(ppq, ExtendBeat(ppq, f).notes);
  }

  /** A measure after the scan, the extension and the resolution. */
  function ProcessedBeats(ppq: int, raw: map<int, seq<RawMidiNote>>, mods: seq<ModifierNote>, m: Measure): Measure
    requires ValidPpq(ppq)
  {
    ResolveMeasure(ppq, ExtendMeasure(ppq, FillMeasure(raw, mods, m)))
  }

  lemma ProcessedBeatsAt(ppq: int, raw: map<int, seq<RawMidiNote>>, mods: seq<ModifierNote>, m: Measure, j: nat)
    requires ValidPpq(ppq) && j < |m.beats|
    ensures |ProcessedBeats(ppq, raw, mods, m).beats| == |m.beats|
    ensures ProcessedBeats(ppq, raw, mods, m).beats[j] == ProcessedBeat(ppq, raw, mods, m.beats[j])
  {
  }

  /** The constructor's measures are the laid-out measures, each run through
      the stages on its own. */
  lemma PipelinePerMeasure(h: Header, track: Track, d: Difficulty)
    requires ValidHeader(h)
    ensures var cs := CreatedMeasures(h, track.endOfTrackTicks); var l := Pipeline(h, track, d);
      |l| == |cs| &&
      forall i :: 0 <= i < |cs| ==>
        l[i] == FlattenMeasure(ProcessedBeats(h.ppq, RawNotes(track.notes, d), ModifiersIn(track.notes, d), cs[i]))
  {
  }

  /** Every measure the constructor leaves keeps the span, signature and
      flags the layout gave it, and each of its `num` beats keeps its span
      and is filled with named events whose lengths add up to that span. */
  lemma PipelineBeats(h: Header, track: Track, d: Difficulty, l: seq<Measure>, i: nat, j: nat)
    requires ValidHeader(h) && l == Pipeline(h, track, d)
    requires i < |CreatedMeasures(h, track.endOfTrackTicks)|
    ensures |l| == |CreatedMeasures(h, track.endOfTrackTicks)|
    ensures var c := CreatedMeasures(h, track.endOfTrackTicks)[i];
      l[i].timeSig == c.timeSig && l[i].startTick == c.startTick && l[i].endTick == c.endTick &&
      l[i].hasClef == c.hasClef && l[i].sigChange == c.sigChange && |l[i].beats| == c.timeSig.num
    ensures var c := CreatedMeasures(h, track.endOfTrackTicks)[i];
      j < |l[i].beats| ==>
        l[i].beats[j].startTick == c.beats[j].startTick && l[i].beats[j].endTick == c.beats[j].endTick &&
        SumTicks(l[i].beats[j].notes) == l[i].beats[j].endTick - l[i].beats[j].startTick &&
        forall n :: n in l[i].beats[j].notes ==> n.duration != ""
  {
    PipelinePerMeasure(h, track, d);
    var sigs := EffectiveSigs(h);
    EffectiveSigsValid(h);
    var c := CreatedMeasures(h, track.endOfTrackTicks)[i];
    LayoutMeasures(h.ppq, sigs, track.endOfTrackTicks, |sigs|);
    assert ValidTimeSig(h.ppq, c.timeSig);
    assert c == MeasureAt(h.ppq, c.timeSig, c.hasClef, c.sigChange, c.startTick);
    MeasureAtSpec(h.ppq, c.timeSig, c.hasClef, c.sigChange, c.startTick);
    if j < |c.beats| {
      var raw := RawNotes(track.notes, d);
      var mods := ModifiersIn(track.notes, d);
      ProcessedBeatsAt(h.ppq, raw, mods, c, j);
      BeatPipeline(h.ppq, raw, mods, c.beats[j]);
    }
  }

  /** Four quarter rests become one whole rest. */
  lemma FourQuarters(qs: seq<Note>)
    requires |qs| == 4 && forall k :: 0 <= k < 4 ==> qs[k].duration == "qr"
    ensures Collapse(qs) == [GetCollapsedRest(qs)] && GetCollapsedRest(qs).duration == "wr"
  {
    RunCollapses(qs, []);
    assert qs + [] == qs;
  }

  /** The scan of a stretch of ticks where no raw note starts is the opening rest alone. */
  lemma {:induction false} ScanQuiet(raw: map<int, seq<RawMidiNote>>, mods: seq<ModifierNote>, start: int, t: int)
    requires start < t && forall u :: start <= u < t ==> u !in raw
    ensures ScanTicks(raw, mods, start, t) == [OpeningRest(start)]
    decreases t - start
  {
    if t - 1 > start {
      ScanQuiet(raw, mods, start, t - 1);
      assert ScanTicks(raw, mods, start, t) == [OpeningRest(start)] + [];
    } else {
      assert ScanTicks(raw, mods, start, t) == [] + [OpeningRest(start)];
    }
  }

  /** The quarter rest an empty quarter-note beat resolves to. */
  function BeatRest(ppq: int, t: int): Note {
    Note(["b/4"], false, "qr", false, true, t, Some(ppq))
  }

  /** A length of exactly one quarter names an event "q", or "qr" for a rest. */
  lemma QuarterExtend(ppq: int, n: Note)
    requires ValidPpq(ppq)
    ensures ExtendNote(ppq, n, ppq) == n.(durationTicks := Some(ppq), duration := Suffixed("q", n.isRest))
  {
    DurationNames(ppq);
  }

  /** Filling an empty, quiet beat leaves only its opening rest. */
  lemma QuietFill(raw: map<int, seq<RawMidiNote>>, mods: seq<ModifierNote>, b: Beat)
    requires b.notes == [] && b.startTick < b.endTick
    requires forall u :: b.startTick <= u < b.endTick ==> u !in raw
    ensures FillBeat(raw, mods, b) == b.(notes := [OpeningRest(b.startTick)])
  {
    ScanQuiet(raw, mods, b.startTick, b.endTick);
    assert [] + [OpeningRest(b.startTick)] == [OpeningRest(b.startTick)];
  }

  /** A lone opening rest filling a quarter-long beat is named a quarter rest. */
  lemma QuietExtend(ppq: int, f: Beat)
    requires ValidPpq(ppq) && f.notes == [OpeningRest(f.startTick)] && f.endTick == f.startTick + ppq
    ensures ExtendBeat(ppq, f).notes == [BeatRest(ppq, f.startTick)]
  {
    var e := ExtendBeat(ppq, f);
    assert NextTick(f, 0) == f.endTick;
    assert e.notes[0] == ExtendNote(ppq, OpeningRest(f.startTick), ppq);
    QuarterExtend(ppq, OpeningRest(f.startTick));
    assert Suffixed("q", true) == "qr";
  }

  /** A named quarter rest is kept as it is by the resolution stage. */
  lemma QuietResolve(ppq: int, e: Beat)
    requires ValidPpq(ppq) && e.notes == [BeatRest(ppq, e.startTick)]
    ensures ResolveBeat(ppq, e).notes == e.notes
  {
    assert ResolveAll(ppq, e.notes) == ResolveAll(ppq, []) + ResolveNote(ppq, e.notes[0]);
  }

  /** An empty beat one quarter long ends as a single quarter rest at its start. */
  lemma QuietQuarterBeat(ppq: int, raw: map<int, seq<RawMidiNote>>, mods: seq<ModifierNote>, b: Beat)
    requires ValidPpq(ppq) && b.notes == [] && b.endTick == b.startTick + ppq
    requires forall u :: b.startTick <= u < b.endTick ==> u !in raw
    ensures ProcessedBeat(ppq, raw, mods, b).notes == [BeatRest(ppq, b.startTick)]
  {
    QuietFill(raw, mods, b);
    var f := FillBeat(raw, mods, b);
    QuietExtend(ppq, f);
    QuietResolve(ppq, ExtendBeat(ppq, f));
  }

  /** The events of four beats with one event each, concatenated. */
  lemma FlattenFour(rb: seq<Beat>)
    requires |rb| == 4 && forall k :: 0 <= k < 4 ==> |rb[k].notes| == 1
    ensures Flatten(rb) == [rb[0].notes[0], rb[1].notes[0], rb[2].notes[0], rb[3].notes[0]]
  {
    assert rb[..1][..0] == [];
    assert Flatten(rb[..1]) == [rb[0].notes[0]];
    assert rb[..2][..1] == rb[..1];
    assert Flatten(rb[..2]) == [rb[0].notes[0], rb[1].notes[0]];
    assert rb[..3][..2] == rb[..2];
    assert Flatten(rb[..3]) == [rb[0].notes[0], rb[1].notes[0], rb[2].notes[0]];
    assert rb[..4][..3] == rb[..3];
    assert rb[..4] == rb;
  }

  /** The beats of a quiet 4/4 measure each end as one quarter rest. */
  lemma QuietFourFour(ppq: int, raw: map<int, seq<RawMidiNote>>, mods: seq<ModifierNote>,
                      hasClef: bool, sigChange: bool, start: int)
    requires ValidPpq(ppq)
    requires forall u :: start <= u < start + 4 * ppq ==> u !in raw
    ensures var pm := ProcessedBeats(ppq, raw, mods, MeasureAt(ppq, TimeSig(4, 4), hasClef, sigChange, start));
      |pm.beats| == 4 && forall k :: 0 <= k < 4 ==> |pm.beats[k].notes| == 1 && pm.beats[k].notes[0].duration == "qr"
  {
    var m := MeasureAt(ppq, TimeSig(4, 4), hasClef, sigChange, start);
    var bs := m.beats;
    FourFourLayout(ppq, hasClef, sigChange, start);
    forall k | 0 <= k < 4
      ensures ProcessedBeats(ppq, raw, mods, m).beats[k].notes == [BeatRest(ppq, bs[k].startTick)]
    {
      QuietQuarterBeat(ppq, raw, mods, bs[k]);
      ProcessedBeatsAt(ppq, raw, mods, m, k);
    }
  }

  /** A fresh 4/4 measure has four empty beats, each one quarter long, inside the measure. */
  lemma FourFourLayout(ppq: int, hasClef: bool, sigChange: bool, start: int)
    requires ValidPpq(ppq)
    ensures var bs := MeasureAt(ppq, TimeSig(4, 4), hasClef, sigChange, start).beats;
      |bs| == 4 && forall k :: 0 <= k < 4 ==> bs[k].notes == [] && bs[k].endTick == bs[k].startTick + ppq &&
                                              start <= bs[k].startTick && bs[k].endTick <= start + 4 * ppq
  {
    var bs := MeasureAt(ppq, TimeSig(4, 4), hasClef, sigChange, start).beats;
    assert MeasureLength(ppq, TimeSig(4, 4)) == 4 * ppq;
    assert bs[0] == Beat([], start, start + ppq);
    assert bs[1] == Beat([], start + ppq, start + 2 * ppq);
    assert bs[2] == Beat([], start + 2 * ppq, start + 3 * ppq);
    assert bs[3] == Beat([], start + 3 * ppq, start + 4 * ppq);
  }

  /** A measure whose four beats hold one quarter rest each flattens to a single whole rest. */
  lemma FourQuarterBeats(pm: Measure)
    requires |pm.beats| == 4 && forall k :: 0 <= k < 4 ==> |pm.beats[k].notes| == 1 && pm.beats[k].notes[0].duration == "qr"
    ensures var r := FlattenMeasure(pm);
      |r.notes| == 1 && r.notes[0].duration == "wr" && r.notes[0].isRest && r.notes[0].notes == ["b/4"]
  {
    FlattenFour(pm.beats);
    FourQuarters(Flatten(pm.beats));
  }

  /** A 4/4 measure in which no raw note starts ends as a single whole rest. */
  lemma EmptyMeasureWholeRest(ppq: int, raw: map<int, seq<RawMidiNote>>, mods: seq<ModifierNote>,
                              hasClef: bool, sigChange: bool, start: int)
    requires ValidPpq(ppq)
    requires forall u :: start <= u < start + 4 * ppq ==> u !in raw
    ensures var m := MeasureAt(ppq, TimeSig(4, 4), hasClef, sigChange, start);
      var r := FlattenMeasure(ProcessedBeats(ppq, raw, mods, m));
      |r.notes| == 1 && r.notes[0].duration == "wr" && r.notes[0].isRest && r.notes[0].notes == ["b/4"]
  {
    QuietFourFour(ppq, raw, mods, hasClef, sigChange, start);
    FourQuarterBeats(ProcessedBeats(ppq, raw, mods, MeasureAt(ppq, TimeSig(4, 4), hasClef, sigChange, start)));
  }
}
