/** The renderer's song model: the expert drum notes of a track, scanned
    every sixteenth of a quarter note, are laid into measures whose length
    follows the time signature in force at each tick. */
module SongParser {
  import opened Wrappers
  import opened MidiInput
  import opened ParserTypes
  import opened DrumMapping

  datatype SongNote = SongNote(key: string)

  /** A hit at a measure-relative tick (counted in scan steps). */
  datatype TickNote = TickNote(notes: seq<SongNote>, duration: string, tick: int)

  datatype SongMeasure = SongMeasure(timeSig: TimeSig, sigChange: bool, hasClef: bool, tickNotes: seq<TickNote>,
                                     startTick: int, endTick: Option<int>, durationTicks: Option<int>)

  /** The scan steps by `ppq / 16` ticks, an exact positive step. */
  predicate ValidSongPpq(ppq: int) {
    ppq > 0 && ppq % 16 == 0
  }

  /** Time signatures with a positive numerator and denominator. */
  predicate ValidSongSigs(sigs: seq<TimeSignatureEvent>) {
    forall i :: 0 <= i < |sigs| ==> sigs[i].timeSignature.num > 0 && sigs[i].timeSignature.den > 0
  }

  function StepOf(ppq: int): (s: int)
    requires ValidSongPpq(ppq)
    ensures s > 0 && 16 * s == ppq
  {
    ppq / 16
  }

  /** `areTimeSigEqual` */
  function TimeSigEqual(a: TimeSig, b: TimeSig): (r: bool)
    ensures r <==> a == b
  {
    a.num == b.num && a.den == b.den
  }

  /** `findIndex` of the first signature change after tick `t`, or the
      length of the list when there is none. */
  function FirstAfter(sigs: seq<TimeSignatureEvent>, t: int): (i: nat)
    ensures i <= |sigs|
    ensures forall j :: 0 <= j < i ==> sigs[j].ticks <= t
    ensures i < |sigs| ==> t < sigs[i].ticks
  {
    if sigs == [] then 0
    else if t < sigs[0].ticks then 0
    else 1 + FirstAfter(sigs[1..], t)
  }

  /** `getCurrentTimeSig`: the signature just before the first change after
      `t`, or 4/4 when there is no such signature. */
  function CurrentTimeSig(sigs: seq<TimeSignatureEvent>, t: int): TimeSig {
    var i := FirstAfter(sigs, t);
    if i == 0 then TimeSig(4, 4) else sigs[i - 1].timeSignature
  }

  predicate SortedSigs(sigs: seq<TimeSignatureEvent>) {
    forall i, j :: 0 <= i < j < |sigs| ==> sigs[i].ticks <= sigs[j].ticks
  }

  /** On a list sorted by tick, the current signature is that of the last
      change at or before `t`, and 4/4 before the first change. */
  lemma CurrentTimeSigSorted(sigs: seq<TimeSignatureEvent>, t: int)
    requires SortedSigs(sigs)
    ensures (forall k :: 0 <= k < |sigs| ==> t < sigs[k].ticks) ==> CurrentTimeSig(sigs, t) == TimeSig(4, 4)
    ensures forall j :: 0 <= j < |sigs| && sigs[j].ticks <= t && (j + 1 == |sigs| || t < sigs[j + 1].ticks) ==>
              CurrentTimeSig(sigs, t) == sigs[j].timeSignature
  {
    var i := FirstAfter(sigs, t);
    forall j | 0 <= j < |sigs| && sigs[j].ticks <= t && (j + 1 == |sigs| || t < sigs[j + 1].ticks)
      ensures CurrentTimeSig(sigs, t) == sigs[j].timeSignature
    {
      assert forall k :: 0 <= k <= j ==> sigs[k].ticks <= t;
      assert forall k :: j < k < |sigs| ==> t < sigs[k].ticks;
    }
  }

  /** `currentMeasureTicks === (ppq / (den / 4)) * num`, compared exactly. */
  predicate MeasureFull(ppq: int, ts: TimeSig, measureTicks: int) {
    ts.den != 0 && measureTicks * ts.den == 4 * ppq * ts.num
  }

  /** For a signature whose beats are whole ticks, the comparison is the
      measure length of the layout that `MidiParser` uses. */
  lemma MeasureFullLength(ppq: int, ts: TimeSig, measureTicks: int)
    requires ValidPpq(ppq) && ValidTimeSig(ppq, ts)
    ensures MeasureFull(ppq, ts, measureTicks) <==> measureTicks == MeasureLength(ppq, ts)
  {
    MeasureSplits(ppq, ts);
    PulsesExact(ppq, ts);
    var p := PulsesPerDivision(ppq, ts);
    assert MeasureLength(ppq, ts) * ts.den == 4 * ppq * ts.num by {
      assert p * ts.den == 4 * ppq;
      calc {
        MeasureLength(ppq, ts) * ts.den;
        (p * ts.num) * ts.den;
        (p * ts.den) * ts.num;
      }
    }
    if MeasureFull(ppq, ts, measureTicks) {
      assert (measureTicks - MeasureLength(ppq, ts)) * ts.den == 0;
    }
  }

  /** The state the scan carries from tick to tick: the measures so far (the
      last one is `currentMeasure`), the tick count of the current measure,
      and the active modifier notes. */
  datatype ParseState = ParseState(measures: seq<SongMeasure>, measureTicks: int, active: seq<ModifierNote>)

  function OpeningMeasure(): SongMeasure {
    SongMeasure(TimeSig(4, 4), true, true, [], 0, None, None)
  }

  function InitState(): ParseState {
    ParseState([OpeningMeasure()], 0, [])
  }

  /** The modifier notes that start at `t`, in track order. */
  function StartingAt(mods: seq<ModifierNote>, t: int): seq<ModifierNote> {
    if mods == [] then []
    else (if mods[0].note.ticks == t then [mods[0]] else []) + StartingAt(mods[1..], t)
  }

  /** The modifier notes that do not end at `t`, in order. */
  function NotEndingAt(active: seq<ModifierNote>, t: int): seq<ModifierNote> {
    if active == [] then []
    else (if active[0].note.durationTicks + active[0].note.ticks != t then [active[0]] else []) + NotEndingAt(active[1..], t)
  }

  /** The active modifier notes once tick `t` is reached. */
  function UpdateActive(active: seq<ModifierNote>, mods: seq<ModifierNote>, t: int): seq<ModifierNote> {
    NotEndingAt(active + StartingAt(mods, t), t)
  }

  /** The keys the raw notes of a tick sound under the active modifiers. */
  function SongKeys(ns: seq<RawMidiNote>, active: seq<ModifierNote>): (r: seq<SongNote>)
    ensures |r| == |ns| && forall i :: 0 <= i < |ns| ==> r[i] == SongNote(GetNoteKey(ns[i], active))
  {
    seq(|ns|, i requires 0 <= i < |ns| => SongNote(GetNoteKey(ns[i], active)))
  }

  /** The measure `parse` opens at tick `t` after `last`, held for `measureTicks`. */
  function NewMeasure(ppq: int, ts: TimeSig, last: SongMeasure, t: int, measureTicks: int): SongMeasure
    requires ValidSongPpq(ppq)
  {
    SongMeasure(ts, !TimeSigEqual(ts, last.timeSig), false, [], t, None, Some(measureTicks / StepOf(ppq)))
  }

  /** The measure check at the top of the scan at tick `t`. */
  function Boundary(ppq: int, sigs: seq<TimeSignatureEvent>, st: ParseState, t: int): (r: ParseState)
    requires ValidSongPpq(ppq) && |st.measures| > 0
    ensures |r.measures| > 0 && r.active == st.active
  {
    var ts := CurrentTimeSig(sigs, t);
    if MeasureFull(ppq, ts, st.measureTicks) then
      var n := |st.measures|;
      var last := st.measures[n - 1];
      var closed := st.measures[n - 1 := last.(endTick := Some(t))];
      ParseState(closed + [NewMeasure(ppq, ts, last, t, st.measureTicks)], 0, st.active)
    else st
  }

  /** The hit the scan records at tick `t`, if raw notes start there. */
  function Record(ppq: int, raw: map<int, seq<RawMidiNote>>, st: ParseState, t: int): (r: seq<SongMeasure>)
    requires ValidSongPpq(ppq) && |st.measures| > 0
    ensures |r| == |st.measures|
  {
    var n := |st.measures|;
    var cur := st.measures[n - 1];
    if t in raw then
      st.measures[n - 1 := cur.(tickNotes := cur.tickNotes + [TickNote(SongKeys(raw[t], st.active), "32", st.measureTicks / StepOf(ppq))])]
    else st.measures
  }

  /** The rest of the iteration at tick `t`, after the measure check: the
      modifiers are updated, the hit recorded, the measure counter advanced. */
  function Advance(ppq: int, raw: map<int, seq<RawMidiNote>>, mods: seq<ModifierNote>, b: ParseState, t: int): (r: ParseState)
    requires ValidSongPpq(ppq) && |b.measures| > 0
    ensures |r.measures| == |b.measures|
  {
    var act := UpdateActive(b.active, mods, t);
    ParseState(Record(ppq, raw, b.(active := act), t), b.measureTicks + StepOf(ppq), act)
  }

  /** One iteration of the scan at tick `t`. */
  function Step(ppq: int, sigs: seq<TimeSignatureEvent>, raw: map<int, seq<RawMidiNote>>, mods: seq<ModifierNote>,
                st: ParseState, t: int): (r: ParseState)
    requires ValidSongPpq(ppq) && |st.measures| > 0
    ensures |r.measures| > 0
  {
    Advance(ppq, raw, mods, Boundary(ppq, sigs, st, t), t)
  }

  /** The scan from tick `t` on, while `t` is before the end of the track. */
  function ScanFrom(ppq: int, sigs: seq<TimeSignatureEvent>, raw: map<int, seq<RawMidiNote>>, mods: seq<ModifierNote>,
                    eot: int, st: ParseState, t: int): (r: ParseState)
    requires ValidSongPpq(ppq) && |st.measures| > 0
    ensures |r.measures| > 0
    decreases eot - t
  {
    if t >= eot then st
    else ScanFrom(ppq, sigs, raw, mods, eot, Step(ppq, sigs, raw, mods, st, t), t + StepOf(ppq))
  }

  /** The measures `parse` builds for a track ending at `eot`. */
  function Parsed(ppq: int, sigs: seq<TimeSignatureEvent>, raw: map<int, seq<RawMidiNote>>, mods: seq<ModifierNote>,
                  eot: int): seq<SongMeasure>
    requires ValidSongPpq(ppq)
  {
    ScanFrom(ppq, sigs, raw, mods, eot, InitState(), 0).measures
  }

  function WholeRest(): TickNote {
    TickNote([SongNote("c/5")], "wr", 0)
  }

  /** `addWholeRests` for one measure. */
  function WithWholeRest(m: SongMeasure): SongMeasure {
    if |m.tickNotes| == 0 then m.(tickNotes := [WholeRest()]) else m
  }

  function WithWholeRests(ms: seq<SongMeasure>): seq<SongMeasure> {
    seq(|ms|, i requires 0 <= i < |ms| => WithWholeRest(ms[i]))
  }

  class Song {
    var measures: seq<SongMeasure>
    var rawMidiNotes: map<int, seq<RawMidiNote>>
    var endOfTrackTicks: int
    var modifierNotes: seq<ModifierNote>
    var header: Header

    /** The constructor once the drum part is found. */
    constructor (drumPart: Track, h: Header)
      requires ValidSongPpq(h.ppq)
      ensures header == h && endOfTrackTicks == drumPart.endOfTrackTicks
      ensures rawMidiNotes == RawNotes(drumPart.notes, Expert)
      ensures modifierNotes == ModifiersIn(drumPart.notes, Expert)
      ensures measures == WithWholeRests(Parsed(h.ppq, h.timeSignatures, rawMidiNotes, modifierNotes, endOfTrackTicks))
    {
      measures := [];
      rawMidiNotes := map[];
      modifierNotes := [];
      endOfTrackTicks := drumPart.endOfTrackTicks;
      header := h;
      new;
      ProcessNotes(drumPart);
      GroupFromEmpty(drumPart.notes, Expert);
      Parse();
      AddWholeRests();
    }

    /** `processNotes`: as in the parser, with the expert table. */
    method ProcessNotes(trackData: Track)
      modifies this`rawMidiNotes, this`modifierNotes
      ensures rawMidiNotes == GroupNotes(old(rawMidiNotes), trackData.notes, Expert)
      ensures modifierNotes == old(modifierNotes) + ModifiersIn(trackData.notes, Expert)
    {
      var notes := trackData.notes;
      var raw := rawMidiNotes;
      var mods := modifierNotes;
      var i := 0;
      while i < |notes|
        modifies {}
        invariant 0 <= i <= |notes|
        invariant raw == GroupNotes(old(rawMidiNotes), notes[..i], Expert)
        invariant mods == old(modifierNotes) + ModifiersIn(notes[..i], Expert)
      {
        var note := notes[i];
        assert notes[..i + 1][..i] == notes[..i];
        var mapping := Mapping(Expert);
        if note.midi in mapping {
          var tickData := Lookup(raw, note.ticks);
          raw := raw[note.ticks := tickData + [RawMidiNote(note, mapping[note.midi])]];
        } else if note.midi in TomModifiers {
          mods := mods + [ModifierNote(note, TomModifiers[note.midi])];
        }
        i := i + 1;
      }
      assert notes[..i] == notes;
      rawMidiNotes := raw;
      modifierNotes := mods;
    }

    /** `parse`: the opening measure is pushed, then every step from tick 0
        to the end of the track is scanned. */
    method Parse()
      requires ValidSongPpq(header.ppq)
      modifies this`measures
      ensures measures == old(measures) + Parsed(header.ppq, header.timeSignatures, rawMidiNotes, modifierNotes, endOfTrackTicks)
    {
      var ppq := header.ppq;
      var sigs := header.timeSignatures;
      var raw := rawMidiNotes;
      var mods := modifierNotes;
      var eot := endOfTrackTicks;
      var ms := [OpeningMeasure()];
      var notes: seq<TickNote> := [];
      var currentMeasureTicks := 0;
      var step := ppq / 16;
      var currentTick := 0;
      var currentModifierNotes: seq<ModifierNote> := [];
      while currentTick < eot
        modifies {}
        invariant |ms| > 0 && notes == []
        invariant ScanFrom(ppq, sigs, raw, mods, eot, ParseState(ms, currentMeasureTicks, currentModifierNotes), currentTick)
                  == ScanFrom(ppq, sigs, raw, mods, eot, InitState(), 0)
        decreases eot - currentTick
      {
        ghost var before := ParseState(ms, currentMeasureTicks, currentModifierNotes);
        ms, notes, currentMeasureTicks := CheckMeasure(ppq, sigs, ms, notes, currentMeasureTicks, currentTick);
        ghost var checked := ParseState(ms, currentMeasureTicks, currentModifierNotes);
        assert checked == Boundary(ppq, sigs, before, currentTick);
        ms, currentMeasureTicks, currentModifierNotes :=
          ScanTick(ppq, raw, mods, ms, currentMeasureTicks, currentModifierNotes, currentTick);
        assert Step(ppq, sigs, raw, mods, before, currentTick) == ParseState(ms, currentMeasureTicks, currentModifierNotes);
        currentTick := currentTick + step;
      }
      measures := measures + ms;
    }

    /** `addWholeRests`: every measure without hits gets one whole rest. */
    method AddWholeRests()
      modifies this`measures
      ensures measures == WithWholeRests(old(measures))
    {
      var ms := measures;
      var i := 0;
      while i < |ms|
        modifies {}
        invariant 0 <= i <= |ms| == |old(measures)|
        invariant forall k :: 0 <= k < i ==> ms[k] == WithWholeRest(old(measures)[k])
        invariant forall k :: i <= k < |ms| ==> ms[k] == old(measures)[k]
      {
        if |ms[i].tickNotes| == 0 {
          ms := ms[i := ms[i].(tickNotes := ms[i].tickNotes + [WholeRest()])];
        }
        i := i + 1;
      }
      measures := ms;
    }
  }

  /** The measure check at the top of `parse`'s loop: when the counter
      fills the current signature's measure, the current measure is closed
      and a new one, taking `notes`, is pushed. */
  method CheckMeasure(ppq: int, sigs: seq<TimeSignatureEvent>, ms: seq<SongMeasure>, notes: seq<TickNote>,
                      currentMeasureTicks: int, currentTick: int)
    returns (ms': seq<SongMeasure>, notes': seq<TickNote>, currentMeasureTicks': int)
    requires ValidSongPpq(ppq) && |ms| > 0 && notes == []
    ensures notes' == []
    ensures forall active :: ParseState(ms', currentMeasureTicks', active) ==
                             Boundary(ppq, sigs, ParseState(ms, currentMeasureTicks, active), currentTick)
  {
    ms', notes', currentMeasureTicks' := ms, notes, currentMeasureTicks;
    var step := ppq / 16;
    var timeSignature := CurrentTimeSig(sigs, currentTick);
    if MeasureFull(ppq, timeSignature, currentMeasureTicks) {
      var sigChange := !TimeSigEqual(timeSignature, ms[|ms| - 1].timeSig);
      ms' := ms[|ms| - 1 := ms[|ms| - 1].(endTick := Some(currentTick))];
      ms' := ms' + [SongMeasure(timeSignature, sigChange, false, notes, currentTick, None, Some(currentMeasureTicks / step))];
      notes' := [];
      currentMeasureTicks' := 0;
    }
  }

  /** The rest of `parse`'s loop body: the modifiers starting at the tick are
      pushed, those ending there dropped, the tick's hit recorded in the
      current measure, and the counter advanced. */
  method ScanTick(ppq: int, raw: map<int, seq<RawMidiNote>>, mods: seq<ModifierNote>, ms: seq<SongMeasure>,
                  currentMeasureTicks: int, currentModifierNotes: seq<ModifierNote>, currentTick: int)
    returns (ms': seq<SongMeasure>, currentMeasureTicks': int, currentModifierNotes': seq<ModifierNote>)
    requires ValidSongPpq(ppq) && |ms| > 0
    ensures ParseState(ms', currentMeasureTicks', currentModifierNotes') ==
            Advance(ppq, raw, mods, ParseState(ms, currentMeasureTicks, currentModifierNotes), currentTick)
  {
    var step := ppq / 16;
    ms' := ms;
    currentModifierNotes' := NotEndingAt(currentModifierNotes + StartingAt(mods, currentTick), currentTick);
    if currentTick in raw {
      var cur := ms[|ms| - 1];
      var tn := TickNote(SongKeys(raw[currentTick], currentModifierNotes'), "32", currentMeasureTicks / step);
      ms' := ms[|ms| - 1 := cur.(tickNotes := cur.tickNotes + [tn])];
    }
    currentMeasureTicks' := currentMeasureTicks + step;
  }

  /** The constructor: it fails with "no drum part" exactly when no track is
      named "PART DRUMS"; otherwise it builds the song from the first such track. */
  method CreateSong(data: MidiJson) returns (r: Result<Song, string>)
    requires ValidSongPpq(data.header.ppq)
    ensures r.Failure? <==> FindTrack(data.tracks, DrumPartName).None?
    ensures r.Failure? ==> r.error == "no drum part"
    ensures r.Success? ==> fresh(r.value)
    ensures r.Success? ==>
      r.value.measures == WithWholeRests(Parsed(data.header.ppq, data.header.timeSignatures,
                                         RawNotes(FindTrack(data.tracks, DrumPartName).value.notes, Expert),
                                         ModifiersIn(FindTrack(data.tracks, DrumPartName).value.notes, Expert),
                                         FindTrack(data.tracks, DrumPartName).value.endOfTrackTicks))
  {
    var drumPart := FindTrack(data.tracks, DrumPartName);
    if drumPart.None? {
      return Failure("no drum part");
    }
    var s := new Song(drumPart.value, data.header);
    r := Success(s);
  }
}
