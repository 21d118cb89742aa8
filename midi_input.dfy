/** The parsed MIDI data the transcription core consumes: the fields of the
    MIDI loader's header, track and note records that the core reads. */
module MidiInput {
  import opened Wrappers

  /** A note of a track: its pitch (`midi`), its start tick and its length in ticks. */
  datatype NoteJson = NoteJson(midi: int, ticks: nat, durationTicks: nat)

  /** A time signature `[numerator, denominator]`. */
  datatype TimeSig = TimeSig(num: int, den: int)

  /** A time-signature change at a tick. */
  datatype TimeSignatureEvent = TimeSignatureEvent(ticks: int, timeSignature: TimeSig)

  datatype Header = Header(ppq: int, timeSignatures: seq<TimeSignatureEvent>)

  /** A named track; `endOfTrackTicks` is already `endOfTrackTicks || 0`. */
  datatype Track = Track(name: string, notes: seq<NoteJson>, endOfTrackTicks: nat)

  datatype MidiJson = MidiJson(header: Header, tracks: seq<Track>)

  const DrumPartName: string := "PART DRUMS"

  /** `tracks.find(track => track.name === name)`: the first track with that name. */
  function FindTrack(tracks: seq<Track>, name: string): (r: Option<Track>)
    ensures r.None? <==> forall j :: 0 <= j < |tracks| ==> tracks[j].name != name
    ensures r.Some? ==> exists j :: 0 <= j < |tracks| && tracks[j] == r.value && r.value.name == name &&
                                   forall k :: 0 <= k < j ==> tracks[k].name != name
  {
    if |tracks| == 0 then None
    else if tracks[0].name == name then Some(tracks[0])
    else
      var r := FindTrack(tracks[1..], name);
      assert r.Some? ==> exists j :: 0 <= j < |tracks| && tracks[j] == r.value && r.value.name == name &&
                                     forall k :: 0 <= k < j ==> tracks[k].name != name by {
        if r.Some? {
          var j :| 0 <= j < |tracks[1..]| && tracks[1..][j] == r.value && r.value.name == name &&
                   forall k :: 0 <= k < j ==> tracks[1..][k].name != name;
          assert tracks[j + 1] == r.value;
          assert forall k :: 0 <= k < j + 1 ==> tracks[k].name != name by {
            forall k | 0 <= k < j + 1 ensures tracks[k].name != name {
              if k > 0 { assert tracks[k] == tracks[1..][k - 1]; }
            }
          }
        }
      }
      assert r.None? ==> forall j :: 0 <= j < |tracks| ==> tracks[j].name != name by {
        if r.None? {
          forall j | 0 <= j < |tracks| ensures tracks[j].name != name {
            if j > 0 { assert tracks[j] == tracks[1..][j - 1]; }
          }
        }
      }
      r
  }

  /** Ticks in this model are integers: ppq is a positive multiple of 96, so every
      entry of the duration table (down to ppq/32 and ppq/24) is a whole tick. */
  predicate ValidPpq(ppq: int) {
    ppq > 0 && ppq % 96 == 0
  }

  /** A positive numerator and a denominator dividing 4·ppq, so that a beat
      (ppq / (den / 4) ticks) is a whole number of ticks. */
  predicate ValidTimeSig(ppq: int, ts: TimeSig) {
    ts.num > 0 && ts.den > 0 && (4 * ppq) % ts.den == 0
  }

  predicate ValidSigs(ppq: int, sigs: seq<TimeSignatureEvent>) {
    forall i :: 0 <= i < |sigs| ==> ValidTimeSig(ppq, sigs[i].timeSignature)
  }

  predicate ValidHeader(h: Header) {
    ValidPpq(h.ppq) && ValidSigs(h.ppq, h.timeSignatures)
  }

  /** `ppq / (den / 4)`: the ticks of one beat of the signature. */
  function PulsesPerDivision(ppq: int, ts: TimeSig): (r: int)
    requires ValidPpq(ppq) && ValidTimeSig(ppq, ts)
    ensures r > 0
  {
    4 * ppq / ts.den
  }

  /** The division is exact: `den` beats of the signature make four quarters. */
  lemma PulsesExact(ppq: int, ts: TimeSig)
    requires ValidPpq(ppq) && ValidTimeSig(ppq, ts)
    ensures PulsesPerDivision(ppq, ts) * ts.den == 4 * ppq
  {
  }

  /** The ticks of one measure: `numerator · pulsesPerDivision`. */
  function MeasureLength(ppq: int, ts: TimeSig): (r: int)
    requires ValidPpq(ppq) && ValidTimeSig(ppq, ts)
    ensures r > 0
  {
    ts.num * PulsesPerDivision(ppq, ts)
  }

  /** A measure splits into `num` beats of `pulsesPerDivision` ticks each. */
  lemma MeasureSplits(ppq: int, ts: TimeSig)
    requires ValidPpq(ppq) && ValidTimeSig(ppq, ts)
    ensures MeasureLength(ppq, ts) % ts.num == 0 && MeasureLength(ppq, ts) / ts.num == PulsesPerDivision(ppq, ts)
  {
    DivMulExact(ts.num, PulsesPerDivision(ppq, ts));
  }

  lemma MulMonotone(a: int, b: int)
    requires a > 0 && b > 0
    ensures a * b >= a && a * b >= b
  {
  }

  lemma DivMulExact(a: int, b: int)
    requires a > 0
    ensures (a * b) % a == 0 && (a * b) / a == b
  {
    var q := (a * b) / a;
    if q > b {
      MulMonotone(a, q - b);
    } else if q < b {
      MulMonotone(a, b - q);
    }
  }

  /** `Math.ceil(a / b)` for a positive divisor. */
  function CeilDiv(a: int, b: int): int
    requires b > 0
  {
    -((-a) / b)
  }

  /** The ceiling is the least `r` with `a <= b·r`; it is positive exactly for positive `a`. */
  lemma CeilDivSpec(a: int, b: int)
    requires b > 0
    ensures b * (CeilDiv(a, b) - 1) < a <= b * CeilDiv(a, b)
    ensures a > 0 <==> CeilDiv(a, b) > 0
  {
  }
}
