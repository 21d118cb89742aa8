/** The measure grid: the measures each time-signature segment of the track
    needs, laid end to end from tick 0, each split into equal beats. */
module MeasureGrid {
  import opened MidiInput
  import opened ParserTypes

  /** `getBeats`: `num` empty beats of equal length covering [start, end). */
  function GetBeats(ts: TimeSig, start: int, end: int): (r: seq<Beat>)
    requires ts.num > 0
    ensures |r| == ts.num
  {
    var d := (end - start) / ts.num;
    seq(ts.num, i requires 0 <= i < ts.num => Beat([], start + i * d, start + (i + 1) * d))
  }

  /** The beats tile the measure: the first starts at its start, each starts
      where the one before ends, the last ends at its end, all are empty and
      all have the same length. */
  lemma BeatsTile(ts: TimeSig, start: int, end: int)
    requires ts.num > 0 && (end - start) % ts.num == 0
    ensures var r := GetBeats(ts, start, end);
      r[0].startTick == start && r[ts.num - 1].endTick == end &&
      (forall i :: 0 <= i < ts.num - 1 ==> r[i].endTick == r[i + 1].startTick) &&
      (forall i :: 0 <= i < ts.num ==> r[i].notes == [] &&
                                       r[i].endTick - r[i].startTick == (end - start) / ts.num)
  {
    var d := (end - start) / ts.num;
    assert start + ts.num * d == end;
  }

  /** The signatures that lay out the track: the header's, or a single 4/4 at tick 0. */
  function EffectiveSigs(h: Header): (r: seq<TimeSignatureEvent>)
    ensures |r| > 0
    ensures |h.timeSignatures| > 0 ==> r == h.timeSignatures
    ensures |h.timeSignatures| == 0 ==> r == [TimeSignatureEvent(0, TimeSig(4, 4))]
  {
    if |h.timeSignatures| > 0 then h.timeSignatures else [TimeSignatureEvent(0, TimeSig(4, 4))]
  }

  lemma EffectiveSigsValid(h: Header)
    requires ValidHeader(h)
    ensures ValidSigs(h.ppq, EffectiveSigs(h))
  {
  }

  /** The ticks of segment `k`: from its change to the next change, or to the end of the track. */
  function SegmentTicks(sigs: seq<TimeSignatureEvent>, eot: int, k: nat): int
    requires k < |sigs|
  {
    (if k + 1 < |sigs| then sigs[k + 1].ticks else eot) - sigs[k].ticks
  }

  /** `Math.ceil(segmentTicks / pulsesPerDivision / numerator)` measures, none for a
      segment of no or negative length. */
  function MeasureCount(ppq: int, sigs: seq<TimeSignatureEvent>, eot: int, k: nat): nat
    requires ValidPpq(ppq) && ValidSigs(ppq, sigs) && k < |sigs|
  {
    var c := CeilDiv(SegmentTicks(sigs, eot, k), MeasureLength(ppq, sigs[k].timeSignature));
    if c > 0 then c else 0
  }

  /** A segment gets the fewest whole measures that cover its ticks. */
  lemma MeasureCountSpec(ppq: int, sigs: seq<TimeSignatureEvent>, eot: int, k: nat)
    requires ValidPpq(ppq) && ValidSigs(ppq, sigs) && k < |sigs|
    ensures var c := MeasureCount(ppq, sigs, eot, k); var len := MeasureLength(ppq, sigs[k].timeSignature);
      c * len >= SegmentTicks(sigs, eot, k) &&
      (c > 0 ==> (c - 1) * len < SegmentTicks(sigs, eot, k))
  {
    CeilDivSpec(SegmentTicks(sigs, eot, k), MeasureLength(ppq, sigs[k].timeSignature));
  }

  /** A fresh measure of signature `ts` starting at `start`. */
  function MeasureAt(ppq: int, ts: TimeSig, hasClef: bool, sigChange: bool, start: int): Measure
    requires ValidPpq(ppq) && ValidTimeSig(ppq, ts)
  {
    var end := start + MeasureLength(ppq, ts);
    Measure(ts, sigChange, hasClef, [], GetBeats(ts, start, end), start, end)
  }

  /** A fresh measure is one measure length long, has no events yet, and its
      `num` beats tile it, each `pulsesPerDivision` ticks long. */
  lemma MeasureAtSpec(ppq: int, ts: TimeSig, hasClef: bool, sigChange: bool, start: int)
    requires ValidPpq(ppq) && ValidTimeSig(ppq, ts)
    ensures var r := MeasureAt(ppq, ts, hasClef, sigChange, start); var b := r.beats;
      r.startTick == start && r.endTick == start + MeasureLength(ppq, ts) && r.notes == [] &&
      |b| == ts.num && b[0].startTick == start && b[ts.num - 1].endTick == r.endTick &&
      (forall i :: 0 <= i < ts.num - 1 ==> b[i].endTick == b[i + 1].startTick) &&
      (forall i :: 0 <= i < ts.num ==> b[i].notes == [] &&
                                       b[i].endTick - b[i].startTick == PulsesPerDivision(ppq, ts))
  {
    MeasureSplits(ppq, ts);
    BeatsTile(ts, start, start + MeasureLength(ppq, ts));
  }

  /** The measures of segment `k`, the first starting at `start`. */
  function SegmentMeasures(ppq: int, sigs: seq<TimeSignatureEvent>, eot: int, k: nat, start: int): seq<Measure>
    requires ValidPpq(ppq) && ValidSigs(ppq, sigs) && k < |sigs|
  {
    var ts := sigs[k].timeSignature;
    seq(MeasureCount(ppq, sigs, eot, k), m requires 0 <= m < MeasureCount(ppq, sigs, eot, k) =>
      MeasureAt(ppq, ts, k == 0 && m == 0, m == 0, start + m * MeasureLength(ppq, ts)))
  }

  /** The start tick after the first `k` segments. */
  function LayoutEnd(ppq: int, sigs: seq<TimeSignatureEvent>, eot: int, k: nat): int
    requires ValidPpq(ppq) && ValidSigs(ppq, sigs) && k <= |sigs|
  {
    if k == 0 then 0
    else LayoutEnd(ppq, sigs, eot, k - 1) +
         MeasureCount(ppq, sigs, eot, k - 1) * MeasureLength(ppq, sigs[k - 1].timeSignature)
  }

  /** The measures of the first `k` segments, in order. */
  function Layout(ppq: int, sigs: seq<TimeSignatureEvent>, eot: int, k: nat): seq<Measure>
    requires ValidPpq(ppq) && ValidSigs(ppq, sigs) && k <= |sigs|
  {
    if k == 0 then []
    else Layout(ppq, sigs, eot, k - 1) +
         SegmentMeasures(ppq, sigs, eot, k - 1, LayoutEnd(ppq, sigs, eot, k - 1))
  }

  /** What `createMeasures` lays out for the header and end-of-track tick. */
  function CreatedMeasures(h: Header, eot: int): seq<Measure>
    requires ValidHeader(h)
  {
    var sigs := EffectiveSigs(h);
    EffectiveSigsValid(h);
    Layout(h.ppq, sigs, eot, |sigs|)
  }

  /** An earlier layout is a prefix of a later one. */
  lemma {:induction false} LayoutPrefix(ppq: int, sigs: seq<TimeSignatureEvent>, eot: int, k: nat, k': nat)
    requires ValidPpq(ppq) && ValidSigs(ppq, sigs) && k <= k' <= |sigs|
    ensures |Layout(ppq, sigs, eot, k)| <= |Layout(ppq, sigs, eot, k')|
    ensures forall j :: 0 <= j < |Layout(ppq, sigs, eot, k)| ==>
              Layout(ppq, sigs, eot, k')[j] == Layout(ppq, sigs, eot, k)[j]
    decreases k' - k
  {
    if k < k' {
      LayoutPrefix(ppq, sigs, eot, k, k' - 1);
      var b := Layout(ppq, sigs, eot, k' - 1);
      var c := Layout(ppq, sigs, eot, k');
      assert c == b + SegmentMeasures(ppq, sigs, eot, k' - 1, LayoutEnd(ppq, sigs, eot, k' - 1));
      assert forall j :: 0 <= j < |b| ==> c[j] == b[j];
    }
  }

  /** The measures of one segment follow each other from `start`, one
      measure length apart. */
  lemma SegmentContiguous(ppq: int, sigs: seq<TimeSignatureEvent>, eot: int, k: nat, start: int)
    requires ValidPpq(ppq) && ValidSigs(ppq, sigs) && k < |sigs|
    ensures var s := SegmentMeasures(ppq, sigs, eot, k, start); var ts := sigs[k].timeSignature;
      (s != [] ==> s[0].startTick == start &&
                   s[|s| - 1].endTick == start + |s| * MeasureLength(ppq, ts)) &&
      (forall m :: 0 <= m < |s| ==>
         s[m].timeSig == ts && s[m] == MeasureAt(ppq, ts, k == 0 && m == 0, m == 0, s[m].startTick)) &&
      (forall m, m' :: 0 <= m < |s| && m' == m + 1 < |s| ==> s[m'].startTick == s[m].endTick)
  {
    var s := SegmentMeasures(ppq, sigs, eot, k, start);
    var ts := sigs[k].timeSignature;
    var len := MeasureLength(ppq, ts);
    forall m, m' | 0 <= m < |s| && m' == m + 1 < |s| ensures s[m'].startTick == s[m].endTick {
      assert start + m * len + len == start + m' * len;
    }
    if s != [] {
      assert start + (|s| - 1) * len + len == start + |s| * len;
    }
  }

  /** Inside a layout every measure is a fresh measure of a signature of
      the header; only the very first can carry the clef. */
  lemma {:induction false} LayoutMeasures(ppq: int, sigs: seq<TimeSignatureEvent>, eot: int, k: nat)
    requires ValidPpq(ppq) && ValidSigs(ppq, sigs) && k <= |sigs|
    ensures forall j :: 0 <= j < |Layout(ppq, sigs, eot, k)| ==> ValidTimeSig(ppq, Layout(ppq, sigs, eot, k)[j].timeSig)
    ensures forall j :: 0 <= j < |Layout(ppq, sigs, eot, k)| ==> Layout(ppq, sigs, eot, k)[j].hasClef ==> j == 0
    ensures forall j :: 0 <= j < |Layout(ppq, sigs, eot, k)| ==>
      var m := Layout(ppq, sigs, eot, k)[j]; m == MeasureAt(ppq, m.timeSig, m.hasClef, m.sigChange, m.startTick)
    decreases k
  {
    if k > 0 {
      var p := Layout(ppq, sigs, eot, k - 1);
      var e := LayoutEnd(ppq, sigs, eot, k - 1);
      var s := SegmentMeasures(ppq, sigs, eot, k - 1, e);
      var l := Layout(ppq, sigs, eot, k);
      LayoutMeasures(ppq, sigs, eot, k - 1);
      assert l == p + s;
      forall j | 0 <= j < |l| ensures ValidTimeSig(ppq, l[j].timeSig) && (l[j].hasClef ==> j == 0) &&
          l[j] == MeasureAt(ppq, l[j].timeSig, l[j].hasClef, l[j].sigChange, l[j].startTick) {
        if j < |p| {
          assert l[j] == p[j];
        } else {
          assert l[j] == s[j - |p|];
          if l[j].hasClef {
            assert k == 1 && p == [];
          }
        }
      }
    }
  }

  /** The first measure of a layout starts at tick 0, each starts where the
      one before ends, and the layout ends at `LayoutEnd`. */
  lemma {:induction false} LayoutContiguous(ppq: int, sigs: seq<TimeSignatureEvent>, eot: int, k: nat)
    requires ValidPpq(ppq) && ValidSigs(ppq, sigs) && k <= |sigs|
    ensures var l := Layout(ppq, sigs, eot, k);
      (l == [] ==> LayoutEnd(ppq, sigs, eot, k) == 0) &&
      (l != [] ==> LayoutEnd(ppq, sigs, eot, k) == l[|l| - 1].endTick) &&
      (l != [] ==> l[0].startTick == 0) &&
      (forall i, j :: 0 <= i < |l| && j == i + 1 < |l| ==> l[j].startTick == l[i].endTick)
    decreases k
  {
    if k > 0 {
      LayoutContiguous(ppq, sigs, eot, k - 1);
      var p := Layout(ppq, sigs, eot, k - 1);
      var e := LayoutEnd(ppq, sigs, eot, k - 1);
      var s := SegmentMeasures(ppq, sigs, eot, k - 1, e);
      SegmentContiguous(ppq, sigs, eot, k - 1, e);
      var l := Layout(ppq, sigs, eot, k);
      assert l == p + s;
      forall i, j | 0 <= i < |l| && j == i + 1 < |l| ensures l[j].startTick == l[i].endTick {
        if j < |p| {
          assert l[j] == p[j] && l[i] == p[i];
        } else if i < |p| {
          assert l[j] == s[0] && l[i] == p[|p| - 1];
        } else {
          assert l[j] == s[j - |p|] && l[i] == s[i - |p|];
        }
      }
      if l != [] {
        assert l[0] == if p != [] then p[0] else s[0];
      }
      if s != [] {
        assert l[|l| - 1] == s[|s| - 1];
      }
    }
  }

  lemma SegmentAt(ppq: int, sigs: seq<TimeSignatureEvent>, eot: int, k: nat, m: nat)
    requires ValidPpq(ppq) && ValidSigs(ppq, sigs) && k < |sigs| && m < MeasureCount(ppq, sigs, eot, k)
    ensures var q := Layout(ppq, sigs, eot, k + 1); var j := |Layout(ppq, sigs, eot, k)| + m;
      var ts := sigs[k].timeSignature;
      j < |q| && q[j] == MeasureAt(ppq, ts, k == 0 && m == 0, m == 0,
                                   LayoutEnd(ppq, sigs, eot, k) + m * MeasureLength(ppq, ts))
  {
    var p := Layout(ppq, sigs, eot, k);
    var q := Layout(ppq, sigs, eot, k + 1);
    var s := SegmentMeasures(ppq, sigs, eot, k, LayoutEnd(ppq, sigs, eot, k));
    assert q == p + s;
    assert q[|p| + m] == s[m];
  }

  lemma SegmentBlock(ppq: int, sigs: seq<TimeSignatureEvent>, eot: int, k: nat, m: nat)
    requires ValidPpq(ppq) && ValidSigs(ppq, sigs) && k < |sigs| && m < MeasureCount(ppq, sigs, eot, k)
    ensures var l := Layout(ppq, sigs, eot, |sigs|); var j := |Layout(ppq, sigs, eot, k)| + m;
      j < |l| && l[j].timeSig == sigs[k].timeSignature &&
      (l[j].sigChange <==> m == 0) && (l[j].hasClef <==> k == 0 && m == 0) &&
      l[j].startTick == LayoutEnd(ppq, sigs, eot, k) + m * MeasureLength(ppq, sigs[k].timeSignature)
  {
    var ts := sigs[k].timeSignature;
    var j := |Layout(ppq, sigs, eot, k)| + m;
    var l := Layout(ppq, sigs, eot, |sigs|);
    var q := Layout(ppq, sigs, eot, k + 1);
    var start := LayoutEnd(ppq, sigs, eot, k) + m * MeasureLength(ppq, ts);
    var x := MeasureAt(ppq, ts, k == 0 && m == 0, m == 0, start);
    assert j < |q| && q[j] == x by {
      SegmentAt(ppq, sigs, eot, k, m);
    }
    assert j < |l| && l[j] == q[j] by {
      LayoutPrefix(ppq, sigs, eot, k + 1, |sigs|);
    }
    assert x.timeSig == ts && x.sigChange == (m == 0) && x.hasClef == (k == 0 && m == 0) && x.startTick == start;
  }

  /** The measures of the first `k` segments reach at least from the first
      change to the end of segment `k - 1`: each segment gets enough measures
      to cover its ticks. */
  lemma {:induction false} LayoutCovers(ppq: int, sigs: seq<TimeSignatureEvent>, eot: int, k: nat)
    requires ValidPpq(ppq) && ValidSigs(ppq, sigs) && 0 < k <= |sigs|
    ensures LayoutEnd(ppq, sigs, eot, k) >= (if k < |sigs| then sigs[k].ticks else eot) - sigs[0].ticks
    decreases k
  {
    if k > 1 {
      LayoutCovers(ppq, sigs, eot, k - 1);
    }
    MeasureCountSpec(ppq, sigs, eot, k - 1);
  }

  /** With no time signatures the track is laid out in 4/4 measures of 4·ppq
      ticks, as many as cover the end-of-track tick, all marked as a change of
      signature and only the first with a clef. */
  lemma NoSignatures(h: Header, eot: int)
    requires ValidHeader(h) && h.timeSignatures == []
    ensures var l := CreatedMeasures(h, eot);
      |l| == (if eot > 0 then CeilDiv(eot, 4 * h.ppq) else 0) &&
      forall j :: 0 <= j < |l| ==>
        l[j].timeSig == TimeSig(4, 4) && l[j].sigChange == (j == 0) && l[j].hasClef == (j == 0) &&
        l[j].startTick == j * (4 * h.ppq) && l[j].endTick == l[j].startTick + 4 * h.ppq
  {
    var sigs := EffectiveSigs(h);
    var l := CreatedMeasures(h, eot);
    assert MeasureLength(h.ppq, TimeSig(4, 4)) == 4 * h.ppq;
    CeilDivSpec(eot, 4 * h.ppq);
    assert l == Layout(h.ppq, sigs, eot, 0) + SegmentMeasures(h.ppq, sigs, eot, 0, 0);
  }
}
