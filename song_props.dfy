/** What the renderer's scan guarantees about the measures it builds: the
    opening measure, how consecutive measures link up, where the boundaries
    fall, which hits are recorded and under which modifiers. */
module SongProperties {
  import opened Wrappers
  import opened MidiInput
  import opened ParserTypes
  import opened DrumMapping
  import opened SongParser

  /** Multiples of the step: the only ticks the scan visits. */
  predicate OnGrid(x: int, step: int)
    requires step > 0
  {
    x % step == 0
  }

  /** No multiple of a positive `step` lies strictly between two neighbouring ones. */
  lemma GridGap(step: int, t: int, u: int)
    requires step > 0 && OnGrid(t, step) && OnGrid(u, step) && t <= u < t + step
    ensures u == t
  {
    var q := u / step - t / step;
    assert u - t == step * q by {
      assert u == step * (u / step) && t == step * (t / step);
    }
    if q >= 1 {
      assert step * q == step + step * (q - 1);
    } else if q <= -1 {
      assert step * q == -step + step * (q + 1);
    }
  }

  /** No multiple of a positive `step` lies strictly between `t` and `t + step`. */
  lemma GridBetween(step: int, t: int, u: int)
    requires step > 0 && OnGrid(t, step) && t < u < t + step
    ensures !OnGrid(u, step)
  {
    var q := u / step - t / step;
    assert u - t == step * q + u % step by {
      assert u == step * (u / step) + u % step && t == step * (t / step);
    }
    if q >= 1 {
      assert step * q == step + step * (q - 1);
    } else if q <= -1 {
      assert step * q == -step + step * (q + 1);
    }
  }

  lemma GridNext(step: int, t: int)
    requires step > 0 && OnGrid(t, step)
    ensures OnGrid(t + step, step) && OnGrid(t - step, step)
  {
    assert t == step * (t / step);
    assert t + step == step * (t / step + 1);
    assert t - step == step * (t / step - 1);
    DivMulExact(step, t / step + 1);
    DivMulExact(step, t / step - 1);
  }

  lemma GridDiff(step: int, a: int, b: int)
    requires step > 0 && OnGrid(a, step) && OnGrid(b, step)
    ensures OnGrid(a - b, step) && (a - b) / step * step == a - b
  {
    assert a == step * (a / step) && b == step * (b / step);
    assert a - b == step * (a / step - b / step);
    DivMulExact(step, a / step - b / step);
  }

  lemma MulCancelLess(x: int, y: int, step: int)
    requires step > 0 && x * step < y * step
    ensures x < y
  {
    assert (y - x) * step == y * step - x * step;
  }

  /** The active modifier notes once every step before `t` has been scanned. */
  function ActiveAfter(mods: seq<ModifierNote>, step: int, t: int): seq<ModifierNote>
    requires step > 0
    decreases t
  {
    if t <= 0 then [] else UpdateActive(ActiveAfter(mods, step, t - step), mods, t - step)
  }

  function EndOf(m: ModifierNote): int {
    m.note.ticks + m.note.durationTicks
  }

  lemma {:induction false} StartingAtExact(mods: seq<ModifierNote>, t: int, m: ModifierNote)
    ensures m in StartingAt(mods, t) <==> m in mods && m.note.ticks == t
    decreases |mods|
  {
    if mods != [] {
      StartingAtExact(mods[1..], t, m);
      assert mods == [mods[0]] + mods[1..];
    }
  }

  lemma {:induction false} NotEndingAtExact(active: seq<ModifierNote>, t: int, m: ModifierNote)
    ensures m in NotEndingAt(active, t) <==> m in active && EndOf(m) != t
    decreases |active|
  {
    if active != [] {
      NotEndingAtExact(active[1..], t, m);
      assert active == [active[0]] + active[1..];
    }
  }

  /** A modifier note is active after the steps before `t` exactly when it
      started at a visited step and did not end at one: the scan only sees
      starts and ends that fall on a step. */
  lemma {:induction false} ActiveAfterExact(mods: seq<ModifierNote>, step: int, t: int, m: ModifierNote)
    requires step > 0 && t >= 0 && OnGrid(t, step)
    ensures m in ActiveAfter(mods, step, t) <==>
              m in mods && OnGrid(m.note.ticks, step) && m.note.ticks < t &&
              !(OnGrid(EndOf(m), step) && EndOf(m) < t)
    decreases t
  {
    if t > 0 {
      var p := t - step;
      GridNext(step, t);
      if p < 0 {
        GridGap(step, 0, t);
      }
      ActiveAfterExact(mods, step, p, m);
      var before := ActiveAfter(mods, step, p);
      NotEndingAtExact(before + StartingAt(mods, p), p, m);
      StartingAtExact(mods, p, m);
      if OnGrid(m.note.ticks, step) && p <= m.note.ticks < t {
        GridGap(step, p, m.note.ticks);
      }
      if OnGrid(EndOf(m), step) && p <= EndOf(m) < t {
        GridGap(step, p, EndOf(m));
      }
    }
  }

  /** For a modifier note that starts and ends on a step, the keys recorded
      at step `u` see it exactly from its start up to, not including, its
      end. */
  lemma ActiveWindow(mods: seq<ModifierNote>, step: int, u: int, m: ModifierNote)
    requires step > 0 && u >= 0 && OnGrid(u, step)
    requires OnGrid(m.note.ticks, step) && OnGrid(EndOf(m), step)
    ensures m in ActiveAfter(mods, step, u + step) <==> m in mods && m.note.ticks <= u < EndOf(m)
  {
    GridNext(step, u);
    ActiveAfterExact(mods, step, u + step, m);
    if u < m.note.ticks < u + step {
      GridGap(step, u, m.note.ticks);
    }
    if u <= EndOf(m) < u + step {
      GridGap(step, u, EndOf(m));
    }
  }

  /** The opening measure: 4/4, with a clef and a signature mark, at tick 0. */
  predicate Opening(ms: seq<SongMeasure>) {
    |ms| > 0 && ms[0].timeSig == TimeSig(4, 4) && ms[0].sigChange && ms[0].hasClef && ms[0].startTick == 0
  }

  /** No step strictly after `lo` and before `hi` meets the measure check of a
      measure starting at `lo`. */
  predicate NoBoundaryIn(ppq: int, sigs: seq<TimeSignatureEvent>, lo: int, hi: int)
    requires ValidSongPpq(ppq)
  {
    forall u :: lo < u < hi && OnGrid(u, StepOf(ppq)) ==> !MeasureFull(ppq, CurrentTimeSig(sigs, u), u - lo)
  }

  /** How measure `m` follows measure `p`: it starts where `p` ends, at the
      first step after `p`'s start whose signature its length fills; it takes
      that signature, marks a change exactly when it differs from `p`'s, has
      no clef, and records `p`'s length in steps. */
  predicate Follows(ppq: int, sigs: seq<TimeSignatureEvent>, eot: int, p: SongMeasure, m: SongMeasure)
    requires ValidSongPpq(ppq)
  {
    && !m.hasClef
    && m.timeSig == CurrentTimeSig(sigs, m.startTick)
    && m.sigChange == (m.timeSig != p.timeSig)
    && p.endTick == Some(m.startTick)
    && p.startTick < m.startTick < eot
    && MeasureFull(ppq, m.timeSig, m.startTick - p.startTick)
    && NoBoundaryIn(ppq, sigs, p.startTick, m.startTick)
    && m.durationTicks == Some((m.startTick - p.startTick) / StepOf(ppq))
  }

  ghost predicate Linked(ppq: int, sigs: seq<TimeSignatureEvent>, eot: int, ms: seq<SongMeasure>)
    requires ValidSongPpq(ppq)
  {
    forall i, j :: 0 <= i < j < |ms| && j == i + 1 ==> Follows(ppq, sigs, eot, ms[i], ms[j])
  }

  /** The open last measure, with the scan at tick `t`. */
  predicate Current(ppq: int, sigs: seq<TimeSignatureEvent>, st: ParseState, t: int)
    requires ValidSongPpq(ppq)
  {
    && |st.measures| > 0
    && var last := st.measures[|st.measures| - 1];
    && t >= 0 && OnGrid(t, StepOf(ppq))
    && last.endTick == None
    && last.startTick <= t
    && st.measureTicks == t - last.startTick
    && OnGrid(st.measureTicks, StepOf(ppq))
    && NoBoundaryIn(ppq, sigs, last.startTick, t)
  }

  /** A recorded hit of a measure starting at `start`: at a step before `limit`
      and before the end of the track that carries raw notes, with the keys
      those notes sound under the modifiers active at that step. */
  predicate HitAt(ppq: int, raw: map<int, seq<RawMidiNote>>, mods: seq<ModifierNote>, eot: int,
                  start: int, limit: int, e: TickNote)
    requires ValidSongPpq(ppq)
  {
    var a := start + e.tick * StepOf(ppq);
    && e.duration == "32"
    && 0 <= a && start <= a < limit && a < eot && OnGrid(a, StepOf(ppq))
    && a in raw
    && e.notes == SongKeys(raw[a], ActiveAfter(mods, StepOf(ppq), a + StepOf(ppq)))
  }

  ghost predicate HitsIn(ppq: int, raw: map<int, seq<RawMidiNote>>, mods: seq<ModifierNote>, eot: int,
                   m: SongMeasure, limit: int)
    requires ValidSongPpq(ppq)
  {
    && (forall k :: 0 <= k < |m.tickNotes| ==> HitAt(ppq, raw, mods, eot, m.startTick, limit, m.tickNotes[k]))
    && (forall k, l :: 0 <= k < l < |m.tickNotes| && l == k + 1 ==> m.tickNotes[k].tick < m.tickNotes[l].tick)
  }

  ghost predicate Hits(ppq: int, raw: map<int, seq<RawMidiNote>>, mods: seq<ModifierNote>, eot: int,
                 ms: seq<SongMeasure>, t: int)
    requires ValidSongPpq(ppq)
  {
    && (forall i, j :: 0 <= i < j < |ms| && j == i + 1 ==> HitsIn(ppq, raw, mods, eot, ms[i], ms[j].startTick))
    && (|ms| > 0 ==> HitsIn(ppq, raw, mods, eot, ms[|ms| - 1], t))
  }

  /** The number of recorded hits, over all measures. */
  function TotalHits(ms: seq<SongMeasure>): nat {
    if ms == [] then 0 else TotalHits(ms[..|ms| - 1]) + |ms[|ms| - 1].tickNotes|
  }

  /** The absolute ticks of a measure's hits. */
  function MeasureHitTicks(m: SongMeasure, step: int): set<int> {
    set k | 0 <= k < |m.tickNotes| :: m.startTick + m.tickNotes[k].tick * step
  }

  /** The absolute ticks of all recorded hits. */
  function HitTicks(ms: seq<SongMeasure>, step: int): set<int> {
    if ms == [] then {} else HitTicks(ms[..|ms| - 1], step) + MeasureHitTicks(ms[|ms| - 1], step)
  }

  /** The steps before `t` and before the end of the track that carry raw notes. */
  function GridHits(raw: map<int, seq<RawMidiNote>>, step: int, eot: int, t: int): set<int>
    requires step > 0
  {
    set u | u in raw && 0 <= u < t && u < eot && OnGrid(u, step)
  }

  ghost predicate ScanInv(ppq: int, sigs: seq<TimeSignatureEvent>, raw: map<int, seq<RawMidiNote>>, mods: seq<ModifierNote>,
                    eot: int, st: ParseState, t: int)
    requires ValidSongPpq(ppq)
  {
    && Opening(st.measures)
    && Linked(ppq, sigs, eot, st.measures)
    && Current(ppq, sigs, st, t)
    && Hits(ppq, raw, mods, eot, st.measures, t)
    && TotalHits(st.measures) == |GridHits(raw, StepOf(ppq), eot, t)|
    && HitTicks(st.measures, StepOf(ppq)) == GridHits(raw, StepOf(ppq), eot, t)
    && st.active == ActiveAfter(mods, StepOf(ppq), t)
  }

  lemma InitInv(ppq: int, sigs: seq<TimeSignatureEvent>, raw: map<int, seq<RawMidiNote>>, mods: seq<ModifierNote>, eot: int)
    requires ValidSongPpq(ppq)
    ensures ScanInv(ppq, sigs, raw, mods, eot, InitState(), 0)
  {
    var ms := InitState().measures;
    assert TotalHits(ms) == 0 by {
      assert ms[..0] == [];
    }
    assert GridHits(raw, StepOf(ppq), eot, 0) == {};
    assert HitTicks(ms, StepOf(ppq)) == {} by {
      assert ms[..0] == [];
    }
  }

  lemma CurrentTimeSigValid(sigs: seq<TimeSignatureEvent>, t: int)
    requires ValidSongSigs(sigs)
    ensures CurrentTimeSig(sigs, t).num > 0 && CurrentTimeSig(sigs, t).den > 0
  {
  }

  lemma TotalHitsAppend(ms: seq<SongMeasure>, m: SongMeasure)
    ensures TotalHits(ms + [m]) == TotalHits(ms) + |m.tickNotes|
  {
    assert (ms + [m])[..|ms|] == ms;
  }

  lemma HitTicksAppend(ms: seq<SongMeasure>, m: SongMeasure, step: int)
    ensures HitTicks(ms + [m], step) == HitTicks(ms, step) + MeasureHitTicks(m, step)
  {
    assert (ms + [m])[..|ms|] == ms;
  }

  lemma HitTicksSetLast(ms: seq<SongMeasure>, m: SongMeasure, step: int)
    requires |ms| > 0
    ensures HitTicks(ms[|ms| - 1 := m], step) == HitTicks(ms[..|ms| - 1], step) + MeasureHitTicks(m, step)
    ensures HitTicks(ms, step) == HitTicks(ms[..|ms| - 1], step) + MeasureHitTicks(ms[|ms| - 1], step)
  {
    assert ms[|ms| - 1 := m][..|ms| - 1] == ms[..|ms| - 1];
  }

  lemma MeasureHitTicksPush(m: SongMeasure, e: TickNote, step: int)
    ensures MeasureHitTicks(m.(tickNotes := m.tickNotes + [e]), step) ==
            MeasureHitTicks(m, step) + {m.startTick + e.tick * step}
  {
    var m' := m.(tickNotes := m.tickNotes + [e]);
    forall x | x in MeasureHitTicks(m', step) ensures x in MeasureHitTicks(m, step) + {m.startTick + e.tick * step} {
      var k :| 0 <= k < |m'.tickNotes| && x == m.startTick + m'.tickNotes[k].tick * step;
      if k < |m.tickNotes| {
        assert m'.tickNotes[k] == m.tickNotes[k];
      }
    }
    forall x | x in MeasureHitTicks(m, step) ensures x in MeasureHitTicks(m', step) {
      var k :| 0 <= k < |m.tickNotes| && x == m.startTick + m.tickNotes[k].tick * step;
      assert m'.tickNotes[k] == m.tickNotes[k];
    }
    assert m'.tickNotes[|m.tickNotes|] == e;
  }

  lemma TotalHitsSetLast(ms: seq<SongMeasure>, m: SongMeasure)
    requires |ms| > 0
    ensures TotalHits(ms[|ms| - 1 := m]) == TotalHits(ms) - |ms[|ms| - 1].tickNotes| + |m.tickNotes|
  {
    assert ms[|ms| - 1 := m][..|ms| - 1] == ms[..|ms| - 1];
  }

  /** One more step adds the step itself, if it carries raw notes before the end. */
  lemma GridHitsNext(raw: map<int, seq<RawMidiNote>>, step: int, eot: int, t: int)
    requires step > 0 && t >= 0 && OnGrid(t, step)
    ensures t !in GridHits(raw, step, eot, t)
    ensures GridHits(raw, step, eot, t + step) ==
            GridHits(raw, step, eot, t) + (if t in raw && t < eot then {t} else {})
  {
    forall u | u in GridHits(raw, step, eot, t + step) && u !in GridHits(raw, step, eot, t)
      ensures u == t
    {
      GridGap(step, t, u);
    }
  }

  lemma HitsInMono(ppq: int, raw: map<int, seq<RawMidiNote>>, mods: seq<ModifierNote>, eot: int,
                   m: SongMeasure, limit: int, limit': int)
    requires ValidSongPpq(ppq) && limit <= limit'
    requires HitsIn(ppq, raw, mods, eot, m, limit)
    ensures HitsIn(ppq, raw, mods, eot, m, limit')
  {
  }

  /** The state after the measure check at tick `t`, before the hit is recorded. */
  ghost predicate Checked(ppq: int, sigs: seq<TimeSignatureEvent>, raw: map<int, seq<RawMidiNote>>, mods: seq<ModifierNote>,
                    eot: int, b: ParseState, t: int)
    requires ValidSongPpq(ppq)
  {
    && Opening(b.measures)
    && Linked(ppq, sigs, eot, b.measures)
    && var last := b.measures[|b.measures| - 1];
    && 0 <= t < eot && OnGrid(t, StepOf(ppq))
    && last.endTick == None
    && last.startTick <= t
    && b.measureTicks == t - last.startTick
    && OnGrid(b.measureTicks, StepOf(ppq))
    && NoBoundaryIn(ppq, sigs, last.startTick, t + StepOf(ppq))
    && Hits(ppq, raw, mods, eot, b.measures, t)
    && TotalHits(b.measures) == |GridHits(raw, StepOf(ppq), eot, t)|
    && HitTicks(b.measures, StepOf(ppq)) == GridHits(raw, StepOf(ppq), eot, t)
    && b.active == ActiveAfter(mods, StepOf(ppq), t)
  }

  /** `m` is `p` with, at most, another end tick and other hits. */
  predicate SameHead(m: SongMeasure, p: SongMeasure) {
    m.(endTick := p.endTick, tickNotes := p.tickNotes) == p
  }

  lemma LinkedSetLast(ppq: int, sigs: seq<TimeSignatureEvent>, eot: int, ms: seq<SongMeasure>, m: SongMeasure)
    requires ValidSongPpq(ppq) && |ms| > 0 && Linked(ppq, sigs, eot, ms) && Opening(ms)
    requires SameHead(m, ms[|ms| - 1])
    ensures Linked(ppq, sigs, eot, ms[|ms| - 1 := m]) && Opening(ms[|ms| - 1 := m])
  {
    var ms' := ms[|ms| - 1 := m];
    forall i, j | 0 <= i && j == i + 1 && j < |ms'| ensures Follows(ppq, sigs, eot, ms'[i], ms'[j]) {
      assert Follows(ppq, sigs, eot, ms[i], ms[j]);
    }
  }

  lemma LinkedAppend(ppq: int, sigs: seq<TimeSignatureEvent>, eot: int, ms: seq<SongMeasure>, m: SongMeasure)
    requires ValidSongPpq(ppq) && |ms| > 0 && Linked(ppq, sigs, eot, ms) && Opening(ms)
    requires Follows(ppq, sigs, eot, ms[|ms| - 1], m)
    ensures Linked(ppq, sigs, eot, ms + [m]) && Opening(ms + [m])
  {
    var ms' := ms + [m];
    forall i, j | 0 <= i && j == i + 1 && j < |ms'| ensures Follows(ppq, sigs, eot, ms'[i], ms'[j]) {
      if j < |ms| {
        assert Follows(ppq, sigs, eot, ms[i], ms[j]);
      }
    }
  }

  lemma HitsSetLast(ppq: int, raw: map<int, seq<RawMidiNote>>, mods: seq<ModifierNote>, eot: int,
                    ms: seq<SongMeasure>, m: SongMeasure, t: int, t': int)
    requires ValidSongPpq(ppq) && |ms| > 0 && Hits(ppq, raw, mods, eot, ms, t)
    requires m.startTick == ms[|ms| - 1].startTick && HitsIn(ppq, raw, mods, eot, m, t')
    ensures Hits(ppq, raw, mods, eot, ms[|ms| - 1 := m], t')
  {
    var ms' := ms[|ms| - 1 := m];
    forall i, j | 0 <= i && j == i + 1 && j < |ms'| ensures HitsIn(ppq, raw, mods, eot, ms'[i], ms'[j].startTick) {
      assert HitsIn(ppq, raw, mods, eot, ms[i], ms[j].startTick);
    }
  }

  lemma HitsAppend(ppq: int, raw: map<int, seq<RawMidiNote>>, mods: seq<ModifierNote>, eot: int,
                   ms: seq<SongMeasure>, m: SongMeasure, t: int)
    requires ValidSongPpq(ppq) && Hits(ppq, raw, mods, eot, ms, t)
    requires m.startTick == t && m.tickNotes == []
    ensures Hits(ppq, raw, mods, eot, ms + [m], t)
  {
    var ms' := ms + [m];
    forall i, j | 0 <= i && j == i + 1 && j < |ms'| ensures HitsIn(ppq, raw, mods, eot, ms'[i], ms'[j].startTick) {
      if j < |ms| {
        assert HitsIn(ppq, raw, mods, eot, ms[i], ms[j].startTick);
      }
    }
  }

  /** The measure opened at `t` follows the one it closes. */
  lemma NewFollows(ppq: int, sigs: seq<TimeSignatureEvent>, eot: int, last: SongMeasure, t: int, measureTicks: int)
    requires ValidSongPpq(ppq) && ValidSongSigs(sigs) && t < eot
    requires measureTicks == t - last.startTick
    requires MeasureFull(ppq, CurrentTimeSig(sigs, t), measureTicks)
    requires NoBoundaryIn(ppq, sigs, last.startTick, t)
    ensures Follows(ppq, sigs, eot, last.(endTick := Some(t)), NewMeasure(ppq, CurrentTimeSig(sigs, t), last, t, measureTicks))
  {
    var ts := CurrentTimeSig(sigs, t);
    CurrentTimeSigValid(sigs, t);
    MulMonotone(4 * ppq, ts.num);
    assert measureTicks != 0;
  }

  /** A step that fails the measure check extends the stretch without a boundary. */
  lemma NoBoundaryExtend(ppq: int, sigs: seq<TimeSignatureEvent>, lo: int, t: int)
    requires ValidSongPpq(ppq) && OnGrid(t, StepOf(ppq))
    requires NoBoundaryIn(ppq, sigs, lo, t)
    requires !MeasureFull(ppq, CurrentTimeSig(sigs, t), t - lo)
    ensures NoBoundaryIn(ppq, sigs, lo, t + StepOf(ppq))
  {
    var step := StepOf(ppq);
    forall u | lo < u < t + step && OnGrid(u, step)
      ensures !MeasureFull(ppq, CurrentTimeSig(sigs, u), u - lo)
    {
      if u >= t {
        GridGap(step, t, u);
      }
    }
  }

  /** The measures once the measure check at `t` closes the last one. */
  function Closed(ppq: int, sigs: seq<TimeSignatureEvent>, ms: seq<SongMeasure>, t: int, measureTicks: int): seq<SongMeasure>
    requires ValidSongPpq(ppq) && |ms| > 0
  {
    var last := ms[|ms| - 1];
    ms[|ms| - 1 := last.(endTick := Some(t))] + [NewMeasure(ppq, CurrentTimeSig(sigs, t), last, t, measureTicks)]
  }

  lemma ClosedLinks(ppq: int, sigs: seq<TimeSignatureEvent>, eot: int, ms: seq<SongMeasure>, t: int, measureTicks: int)
    requires ValidSongPpq(ppq) && ValidSongSigs(sigs) && t < eot
    requires |ms| > 0 && Linked(ppq, sigs, eot, ms) && Opening(ms)
    requires measureTicks == t - ms[|ms| - 1].startTick
    requires MeasureFull(ppq, CurrentTimeSig(sigs, t), measureTicks)
    requires NoBoundaryIn(ppq, sigs, ms[|ms| - 1].startTick, t)
    ensures Linked(ppq, sigs, eot, Closed(ppq, sigs, ms, t, measureTicks))
    ensures Opening(Closed(ppq, sigs, ms, t, measureTicks))
  {
    var last := ms[|ms| - 1];
    var closedLast := last.(endTick := Some(t));
    NewFollows(ppq, sigs, eot, last, t, measureTicks);
    LinkedSetLast(ppq, sigs, eot, ms, closedLast);
    LinkedAppend(ppq, sigs, eot, ms[|ms| - 1 := closedLast], NewMeasure(ppq, CurrentTimeSig(sigs, t), last, t, measureTicks));
  }

  lemma ClosedHits(ppq: int, sigs: seq<TimeSignatureEvent>, raw: map<int, seq<RawMidiNote>>, mods: seq<ModifierNote>,
                   eot: int, ms: seq<SongMeasure>, t: int, measureTicks: int)
    requires ValidSongPpq(ppq) && |ms| > 0 && Hits(ppq, raw, mods, eot, ms, t)
    ensures Hits(ppq, raw, mods, eot, Closed(ppq, sigs, ms, t, measureTicks), t)
    ensures TotalHits(Closed(ppq, sigs, ms, t, measureTicks)) == TotalHits(ms)
    ensures HitTicks(Closed(ppq, sigs, ms, t, measureTicks), StepOf(ppq)) == HitTicks(ms, StepOf(ppq))
  {
    var last := ms[|ms| - 1];
    var closedLast := last.(endTick := Some(t));
    var closed := ms[|ms| - 1 := closedLast];
    var next := NewMeasure(ppq, CurrentTimeSig(sigs, t), last, t, measureTicks);
    HitsSetLast(ppq, raw, mods, eot, ms, closedLast, t, t);
    HitsAppend(ppq, raw, mods, eot, closed, next, t);
    TotalHitsAppend(closed, next);
    TotalHitsSetLast(ms, closedLast);
    HitTicksAppend(closed, next, StepOf(ppq));
    HitTicksSetLast(ms, closedLast, StepOf(ppq));
    assert MeasureHitTicks(next, StepOf(ppq)) == {};
  }

  lemma BoundaryFires(ppq: int, sigs: seq<TimeSignatureEvent>, raw: map<int, seq<RawMidiNote>>,
                      mods: seq<ModifierNote>, eot: int, st: ParseState, t: int)
    requires ValidSongPpq(ppq) && ValidSongSigs(sigs) && t < eot
    requires ScanInv(ppq, sigs, raw, mods, eot, st, t)
    requires MeasureFull(ppq, CurrentTimeSig(sigs, t), st.measureTicks)
    ensures Checked(ppq, sigs, raw, mods, eot, Boundary(ppq, sigs, st, t), t)
  {
    var step := StepOf(ppq);
    var ms := Closed(ppq, sigs, st.measures, t, st.measureTicks);
    assert Boundary(ppq, sigs, st, t) == ParseState(ms, 0, st.active);
    ClosedLinks(ppq, sigs, eot, st.measures, t, st.measureTicks);
    ClosedHits(ppq, sigs, raw, mods, eot, st.measures, t, st.measureTicks);
    forall u | t < u < t + step ensures !OnGrid(u, step) {
      GridBetween(step, t, u);
    }
  }

  lemma BoundaryHolds(ppq: int, sigs: seq<TimeSignatureEvent>, raw: map<int, seq<RawMidiNote>>,
                      mods: seq<ModifierNote>, eot: int, st: ParseState, t: int)
    requires ValidSongPpq(ppq) && t < eot
    requires ScanInv(ppq, sigs, raw, mods, eot, st, t)
    requires !MeasureFull(ppq, CurrentTimeSig(sigs, t), st.measureTicks)
    ensures Checked(ppq, sigs, raw, mods, eot, Boundary(ppq, sigs, st, t), t)
  {
    NoBoundaryExtend(ppq, sigs, st.measures[|st.measures| - 1].startTick, t);
    assert Boundary(ppq, sigs, st, t) == st;
  }

  /** The hit recorded at step `t`, `measureTicks` into a measure hit so far
      by `m`'s hits, keeps the measure's hits sound and in order. */
  lemma NewHit(ppq: int, raw: map<int, seq<RawMidiNote>>, mods: seq<ModifierNote>, eot: int,
               m: SongMeasure, t: int, measureTicks: int, active: seq<ModifierNote>)
    requires ValidSongPpq(ppq) && HitsIn(ppq, raw, mods, eot, m, t)
    requires 0 <= t < eot && OnGrid(t, StepOf(ppq)) && t in raw
    requires measureTicks == t - m.startTick && measureTicks >= 0 && OnGrid(measureTicks, StepOf(ppq))
    requires active == ActiveAfter(mods, StepOf(ppq), t + StepOf(ppq))
    ensures HitsIn(ppq, raw, mods, eot,
                   m.(tickNotes := m.tickNotes + [TickNote(SongKeys(raw[t], active), "32", measureTicks / StepOf(ppq))]),
                   t + StepOf(ppq))
  {
    var step := StepOf(ppq);
    var e := TickNote(SongKeys(raw[t], active), "32", measureTicks / step);
    GridDiff(step, measureTicks, 0);
    assert m.startTick + e.tick * step == t;
    assert HitAt(ppq, raw, mods, eot, m.startTick, t + step, e);
    var tn := m.tickNotes + [e];
    forall k | 0 <= k < |tn| ensures HitAt(ppq, raw, mods, eot, m.startTick, t + step, tn[k]) {
      if k < |m.tickNotes| {
        assert HitAt(ppq, raw, mods, eot, m.startTick, t, m.tickNotes[k]);
      }
    }
    forall k, l | 0 <= k && l == k + 1 && l < |tn| ensures tn[k].tick < tn[l].tick {
      if l == |m.tickNotes| {
        assert HitAt(ppq, raw, mods, eot, m.startTick, t, tn[k]);
        MulCancelLess(tn[k].tick, e.tick, step);
      }
    }
  }

  lemma AdvanceLinks(ppq: int, sigs: seq<TimeSignatureEvent>, raw: map<int, seq<RawMidiNote>>,
                     mods: seq<ModifierNote>, eot: int, b: ParseState, t: int)
    requires ValidSongPpq(ppq) && |b.measures| > 0 && Opening(b.measures) && Linked(ppq, sigs, eot, b.measures)
    ensures Opening(Advance(ppq, raw, mods, b, t).measures) && Linked(ppq, sigs, eot, Advance(ppq, raw, mods, b, t).measures)
  {
    var ms := b.measures;
    var cur := ms[|ms| - 1];
    var act := UpdateActive(b.active, mods, t);
    if t in raw {
      var e := TickNote(SongKeys(raw[t], act), "32", b.measureTicks / StepOf(ppq));
      var cur' := cur.(tickNotes := cur.tickNotes + [e]);
      assert Advance(ppq, raw, mods, b, t).measures == ms[|ms| - 1 := cur'];
      LinkedSetLast(ppq, sigs, eot, ms, cur');
    }
  }

  lemma AdvanceHits(ppq: int, raw: map<int, seq<RawMidiNote>>, mods: seq<ModifierNote>, eot: int, b: ParseState, t: int)
    requires ValidSongPpq(ppq) && |b.measures| > 0 && Hits(ppq, raw, mods, eot, b.measures, t)
    requires 0 <= t < eot && OnGrid(t, StepOf(ppq))
    requires b.measureTicks == t - b.measures[|b.measures| - 1].startTick && b.measureTicks >= 0
    requires OnGrid(b.measureTicks, StepOf(ppq))
    requires b.active == ActiveAfter(mods, StepOf(ppq), t)
    ensures Hits(ppq, raw, mods, eot, Advance(ppq, raw, mods, b, t).measures, t + StepOf(ppq))
  {
    if t in raw {
      AdvanceHit(ppq, raw, mods, eot, b, t);
    } else {
      AdvanceNoHit(ppq, raw, mods, eot, b, t);
    }
  }

  lemma AdvanceCounts(ppq: int, raw: map<int, seq<RawMidiNote>>, mods: seq<ModifierNote>, eot: int, b: ParseState, t: int)
    requires ValidSongPpq(ppq) && |b.measures| > 0 && 0 <= t < eot
    requires b.measureTicks == t - b.measures[|b.measures| - 1].startTick
    requires OnGrid(t, StepOf(ppq)) && OnGrid(b.measureTicks, StepOf(ppq))
    requires TotalHits(b.measures) == |GridHits(raw, StepOf(ppq), eot, t)|
    requires HitTicks(b.measures, StepOf(ppq)) == GridHits(raw, StepOf(ppq), eot, t)
    ensures TotalHits(Advance(ppq, raw, mods, b, t).measures) == |GridHits(raw, StepOf(ppq), eot, t + StepOf(ppq))|
    ensures HitTicks(Advance(ppq, raw, mods, b, t).measures, StepOf(ppq)) == GridHits(raw, StepOf(ppq), eot, t + StepOf(ppq))
  {
    GridHitsNext(raw, StepOf(ppq), eot, t);
    if t in raw {
      AdvanceHitCount(ppq, raw, mods, b, t);
      CountStep(GridHits(raw, StepOf(ppq), eot, t), t);
    } else {
      AdvanceSame(ppq, raw, mods, b, t);
    }
  }

  lemma CountStep(g: set<int>, t: int)
    requires t !in g
    ensures |g + {t}| == |g| + 1
  {
  }

  lemma AdvanceSame(ppq: int, raw: map<int, seq<RawMidiNote>>, mods: seq<ModifierNote>, b: ParseState, t: int)
    requires ValidSongPpq(ppq) && |b.measures| > 0 && t !in raw
    ensures Advance(ppq, raw, mods, b, t).measures == b.measures
  {
    var ms := b.measures;
    assert ms[|ms| - 1 := ms[|ms| - 1]] == ms;
  }

  lemma AdvanceNoHit(ppq: int, raw: map<int, seq<RawMidiNote>>, mods: seq<ModifierNote>, eot: int, b: ParseState, t: int)
    requires ValidSongPpq(ppq) && |b.measures| > 0 && Hits(ppq, raw, mods, eot, b.measures, t)
    requires t !in raw
    ensures Advance(ppq, raw, mods, b, t).measures == b.measures
    ensures Hits(ppq, raw, mods, eot, b.measures, t + StepOf(ppq))
  {
    var ms := b.measures;
    var cur := ms[|ms| - 1];
    AdvanceSame(ppq, raw, mods, b, t);
    assert ms[|ms| - 1 := cur] == ms;
    HitsInMono(ppq, raw, mods, eot, cur, t, t + StepOf(ppq));
    HitsSetLast(ppq, raw, mods, eot, ms, cur, t, t + StepOf(ppq));
  }

  lemma AdvanceHit(ppq: int, raw: map<int, seq<RawMidiNote>>, mods: seq<ModifierNote>, eot: int, b: ParseState, t: int)
    requires ValidSongPpq(ppq) && |b.measures| > 0 && Hits(ppq, raw, mods, eot, b.measures, t)
    requires 0 <= t < eot && OnGrid(t, StepOf(ppq)) && t in raw
    requires b.measureTicks == t - b.measures[|b.measures| - 1].startTick && b.measureTicks >= 0
    requires OnGrid(b.measureTicks, StepOf(ppq))
    requires b.active == ActiveAfter(mods, StepOf(ppq), t)
    ensures Hits(ppq, raw, mods, eot, Advance(ppq, raw, mods, b, t).measures, t + StepOf(ppq))
  {
    var step := StepOf(ppq);
    var ms := b.measures;
    var cur := ms[|ms| - 1];
    var act := UpdateActive(b.active, mods, t);
    assert ActiveAfter(mods, step, t + step) == act;
    var e := TickNote(SongKeys(raw[t], act), "32", b.measureTicks / step);
    var cur' := cur.(tickNotes := cur.tickNotes + [e]);
    assert Advance(ppq, raw, mods, b, t).measures == ms[|ms| - 1 := cur'];
    NewHit(ppq, raw, mods, eot, cur, t, b.measureTicks, act);
    HitsSetLast(ppq, raw, mods, eot, ms, cur', t, t + step);
  }

  lemma AdvanceHitCount(ppq: int, raw: map<int, seq<RawMidiNote>>, mods: seq<ModifierNote>, b: ParseState, t: int)
    requires ValidSongPpq(ppq) && |b.measures| > 0 && t in raw
    requires b.measureTicks == t - b.measures[|b.measures| - 1].startTick
    requires OnGrid(b.measureTicks, StepOf(ppq))
    ensures TotalHits(Advance(ppq, raw, mods, b, t).measures) == TotalHits(b.measures) + 1
    ensures HitTicks(Advance(ppq, raw, mods, b, t).measures, StepOf(ppq)) == HitTicks(b.measures, StepOf(ppq)) + {t}
  {
    var step := StepOf(ppq);
    var ms := b.measures;
    var cur := ms[|ms| - 1];
    var act := UpdateActive(b.active, mods, t);
    var e := TickNote(SongKeys(raw[t], act), "32", b.measureTicks / step);
    var cur' := cur.(tickNotes := cur.tickNotes + [e]);
    assert Advance(ppq, raw, mods, b, t).measures == ms[|ms| - 1 := cur'];
    TotalHitsSetLast(ms, cur');
    HitTicksSetLast(ms, cur', step);
    MeasureHitTicksPush(cur, e, step);
    GridDiff(step, b.measureTicks, 0);
    assert cur.startTick + e.tick * step == t;
  }

  lemma AdvanceCurrent(ppq: int, sigs: seq<TimeSignatureEvent>, raw: map<int, seq<RawMidiNote>>,
                       mods: seq<ModifierNote>, b: ParseState, t: int)
    requires ValidSongPpq(ppq) && |b.measures| > 0
    requires t >= 0 && OnGrid(t, StepOf(ppq))
    requires b.measures[|b.measures| - 1].endTick == None && b.measures[|b.measures| - 1].startTick <= t
    requires b.measureTicks == t - b.measures[|b.measures| - 1].startTick && OnGrid(b.measureTicks, StepOf(ppq))
    requires NoBoundaryIn(ppq, sigs, b.measures[|b.measures| - 1].startTick, t + StepOf(ppq))
    requires b.active == ActiveAfter(mods, StepOf(ppq), t)
    ensures Current(ppq, sigs, Advance(ppq, raw, mods, b, t), t + StepOf(ppq))
    ensures Advance(ppq, raw, mods, b, t).active == ActiveAfter(mods, StepOf(ppq), t + StepOf(ppq))
  {
    var step := StepOf(ppq);
    assert ActiveAfter(mods, step, t + step) == UpdateActive(b.active, mods, t);
    GridNext(step, t);
    GridNext(step, b.measureTicks);
  }

  lemma AdvanceKeeps(ppq: int, sigs: seq<TimeSignatureEvent>, raw: map<int, seq<RawMidiNote>>,
                     mods: seq<ModifierNote>, eot: int, b: ParseState, t: int)
    requires ValidSongPpq(ppq) && Checked(ppq, sigs, raw, mods, eot, b, t)
    ensures ScanInv(ppq, sigs, raw, mods, eot, Advance(ppq, raw, mods, b, t), t + StepOf(ppq))
  {
    AdvanceLinks(ppq, sigs, raw, mods, eot, b, t);
    AdvanceHits(ppq, raw, mods, eot, b, t);
    AdvanceCounts(ppq, raw, mods, eot, b, t);
    AdvanceCurrent(ppq, sigs, raw, mods, b, t);
  }

  /** One step of the scan keeps the invariant. */
  lemma StepKeeps(ppq: int, sigs: seq<TimeSignatureEvent>, raw: map<int, seq<RawMidiNote>>,
                  mods: seq<ModifierNote>, eot: int, st: ParseState, t: int)
    requires ValidSongPpq(ppq) && ValidSongSigs(sigs) && t < eot
    requires ScanInv(ppq, sigs, raw, mods, eot, st, t)
    ensures ScanInv(ppq, sigs, raw, mods, eot, Step(ppq, sigs, raw, mods, st, t), t + StepOf(ppq))
  {
    if MeasureFull(ppq, CurrentTimeSig(sigs, t), st.measureTicks) {
      BoundaryFires(ppq, sigs, raw, mods, eot, st, t);
    } else {
      BoundaryHolds(ppq, sigs, raw, mods, eot, st, t);
    }
    AdvanceKeeps(ppq, sigs, raw, mods, eot, Boundary(ppq, sigs, st, t), t);
  }

  /** Where the scan stops: the first step at or after the end of the track. */
  function ScanEnd(ppq: int, eot: int, t: int): (r: int)
    requires ValidSongPpq(ppq)
    ensures r >= t && r >= eot
    decreases eot - t
  {
    if t >= eot then t else ScanEnd(ppq, eot, t + StepOf(ppq))
  }

  lemma {:induction false} ScanKeeps(ppq: int, sigs: seq<TimeSignatureEvent>, raw: map<int, seq<RawMidiNote>>,
                                     mods: seq<ModifierNote>, eot: int, st: ParseState, t: int)
    requires ValidSongPpq(ppq) && ValidSongSigs(sigs)
    requires ScanInv(ppq, sigs, raw, mods, eot, st, t)
    ensures ScanInv(ppq, sigs, raw, mods, eot, ScanFrom(ppq, sigs, raw, mods, eot, st, t), ScanEnd(ppq, eot, t))
    decreases eot - t
  {
    if t < eot {
      StepKeeps(ppq, sigs, raw, mods, eot, st, t);
      ScanKeeps(ppq, sigs, raw, mods, eot, Step(ppq, sigs, raw, mods, st, t), t + StepOf(ppq));
    }
  }

  /** The invariant at the end of the whole scan. */
  lemma ParsedInv(ppq: int, sigs: seq<TimeSignatureEvent>, raw: map<int, seq<RawMidiNote>>,
                  mods: seq<ModifierNote>, eot: int)
    requires ValidSongPpq(ppq) && ValidSongSigs(sigs)
    ensures ScanInv(ppq, sigs, raw, mods, eot, ScanFrom(ppq, sigs, raw, mods, eot, InitState(), 0), ScanEnd(ppq, eot, 0))
  {
    InitInv(ppq, sigs, raw, mods, eot);
    ScanKeeps(ppq, sigs, raw, mods, eot, InitState(), 0);
  }

  /** The measures of a parsed track: the 4/4 opening measure with clef and
      signature mark at tick 0; each later measure starts at the first step
      after its predecessor's start whose signature the elapsed ticks fill,
      before the end of the track; and the last measure stays open, with no
      boundary between its start and the end of the track. */
  lemma SongMeasures(ppq: int, sigs: seq<TimeSignatureEvent>, raw: map<int, seq<RawMidiNote>>,
                     mods: seq<ModifierNote>, eot: int)
    requires ValidSongPpq(ppq) && ValidSongSigs(sigs)
    ensures var ms := Parsed(ppq, sigs, raw, mods, eot);
      && Opening(ms)
      && Linked(ppq, sigs, eot, ms)
      && ms[|ms| - 1].endTick == None
      && NoBoundaryIn(ppq, sigs, ms[|ms| - 1].startTick, eot)
  {
    ParsedInv(ppq, sigs, raw, mods, eot);
  }

  /** A hit bounded by the end of the track is bounded by any later limit,
      and by the end of the track itself. */
  lemma HitsInEnd(ppq: int, raw: map<int, seq<RawMidiNote>>, mods: seq<ModifierNote>, eot: int,
                  m: SongMeasure, limit: int)
    requires ValidSongPpq(ppq) && HitsIn(ppq, raw, mods, eot, m, limit)
    ensures HitsIn(ppq, raw, mods, eot, m, eot)
  {
  }

  /** Every recorded hit of a parsed track lies on a step of its own measure
      that carries raw notes, before the end of the track, and holds the keys
      of those notes under the modifiers active there; within a measure the
      hits are in strictly increasing tick order. */
  lemma SongHits(ppq: int, sigs: seq<TimeSignatureEvent>, raw: map<int, seq<RawMidiNote>>,
                 mods: seq<ModifierNote>, eot: int)
    requires ValidSongPpq(ppq) && ValidSongSigs(sigs)
    ensures Hits(ppq, raw, mods, eot, Parsed(ppq, sigs, raw, mods, eot), eot)
  {
    ParsedInv(ppq, sigs, raw, mods, eot);
    var ms := Parsed(ppq, sigs, raw, mods, eot);
    HitsInEnd(ppq, raw, mods, eot, ms[|ms| - 1], ScanEnd(ppq, eot, 0));
  }

  /** Every step before the end of the track that carries raw notes is
      recorded, exactly once. */
  lemma SongComplete(ppq: int, sigs: seq<TimeSignatureEvent>, raw: map<int, seq<RawMidiNote>>,
                     mods: seq<ModifierNote>, eot: int)
    requires ValidSongPpq(ppq) && ValidSongSigs(sigs)
    ensures var ms := Parsed(ppq, sigs, raw, mods, eot);
      && HitTicks(ms, StepOf(ppq)) == (set u | u in raw && 0 <= u < eot && OnGrid(u, StepOf(ppq)))
      && TotalHits(ms) == |HitTicks(ms, StepOf(ppq))|
  {
    ParsedInv(ppq, sigs, raw, mods, eot);
    var e := ScanEnd(ppq, eot, 0);
    assert GridHits(raw, StepOf(ppq), eot, e) == (set u | u in raw && 0 <= u < eot && OnGrid(u, StepOf(ppq)));
  }

  /** A modifier note in force for a hit at step `u`: it started at a step no
      later than `u`, and did not end at a step no later than `u`. */
  predicate Covers(m: ModifierNote, step: int, u: int)
    requires step > 0
  {
    OnGrid(m.note.ticks, step) && m.note.ticks <= u && !(OnGrid(EndOf(m), step) && EndOf(m) <= u)
  }

  /** The key a tom modifier gives to the pitch it retargets. */
  function TomKey(midi: int): string {
    if midi == 98 then "e/5" else if midi == 99 then "d/5" else "a/4"
  }

  /** The modifier notes of a track: each carries the modifier its pitch selects. */
  predicate TomModified(mods: seq<ModifierNote>) {
    forall i :: 0 <= i < |mods| ==> mods[i].note.midi in TomModifiers && mods[i].modifier == TomModifiers[mods[i].note.midi]
  }

  lemma {:induction false} KeyFromSome(note: RawMidiNote, ms: seq<ModifierNote>, i: int)
    requires 0 <= i < |ms| && ms[i].modifier.forNote == note.note.midi
    ensures exists j :: 0 <= j < |ms| && ms[j].modifier.forNote == note.note.midi && GetNoteKey(note, ms) == ms[j].modifier.key
    decreases |ms|
  {
    if ms[0].modifier.forNote != note.note.midi {
      KeyFromSome(note, ms[1..], i - 1);
      var j :| 0 <= j < |ms[1..]| && ms[1..][j].modifier.forNote == note.note.midi && GetNoteKey(note, ms[1..]) == ms[1..][j].modifier.key;
      assert ms[j + 1] == ms[1..][j];
    }
  }

  lemma ActiveCovers(mods: seq<ModifierNote>, step: int, u: int, m: ModifierNote)
    requires step > 0 && u >= 0 && OnGrid(u, step)
    ensures m in ActiveAfter(mods, step, u + step) <==> m in mods && Covers(m, step, u)
  {
    GridNext(step, u);
    ActiveAfterExact(mods, step, u + step, m);
    if OnGrid(m.note.ticks, step) && u < m.note.ticks < u + step {
      GridGap(step, u, m.note.ticks);
    }
    if OnGrid(EndOf(m), step) && u < EndOf(m) < u + step {
      GridGap(step, u, EndOf(m));
    }
  }

  lemma TomKeyOf(m: ModifierNote)
    requires m.note.midi in TomModifiers && m.modifier == TomModifiers[m.note.midi]
    ensures m.modifier.key == TomKey(m.modifier.forNote)
  {
  }

  /** Some modifier note for pitch `midi` is in force at step `u`. */
  ghost predicate Retargeted(mods: seq<ModifierNote>, step: int, u: int, midi: int)
    requires step > 0
  {
    exists m :: m in mods && m.modifier.forNote == midi && Covers(m, step, u)
  }

  lemma RetargetedKey(mods: seq<ModifierNote>, step: int, u: int, n: RawMidiNote)
    requires step > 0 && u >= 0 && OnGrid(u, step) && TomModified(mods)
    requires Retargeted(mods, step, u, n.note.midi)
    ensures GetNoteKey(n, ActiveAfter(mods, step, u + step)) == TomKey(n.note.midi)
  {
    var act := ActiveAfter(mods, step, u + step);
    var m :| m in mods && m.modifier.forNote == n.note.midi && Covers(m, step, u);
    ActiveCovers(mods, step, u, m);
    var i :| 0 <= i < |act| && act[i] == m;
    KeyFromSome(n, act, i);
    var j :| 0 <= j < |act| && act[j].modifier.forNote == n.note.midi && GetNoteKey(n, act) == act[j].modifier.key;
    ActiveCovers(mods, step, u, act[j]);
    var k :| 0 <= k < |mods| && mods[k] == act[j];
    TomKeyOf(mods[k]);
  }

  lemma PlainKey(mods: seq<ModifierNote>, step: int, u: int, n: RawMidiNote)
    requires step > 0 && u >= 0 && OnGrid(u, step)
    requires !Retargeted(mods, step, u, n.note.midi)
    ensures GetNoteKey(n, ActiveAfter(mods, step, u + step)) == n.key
  {
    var act := ActiveAfter(mods, step, u + step);
    forall i | 0 <= i < |act| ensures act[i].modifier.forNote != n.note.midi {
      ActiveCovers(mods, step, u, act[i]);
    }
  }

  /** The key recorded for a raw note at step `u`: the tom key of its pitch
      when a modifier note for that pitch is in force there, else the note's
      mapped key. */
  lemma HitKey(mods: seq<ModifierNote>, step: int, u: int, n: RawMidiNote)
    requires step > 0 && u >= 0 && OnGrid(u, step) && TomModified(mods)
    ensures GetNoteKey(n, ActiveAfter(mods, step, u + step)) ==
            if Retargeted(mods, step, u, n.note.midi) then TomKey(n.note.midi) else n.key
  {
    if Retargeted(mods, step, u, n.note.midi) {
      RetargetedKey(mods, step, u, n);
    } else {
      PlainKey(mods, step, u, n);
    }
  }

  lemma TrackModifiers(notes: seq<NoteJson>, d: Difficulty)
    ensures TomModified(ModifiersIn(notes, d))
  {
    ModifiersInSound(notes, d);
    var mods := ModifiersIn(notes, d);
    forall i | 0 <= i < |mods|
      ensures mods[i].note.midi in TomModifiers && mods[i].modifier == TomModifiers[mods[i].note.midi]
    {
      assert mods[i] in mods;
    }
  }

  /** A hit of measure `i` of a parsed track, at whatever limit bounds it. */
  lemma HitOf(ppq: int, sigs: seq<TimeSignatureEvent>, raw: map<int, seq<RawMidiNote>>,
              mods: seq<ModifierNote>, eot: int, i: int, k: int)
    requires ValidSongPpq(ppq) && ValidSongSigs(sigs)
    requires var ms := Parsed(ppq, sigs, raw, mods, eot); 0 <= i < |ms| && 0 <= k < |ms[i].tickNotes|
    ensures var ms := Parsed(ppq, sigs, raw, mods, eot);
      HitAt(ppq, raw, mods, eot, ms[i].startTick, eot, ms[i].tickNotes[k])
  {
    SongHits(ppq, sigs, raw, mods, eot);
    var ms := Parsed(ppq, sigs, raw, mods, eot);
    if i + 1 < |ms| {
      assert HitsIn(ppq, raw, mods, eot, ms[i], ms[i + 1].startTick);
    }
  }

  /** The keys of one recorded hit, raw note by raw note. */
  lemma HitKeys(ppq: int, raw: map<int, seq<RawMidiNote>>, mods: seq<ModifierNote>, eot: int,
                start: int, limit: int, e: TickNote, x: int)
    requires ValidSongPpq(ppq) && TomModified(mods) && HitAt(ppq, raw, mods, eot, start, limit, e)
    requires 0 <= x < |e.notes|
    ensures var a := start + e.tick * StepOf(ppq);
      && a in raw && |e.notes| == |raw[a]|
      && e.notes[x].key == if Retargeted(mods, StepOf(ppq), a, raw[a][x].note.midi)
                           then TomKey(raw[a][x].note.midi) else raw[a][x].key
  {
    var step := StepOf(ppq);
    var a := start + e.tick * step;
    var act := ActiveAfter(mods, step, a + step);
    assert e.notes == SongKeys(raw[a], act);
    assert e.notes[x] == SongNote(GetNoteKey(raw[a][x], act));
    HitKey(mods, step, a, raw[a][x]);
  }

  /** The keys of a song built from a track: each hit at tick `a` holds, per
      raw note starting there, the tom key of the note's pitch when a
      modifier note for that pitch is in force at `a`, else the expert key
      of its pitch. */
  lemma SongKeysFromTrack(notes: seq<NoteJson>, ppq: int, sigs: seq<TimeSignatureEvent>, eot: int, i: int, k: int, x: int)
    requires ValidSongPpq(ppq) && ValidSongSigs(sigs)
    requires var ms := Parsed(ppq, sigs, RawNotes(notes, Expert), ModifiersIn(notes, Expert), eot);
      0 <= i < |ms| && 0 <= k < |ms[i].tickNotes| && 0 <= x < |ms[i].tickNotes[k].notes|
    ensures var raw := RawNotes(notes, Expert);
      var mods := ModifiersIn(notes, Expert);
      var ms := Parsed(ppq, sigs, raw, mods, eot);
      var e := ms[i].tickNotes[k];
      var a := ms[i].startTick + e.tick * StepOf(ppq);
      && a in raw && |e.notes| == |raw[a]|
      && e.notes[x].key == if Retargeted(mods, StepOf(ppq), a, raw[a][x].note.midi)
                           then TomKey(raw[a][x].note.midi) else raw[a][x].key
  {
    var raw := RawNotes(notes, Expert);
    var mods := ModifiersIn(notes, Expert);
    var ms := Parsed(ppq, sigs, raw, mods, eot);
    HitOf(ppq, sigs, raw, mods, eot, i, k);
    TrackModifiers(notes, Expert);
    HitKeys(ppq, raw, mods, eot, ms[i].startTick, eot, ms[i].tickNotes[k], x);
  }

  /** After `addWholeRests` every measure holds at least one event: a measure
      with no hits gets exactly one whole rest, every other measure and every
      other field is left as it was. */
  lemma WholeRestsFill(ms: seq<SongMeasure>)
    ensures var r := WithWholeRests(ms);
      && |r| == |ms|
      && (forall i :: 0 <= i < |r| ==> |r[i].tickNotes| >= 1)
      && (forall i :: 0 <= i < |r| ==> r[i] == ms[i].(tickNotes := r[i].tickNotes))
      && (forall i :: 0 <= i < |r| && ms[i].tickNotes != [] ==> r[i] == ms[i])
      && (forall i :: 0 <= i < |r| && ms[i].tickNotes == [] ==> r[i].tickNotes == [WholeRest()])
  {
  }

  /** Adding whole rests a second time changes nothing. */
  lemma WholeRestsIdempotent(ms: seq<SongMeasure>)
    ensures WithWholeRests(WithWholeRests(ms)) == WithWholeRests(ms)
  {
  }
}
