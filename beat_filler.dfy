/** The tick scan: every tick of a beat is visited in turn; a tick that
    starts raw notes becomes a hit event, and the beat's first tick becomes a
    rest when nothing starts there. */
module BeatFiller {
  import opened Wrappers
  import opened MidiInput
  import opened ParserTypes
  import opened DrumMapping

  /** A modifier note covers tick `t` from its start to its end, both included. */
  predicate IsActive(m: ModifierNote, t: int) {
    m.note.ticks <= t <= m.note.ticks + m.note.durationTicks
  }

  /** The modifier notes covering tick `t`, in track order. */
  function Active(mods: seq<ModifierNote>, t: int): seq<ModifierNote>
  {
    if mods == [] then []
    else (if IsActive(mods[0], t) then [mods[0]] else []) + Active(mods[1..], t)
  }

  /** A modifier note is active at `t` exactly when it covers `t`. */
  lemma {:induction false} ActiveExact(mods: seq<ModifierNote>, t: int, m: ModifierNote)
    ensures m in Active(mods, t) <==> m in mods && IsActive(m, t)
    decreases |mods|
  {
    if mods != [] {
      ActiveExact(mods[1..], t, m);
      assert mods == [mods[0]] + mods[1..];
    }
  }

  /** With no covering modifier targeting its pitch, a raw note keeps its mapped key. */
  lemma KeyUnmodified(n: RawMidiNote, mods: seq<ModifierNote>, t: int)
    requires forall i :: 0 <= i < |mods| && IsActive(mods[i], t) ==> mods[i].modifier.forNote != n.note.midi
    ensures GetNoteKey(n, Active(mods, t)) == n.key
  {
    var a := Active(mods, t);
    forall i | 0 <= i < |a| ensures a[i].modifier.forNote != n.note.midi {
      ActiveExact(mods, t, a[i]);
    }
  }

  /** A raw note takes the key of the first covering modifier, in track
      order, that targets its pitch. */
  lemma {:induction false} KeyModified(n: RawMidiNote, mods: seq<ModifierNote>, t: int, i: nat)
    requires i < |mods| && IsActive(mods[i], t) && mods[i].modifier.forNote == n.note.midi
    requires forall j :: 0 <= j < i && IsActive(mods[j], t) ==> mods[j].modifier.forNote != n.note.midi
    ensures GetNoteKey(n, Active(mods, t)) == mods[i].modifier.key
    decreases i
  {
    var rest := Active(mods[1..], t);
    if i == 0 {
      assert Active(mods, t) == [mods[0]] + rest;
    } else {
      assert forall j :: 1 <= j < |mods| ==> mods[j] == mods[1..][j - 1];
      KeyModified(n, mods[1..], t, i - 1);
      if IsActive(mods[0], t) {
        assert Active(mods, t) == [mods[0]] + rest;
        assert ([mods[0]] + rest)[1..] == rest;
      } else {
        assert Active(mods, t) == rest;
      }
    }
  }

  /** The keys a tick's raw notes sound under the active modifiers. */
  function Keys(ns: seq<RawMidiNote>, active: seq<ModifierNote>): (r: seq<string>)
    ensures |r| == |ns| && forall i :: 0 <= i < |ns| ==> r[i] == GetNoteKey(ns[i], active)
  {
    seq(|ns|, i requires 0 <= i < |ns| => GetNoteKey(ns[i], active))
  }

  /** The rest that opens a beat with no notes at its first tick. */
  function OpeningRest(t: int): Note {
    Note(["b/4"], false, "32r", false, true, t, None)
  }

  /** What the scan emits at tick `t` of a beat starting at `start`. */
  function TickEvent(raw: map<int, seq<RawMidiNote>>, mods: seq<ModifierNote>, start: int, t: int): seq<Note>
  {
    if t in raw then [Note(Keys(raw[t], Active(mods, t)), false, "32", false, false, t, None)]
    else if t == start then [OpeningRest(t)]
    else []
  }

  /** The events of the ticks `start` .. `t - 1`, in tick order. */
  function ScanTicks(raw: map<int, seq<RawMidiNote>>, mods: seq<ModifierNote>, start: int, t: int): seq<Note>
    decreases t - start
  {
    if t <= start then [] else ScanTicks(raw, mods, start, t - 1) + TickEvent(raw, mods, start, t - 1)
  }

  function FillBeat(raw: map<int, seq<RawMidiNote>>, mods: seq<ModifierNote>, b: Beat): Beat
  {
    b.(notes := b.notes + ScanTicks(raw, mods, b.startTick, b.endTick))
  }

  /** The per-beat loop of `fillBeats`, one tick at a time. */
  method FillBeatNotes(raw: map<int, seq<RawMidiNote>>, mods: seq<ModifierNote>, b: Beat) returns (r: Beat)
    ensures r == FillBeat(raw, mods, b)
  {
    var notes := b.notes;
    var t := b.startTick;
    while t < b.endTick
      invariant b.startTick <= t && (t <= b.endTick || t == b.startTick)
      invariant notes == b.notes + ScanTicks(raw, mods, b.startTick, t)
      decreases b.endTick - t
    {
      var active := Active(mods, t);
      if t in raw {
        notes := notes + [Note(Keys(raw[t], active), false, "32", false, false, t, None)];
      } else if t == b.startTick {
        notes := notes + [OpeningRest(t)];
      }
      t := t + 1;
    }
    assert ScanTicks(raw, mods, b.startTick, t) == ScanTicks(raw, mods, b.startTick, b.endTick);
    r := b.(notes := notes);
  }

  /** The scan of a non-empty range of ticks opens with an event at `start`,
      which is the opening rest exactly when no raw note starts there; its
      ticks increase strictly and stay in the range; only the opening event
      can be a rest. */
  lemma {:induction false} ScanShape(raw: map<int, seq<RawMidiNote>>, mods: seq<ModifierNote>, start: int, t: int)
    requires start < t
    ensures var e := ScanTicks(raw, mods, start, t);
      e != [] && e[0].tick == start && (start !in raw <==> e[0] == OpeningRest(start))
    ensures var e := ScanTicks(raw, mods, start, t);
      forall i :: 0 <= i < |e| ==> start <= e[i].tick < t && (e[i].isRest ==> i == 0)
    ensures var e := ScanTicks(raw, mods, start, t);
      forall i, j :: 0 <= i < j < |e| ==> e[i].tick < e[j].tick
    decreases t - start
  {
    if t - 1 > start {
      ScanShape(raw, mods, start, t - 1);
      var p := ScanTicks(raw, mods, start, t - 1);
      assert ScanTicks(raw, mods, start, t) == p + TickEvent(raw, mods, start, t - 1);
    } else {
      assert ScanTicks(raw, mods, start, t) == [] + TickEvent(raw, mods, start, start);
    }
  }

  /** A tick of the range carries a hit event exactly when raw notes start
      there, and that event sounds the keys of those notes. */
  lemma {:induction false} ScanHits(raw: map<int, seq<RawMidiNote>>, mods: seq<ModifierNote>, start: int, t: int, u: int)
    requires start <= u < t
    ensures u in raw <==> exists i :: 0 <= i < |ScanTicks(raw, mods, start, t)| &&
                                      ScanTicks(raw, mods, start, t)[i].tick == u &&
                                      !ScanTicks(raw, mods, start, t)[i].isRest
    ensures forall i :: 0 <= i < |ScanTicks(raw, mods, start, t)| && ScanTicks(raw, mods, start, t)[i].tick == u &&
                        !ScanTicks(raw, mods, start, t)[i].isRest ==>
              u in raw && ScanTicks(raw, mods, start, t)[i].notes == Keys(raw[u], Active(mods, u)) &&
              ScanTicks(raw, mods, start, t)[i].duration == "32"
    decreases t - start
  {
    var p := ScanTicks(raw, mods, start, t - 1);
    var ev := TickEvent(raw, mods, start, t - 1);
    var e := ScanTicks(raw, mods, start, t);
    assert e == p + ev;
    if t - 1 > start {
      ScanShape(raw, mods, start, t - 1);
    }
    if u < t - 1 {
      ScanHits(raw, mods, start, t - 1, u);
      forall i | 0 <= i < |ev| ensures ev[i].tick == t - 1 { }
      assert forall i :: 0 <= i < |p| ==> e[i] == p[i];
    } else {
      assert forall i :: 0 <= i < |p| ==> e[i] == p[i] && p[i].tick < u;
      if u in raw {
        assert e[|p|] == ev[0];
      }
    }
  }
}
