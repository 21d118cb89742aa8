/** Flattening a measure's beats and merging runs of quarter rests. */
module RestCollapse {
  import opened Wrappers
  import opened ParserTypes

  /** A rest standing for a run of `|run|` quarter rests. */
  function GetCollapsedRest(run: seq<Note>): (r: Note)
    ensures r.isRest && !r.isTriplet && r.notes == ["b/4"] && r.tick == 0 && r.durationTicks == None
    ensures r.dotted <==> |run| == 3
    ensures 1 <= |run| <= 4 ==> RestUnits(r.duration) == |run|
    ensures !(1 <= |run| <= 4) ==> r.duration == "qr"
  {
    var duration := match |run| case 2 => "hr" case 3 => "hrd" case 4 => "wr" case _ => "qr";
    Note(["b/4"], |run| == 3, duration, false, true, 0, None)
  }

  /** How many quarter rests a duration stands for; zero for anything that is
      not a quarter, half, dotted half or whole rest. */
  function RestUnits(d: string): nat {
    if d == "qr" then 1 else if d == "hr" then 2 else if d == "hrd" then 3 else if d == "wr" then 4 else 0
  }

  /** The quarter-rest units of a list of events. */
  function QuarterUnits(ns: seq<Note>): nat {
    if ns == [] then 0 else RestUnits(ns[0].duration) + QuarterUnits(ns[1..])
  }

  /** The events of a list that are not quarter, half or whole rests, in order. */
  function Kept(ns: seq<Note>): seq<Note> {
    if ns == [] then [] else (if RestUnits(ns[0].duration) == 0 then [ns[0]] else []) + Kept(ns[1..])
  }

  predicate IsQuarterRest(n: Note) {
    n.duration == "qr"
  }

  /** The collapsed rest of a pending run, if the run is non-empty. */
  function Flush(pending: seq<Note>): seq<Note> {
    if |pending| > 0 then [GetCollapsedRest(pending)] else []
  }

  /** The output still to come when `pending` quarter rests are held back and
      `ns` is yet to be read. */
  function CollapseFrom(pending: seq<Note>, ns: seq<Note>): seq<Note>
    decreases |ns|
  {
    if ns == [] then Flush(pending)
    else if IsQuarterRest(ns[0]) && |pending| < 4 then CollapseFrom(pending + [ns[0]], ns[1..])
    else Flush(pending) + [ns[0]] + CollapseFrom([], ns[1..])
  }

  function Collapse(ns: seq<Note>): seq<Note> {
    CollapseFrom([], ns)
  }

  lemma AppendAssoc(a: seq<Note>, b: seq<Note>, c: seq<Note>)
    ensures a + (b + c) == a + b + c
  {
  }

  /** The loop of `collapseQRests`, with its `result` and `consecutiveRests` arrays. */
  method CollapseQRests(notes: seq<Note>) returns (result: seq<Note>)
    ensures result == Collapse(notes)
  {
    result := [];
    var consecutiveRests: seq<Note> := [];
    var i := 0;
    while i < |notes|
      invariant 0 <= i <= |notes|
      invariant result + CollapseFrom(consecutiveRests, notes[i..]) == Collapse(notes)
    {
      var note := notes[i];
      assert notes[i..][0] == note && notes[i..][1..] == notes[i + 1..];
      if note.duration == "qr" && |consecutiveRests| < 4 {
        assert CollapseFrom(consecutiveRests, notes[i..]) == CollapseFrom(consecutiveRests + [note], notes[i + 1..]);
        consecutiveRests := consecutiveRests + [note];
      } else {
        ghost var before := result;
        ghost var flushed := Flush(consecutiveRests) + [note];
        assert CollapseFrom(consecutiveRests, notes[i..]) == flushed + CollapseFrom([], notes[i + 1..]);
        if |consecutiveRests| > 0 {
          result := result + [GetCollapsedRest(consecutiveRests)];
          consecutiveRests := [];
        }
        result := result + [note];
        assert result == before + flushed;
        AppendAssoc(before, flushed, CollapseFrom([], notes[i + 1..]));
      }
      i := i + 1;
    }
    if |consecutiveRests| > 0 {
      result := result + [GetCollapsedRest(consecutiveRests)];
    }
  }

  lemma {:induction false} QuarterUnitsAppend(a: seq<Note>, b: seq<Note>)
    ensures QuarterUnits(a + b) == QuarterUnits(a) + QuarterUnits(b)
    decreases |a|
  {
    if a != [] {
      QuarterUnitsAppend(a[1..], b);
      assert (a + b)[1..] == a[1..] + b;
    } else {
      assert a + b == b;
    }
  }

  lemma {:induction false} KeptAppend(a: seq<Note>, b: seq<Note>)
    ensures Kept(a + b) == Kept(a) + Kept(b)
    decreases |a|
  {
    if a != [] {
      KeptAppend(a[1..], b);
      assert (a + b)[1..] == a[1..] + b;
    } else {
      assert a + b == b;
    }
  }

  /** The general form of `CollapsePreserves`: held-back quarter rests are
      paid out once, as one collapsed rest. */
  lemma {:induction false} CollapseFromPreserves(pending: seq<Note>, ns: seq<Note>)
    requires |pending| <= 4 && forall i :: 0 <= i < |pending| ==> IsQuarterRest(pending[i])
    ensures QuarterUnits(CollapseFrom(pending, ns)) == |pending| + QuarterUnits(ns)
    ensures Kept(CollapseFrom(pending, ns)) == Kept(ns)
    ensures |CollapseFrom(pending, ns)| <= (if |pending| > 0 then 1 else 0) + |ns|
    decreases |ns|
  {
    var f := Flush(pending);
    assert QuarterUnits(f) == |pending| by {
      if |pending| > 0 { assert f[1..] == []; }
    }
    assert Kept(f) == [] by {
      if |pending| > 0 { assert f[1..] == []; }
    }
    if ns != [] {
      var n := ns[0];
      assert QuarterUnits([n]) == RestUnits(n.duration) && Kept([n]) == Kept([n][1..]) + (if RestUnits(n.duration) == 0 then [n] else []) by {
        assert [n][1..] == [];
      }
      if IsQuarterRest(n) && |pending| < 4 {
        CollapseFromPreserves(pending + [n], ns[1..]);
      } else {
        CollapseFromPreserves([], ns[1..]);
        var tail := CollapseFrom([], ns[1..]);
        QuarterUnitsAppend(f + [n], tail);
        QuarterUnitsAppend(f, [n]);
        KeptAppend(f + [n], tail);
        KeptAppend(f, [n]);
      }
    }
  }

  /** Collapsing keeps, in order, every event that is not a quarter, half or
      whole rest; keeps the number of quarter rests the events stand for;
      and never lengthens the list. */
  lemma CollapsePreserves(ns: seq<Note>)
    ensures QuarterUnits(Collapse(ns)) == QuarterUnits(ns)
    ensures Kept(Collapse(ns)) == Kept(ns)
    ensures |Collapse(ns)| <= |ns|
  {
    CollapseFromPreserves([], ns);
  }

  /** Quarter rests join the pending run while it holds fewer than four. */
  lemma {:induction false} RunJoins(pending: seq<Note>, qs: seq<Note>, rest: seq<Note>)
    requires |pending| + |qs| <= 4 && forall i :: 0 <= i < |qs| ==> IsQuarterRest(qs[i])
    ensures CollapseFrom(pending, qs + rest) == CollapseFrom(pending + qs, rest)
    decreases |qs|
  {
    if qs == [] {
      assert qs + rest == rest && pending + qs == pending;
    } else {
      assert (qs + rest)[0] == qs[0] && (qs + rest)[1..] == qs[1..] + rest;
      assert pending + qs == (pending + [qs[0]]) + qs[1..];
      RunJoins(pending + [qs[0]], qs[1..], rest);
    }
  }

  /** A run of one to four quarter rests, ended by the end of the list or by
      an event that is not a quarter rest, becomes one rest of the run's
      length, and that event passes through. */
  lemma RunCollapses(qs: seq<Note>, rest: seq<Note>)
    requires 1 <= |qs| <= 4 && forall i :: 0 <= i < |qs| ==> IsQuarterRest(qs[i])
    requires rest != [] ==> !IsQuarterRest(rest[0])
    ensures rest == [] ==> Collapse(qs + rest) == [GetCollapsedRest(qs)]
    ensures rest != [] ==> Collapse(qs + rest) == [GetCollapsedRest(qs), rest[0]] + Collapse(rest[1..])
  {
    RunJoins([], qs, rest);
    assert [] + qs == qs;
  }

  /** A quarter rest that arrives when four are pending flushes them as a
      whole rest and itself passes through unchanged. */
  lemma FifthPassesThrough(qs: seq<Note>, q: Note, rest: seq<Note>)
    requires |qs| == 4 && forall i :: 0 <= i < |qs| ==> IsQuarterRest(qs[i])
    requires IsQuarterRest(q)
    ensures Collapse(qs + [q] + rest) == [GetCollapsedRest(qs), q] + Collapse(rest)
    ensures GetCollapsedRest(qs).duration == "wr"
  {
    assert qs + [q] + rest == qs + ([q] + rest);
    RunJoins([], qs, [q] + rest);
    assert [] + qs == qs;
    assert ([q] + rest)[1..] == rest;
  }

  function QuarterRest(): Note {
    Note(["b/4"], false, "qr", false, true, 0, Some(96))
  }

  /** Collapsing is not idempotent: six quarter rests become a whole rest and
      two quarter rests, which collapse further into a half rest. */
  lemma CollapseNotIdempotent()
    ensures var six := seq(6, _ => QuarterRest());
      Collapse(six) == [GetCollapsedRest([QuarterRest(), QuarterRest(), QuarterRest(), QuarterRest()]),
                        QuarterRest(), GetCollapsedRest([QuarterRest()])] &&
      Collapse(Collapse(six)) != Collapse(six)
  {
    var q := QuarterRest();
    var six := seq(6, _ => q);
    var four := [q, q, q, q];
    assert six == four + [q] + [q];
    FifthPassesThrough(four, q, [q]);
    RunCollapses([q], []);
    assert [q] + [] == [q];
    var once := Collapse(six);
    var w := GetCollapsedRest(four);
    var c := GetCollapsedRest([q]);
    assert once == [w] + [q, c];
    assert Collapse(once) == [w] + Collapse([q, c]);
    RunCollapses([q, c], []);
    assert [q, c] + [] == [q, c];
    assert Collapse(once)[1].duration == "hr";
  }

  /** The events of a measure's beats, concatenated in beat order. */
  function Flatten(beats: seq<Beat>): seq<Note> {
    if beats == [] then [] else Flatten(beats[..|beats| - 1]) + beats[|beats| - 1].notes
  }

  /** `flattenMeasures` for one measure. */
  function FlattenMeasure(m: Measure): Measure {
    m.(notes := Collapse(Flatten(m.beats)))
  }
}
