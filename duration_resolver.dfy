/** Duration resolution: each event's length in ticks is looked up in the
    duration table; a length with no entry is written as the fewest distinct
    entries that add up to it (largest first), or, failing that, as the
    single nearest entry. */
module DurationResolver {
  import opened Wrappers
  import opened MidiInput
  import opened ParserTypes
  import opened DurationTable
  import opened SubsetSearch

  function Abs(x: int): nat {
    if x < 0 then -x else x
  }

  /** A duration name with the rest suffix ("q" becomes "qr" on a rest). */
  function Suffixed(name: string, isRest: bool): string {
    if isRest then name + "r" else name
  }

  /** The index of the first least key: a stable sort's first element, or a
      running minimum that only moves on a strictly smaller key. */
  function FirstMin(ks: seq<int>): (i: nat)
    requires ks != []
    ensures i < |ks|
    ensures forall k :: 0 <= k < |ks| ==> ks[i] <= ks[k]
    ensures forall j :: 0 <= j < i ==> ks[j] > ks[i]
    decreases |ks|
  {
    if |ks| == 1 then 0
    else
      var p := FirstMin(ks[..|ks| - 1]);
      if ks[|ks| - 1] < ks[p] then |ks| - 1 else p
  }

  /** Only one index is least and strictly below every earlier key. */
  lemma FirstMinUnique(ks: seq<int>, i: nat)
    requires i < |ks| && forall k :: 0 <= k < |ks| ==> ks[i] <= ks[k]
    requires forall j :: 0 <= j < i ==> ks[j] > ks[i]
    ensures i == FirstMin(ks)
  {
  }

  /** Extending the keys by one moves the first least key only to a strictly smaller one. */
  lemma FirstMinStep(ks: seq<int>, i: nat)
    requires i < |ks|
    ensures i == 0 ==> FirstMin(ks[..i + 1]) == 0
    ensures i > 0 ==> FirstMin(ks[..i + 1]) == (if ks[i] < ks[FirstMin(ks[..i])] then i else FirstMin(ks[..i]))
  {
    assert ks[..i + 1][..i] == ks[..i];
  }

  function Distances(xs: seq<int>, target: int): (r: seq<int>)
    ensures |r| == |xs| && forall k :: 0 <= k < |xs| ==> r[k] == Abs(xs[k] - target)
  {
    seq(|xs|, k requires 0 <= k < |xs| => Abs(xs[k] - target))
  }

  function Lengths(ss: seq<seq<int>>): (r: seq<int>)
    ensures |r| == |ss| && forall k :: 0 <= k < |ss| ==> r[k] == |ss[k]|
  {
    seq(|ss|, k requires 0 <= k < |ss| => |ss[k]|)
  }

  /** The entries of `p` in the opposite order. */
  function Reverse(p: seq<int>): (r: seq<int>)
    ensures |r| == |p| && forall k :: 0 <= k < |p| ==> r[k] == p[|p| - 1 - k]
  {
    if p == [] then [] else [p[|p| - 1]] + Reverse(p[..|p| - 1])
  }

  /** Sorting an ascending pick with `(a, b) => b - a` reverses it: the result
      is strictly decreasing and has the same entries. */
  lemma {:induction false} ReverseSorted(p: seq<int>)
    requires StrictlyIncreasing(p)
    ensures forall i, j :: 0 <= i < j < |p| ==> Reverse(p)[i] > Reverse(p)[j]
    ensures multiset(Reverse(p)) == multiset(p) && Sum(Reverse(p)) == Sum(p)
    decreases |p|
  {
    if p != [] {
      var q := p[..|p| - 1];
      assert p == q + [p[|p| - 1]];
      ReverseSorted(q);
      SumCons(p[|p| - 1], Reverse(q));
    }
  }

  /** The lengths of a list of events, `durationTicks ?? 0` each. */
  function Ticks(ns: seq<Note>): (r: seq<int>)
    ensures |r| == |ns| && forall k :: 0 <= k < |ns| ==> r[k] == ns[k].durationTicks.GetOr(0)
  {
    seq(|ns|, k requires 0 <= k < |ns| => ns[k].durationTicks.GetOr(0))
  }

  lemma {:induction false} SumTicksIsSum(ns: seq<Note>)
    ensures SumTicks(ns) == Sum(Ticks(ns))
    decreases |ns|
  {
    if ns != [] {
      assert Ticks(ns)[..|ns| - 1] == Ticks(ns[..|ns| - 1]);
      SumTicksIsSum(ns[..|ns| - 1]);
    }
  }

  // Duration extension

  /** The length the parser gives event `i` of a beat: up to the next event's
      tick, or to the end of the beat for the last event. */
  function NextTick(b: Beat, i: nat): int
    requires i < |b.notes|
  {
    if i + 1 < |b.notes| then b.notes[i + 1].tick else b.endTick
  }

  /** One event after its length `d` has been looked up in the table. */
  function ExtendNote(ppq: int, n: Note, d: int): Note
    requires ValidPpq(ppq)
  {
    var dm := DurationMap(ppq);
    if d in dm then
      n.(durationTicks := Some(d), duration := Suffixed(dm[d].duration, n.isRest),
         dotted := n.dotted || dm[d].dotted, isTriplet := n.isTriplet || dm[d].isTriplet)
    else
      n.(durationTicks := Some(d), duration := "")
  }

  /** The length becomes the event's `durationTicks`; the event gets a name
      exactly when the length is a table key, and it is then that entry's name
      (with "r" on a rest) and the entry's flags are switched on; keys, tick
      and the rest flag stay. */
  lemma ExtendNoteSpec(ppq: int, n: Note, d: int)
    requires ValidPpq(ppq)
    ensures var r := ExtendNote(ppq, n, d);
      r.durationTicks == Some(d) && r.notes == n.notes && r.tick == n.tick && r.isRest == n.isRest &&
      (r.duration != "" <==> d in DurationMap(ppq)) &&
      (d in DurationMap(ppq) ==>
         r.duration == Suffixed(DurationMap(ppq)[d].duration, n.isRest) &&
         (r.dotted <==> n.dotted || DurationMap(ppq)[d].dotted) &&
         (r.isTriplet <==> n.isTriplet || DurationMap(ppq)[d].isTriplet)) &&
      (d !in DurationMap(ppq) ==> r.dotted == n.dotted && r.isTriplet == n.isTriplet)
  {
    DurationNames(ppq);
  }

  function ExtendBeat(ppq: int, b: Beat): Beat
    requires ValidPpq(ppq)
  {
    b.(notes := seq(|b.notes|, i requires 0 <= i < |b.notes| =>
                      ExtendNote(ppq, b.notes[i], NextTick(b, i) - b.notes[i].tick)))
  }

  /** The per-beat loop of `extendNoteDuration`, updating each event in turn. */
  method ExtendBeatNotes(ppq: int, b: Beat) returns (r: Beat)
    requires ValidPpq(ppq)
    ensures r == ExtendBeat(ppq, b)
  {
    var notes := b.notes;
    var i := 0;
    while i < |notes|
      invariant 0 <= i <= |notes| == |b.notes|
      invariant forall j :: 0 <= j < i ==> notes[j] == ExtendNote(ppq, b.notes[j], NextTick(b, j) - b.notes[j].tick)
      invariant forall j :: i <= j < |notes| ==> notes[j] == b.notes[j]
    {
      var next := if i + 1 < |notes| then notes[i + 1].tick else b.endTick;
      notes := notes[i := ExtendNote(ppq, notes[i], next - notes[i].tick)];
      i := i + 1;
    }
    r := b.(notes := notes);
  }

  lemma {:induction false} ExtendPrefixSum(ppq: int, b: Beat, k: nat)
    requires ValidPpq(ppq) && 1 <= k <= |b.notes|
    ensures SumTicks(ExtendBeat(ppq, b).notes[..k]) == NextTick(b, k - 1) - b.notes[0].tick
    decreases k
  {
    var e := ExtendBeat(ppq, b).notes;
    assert e[..k][..k - 1] == e[..k - 1];
    if k > 1 {
      ExtendPrefixSum(ppq, b, k - 1);
    } else {
      assert e[..0] == [];
    }
  }

  /** The extended lengths of a beat's events add up to the span from its
      first event to the end of the beat. */
  lemma ExtendBeatSum(ppq: int, b: Beat)
    requires ValidPpq(ppq) && b.notes != []
    ensures |ExtendBeat(ppq, b).notes| == |b.notes|
    ensures SumTicks(ExtendBeat(ppq, b).notes) == b.endTick - b.notes[0].tick
  {
    var e := ExtendBeat(ppq, b).notes;
    ExtendPrefixSum(ppq, b, |e|);
    assert e[..|e|] == e;
  }

  // Composite split and nearest entry

  /** One piece of a split, of table length `d`: a `b/4` event at tick 0. */
  function Piece(ppq: int, d: int, isRest: bool): Note
    requires ValidPpq(ppq) && d in DurationMap(ppq)
  {
    var e := DurationMap(ppq)[d];
    Note(["b/4"], e.dotted, Suffixed(e.duration, isRest), e.isTriplet, isRest, 0, Some(d))
  }

  /** The pieces of a split in the given order; the first is always a rest. */
  function Pieces(ppq: int, p: seq<int>, isRest: bool): seq<Note>
    requires ValidPpq(ppq) && forall k :: 0 <= k < |p| ==> p[k] in DurationMap(ppq)
  {
    seq(|p|, i requires 0 <= i < |p| => Piece(ppq, p[i], isRest || i == 0))
  }

  /** The fallback event of `getClosestDuration`, named after entry `key`; it
      keeps the event's own length and rest flag. */
  function ClosestPiece(ppq: int, n: Note, key: int): Note
    requires ValidPpq(ppq) && key in DurationMap(ppq)
  {
    var e := DurationMap(ppq)[key];
    Note(["b/4"], e.dotted, Suffixed(e.duration, n.isRest), e.isTriplet, n.isRest, 0, n.durationTicks)
  }

  /** The table entry nearest to `target`, the earliest in key order on ties. */
  function Nearest(ppq: int, target: int): (key: int)
    requires ValidPpq(ppq)
    ensures key in DurationMap(ppq)
  {
    var xs := AvailableDurations(ppq);
    xs[FirstMin(Distances(xs, target))]
  }

  /** The fewest-entry subset sum of `target`, the first found among ties. */
  function Shortest(ss: seq<seq<int>>): seq<int>
    requires ss != []
  {
    ss[FirstMin(Lengths(ss))]
  }

  /** What `processCompositeDuration` makes of one event. */
  function ResolveNote(ppq: int, n: Note): seq<Note>
    requires ValidPpq(ppq)
  {
    if n.duration != "" then [n]
    else
      var xs := AvailableDurations(ppq);
      var target := n.durationTicks.GetOr(0);
      var ss := Subsets(xs, target);
      if ss == [] then [ClosestPiece(ppq, n, Nearest(ppq, target))]
      else
        var pick := Shortest(ss);
        SubsetsExact(xs, target, pick);
        Pieces(ppq, Reverse(pick), n.isRest)
  }

  /** The events of a beat after resolution, in order. */
  function ResolveAll(ppq: int, ns: seq<Note>): seq<Note>
    requires ValidPpq(ppq)
  {
    if ns == [] then [] else ResolveAll(ppq, ns[..|ns| - 1]) + ResolveNote(ppq, ns[|ns| - 1])
  }

  function ResolveBeat(ppq: int, b: Beat): Beat
    requires ValidPpq(ppq)
  {
    b.(notes := ResolveAll(ppq, b.notes))
  }

  /** `getClosestDuration`'s running minimum over the keys in order; the
      distance starts at infinity (`None`) and the key at `fallback`. */
  method GetClosestKey(xs: seq<int>, target: int, fallback: int) returns (key: int)
    ensures xs == [] ==> key == fallback
    ensures xs != [] ==> key == xs[FirstMin(Distances(xs, target))]
  {
    ghost var ks := Distances(xs, target);
    var diff: Option<int> := None;
    key := fallback;
    var i := 0;
    while i < |xs|
      invariant 0 <= i <= |xs|
      invariant i == 0 ==> diff == None && key == fallback
      invariant i > 0 ==> key == xs[FirstMin(ks[..i])] && diff == Some(ks[FirstMin(ks[..i])])
    {
      var d := Abs(xs[i] - target);
      assert d == ks[i];
      FirstMinStep(ks, i);
      ghost var next := FirstMin(ks[..i + 1]);
      if diff.None? || d < diff.value {
        assert next == i;
        key := xs[i];
        diff := Some(d);
      } else {
        assert next == FirstMin(ks[..i]);
      }
      assert key == xs[next] && diff == Some(ks[next]);
      i := i + 1;
    }
    assert ks[..|xs|] == ks;
  }

  /** One event of `processCompositeDuration`: kept when named, otherwise
      split by the subset search or replaced by the nearest entry. */
  method ProcessCompositeNote(ppq: int, n: Note) returns (r: seq<Note>)
    requires ValidPpq(ppq)
    ensures r == ResolveNote(ppq, n)
  {
    if n.duration != "" {
      return [n];
    }
    var xs := AvailableDurations(ppq);
    var target := n.durationTicks.GetOr(0);
    var ss := GetSubsets(xs, target);
    if |ss| == 0 {
      var key := GetClosestKey(xs, target, ppq / 16);
      r := [ClosestPiece(ppq, n, key)];
    } else {
      var pick := ss[FirstMin(Lengths(ss))];
      SubsetsExact(xs, target, pick);
      r := Pieces(ppq, Reverse(pick), n.isRest);
    }
  }

  /** The per-beat map-and-flatten of `processCompositeDuration`. */
  method ProcessCompositeBeat(ppq: int, b: Beat) returns (r: Beat)
    requires ValidPpq(ppq)
    ensures r == ResolveBeat(ppq, b)
  {
    var notes: seq<Note> := [];
    var i := 0;
    while i < |b.notes|
      invariant 0 <= i <= |b.notes|
      invariant notes == ResolveAll(ppq, b.notes[..i])
    {
      var pieces := ProcessCompositeNote(ppq, b.notes[i]);
      assert b.notes[..i + 1][..i] == b.notes[..i];
      notes := notes + pieces;
      i := i + 1;
    }
    assert b.notes[..i] == b.notes;
    r := b.(notes := notes);
  }

  lemma PiecesTicks(ppq: int, p: seq<int>, isRest: bool)
    requires ValidPpq(ppq) && forall k :: 0 <= k < |p| ==> p[k] in DurationMap(ppq)
    ensures Ticks(Pieces(ppq, p, isRest)) == p
  {
  }

  /** When the event has no name and its length is a sum of distinct entries,
      it becomes the fewest such entries, largest first, adding up to its length. */
  lemma CompositeSplit(ppq: int, n: Note)
    requires ValidPpq(ppq) && n.duration == ""
    requires Subsets(AvailableDurations(ppq), n.durationTicks.GetOr(0)) != []
    ensures var r := ResolveNote(ppq, n); var target := n.durationTicks.GetOr(0);
      SumTicks(r) == target &&
      (forall u :: IsSubsetSum(AvailableDurations(ppq), target, u) ==> |r| <= |u|) &&
      (forall i, j :: 0 <= i < j < |r| ==> r[i].durationTicks.GetOr(0) > r[j].durationTicks.GetOr(0))
  {
    var xs := AvailableDurations(ppq);
    var target := n.durationTicks.GetOr(0);
    var ss := Subsets(xs, target);
    var pick := Shortest(ss);
    SubsetsExact(xs, target, pick);
    var r := ResolveNote(ppq, n);
    assert r == Pieces(ppq, Reverse(pick), n.isRest);
    PiecesTicks(ppq, Reverse(pick), n.isRest);
    ReverseSorted(pick);
    SumTicksIsSum(r);
    forall u | IsSubsetSum(xs, target, u) ensures |r| <= |u| {
      SubsetsExact(xs, target, u);
      var k :| 0 <= k < |ss| && ss[k] == u;
      assert Lengths(ss)[k] == |u|;
    }
  }

  /** The pieces of a split are named `b/4` events at tick 0 with table
      lengths; the first is always a rest, and all are when the event was. */
  lemma CompositeShape(ppq: int, n: Note)
    requires ValidPpq(ppq) && n.duration == ""
    requires Subsets(AvailableDurations(ppq), n.durationTicks.GetOr(0)) != []
    ensures var r := ResolveNote(ppq, n);
      forall i :: 0 <= i < |r| ==>
        r[i].notes == ["b/4"] && r[i].tick == 0 && r[i].duration != "" && r[i].durationTicks.Some? &&
        r[i].durationTicks.value in DurationMap(ppq) && (r[i].isRest <==> n.isRest || i == 0)
  {
    var xs := AvailableDurations(ppq);
    var target := n.durationTicks.GetOr(0);
    var pick := Shortest(Subsets(xs, target));
    SubsetsExact(xs, target, pick);
    assert ResolveNote(ppq, n) == Pieces(ppq, Reverse(pick), n.isRest);
    DurationNames(ppq);
  }

  /** When no subset sum exists, the event becomes the single nearest entry
      (the earliest in key order on ties), keeping its own length. */
  lemma ClosestFallback(ppq: int, n: Note)
    requires ValidPpq(ppq) && n.duration == ""
    requires Subsets(AvailableDurations(ppq), n.durationTicks.GetOr(0)) == []
    ensures var xs := AvailableDurations(ppq); var target := n.durationTicks.GetOr(0);
      exists i :: 0 <= i < |xs| &&
        (forall k :: 0 <= k < |xs| ==> Abs(xs[i] - target) <= Abs(xs[k] - target)) &&
        (forall j :: 0 <= j < i ==> Abs(xs[j] - target) > Abs(xs[i] - target)) &&
        ResolveNote(ppq, n) == [ClosestPiece(ppq, n, xs[i])]
    ensures |ResolveNote(ppq, n)| == 1 && ResolveNote(ppq, n)[0].durationTicks == n.durationTicks
  {
    var xs := AvailableDurations(ppq);
    var i := FirstMin(Distances(xs, n.durationTicks.GetOr(0)));
    assert ResolveNote(ppq, n) == [ClosestPiece(ppq, n, xs[i])];
  }

  /** Resolution keeps an event's total length and leaves every event named. */
  lemma ResolveNoteSpec(ppq: int, n: Note)
    requires ValidPpq(ppq)
    ensures SumTicks(ResolveNote(ppq, n)) == n.durationTicks.GetOr(0)
    ensures forall r :: r in ResolveNote(ppq, n) ==> r.duration != ""
  {
    DurationNames(ppq);
    if n.duration == "" {
      var ss := Subsets(AvailableDurations(ppq), n.durationTicks.GetOr(0));
      if ss == [] {
        ClosestFallback(ppq, n);
      } else {
        CompositeSplit(ppq, n);
        CompositeShape(ppq, n);
      }
    } else {
      assert [n][..0] == [];
    }
  }

  /** Resolving a beat keeps its total length and leaves every event named. */
  lemma {:induction false} ResolveAllSpec(ppq: int, ns: seq<Note>)
    requires ValidPpq(ppq)
    ensures SumTicks(ResolveAll(ppq, ns)) == SumTicks(ns)
    ensures forall r :: r in ResolveAll(ppq, ns) ==> r.duration != ""
    decreases |ns|
  {
    if ns != [] {
      ResolveAllSpec(ppq, ns[..|ns| - 1]);
      ResolveNoteSpec(ppq, ns[|ns| - 1]);
      SumTicksAppend(ResolveAll(ppq, ns[..|ns| - 1]), ResolveNote(ppq, ns[|ns| - 1]));
    }
  }
}
