/** The duration table: from ppq, the exact tick lengths of the notated
    durations (quarter down to sixty-fourth, with dotted and triplet values). */
module DurationTable {
  import opened MidiInput
  import opened ParserTypes
  import opened SubsetSearch

  /** The table, keyed by tick length. */
  function DurationMap(ppq: int): map<int, Duration>
    requires ValidPpq(ppq)
  {
    map[
      ppq := Duration("q", false, false),
      ppq / 2 := Duration("8", false, false),
      ppq / 3 := Duration("8", true, false),
      ppq / 2 + ppq / 4 := Duration("8d", false, true),
      ppq / 4 := Duration("16", false, false),
      ppq / 4 + ppq / 8 := Duration("16d", false, true),
      ppq / 6 := Duration("16", true, false),
      ppq / 8 := Duration("32", false, false),
      ppq / 8 + ppq / 16 := Duration("32d", false, true),
      ppq / 12 := Duration("32", true, false),
      ppq / 16 := Duration("64", false, false),
      ppq / 16 + ppq / 32 := Duration("64d", false, true),
      ppq / 24 := Duration("64", true, false)
    ]
  }

  /** Every table key is a whole multiple of ppq/96. */
  lemma Units(ppq: int)
    requires ValidPpq(ppq)
    ensures ppq / 96 > 0 && ppq == 96 * (ppq / 96)
    ensures ppq / 2 == 48 * (ppq / 96) && ppq / 3 == 32 * (ppq / 96) && ppq / 4 == 24 * (ppq / 96)
    ensures ppq / 6 == 16 * (ppq / 96) && ppq / 8 == 12 * (ppq / 96) && ppq / 12 == 8 * (ppq / 96)
    ensures ppq / 16 == 6 * (ppq / 96) && ppq / 24 == 4 * (ppq / 96) && ppq / 32 == 3 * (ppq / 96)
  {
  }

  /** The table's keys in the order the parser enumerates them
      (`Object.keys`, which lists integer keys in ascending order). */
  function AvailableDurations(ppq: int): (r: seq<int>)
    requires ValidPpq(ppq)
    ensures |r| == 13 && StrictlyIncreasing(r)
    ensures forall k :: 0 <= k < |r| ==> r[k] > 0
    ensures forall d :: d in r <==> d in DurationMap(ppq)
  {
    Units(ppq);
    [ppq / 24, ppq / 16, ppq / 12, ppq / 16 + ppq / 32, ppq / 8, ppq / 6, ppq / 8 + ppq / 16,
     ppq / 4, ppq / 3, ppq / 4 + ppq / 8, ppq / 2, ppq / 2 + ppq / 4, ppq]
  }

  /** Every entry carries a non-empty name; the whole quarter is "q". */
  lemma DurationNames(ppq: int)
    requires ValidPpq(ppq)
    ensures forall d :: d in DurationMap(ppq) ==> DurationMap(ppq)[d].duration != ""
    ensures ppq in DurationMap(ppq) && DurationMap(ppq)[ppq] == Duration("q", false, false)
  {
    Units(ppq);
  }
}
