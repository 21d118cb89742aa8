/** Pitch classification: the per-difficulty pitch-to-key tables, the tom
    modifiers, the key lookup that applies modifiers, and the grouping of a
    track's notes by start tick. */
module DrumMapping {
  import opened MidiInput
  import opened ParserTypes

  /** The pitch-to-key table of each difficulty (kick, snare, yellow, blue, green tom). */
  function Mapping(d: Difficulty): map<int, string>
  {
    match d
    case Expert => map[96 := "f/4", 97 := "c/5", 98 := "g/5/x2", 99 := "f/5/x2", 100 := "a/5/x2"]
    case Hard => map[84 := "f/4", 85 := "c/5", 86 := "g/5/x2", 87 := "f/5/x2", 88 := "a/5/x2"]
    case Medium => map[72 := "f/4", 73 := "c/5", 74 := "g/5/x2", 75 := "f/5/x2", 76 := "a/5/x2"]
    case Easy => map[60 := "f/4", 61 := "c/5", 62 := "g/5/x2", 63 := "f/5/x2", 64 := "a/5/x2"]
  }

  /** Modifier pitches: each turns the expert tom it names into a cymbal key. */
  const TomModifiers: map<int, Modifier> :=
    map[110 := Modifier(98, "e/5"), 111 := Modifier(99, "d/5"), 112 := Modifier(100, "a/4")]

  /** The key of a raw note under the active modifiers: the key of the first
      modifier that targets the note's pitch, else the note's mapped key. */
  function GetNoteKey(note: RawMidiNote, modifiers: seq<ModifierNote>): (r: string)
    ensures (forall i :: 0 <= i < |modifiers| ==> modifiers[i].modifier.forNote != note.note.midi) ==> r == note.key
    ensures forall i :: 0 <= i < |modifiers| && modifiers[i].modifier.forNote == note.note.midi &&
                        (forall j :: 0 <= j < i ==> modifiers[j].modifier.forNote != note.note.midi)
                        ==> r == modifiers[i].modifier.key
  {
    if modifiers == [] then note.key
    else if modifiers[0].modifier.forNote == note.note.midi then modifiers[0].modifier.key
    else
      var r := GetNoteKey(note, modifiers[1..]);
      assert forall i :: 1 <= i < |modifiers| ==> modifiers[i] == modifiers[1..][i - 1];
      r
  }

  /** A modifier never retargets a pitch of the easy, medium or hard tables:
      their notes keep their mapped key whatever modifiers are active. */
  lemma ModifiersOnlyRetargetExpert(d: Difficulty, note: RawMidiNote, modifiers: seq<ModifierNote>)
    requires d != Expert && note.note.midi in Mapping(d)
    requires forall i :: 0 <= i < |modifiers| ==> modifiers[i].modifier in TomModifiers.Values
    ensures GetNoteKey(note, modifiers) == note.key
  {
    forall i | 0 <= i < |modifiers| ensures modifiers[i].modifier.forNote != note.note.midi {
      var m := modifiers[i].modifier;
      assert m.forNote in {98, 99, 100} by {
        var p :| p in TomModifiers && TomModifiers[p] == m;
      }
    }
  }

  /** The raw notes of the track that start at tick `t` and whose pitch the
      difficulty maps, in track order, each with its mapped key. */
  function NotesAt(notes: seq<NoteJson>, d: Difficulty, t: int): seq<RawMidiNote>
  {
    if notes == [] then []
    else
      var n := notes[|notes| - 1];
      NotesAt(notes[..|notes| - 1], d, t) +
      (if n.midi in Mapping(d) && n.ticks == t then [RawMidiNote(n, Mapping(d)[n.midi])] else [])
  }

  /** The modifier notes of the track in track order: notes whose pitch the
      difficulty does not map but the modifier table does. */
  function ModifiersIn(notes: seq<NoteJson>, d: Difficulty): seq<ModifierNote>
  {
    if notes == [] then []
    else
      var n := notes[|notes| - 1];
      ModifiersIn(notes[..|notes| - 1], d) +
      (if n.midi !in Mapping(d) && n.midi in TomModifiers then [ModifierNote(n, TomModifiers[n.midi])] else [])
  }

  /** The start ticks that carry at least one mapped note. */
  function MappedTicks(notes: seq<NoteJson>, d: Difficulty): set<int>
  {
    set i | 0 <= i < |notes| && notes[i].midi in Mapping(d) :: notes[i].ticks
  }

  /** The map from start tick to its raw notes that classifying the track builds. */
  function RawNotes(notes: seq<NoteJson>, d: Difficulty): map<int, seq<RawMidiNote>>
  {
    map t | t in MappedTicks(notes, d) :: NotesAt(notes, d, t)
  }

  /** `map.get(t) ?? []` */
  function Lookup(raw: map<int, seq<RawMidiNote>>, t: int): seq<RawMidiNote>
  {
    if t in raw then raw[t] else []
  }

  /** Every raw note grouped under tick `t` is a note of the track that starts
      at `t`, has a mapped pitch, and carries that pitch's key. */
  lemma {:induction false} NotesAtSound(notes: seq<NoteJson>, d: Difficulty, t: int)
    ensures forall r :: r in NotesAt(notes, d, t) ==>
              r.note in notes && r.note.ticks == t && r.note.midi in Mapping(d) && r.key == Mapping(d)[r.note.midi]
    decreases |notes|
  {
    if notes != [] {
      NotesAtSound(notes[..|notes| - 1], d, t);
      assert forall n :: n in notes[..|notes| - 1] ==> n in notes;
    }
  }

  /** A tick carries raw notes exactly when some mapped note of the track starts there. */
  lemma {:induction false} MappedTicksExact(notes: seq<NoteJson>, d: Difficulty, t: int)
    ensures t in MappedTicks(notes, d) <==> NotesAt(notes, d, t) != []
    decreases |notes|
  {
    if notes != [] {
      var init := notes[..|notes| - 1];
      MappedTicksExact(init, d, t);
      var n := notes[|notes| - 1];
      if t in MappedTicks(notes, d) {
        var i :| 0 <= i < |notes| && notes[i].midi in Mapping(d) && notes[i].ticks == t;
        if i < |notes| - 1 {
          assert init[i] == notes[i];
          assert t in MappedTicks(init, d);
        }
      }
      if t in MappedTicks(init, d) {
        var i :| 0 <= i < |init| && init[i].midi in Mapping(d) && init[i].ticks == t;
        assert notes[i] == init[i];
      }
      if n.midi in Mapping(d) && n.ticks == t {
        assert notes[|notes| - 1] == n;
      }
    }
  }

  /** Every note whose pitch the difficulty maps is grouped under its start tick;
      every other note whose pitch is a modifier pitch becomes a modifier note. */
  lemma {:induction false} ClassifyNote(notes: seq<NoteJson>, d: Difficulty, i: nat)
    requires i < |notes|
    ensures notes[i].midi in Mapping(d) ==>
              RawMidiNote(notes[i], Mapping(d)[notes[i].midi]) in NotesAt(notes, d, notes[i].ticks)
    ensures notes[i].midi !in Mapping(d) && notes[i].midi in TomModifiers ==>
              ModifierNote(notes[i], TomModifiers[notes[i].midi]) in ModifiersIn(notes, d)
    decreases |notes|
  {
    if i < |notes| - 1 {
      var init := notes[..|notes| - 1];
      assert init[i] == notes[i];
      ClassifyNote(init, d, i);
    }
  }

  /** Every modifier note comes from a note of the track whose pitch the
      difficulty does not map and the modifier table does; a note with neither
      kind of pitch is dropped. */
  lemma {:induction false} ModifiersInSound(notes: seq<NoteJson>, d: Difficulty)
    ensures forall m :: m in ModifiersIn(notes, d) ==>
              m.note in notes && m.note.midi !in Mapping(d) && m.note.midi in TomModifiers &&
              m.modifier == TomModifiers[m.note.midi]
    decreases |notes|
  {
    if notes != [] {
      ModifiersInSound(notes[..|notes| - 1], d);
      assert forall n :: n in notes[..|notes| - 1] ==> n in notes;
    }
  }

  /** The modifier pitches are 110–112, no difficulty maps them, and they
      retarget only the expert toms 98–100. */
  lemma ModifierTable()
    ensures TomModifiers.Keys == {110, 111, 112}
    ensures forall d: Difficulty :: TomModifiers.Keys !! Mapping(d).Keys
    ensures forall m :: m in TomModifiers.Values ==> m.forNote in Mapping(Expert)
  {
  }

  /** The map `processNotes` leaves after grouping `notes` into `raw`. */
  function GroupNotes(raw: map<int, seq<RawMidiNote>>, notes: seq<NoteJson>, d: Difficulty): map<int, seq<RawMidiNote>>
  {
    if notes == [] then raw
    else
      var g := GroupNotes(raw, notes[..|notes| - 1], d);
      var n := notes[|notes| - 1];
      if n.midi in Mapping(d) then g[n.ticks := Lookup(g, n.ticks) + [RawMidiNote(n, Mapping(d)[n.midi])]] else g
  }

  /** Grouping appends, under each tick, the mapped notes starting there, in
      track order, and adds exactly the ticks that carry mapped notes. */
  lemma {:induction false} GroupNotesSpec(raw: map<int, seq<RawMidiNote>>, notes: seq<NoteJson>, d: Difficulty, t: int)
    ensures Lookup(GroupNotes(raw, notes, d), t) == Lookup(raw, t) + NotesAt(notes, d, t)
    ensures t in GroupNotes(raw, notes, d) <==> t in raw || NotesAt(notes, d, t) != []
    decreases |notes|
  {
    if notes != [] {
      GroupNotesSpec(raw, notes[..|notes| - 1], d, t);
    }
  }

  /** Grouping the track into an empty map builds exactly `RawNotes`. */
  lemma GroupFromEmpty(notes: seq<NoteJson>, d: Difficulty)
    ensures GroupNotes(map[], notes, d) == RawNotes(notes, d)
  {
    var g := GroupNotes(map[], notes, d);
    var r := RawNotes(notes, d);
    forall t ensures (t in g <==> t in r) && (t in g ==> g[t] == r[t]) {
      GroupNotesSpec(map[], notes, d, t);
      MappedTicksExact(notes, d, t);
    }
  }
}
