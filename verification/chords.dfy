/**
 * Chord generation and chord naming: a table triad is lifted into octave 4 by
 * adding 60 to each pitch class, and a chord is named by looking it up, as an
 * ordered list, among the seven lifted triads.
 */
module Chords {
  import opened Wrappers
  import opened Theory

  /** MIDI number of C in octave 4. */
  const BaseOctave := 60

  /** Adds BaseOctave to every pitch class, keeping the order. */
  function Lift(notes: seq<int>): (r: seq<int>)
    ensures |r| == |notes|
    ensures forall k :: 0 <= k < |notes| ==> r[k] == notes[k] + BaseOctave
  {
    if |notes| == 0 then [] else [notes[0] + BaseOctave] + Lift(notes[1..])
  }

  /**
   * The chord the trainer asks for when the random draw picks table row `i`;
   * the draw itself is the parameter.
   */
  function GetRandomChord(i: nat): (r: seq<int>)
    requires i < ChordCount
    ensures |r| == 3
    ensures forall k :: 0 <= k < 3 ==> BaseOctave <= r[k] <= BaseOctave + 11
    ensures forall k :: 0 <= k < 3 ==> r[k] == ScaleRoots[i].notes[k] + BaseOctave
  {
    TableShape();
    Lift(ScaleRoots[i].notes)
  }

  /** The display form of a chord type; the source special-cases "dim" but maps it to itself. */
  function DisplayKind(kind: string): (r: string)
    ensures r == kind
  {
    if kind == "dim" then "dim" else kind
  }

  /** The label shown for table row `i`: root name, a space, the chord type. */
  function Label(i: nat): (r: string)
    requires i < ChordCount
    ensures r == ScaleRoots[i].name + " " + ScaleRoots[i].kind
    ensures r[0] == ScaleRoots[i].name[0] && r[1] == ' '
  {
    ScaleRoots[i].name + " " + DisplayKind(ScaleRoots[i].kind)
  }

  /** A lifted triad is determined by its three elementwise sums. */
  lemma LiftedIs(i: nat, a: int, b: int, c: int)
    requires i < ChordCount
    requires ScaleRoots[i].notes == [a - BaseOctave, b - BaseOctave, c - BaseOctave]
    ensures GetRandomChord(i) == [a, b, c]
  {
  }

  /** The seven lifted triads, written out. */
  lemma LiftedTable()
    ensures GetRandomChord(0) == [60, 64, 67]
    ensures GetRandomChord(1) == [62, 65, 69]
    ensures GetRandomChord(2) == [64, 67, 71]
    ensures GetRandomChord(3) == [65, 69, 60]
    ensures GetRandomChord(4) == [67, 71, 62]
    ensures GetRandomChord(5) == [69, 60, 64]
    ensures GetRandomChord(6) == [71, 62, 65]
  {
    LiftedIs(0, 60, 64, 67);
    LiftedIs(1, 62, 65, 69);
    LiftedIs(2, 64, 67, 71);
    LiftedIs(3, 65, 69, 60);
    LiftedIs(4, 67, 71, 62);
    LiftedIs(5, 69, 60, 64);
    LiftedIs(6, 71, 62, 65);
  }

  /** Two different rows lift to different chords, so a lookup can only find one row. */
  lemma LiftedDistinct(i: nat, j: nat)
    requires i < ChordCount && j < ChordCount && i != j
    ensures GetRandomChord(i) != GetRandomChord(j)
  {
    assert ScaleRoots[i].notes[0] != ScaleRoots[j].notes[0];
  }

  /** Three pairwise different notes. */
  predicate DistinctTriad(c: seq<int>) {
    |c| == 3 && c[0] != c[1] && c[0] != c[2] && c[1] != c[2]
  }

  /** Each lifted triad has three different notes, and its root is named after the table row. */
  lemma LiftedRowFacts(i: nat)
    requires i < ChordCount
    ensures DistinctTriad(GetRandomChord(i))
    ensures NoteNames[GetRandomChord(i)[0] % 12] == ScaleRoots[i].name
  {
    TableShape();
    var e := ScaleRoots[i];
    assert e.notes[0] != e.notes[1] && e.notes[0] != e.notes[2] && e.notes[1] != e.notes[2];
    assert GetRandomChord(i)[0] % 12 == e.notes[0];
  }

  /** Rows carry different root names, hence different labels. */
  lemma LabelsDistinct(i: nat, j: nat)
    requires i < ChordCount && j < ChordCount && i != j
    ensures Label(i) != Label(j)
  {
    assert Label(i)[0] == ScaleRoots[i].name[0];
    assert Label(j)[0] == ScaleRoots[j].name[0];
  }

  /** Every label is a proper chord name, never the "Unknown" fallback. */
  lemma LabelNotUnknown(i: nat)
    requires i < ChordCount
    ensures Label(i) != "Unknown"
  {
    assert Label(i)[1] == ' ';
  }

  /**
   * The table scan from row `k` on: the first row whose lifted triad equals
   * `chord` element by element, in order, or None when no row does.
   */
  function FindRow(chord: seq<int>, k: nat): (r: Option<nat>)
    requires k <= ChordCount
    ensures r.None? <==> forall j :: k <= j < ChordCount ==> chord != GetRandomChord(j)
    ensures r.Some? ==> k <= r.value < ChordCount && chord == GetRandomChord(r.value)
    ensures r.Some? ==> forall j :: k <= j < r.value ==> chord != GetRandomChord(j)
    decreases ChordCount - k
  {
    if k == ChordCount then None
    else if chord == GetRandomChord(k) then Some(k)
    else FindRow(chord, k + 1)
  }

  /** The name shown above the staff for `chord`: the matching row's label, or "Unknown". */
  function GetChordName(chord: seq<int>): (r: string)
    ensures r == "Unknown" || exists j :: 0 <= j < ChordCount && r == Label(j)
  {
    match FindRow(chord, 0)
    case Some(j) => Label(j)
    case None => "Unknown"
  }

  /** A chord is "Unknown" exactly when it equals, in order, none of the seven lifted triads. */
  lemma UnknownIff(chord: seq<int>)
    ensures GetChordName(chord) == "Unknown" <==>
              forall j :: 0 <= j < ChordCount ==> chord != GetRandomChord(j)
  {
    var r := FindRow(chord, 0);
    if r.Some? {
      LabelNotUnknown(r.value);
    }
  }

  /** Naming undoes generation: the chord drawn from row `i` is named after row `i`. */
  lemma NameRoundTrip(i: nat)
    requires i < ChordCount
    ensures GetChordName(GetRandomChord(i)) == ScaleRoots[i].name + " " + ScaleRoots[i].kind
  {
    var r := FindRow(GetRandomChord(i), 0);
    assert r.Some?;
    if r.value != i {
      LiftedDistinct(i, r.value);
    }
  }

  /** Any chord that names a row is exactly that row's lifted triad, in that order. */
  lemma NameDeterminesChord(chord: seq<int>, i: nat)
    requires i < ChordCount
    requires GetChordName(chord) == Label(i)
    ensures chord == GetRandomChord(i)
  {
    var r := FindRow(chord, 0);
    LabelNotUnknown(i);
    assert r.Some?;
    if r.value != i {
      LabelsDistinct(i, r.value);
    }
  }

  /** The chord drawn from row `i` is named by the row's literal label. */
  lemma NameOfRow(i: nat, a: int, b: int, c: int, name: string)
    requires i < ChordCount
    requires ScaleRoots[i].notes == [a - BaseOctave, b - BaseOctave, c - BaseOctave]
    requires name == ScaleRoots[i].name + " " + ScaleRoots[i].kind
    ensures GetChordName([a, b, c]) == name
  {
    LiftedIs(i, a, b, c);
    NameRoundTrip(i);
  }

  /** Example: the tonic triad is named "C major". */
  lemma NameOfTonic()
    ensures GetChordName([60, 64, 67]) == "C major"
  {
    NameOfRow(0, 60, 64, 67, "C major");
  }

  /** Example: the supertonic triad is named "D minor". */
  lemma NameOfSupertonic()
    ensures GetChordName([62, 65, 69]) == "D minor"
  {
    NameOfRow(1, 62, 65, 69, "D minor");
  }

  /** Example: the leading-tone triad is named "B dim". */
  lemma NameOfLeadingTone()
    ensures GetChordName([71, 62, 65]) == "B dim"
  {
    NameOfRow(6, 71, 62, 65, "B dim");
  }

  /** The F major triad reordered into ascending order is not recognised. */
  lemma ReorderedIsUnknown()
    ensures GetChordName([60, 65, 69]) == "Unknown"
  {
    UnknownIff([60, 65, 69]);
    LiftedTable();
  }

  /** The F major triad is produced root first, so it is not in ascending order. */
  lemma FMajorNotAscending()
    ensures GetRandomChord(3) == [65, 69, 60]
    ensures GetRandomChord(3)[2] < GetRandomChord(3)[1]
  {
    LiftedIs(3, 65, 69, 60);
  }
}
