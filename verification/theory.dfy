/**
 * The fixed music-theory tables of the chord trainer: the twelve sharp-spelled
 * pitch-class names and the seven diatonic triads of C major, each given as
 * pitch classes (0 = C, ..., 11 = B).
 */
module Theory {

  /** Pitch-class names, sharps only, indexed by semitones above C. */
  const NoteNames: seq<string> := ["C", "C#", "D", "D#", "E", "F", "F#", "G", "G#", "A", "A#", "B"]

  /** One row of the triad table: root name, chord type and its three pitch classes. */
  datatype ChordEntry = ChordEntry(name: string, kind: string, notes: seq<int>)

  /** The seven diatonic triads of C major, degree I to vii. */
  const ScaleRoots: seq<ChordEntry> := [
    ChordEntry("C", "major", [0, 4, 7]),
    ChordEntry("D", "minor", [2, 5, 9]),
    ChordEntry("E", "minor", [4, 7, 11]),
    ChordEntry("F", "major", [5, 9, 0]),
    ChordEntry("G", "major", [7, 11, 2]),
    ChordEntry("A", "minor", [9, 0, 4]),
    ChordEntry("B", "dim", [11, 2, 5])
  ]

  /** Number of entries in the triad table. */
  const ChordCount := 7

  /** A well-formed table row: a triad of pitch classes named after its first note. */
  predicate WellFormed(e: ChordEntry) {
    && |e.notes| == 3
    && (forall k :: 0 <= k < 3 ==> 0 <= e.notes[k] < 12)
    && e.name == NoteNames[e.notes[0]]
  }

  predicate IsBlackKey(pc: int) {
    pc == 1 || pc == 3 || pc == 6 || pc == 8 || pc == 10
  }

  lemma TableShape()
    ensures |NoteNames| == 12
    ensures |ScaleRoots| == ChordCount
    ensures forall i :: 0 <= i < ChordCount ==> WellFormed(ScaleRoots[i])
  {
  }

  /** Every table entry is a triad on a white key: its root name carries no sharp. */
  lemma RootsAreNatural()
    ensures forall i :: 0 <= i < ChordCount ==> !IsBlackKey(ScaleRoots[i].notes[0])
    ensures forall i :: 0 <= i < ChordCount ==> |ScaleRoots[i].name| == 1
  {
  }

  /** The pitch-class names are pairwise distinct, so a name identifies its pitch class. */
  lemma NoteNamesDistinct()
    ensures forall a, b :: 0 <= a < b < 12 ==> NoteNames[a] != NoteNames[b]
  {
  }
}
