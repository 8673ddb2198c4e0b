/**
 * Textual forms of a MIDI note number: the name-and-octave form (`C4`) and the
 * lower-case key string handed to the staff renderer (`c/4`). Octave 4 starts
 * at MIDI 60, so MIDI 0 is C in octave -1.
 */
module Notation {
  import opened Wrappers
  import opened Decimal
  import opened Theory
  import opened Chords

  /** Octave number of a MIDI note, with 60..71 in octave 4. */
  function OctaveOf(n: nat): (o: int)
    ensures o >= -1
    ensures (o + 1) * 12 <= n < (o + 2) * 12
  {
    n / 12 - 1
  }

  /** Name and octave of a MIDI note, e.g. "C4" for 60 and "A#-1" for 10. */
  function MidiToName(n: nat): (r: string)
    ensures 2 <= |r|
  {
    NoteNames[n % 12] + IntToString(OctaveOf(n))
  }

  /** A sharp-spelled name is one letter, optionally followed by '#'. */
  lemma NoteNameShape(k: nat)
    requires k < 12
    ensures 1 <= |NoteNames[k]| <= 2
    ensures NoteNames[k][0] != '#' && NoteNames[k][0] != '-' && !IsDigit(NoteNames[k][0])
    ensures |NoteNames[k]| == 2 <==> IsBlackKey(k)
    ensures |NoteNames[k]| == 2 ==> NoteNames[k][1] == '#'
  {
  }

  /** Index of `name` in the pitch-class table, scanning from `k`. */
  function IndexFrom(name: string, k: nat): (r: Option<nat>)
    requires k <= 12
    ensures r.Some? ==> k <= r.value < 12 && NoteNames[r.value] == name
    ensures r.None? ==> forall j :: k <= j < 12 ==> NoteNames[j] != name
    decreases 12 - k
  {
    if k == 12 then None
    else if NoteNames[k] == name then Some(k)
    else IndexFrom(name, k + 1)
  }

  /** Reads back a name-and-octave string; None when it is not one. */
  function ParseMidiName(s: string): (r: Option<nat>)
    ensures r.Some? ==> 2 <= |s|
  {
    if |s| < 2 then None
    else
      var nameLen := if s[1] == '#' then 2 else 1;
      match IndexFrom(s[..nameLen], 0)
      case None => None
      case Some(pc) =>
        match ParseInt(s[nameLen..])
        case None => None
        case Some(octave) =>
          var n := (octave + 1) * 12 + pc;
          if n < 0 then None else Some(n)
  }

  /** Rendering a note as name and octave loses nothing: it parses back to the same note. */
  lemma MidiNameRoundTrip(n: nat)
    ensures ParseMidiName(MidiToName(n)) == Some(n)
  {
    var name := NoteNames[n % 12];
    var octave := IntToString(OctaveOf(n));
    var s := MidiToName(n);
    NoteNameShape(n % 12);
    NoteNamesDistinct();
    assert s == name + octave;
    assert octave[0] != '#' by {
      if OctaveOf(n) >= 0 {
        assert IsDigit(octave[0]);
      }
    }
    var nameLen := if s[1] == '#' then 2 else 1;
    assert nameLen == |name|;
    assert s[..nameLen] == name;
    assert s[nameLen..] == octave;
    IntRoundTrip(OctaveOf(n));
    assert IndexFrom(name, 0) == Some(n % 12);
    assert (OctaveOf(n) + 1) * 12 + n % 12 == n;
  }

  /** Examples: middle C, the lowest MIDI note and concert A. */
  lemma MidiNameExamples()
    ensures MidiToName(60) == "C4"
    ensures MidiToName(0) == "C-1"
    ensures MidiToName(69) == "A4"
  {
    assert IntToString(4) == "4";
    assert IntToString(-1) == "-1";
  }

  function LowerChar(c: char): (d: char)
    ensures 'A' <= c <= 'Z' ==> 'a' <= d <= 'z' && d as int - c as int == 32
    ensures !('A' <= c <= 'Z') ==> d == c
  {
    if 'A' <= c <= 'Z' then (c as int + 32) as char else c
  }

  /** Lower-cases the ASCII letters of a string, leaving every other character. */
  function Lower(s: string): (r: string)
    ensures |r| == |s|
    ensures forall k :: 0 <= k < |s| ==> r[k] == LowerChar(s[k])
  {
    if |s| == 0 then [] else [LowerChar(s[0])] + Lower(s[1..])
  }

  /** The staff renderer's key for a note: lower-case name, '/', octave (e.g. "c#/4"). */
  function VexKey(n: nat): (r: string)
    ensures '#' in r <==> IsBlackKey(n % 12)
    ensures |r| >= 3 && r[|NoteNames[n % 12]|] == '/'
    ensures r[..|NoteNames[n % 12]|] == Lower(NoteNames[n % 12])
    ensures r[|NoteNames[n % 12]| + 1..] == IntToString(OctaveOf(n))
  {
    var name := NoteNames[n % 12];
    var octave := IntToString(OctaveOf(n));
    NoteNameShape(n % 12);
    var r := Lower(name) + "/" + octave;
    assert forall k :: 0 <= k < |octave| ==> octave[k] != '#' by {
      forall k | 0 <= k < |octave|
        ensures octave[k] != '#'
      {
        if k > 0 || OctaveOf(n) >= 0 {
          assert IsDigit(octave[k]);
        }
      }
    }
    assert IsBlackKey(n % 12) ==> r[1] == '#';
    r
  }

  /** The octave part of every key parses back to the note's octave. */
  lemma VexKeyOctave(n: nat)
    ensures ParseInt(VexKey(n)[|NoteNames[n % 12]| + 1..]) == Some(OctaveOf(n))
  {
    IntRoundTrip(OctaveOf(n));
  }

  /** The keys of a chord, one per note, in the chord's order. */
  function ChordKeys(chord: seq<nat>): (keys: seq<string>)
    ensures |keys| == |chord|
    ensures forall k :: 0 <= k < |chord| ==> keys[k] == VexKey(chord[k])
  {
    if |chord| == 0 then [] else [VexKey(chord[0])] + ChordKeys(chord[1..])
  }

  /** Every note of a generated chord is drawn in octave 4, under its table pitch-class name. */
  lemma GeneratedKeysInOctaveFour(i: nat, k: nat)
    requires i < ChordCount && k < 3
    ensures VexKey(GetRandomChord(i)[k]) == Lower(NoteNames[ScaleRoots[i].notes[k]]) + "/4"
  {
    var n := GetRandomChord(i)[k];
    TableShape();
    assert n % 12 == ScaleRoots[i].notes[k];
    assert OctaveOf(n) == 4;
    assert IntToString(4) == "4";
  }
}
