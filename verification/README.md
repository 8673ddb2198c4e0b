# Chord trainer: a Dafny model of the training loop

The program is a browser chord-training aid. It shows a target triad drawn at
random from the seven diatonic triads of C major in octave 4, and listens to a
MIDI keyboard. It marks the chord as completed once exactly the target's three
keys are held. On the next metronome click it draws a new chord.

The model covers the whole non-glue logic of `main.js`:

- `theory.dfy` (module `Theory`): the pitch-class name table and the triad table.
- `chords.dfy` (module `Chords`): lifting a triad into octave 4, the random draw
  (with the drawn row as a parameter), and naming a chord by an ordered lookup.
- `notation.dfy` (module `Notation`): the name-and-octave form of a MIDI note
  (`midiToName`) and the lower-case key string built for the staff renderer.
  Each comes with a parser or a characterisation that it is proved against.
  `midiToName` is a utility with no caller in `main.js`; the name-and-octave
  form is not shown anywhere.
- `decimal.dfy` (module `Decimal`): JavaScript's decimal rendering of an integer
  concatenated to a string, and its parser.
- `midi.dfy` (module `Midi`): reading a raw MIDI message as Note On or Note Off
  on channel 1 (status bytes 0x90 and 0x80 of MIDI 1.0), with velocity-0 Note On
  read as Note Off.
- `session.dfy` (module `Session`): the state (`targetChord`, `pressedNotes`,
  `chordCompleted`) and its transitions. These are a MIDI message followed by
  `checkChord`, the metronome beat, and the start of the session, plus runs of
  interleaved events.
- `wrappers.dfy` (module `Wrappers`): an `Option` type for the parsers.

Every transition is a pure function from state to state. The game-state
variables `targetChord`, `pressedNotes` and `chordCompleted` (main.js:15, 16,
19) become the fields of `Session.State`; `audioCtx` and `metronomeInterval`
(main.js:17-18) are not modelled (see "## Left out").

## Notes on the code

- `targetChord` starts as `[]` (main.js:15), and `[].every(...)` is true. So
  with an empty target, any three held keys would complete the chord. This
  cannot happen: `newChord` runs in `initApp` (main.js:32) before the
  asynchronous MIDI handlers are installed (main.js:26-28).
  `Session.CheckChord` keeps the code's test, and `Session.Valid` (the target
  is a lifted triad) holds from `Session.Start` on.
- `newChord` leaves `chordCompleted` alone. The beat handler clears the flag
  before it calls `newChord` (main.js:131-133). `Session.NewChord` and
  `Session.Tick` follow this.
- `initApp` is registered for both `click` and `touchstart` (main.js:147-148),
  each once. On a touch device it can therefore run twice, and the second
  `newChord` starts from a running session and keeps its flag. This is the
  `Restart` event of `Session.Run`, which `Session.RunPreservesValid` covers.
- The only chord source is the fixed table of seven C-major triads.

## Model

| member | source | states |
|---|---|---|
| Theory.TableShape | main.js:3-12 | 12 note names; 7 table rows; each row has 3 pitch classes in 0..11 and is named after the name of its first pitch class |
| Theory.RootsAreNatural | main.js:4-12 | every row's root is a white key, and its name is one letter |
| Theory.NoteNamesDistinct | main.js:3 | the 12 sharp-spelled names are pairwise different |
| Chords.Lift | main.js:43 | lifting keeps the length and the order, and adds 60 to each element |
| Chords.GetRandomChord | main.js:40-44 | the chord drawn from row i has 3 notes in 60..71, each equal to the row's pitch class plus 60, in the row's order |
| Chords.LiftedTable | main.js:40-44 | the seven drawn chords written out; F major is [65,69,60] |
| Chords.LiftedDistinct | main.js:4-12 | different rows give different drawn chords |
| Chords.LiftedRowFacts | main.js:4-12 | each drawn chord has three different notes, and its first note's name is the row's name |
| Chords.DisplayKind | main.js:50 | the "dim" special case of the display ternary is the identity on the chord type |
| Chords.Label | main.js:50 | a row's label is its name, a space and its type, with the one-letter root name first |
| Chords.LabelsDistinct | main.js:50 | different rows have different labels |
| Chords.LabelNotUnknown | main.js:50-52 | no row's label is the "Unknown" fallback |
| Chords.FindRow | main.js:47-51 | the scan finds the first row whose lifted triad equals the chord element by element; it finds none exactly when no row from there on matches |
| Chords.GetChordName | main.js:46-53 | the name is either "Unknown" or one row's label "name type" |
| Chords.UnknownIff | main.js:46-53 | the name is "Unknown" if and only if the chord equals, in order, none of the seven drawn chords |
| Chords.NameRoundTrip | main.js:46-50 | naming the chord drawn from row i gives row i's name, a space and row i's type |
| Chords.NameDeterminesChord | main.js:46-50 | a chord that receives row i's label is exactly row i's drawn chord |
| Chords.NameOfTonic | main.js:50 | [60,64,67] is named "C major" |
| Chords.NameOfSupertonic | main.js:50 | [62,65,69] is named "D minor" |
| Chords.NameOfLeadingTone | main.js:50 | [71,62,65] is named "B dim" |
| Chords.ReorderedIsUnknown | main.js:47-52 | the lookup is order-sensitive: [60,65,69], F major reordered, is "Unknown" |
| Chords.FMajorNotAscending | main.js:8 | the drawn F major chord is not in ascending order |
| Decimal.NatToString | main.js:37 | a natural number renders as a non-empty digit string with no leading zero |
| Decimal.IntToString | main.js:37 | an integer renders with a leading '-' exactly when it is negative, digits elsewhere |
| Decimal.IntRoundTrip | main.js:37 | parsing the rendered form of any integer gives the integer back |
| Notation.OctaveOf | main.js:37 | the octave `Math.floor(n/12)-1` is the o with 12(o+1) <= n < 12(o+2), and is at least -1 |
| Notation.MidiToName | main.js:36-38 | the name-and-octave string has at least two characters |
| Notation.NoteNameShape | main.js:3 | a note name is one letter, and has a second character '#' exactly for the five black keys |
| Notation.MidiNameRoundTrip | main.js:36-38 | the name-and-octave form of every note n >= 0 parses back to n, so pitch class and octave n/12-1 are both recoverable |
| Notation.MidiNameExamples | main.js:36-38 | 60 is "C4", 0 is "C-1", 69 is "A4" |
| Notation.Lower | main.js:68 | lower-casing keeps the length and changes only the letters A..Z |
| Notation.VexKey | main.js:67-71 | the staff key is the lower-cased note name, '/', then the octave n/12-1 in decimal; it contains '#' exactly for black keys (the test of line 75) |
| Notation.VexKeyOctave | main.js:69-70 | the part after the '/' parses back to the note's octave n/12-1 |
| Notation.ChordKeys | main.js:67-71 | one key per chord note, in the chord's order |
| Notation.GeneratedKeysInOctaveFour | main.js:67-71 | every note of a drawn chord gets the key "lower-case name/4" |
| Midi.Decode | main.js:102-104 | a message is a key press exactly when its status is 0x90 and its velocity is positive; it is a release exactly when its status is 0x80 with a key byte, or 0x90 with velocity 0; both carry the key in the second byte |
| Midi.DecodeEncode | main.js:103-104 | decoding the three-byte message of a Note On (velocity > 0) or Note Off gives that event back |
| Midi.ZeroVelocityIsNoteOff | main.js:104 | Note On with velocity 0 decodes exactly as Note Off does |
| Midi.OnlyChannelOne | main.js:103-104 | any status other than 0x90 and 0x80 is ignored, so note messages on channels 2 to 16 are ignored too |
| Midi.Apply | main.js:103-104 | a press puts the key in the held set and a release takes it out; no other key changes; an ignored message changes nothing |
| Midi.ApplyIdempotent | main.js:103-104 | applying the same event twice equals applying it once |
| Midi.ApplyNoop | main.js:103-104 | pressing a held key, or releasing a key that is not held, changes nothing |
| Session.Completes | main.js:94-95 | the completion test holds only with exactly three keys held; for a target of three different notes it then means the held keys are exactly the target's notes |
| Session.CheckChord | main.js:93-98 | the flag is raised when the test holds, is never lowered, and is raised only by the test |
| Session.NewChord | main.js:86-88 | the new target is the drawn row's chord, all keys are released, and the flag is left as it was |
| Session.Start | main.js:32 | from the initial state of lines 15-19, the session starts on the drawn chord with no keys held and the flag clear |
| Session.HandleMidiMessage | main.js:101-107 | press (0x90, velocity > 0) adds the key; 0x80, or 0x90 with velocity 0, removes it; any other status keeps the held set; the target never changes; the flag latches, is set whenever the test holds afterwards, and is set only then |
| Session.Tick | main.js:131-134 | a completed chord is replaced by the drawn chord, with keys released and the flag cleared; otherwise all three fields are unchanged |
| Session.LatchedUntilTick | main.js:93-98 | once set, the flag and the target survive any run of MIDI messages |
| Session.MessagesKeepTarget | main.js:101-107 | a run of MIDI messages never changes the target |
| Session.HandleIdempotent | main.js:103 | the same message received twice in a row acts as once, on the whole state |
| Session.ReleaseOfUnheldKey | main.js:104 | releasing a key that is not held, by 0x80 or by velocity-0 0x90, leaves the held set unchanged |
| Session.MatchIsSetEquality | main.js:94-95 | for a target of three different notes, the test holds if and only if the held set equals the target's notes as a set |
| Session.ExtraNoteBlocks | main.js:95 | holding a key beyond the target's notes blocks completion |
| Session.ValidShowsName | main.js:88-89 | while the target is a drawn chord, the name on display is never "Unknown" |
| Session.StartValid | main.js:32 | the started session's target is a drawn chord |
| Session.StepsPreserveValid | main.js:86-134 | messages, beats and calls of newChord keep the target a drawn chord |
| Session.RunPreservesValid | main.js:86-134 | any interleaving of messages, beats and restarts, processed in order, keeps the target a drawn chord |
| Session.ValidTargetDistinct | main.js:4-12 | in every valid state the target has three different notes |
| Session.CompletionOnSetEquality | main.js:101-107 | for a target of three different notes, the flag is set after a message exactly when it was already set or the held set equals the target's notes |
| Session.PressingCMajor | main.js:101-107 | on target [60,64,67], pressing 60, 64 and 67 completes on the third press, not before |
| Session.BeatAfterCompletion | main.js:131-134 | the beat after a completed C major, with row 1 drawn, yields target [62,65,69], no keys held, flag clear |

## Left out

- The metronome click sound in `playClick` (main.js:111-129) is not modelled. It is Web Audio synthesis with floating-point noise and gain ramps.
- The `if(!audioCtx) return` guard of `playClick` (main.js:112) is not modelled. The metronome can start before `initApp`, because the BPM change listener (main.js:142-144) is installed at page load. Beats before `initApp` return at line 112 with no audio context. That is harmless: MIDI handlers exist only after `initApp` (main.js:26-28), so the flag is still clear, and `Session.Tick` with the flag clear changes nothing.
- MIDI device access and handler registration in `initApp` (main.js:22-33) are not modelled. They are asynchronous browser I/O. `Session.Start` models only the `newChord` call at line 32.
- Staff drawing by the notation library in `drawChordSheet` (main.js:56-83) is not modelled, apart from the key strings of lines 67-71. Accidentals and highlighting (lines 74-77) are library calls; only the '#' test they rely on is stated, in `Notation.VexKey`.
- `handleMidiMessage` calls `drawChordSheet` (main.js:106) before `checkChord` (main.js:107). If the rendering library or a DOM lookup throws, the match test is skipped for that message. The model assumes these foreign calls return normally.
- DOM reads and writes (status text, chord name text, BPM input) and `setInterval` scheduling in `startMetronome`, with the `metronomeInterval` handle it keeps, are not modelled. They are UI and timer plumbing.
- `Math.random` is not modelled. The drawn row is the parameter `i < 7` of `GetRandomChord`, `NewChord`, `Start` and `Tick`, and the `draw` of the `Beat` and `Restart` events.
- Notation.MidiToName: defined for n >= 0 only. `midiToName` has no caller in `main.js`. For a negative n that is not a multiple of 12, JavaScript's `%` gives a negative index, and the table lookup yields `undefined` (`midiToName(-1)` is "undefined-2"). For a negative multiple of 12, `-0` reads entry 0 (`midiToName(-12)` is "C-2").
- Notation.VexKey: defined for n >= 0 only. The key strings of lines 67-71 are only ever built for drawn chords, whose notes lie in 60..71.
- Notation.ChordKeys: takes a sequence of non-negative notes, for the same reason as `Notation.VexKey`.
- Notation.Lower: lower-cases the ASCII letters A..Z only, whereas `toLowerCase` covers all of Unicode. The two agree on the twelve ASCII note names, which are the only strings it is applied to.
- JavaScript numbers are doubles. The model uses unbounded integers, which agree with them on every value that occurs: bytes and small sums.
