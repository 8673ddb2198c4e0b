/**
 * The training loop's state machine: the target chord, the set of held keys
 * and the completion flag, updated by incoming MIDI messages and by the
 * metronome's beat. The random row drawn for each new chord is a parameter.
 */
module Session {
  import opened Theory
  import opened Chords
  import opened Midi

  datatype State = State(target: seq<int>, pressed: set<int>, completed: bool)

  /** The state before the first chord is drawn. */
  const Initial := State([], {}, false)

  /** Every note of the target is held. */
  predicate AllPressed(target: seq<int>, pressed: set<int>) {
    forall k :: 0 <= k < |target| ==> target[k] in pressed
  }

  /** The completion test: every target note held, and exactly three keys held in all. */
  function Completes(target: seq<int>, pressed: set<int>): (b: bool)
    ensures b ==> |pressed| == 3
    ensures b && DistinctTriad(target) ==> pressed == {target[0], target[1], target[2]}
  {
    var b := AllPressed(target, pressed) && |pressed| == 3;
    assert b && DistinctTriad(target) ==> pressed == {target[0], target[1], target[2]} by {
      if b && DistinctTriad(target) {
        var notes := {target[0], target[1], target[2]};
        assert |notes| == 3;
        assert notes <= pressed;
        SubsetOfSameSize(notes, pressed);
      }
    }
    b
  }

  /** Re-evaluates the match; the flag can be raised here but never lowered. */
  function CheckChord(s: State): (r: State)
    ensures r.target == s.target && r.pressed == s.pressed
    ensures s.completed ==> r.completed
    ensures Completes(s.target, s.pressed) ==> r.completed
    ensures r.completed ==> s.completed || Completes(s.target, s.pressed)
  {
    if Completes(s.target, s.pressed) then s.(completed := true) else s
  }

  /** Replaces the target with the chord of row `i` and releases every key; the flag is untouched. */
  function NewChord(s: State, i: nat): (r: State)
    requires i < ChordCount
    ensures r.target == GetRandomChord(i)
    ensures r.pressed == {}
    ensures r.completed == s.completed
  {
    State(GetRandomChord(i), {}, s.completed)
  }

  /** The session as it stands once the app has started and drawn row `i`. */
  function Start(i: nat): (r: State)
    requires i < ChordCount
    ensures r.target == GetRandomChord(i) && r.pressed == {} && !r.completed
  {
    NewChord(Initial, i)
  }

  /** One incoming MIDI message: update the held keys, then re-evaluate the match. */
  function HandleMidiMessage(s: State, data: seq<byte>): (r: State)
    ensures r.target == s.target
    ensures |data| >= 3 && data[0] == NoteOnStatus && data[2] > 0 ==>
              r.pressed == s.pressed + {data[1]}
    ensures |data| >= 2 && data[0] == NoteOffStatus ==> r.pressed == s.pressed - {data[1]}
    ensures |data| >= 3 && data[0] == NoteOnStatus && data[2] == 0 ==>
              r.pressed == s.pressed - {data[1]}
    ensures (|data| == 0 || (data[0] != NoteOnStatus && data[0] != NoteOffStatus)) ==>
              r.pressed == s.pressed
    ensures s.completed ==> r.completed
    ensures Completes(r.target, r.pressed) ==> r.completed
    ensures r.completed ==> s.completed || Completes(r.target, r.pressed)
  {
    CheckChord(s.(pressed := Apply(s.pressed, Decode(data))))
  }

  /**
   * The metronome beat: a completed chord is replaced by the chord of row `i`
   * with the flag cleared; an unsolved chord stays as it is.
   */
  function Tick(s: State, i: nat): (r: State)
    requires i < ChordCount
    ensures s.completed ==> !r.completed && r.pressed == {} && r.target == GetRandomChord(i)
    ensures !s.completed ==> r == s
  {
    if s.completed then NewChord(s.(completed := false), i) else s
  }

  /** Receiving the same message twice in a row has the effect of receiving it once. */
  lemma HandleIdempotent(s: State, data: seq<byte>)
    ensures HandleMidiMessage(HandleMidiMessage(s, data), data) == HandleMidiMessage(s, data)
  {
    ApplyIdempotent(s.pressed, Decode(data));
  }

  /** Releasing a key that is not held leaves the held keys as they were. */
  lemma ReleaseOfUnheldKey(s: State, n: byte, velocity: byte)
    requires n !in s.pressed
    ensures HandleMidiMessage(s, [NoteOffStatus, n, velocity]).pressed == s.pressed
    ensures HandleMidiMessage(s, [NoteOnStatus, n, 0]).pressed == s.pressed
  {
  }

  /** A subset as large as its superset is the superset. */
  lemma SubsetOfSameSize(a: set<int>, b: set<int>)
    requires a <= b && |a| == |b|
    ensures a == b
  {
    assert |b - a| == |b| - |a|;
  }

  /**
   * For a target of three different notes, the completion test is set
   * equality: the held keys are exactly the target's notes, no fewer and no more.
   */
  lemma MatchIsSetEquality(target: seq<int>, pressed: set<int>)
    requires DistinctTriad(target)
    ensures Completes(target, pressed) <==> pressed == {target[0], target[1], target[2]}
  {
    if pressed == {target[0], target[1], target[2]} {
      assert forall k :: 0 <= k < 3 ==> target[k] in pressed;
    }
  }

  /** Holding one key beyond the target's notes blocks completion. */
  lemma ExtraNoteBlocks(target: seq<int>, pressed: set<int>, extra: int)
    requires DistinctTriad(target)
    requires {target[0], target[1], target[2]} <= pressed
    requires extra in pressed && extra !in {target[0], target[1], target[2]}
    ensures !Completes(target, pressed)
  {
    MatchIsSetEquality(target, pressed);
  }

  /** The session invariant: the target is one of the seven lifted triads. */
  predicate Valid(s: State) {
    exists i :: 0 <= i < ChordCount && s.target == GetRandomChord(i)
  }

  /** In a valid state the chord name on display is a real one, never "Unknown". */
  lemma ValidShowsName(s: State)
    requires Valid(s)
    ensures GetChordName(s.target) != "Unknown"
  {
    UnknownIff(s.target);
  }

  lemma StartValid(i: nat)
    requires i < ChordCount
    ensures Valid(Start(i))
  {
  }

  /** Messages, beats and restarts keep the target one of the lifted triads. */
  lemma StepsPreserveValid(s: State, data: seq<byte>, i: nat)
    requires Valid(s) && i < ChordCount
    ensures Valid(HandleMidiMessage(s, data))
    ensures Valid(Tick(s, i))
    ensures Valid(NewChord(s, i))
  {
  }

  /** A valid state's target has three different notes. */
  lemma ValidTargetDistinct(s: State)
    requires Valid(s)
    ensures DistinctTriad(s.target)
  {
    var i :| 0 <= i < ChordCount && s.target == GetRandomChord(i);
    LiftedRowFacts(i);
  }

  /**
   * For a target of three different notes (as every valid state has), a
   * message sets the flag exactly when, afterwards, the held keys are the
   * target's notes as a set, or when the flag was already set.
   */
  lemma CompletionOnSetEquality(s: State, data: seq<byte>)
    requires DistinctTriad(s.target)
    ensures var r := HandleMidiMessage(s, data);
              r.completed <==>
                s.completed || r.pressed == {s.target[0], s.target[1], s.target[2]}
  {
    MatchIsSetEquality(s.target, HandleMidiMessage(s, data).pressed);
  }

  /**
   * The events the session reacts to: a MIDI message, a metronome beat, or a
   * (re)start of the app. The app start is registered for both the click and
   * the touch gesture, so on a touch device it can run twice, drawing a fresh
   * chord from whatever state the session is in. Beats and starts carry the
   * row drawn for them.
   */
  datatype Event = Message(data: seq<byte>) | Beat(draw: nat) | Restart(draw: nat)

  predicate DrawsInRange(events: seq<Event>) {
    forall k :: 0 <= k < |events| ==> (!events[k].Message? ==> events[k].draw < ChordCount)
  }

  /** Only MIDI messages, no beat and no restart. */
  predicate MessagesOnly(events: seq<Event>) {
    forall k :: 0 <= k < |events| ==> events[k].Message?
  }

  function Step(s: State, e: Event): State
    requires !e.Message? ==> e.draw < ChordCount
  {
    match e
    case Message(data) => HandleMidiMessage(s, data)
    case Beat(i) => Tick(s, i)
    case Restart(i) => NewChord(s, i)
  }

  /** Processes events strictly in arrival order. */
  function Run(s: State, events: seq<Event>): State
    requires DrawsInRange(events)
    decreases |events|
  {
    if |events| == 0 then s else Run(Step(s, events[0]), events[1..])
  }

  /** Any interleaving of messages, beats and restarts keeps the target one of the lifted triads. */
  lemma {:induction false} RunPreservesValid(s: State, events: seq<Event>)
    requires Valid(s) && DrawsInRange(events)
    ensures Valid(Run(s, events))
    decreases |events|
  {
    if |events| > 0 {
      var e := events[0];
      var next := Step(s, e);
      assert Valid(next) by {
        if e.Message? {
          StepsPreserveValid(s, e.data, 0);
        } else {
          StepsPreserveValid(s, [], e.draw);
        }
      }
      TailDrawsInRange(events);
      RunPreservesValid(next, events[1..]);
    }
  }

  lemma TailDrawsInRange(events: seq<Event>)
    requires |events| > 0 && DrawsInRange(events)
    ensures DrawsInRange(events[1..])
    ensures MessagesOnly(events) ==> MessagesOnly(events[1..])
  {
    forall k | 0 <= k < |events| - 1
      ensures events[1..][k] == events[k + 1]
    {
    }
  }

  /** Once completed, the flag and the target survive any run of messages until the next beat. */
  lemma {:induction false} LatchedUntilTick(s: State, events: seq<Event>)
    requires s.completed && MessagesOnly(events)
    ensures Run(s, events).completed
    ensures Run(s, events).target == s.target
    decreases |events|
  {
    if |events| > 0 {
      TailDrawsInRange(events);
      LatchedUntilTick(Step(s, events[0]), events[1..]);
    }
  }

  /** A run of messages never changes the target, whatever the flag. */
  lemma {:induction false} MessagesKeepTarget(s: State, events: seq<Event>)
    requires MessagesOnly(events)
    ensures Run(s, events).target == s.target
    decreases |events|
  {
    if |events| > 0 {
      TailDrawsInRange(events);
      MessagesKeepTarget(Step(s, events[0]), events[1..]);
    }
  }

  /** Example: pressing C, E and G on a C major target completes it on the third key only. */
  lemma PressingCMajor()
    ensures var s0 := State([60, 64, 67], {}, false);
            var s1 := HandleMidiMessage(s0, [NoteOnStatus, 60, 100]);
            var s2 := HandleMidiMessage(s1, [NoteOnStatus, 64, 100]);
            var s3 := HandleMidiMessage(s2, [NoteOnStatus, 67, 100]);
            !s1.completed && !s2.completed && s3.completed
  {
    var s0 := State([60, 64, 67], {}, false);
    var s1 := HandleMidiMessage(s0, [NoteOnStatus, 60, 100]);
    var s2 := HandleMidiMessage(s1, [NoteOnStatus, 64, 100]);
    var s3 := HandleMidiMessage(s2, [NoteOnStatus, 67, 100]);
    assert s1.pressed == {60};
    assert s2.pressed == {60, 64};
    assert s3.pressed == {60, 64, 67};
    assert 67 !in s2.pressed;
    assert |s3.pressed| == 3;
  }

  /** Example: the beat after a completed C major draws the next chord and starts afresh. */
  lemma BeatAfterCompletion()
    ensures var r := Tick(State([60, 64, 67], {60, 64, 67}, true), 1);
            r.target == [62, 65, 69] && r.pressed == {} && !r.completed
  {
    LiftedTable();
  }
}
