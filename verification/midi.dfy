/**
 * Reading of incoming MIDI messages. Only the two channel-voice messages of
 * MIDI 1.0 that carry key presses are recognised, and only on channel 1:
 * Note On (status 0x90) and Note Off (status 0x80). A Note On with velocity 0
 * is the conventional shorthand for Note Off. The message arrives as raw
 * bytes; a message shorter than three bytes leaves the missing fields
 * undefined, which is neither equal to nor greater than any number.
 */
module Midi {

  type byte = x: int | 0 <= x < 256

  /** Note On, channel 1. */
  const NoteOnStatus: byte := 0x90
  /** Note Off, channel 1. */
  const NoteOffStatus: byte := 0x80

  /** What a message means for the set of held keys. */
  datatype NoteEvent = NoteOn(note: byte) | NoteOff(note: byte) | Ignored

  /** Classifies a message from its status, key and velocity bytes. */
  function Decode(data: seq<byte>): (e: NoteEvent)
    ensures e.NoteOn? <==> |data| >= 3 && data[0] == NoteOnStatus && data[2] > 0
    ensures e.NoteOff? <==>
              (|data| >= 2 && data[0] == NoteOffStatus) ||
              (|data| >= 3 && data[0] == NoteOnStatus && data[2] == 0)
    ensures !e.Ignored? ==> e.note == data[1]
  {
    if |data| >= 3 && data[0] == NoteOnStatus && data[2] > 0 then NoteOn(data[1])
    else if |data| >= 2 && data[0] == NoteOffStatus then NoteOff(data[1])
    else if |data| >= 3 && data[0] == NoteOnStatus && data[2] == 0 then NoteOff(data[1])
    else Ignored
  }

  /** The three-byte message a keyboard sends for an event, at the given velocity. */
  function Encode(e: NoteEvent, velocity: byte): seq<byte> {
    match e
    case NoteOn(n) => [NoteOnStatus, n, velocity]
    case NoteOff(n) => [NoteOffStatus, n, velocity]
    case Ignored => []
  }

  /** Decoding undoes encoding, for every key and every velocity a Note On can carry. */
  lemma DecodeEncode(e: NoteEvent, velocity: byte)
    requires e.NoteOn? ==> velocity > 0
    ensures Decode(Encode(e, velocity)) == e
  {
  }

  /** A Note On with velocity 0 releases the key, exactly as a Note Off does. */
  lemma ZeroVelocityIsNoteOff(n: byte, velocity: byte)
    ensures Decode([NoteOnStatus, n, 0]) == NoteOff(n)
    ensures Decode([NoteOnStatus, n, 0]) == Decode([NoteOffStatus, n, velocity])
  {
  }

  /** Note messages on channels 2 to 16, and every other status, are ignored. */
  lemma OnlyChannelOne(data: seq<byte>)
    requires |data| >= 1 && data[0] != NoteOnStatus && data[0] != NoteOffStatus
    ensures Decode(data) == Ignored
  {
  }

  /** The held-key set after an event. */
  function Apply(pressed: set<int>, e: NoteEvent): (r: set<int>)
    ensures e.NoteOn? ==> e.note in r
    ensures e.NoteOff? ==> e.note !in r
    ensures e.Ignored? ==> r == pressed
    ensures forall x :: (e.Ignored? || x != e.note) ==> (x in r <==> x in pressed)
  {
    match e
    case NoteOn(n) => pressed + {n}
    case NoteOff(n) => pressed - {n}
    case Ignored => pressed
  }

  /** Receiving the same event twice has the effect of receiving it once. */
  lemma ApplyIdempotent(pressed: set<int>, e: NoteEvent)
    ensures Apply(Apply(pressed, e), e) == Apply(pressed, e)
  {
  }

  /** Pressing a held key, or releasing a key that is not held, changes nothing. */
  lemma ApplyNoop(pressed: set<int>, e: NoteEvent)
    requires e.NoteOn? ==> e.note in pressed
    requires e.NoteOff? ==> e.note !in pressed
    ensures Apply(pressed, e) == pressed
  {
  }
}
