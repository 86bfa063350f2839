/** Note events as sequencers emit them: `offset` is a sample position inside the current buffer. */
module Events {
  import opened Numbers
  import opened Sequences

  datatype EventKind = NoteOn | NoteOff | ControlChange

  datatype Event = Event(kind: EventKind, offset: nat, note: UInt8, velocity: UInt8)

  /** Adjacent on/off pairs of the same note, as a sequencer emits its hits. */
  predicate OnOffPairs(events: seq<Event>) {
    |events| % 2 == 0
    && forall k :: 0 <= k < |events| / 2 ==>
         && events[2 * k].kind == NoteOn && events[2 * k + 1].kind == NoteOff
         && events[2 * k].note == events[2 * k + 1].note
  }

  /** The same pairs seen from the back: every note-on directly follows a note-off of its note. */
  predicate OffOnPairs(events: seq<Event>) {
    |events| % 2 == 0
    && forall k :: 0 <= k < |events| / 2 ==>
         && events[2 * k].kind == NoteOff && events[2 * k + 1].kind == NoteOn
         && events[2 * k].note == events[2 * k + 1].note
  }

  /** What a sequencer emits as on/off pairs reads as off/on pairs from the back. */
  lemma {:induction false} ReversedPairs(events: seq<Event>)
    requires OnOffPairs(events)
    ensures OffOnPairs(Reverse(events))
  {
    var r, n := Reverse(events), |events|;
    forall k | 0 <= k < n / 2
      ensures r[2 * k].kind == NoteOff && r[2 * k + 1].kind == NoteOn && r[2 * k].note == r[2 * k + 1].note
    {
      var j := n / 2 - 1 - k;
      assert r[2 * k] == events[2 * j + 1] && r[2 * k + 1] == events[2 * j];
    }
  }
}
