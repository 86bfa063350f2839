/** The synthesizer's voices: a fixed pool of voice objects, the list of those in use, and the instrument's pass. */
module Voices {
  import opened Numbers
  import opened Sequences
  import opened Options
  import opened Events
  import opened Ports

  datatype VoiceState = Active | Released | Inactive

  class Voice {
    var state: VoiceState
    var noteNumber: int
    var velocity: real

    constructor ()
      ensures state == Inactive && noteNumber == -1 && velocity == 0.0
    {
      state, noteNumber, velocity := Inactive, -1, 0.0;
    }

    method NoteOn(note: int, v: real)
      modifies this
      ensures state == Active && noteNumber == note && velocity == v
    {
      state, noteNumber, velocity := Active, note, v;
    }

    method NoteOff(note: int)
      modifies `state
      ensures state == if noteNumber == note then Released else old(state)
    {
      if noteNumber == note {
        state := Released;
      }
    }

    method SetState(s: VoiceState)
      modifies `state
      ensures state == s
    {
      state := s;
    }
  }

  // ----- the pool as a value -----

  datatype VoiceRecord = VoiceRecord(state: VoiceState, noteNumber: int, velocity: real)

  /** The pool after a note-on: the first inactive voice starts, if there is one. */
  function Struck(pool: seq<VoiceRecord>, note: int, velocity: real): (r: seq<VoiceRecord>)
    ensures |r| == |pool|
    decreases |pool|
  {
    if pool == [] then pool
    else if pool[0].state == Inactive then [VoiceRecord(Active, note, velocity)] + pool[1..]
    else [pool[0]] + Struck(pool[1..], note, velocity)
  }

  function NoteReleased(pool: seq<VoiceRecord>, note: int): (r: seq<VoiceRecord>)
    ensures |r| == |pool|
  {
    seq(|pool|, i requires 0 <= i < |pool| =>
      if pool[i].state == Active && pool[i].noteNumber == note then pool[i].(state := Released) else pool[i])
  }

  function Applied(pool: seq<VoiceRecord>, e: Event): (r: seq<VoiceRecord>)
    ensures |r| == |pool|
  {
    match e.kind
    case NoteOn => Struck(pool, e.note, e.velocity as real / 127.0)
    case NoteOff => NoteReleased(pool, e.note)
    case ControlChange => pool
  }

  function AllApplied(pool: seq<VoiceRecord>, events: seq<Event>): (r: seq<VoiceRecord>)
    ensures |r| == |pool|
    decreases |events|
  {
    if events == [] then pool else Applied(AllApplied(pool, events[..|events| - 1]), events[|events| - 1])
  }

  lemma {:induction false} StruckAt(pool: seq<VoiceRecord>, note: int, velocity: real, k: nat)
    requires k <= |pool| && forall j :: 0 <= j < k ==> pool[j].state != Inactive
    ensures k == |pool| ==> Struck(pool, note, velocity) == pool
    ensures k < |pool| && pool[k].state == Inactive ==>
              Struck(pool, note, velocity) == pool[k := VoiceRecord(Active, note, velocity)]
    decreases |pool|
  {
    if k > 0 {
      StruckAt(pool[1..], note, velocity, k - 1);
    }
  }

  lemma {:induction false} NothingApplied(pool: seq<VoiceRecord>, box: seq<Signal>)
    ensures AllApplied(pool, []) == pool && box[..|box|] == box && [] + DrainView(box) == DrainView(box)
  {
  }

  lemma {:induction false} AppliedNext(pool: seq<VoiceRecord>, seen: seq<Event>, e: Event)
    ensures AllApplied(pool, seen + [e]) == Applied(AllApplied(pool, seen), e)
  {
    assert (seen + [e])[..|seen|] == seen;
  }

  /** The pool after the last loop of a buffer: released voices whose signal was delivered become inactive. */
  function Retired(pool: seq<VoiceRecord>, delivers: seq<bool>): (r: seq<VoiceRecord>)
    requires |delivers| == |pool|
    ensures |r| == |pool|
  {
    seq(|pool|, i requires 0 <= i < |pool| =>
      if pool[i].state == Released && delivers[i] then pool[i].(state := Inactive) else pool[i])
  }

  // ----- one active voice per note -----

  ghost predicate Quiet(pool: seq<VoiceRecord>, note: int) {
    forall i :: 0 <= i < |pool| && pool[i].state == Active ==> pool[i].noteNumber != note
  }

  ghost predicate OneEach(pool: seq<VoiceRecord>) {
    forall i, j :: 0 <= i < j < |pool| && pool[i].state == Active && pool[j].state == Active ==>
      pool[i].noteNumber != pool[j].noteNumber
  }

  lemma {:induction false} StruckKeepsOneEach(pool: seq<VoiceRecord>, note: int, velocity: real)
    requires OneEach(pool) && Quiet(pool, note)
    ensures OneEach(Struck(pool, note, velocity))
  {
    var k := FirstInactive(pool);
    StruckAt(pool, note, velocity, k);
  }

  lemma {:induction false} FirstInactive(pool: seq<VoiceRecord>) returns (k: nat)
    ensures k <= |pool| && forall j :: 0 <= j < k ==> pool[j].state != Inactive
    ensures k < |pool| ==> pool[k].state == Inactive
    decreases |pool|
  {
    if pool == [] || pool[0].state == Inactive {
      k := 0;
    } else {
      k := FirstInactive(pool[1..]);
      assert forall j :: 0 < j < k + 1 ==> pool[j] == pool[1..][j - 1];
      k := k + 1;
    }
  }

  /** A note-off right before every note-on of its note keeps at most one voice of each note active. */
  lemma {:induction false} PairsKeepOneEach(pool: seq<VoiceRecord>, events: seq<Event>)
    requires OneEach(pool) && OffOnPairs(events)
    ensures OneEach(AllApplied(pool, events))
    decreases |events|
  {
    hide Struck;
    if events != [] {
      var n := |events| - 2;
      PairAt(events, n);
      PairAt(events, n + 1);
      assert events[..n + 1][..n] == events[..n];
      PairsKeepOneEach(pool, events[..n]);
      var released := NoteReleased(AllApplied(pool, events[..n]), events[n].note);
      assert AllApplied(pool, events[..n + 1]) == released;
      StruckKeepsOneEach(released, events[n + 1].note, events[n + 1].velocity as real / 127.0);
    }
  }

  // ----- which notes are lost -----

  function Free(pool: seq<VoiceRecord>): nat {
    if pool == [] then 0 else (if pool[0].state == Inactive then 1 else 0) + Free(pool[1..])
  }

  function NoteOns(events: seq<Event>): nat {
    if events == [] then 0
    else NoteOns(events[..|events| - 1]) + if events[|events| - 1].kind == NoteOn then 1 else 0
  }

  /** Note-ons that find every voice in use. */
  function LostNotes(pool: seq<VoiceRecord>, events: seq<Event>): nat
    decreases |events|
  {
    if events == [] then 0
    else
      var before, e := events[..|events| - 1], events[|events| - 1];
      LostNotes(pool, before)
      + if e.kind == NoteOn && forall v :: v in AllApplied(pool, before) ==> v.state != Inactive then 1 else 0
  }

  lemma {:induction false} StruckTakesOne(pool: seq<VoiceRecord>, note: int, velocity: real)
    ensures Free(Struck(pool, note, velocity)) == Max(0, Free(pool) - 1)
    ensures Free(pool) == 0 <==> forall v :: v in pool ==> v.state != Inactive
    decreases |pool|
  {
    if pool != [] {
      assert pool == [pool[0]] + pool[1..];
      StruckTakesOne(pool[1..], note, velocity);
    }
  }

  lemma {:induction false} ReleaseFreesNone(pool: seq<VoiceRecord>, note: int)
    ensures Free(NoteReleased(pool, note)) == Free(pool)
    decreases |pool|
  {
    if pool != [] {
      assert NoteReleased(pool, note)[1..] == NoteReleased(pool[1..], note);
      ReleaseFreesNone(pool[1..], note);
    }
  }

  /** No voice becomes free while a buffer's events are handled, so exactly the note-ons beyond the free voices are
      lost. */
  lemma {:induction false} LostNotesAreExcess(pool: seq<VoiceRecord>, events: seq<Event>)
    ensures LostNotes(pool, events) == Max(0, NoteOns(events) - Free(pool))
    ensures Free(AllApplied(pool, events)) == Max(0, Free(pool) - NoteOns(events))
    decreases |events|
  {
    hide Free, Struck, NoteReleased;
    if events != [] {
      var before, e := events[..|events| - 1], events[|events| - 1];
      LostNotesAreExcess(pool, before);
      StruckTakesOne(AllApplied(pool, before), e.note, e.velocity as real / 127.0);
      ReleaseFreesNone(AllApplied(pool, before), e.note);
    }
  }

  lemma {:induction false} PairedNoteOns(events: seq<Event>)
    requires OffOnPairs(events)
    ensures NoteOns(events) == |events| / 2
    decreases |events|
  {
    if events != [] {
      var n := |events| - 2;
      PairAt(events, n);
      PairAt(events, n + 1);
      assert events[..n + 1][..n] == events[..n];
      PairedNoteOns(events[..n]);
    }
  }

  /** Paired events lose a note exactly if there are more pairs in the buffer than free voices, even if all of them are
      of one note. */
  lemma {:induction false} PairsLoseNotesIff(pool: seq<VoiceRecord>, events: seq<Event>)
    requires OffOnPairs(events)
    ensures LostNotes(pool, events) > 0 <==> |events| / 2 > Free(pool)
  {
    PairedNoteOns(events);
    LostNotesAreExcess(pool, events);
  }

  // ----- how voices become free again -----

  function InState(pool: seq<VoiceRecord>, state: VoiceState): nat {
    if pool == [] then 0 else (if pool[0].state == state then 1 else 0) + InState(pool[1..], state)
  }

  /** Released voices that deliver their signal. */
  function Leaving(pool: seq<VoiceRecord>, delivers: seq<bool>): nat
    requires |delivers| == |pool|
  {
    if pool == [] then 0
    else (if pool[0].state == Released && delivers[0] then 1 else 0) + Leaving(pool[1..], delivers[1..])
  }

  /** The end of a buffer frees exactly the released voices that deliver; all others stay as they are. */
  lemma {:induction false} RetiringFrees(pool: seq<VoiceRecord>, delivers: seq<bool>)
    requires |delivers| == |pool|
    ensures Free(Retired(pool, delivers)) == Free(pool) + Leaving(pool, delivers)
    ensures InState(Retired(pool, delivers), Active) == InState(pool, Active)
    ensures InState(Retired(pool, delivers), Released) == InState(pool, Released) - Leaving(pool, delivers)
    decreases |pool|
  {
    if pool != [] {
      assert Retired(pool, delivers)[1..] == Retired(pool[1..], delivers[1..]);
      RetiringFrees(pool[1..], delivers[1..]);
    }
  }

  lemma {:induction false} RetiringKeepsOthers(pool: seq<VoiceRecord>, delivers: seq<bool>, i: nat)
    requires |delivers| == |pool| && i < |pool|
    ensures Retired(pool, delivers)[i].noteNumber == pool[i].noteNumber
    ensures Retired(pool, delivers)[i].velocity == pool[i].velocity
    ensures pool[i].state == Released && delivers[i] <==>
            Retired(pool, delivers)[i].state != pool[i].state && Retired(pool, delivers)[i].state == Inactive
    ensures !(pool[i].state == Released && delivers[i]) ==> Retired(pool, delivers)[i].state == pool[i].state
  {
  }

  lemma {:induction false} RetiredByState(pool: seq<VoiceRecord>, after: seq<VoiceRecord>, delivers: seq<bool>)
    requires |after| == |pool| == |delivers|
    requires forall i :: 0 <= i < |pool| ==>
               after[i] == if pool[i].state == Released && delivers[i] then pool[i].(state := Inactive) else pool[i]
    ensures after == Retired(pool, delivers)
  {
  }

  /** A released voice that retires leaves the active ones alone. */
  lemma {:induction false} RetiringKeepsOneEach(pool: seq<VoiceRecord>, delivers: seq<bool>)
    requires |delivers| == |pool| && OneEach(pool)
    ensures OneEach(Retired(pool, delivers))
  {
  }

  lemma {:induction false} StatesAddUp(pool: seq<VoiceRecord>)
    ensures Free(pool) == InState(pool, Inactive)
    ensures InState(pool, Active) + InState(pool, Released) + InState(pool, Inactive) == |pool|
    decreases |pool|
  {
    if pool != [] {
      StatesAddUp(pool[1..]);
    }
  }

  /** What the instrument handles in one buffer, and which voices deliver in it. */
  datatype Round = Round(events: seq<Event>, delivers: seq<bool>)

  function RoundPlayed(pool: seq<VoiceRecord>, r: Round): (after: seq<VoiceRecord>)
    requires |r.delivers| == |pool|
    ensures |after| == |pool|
  {
    Retired(AllApplied(pool, r.events), r.delivers)
  }

  ghost predicate Sized(rounds: seq<Round>, voices: nat) {
    forall k :: 0 <= k < |rounds| ==> |rounds[k].delivers| == voices
  }

  function RoundsPlayed(pool: seq<VoiceRecord>, rounds: seq<Round>): (after: seq<VoiceRecord>)
    requires Sized(rounds, |pool|)
    ensures |after| == |pool|
    decreases |rounds|
  {
    if rounds == [] then pool
    else RoundPlayed(RoundsPlayed(pool, rounds[..|rounds| - 1]), rounds[|rounds| - 1])
  }

  function RoundsLose(pool: seq<VoiceRecord>, rounds: seq<Round>): nat
    requires Sized(rounds, |pool|)
    decreases |rounds|
  {
    if rounds == [] then 0
    else
      var before := rounds[..|rounds| - 1];
      RoundsLose(pool, before) + LostNotes(RoundsPlayed(pool, before), rounds[|rounds| - 1].events)
  }

  /** Every voice that is released when the buffer ends delivers its signal. */
  ghost predicate AllLeave(pool: seq<VoiceRecord>, r: Round)
    requires |r.delivers| == |pool|
  {
    forall i :: 0 <= i < |pool| && AllApplied(pool, r.events)[i].state == Released ==> r.delivers[i]
  }

  ghost predicate AlwaysLeave(pool: seq<VoiceRecord>, rounds: seq<Round>)
    requires Sized(rounds, |pool|)
  {
    forall k :: 0 <= k < |rounds| ==> AllLeave(RoundsPlayed(pool, rounds[..k]), rounds[k])
  }

  lemma {:induction false} LeavingIsReleased(pool: seq<VoiceRecord>, delivers: seq<bool>)
    requires |delivers| == |pool| && forall i :: 0 <= i < |pool| && pool[i].state == Released ==> delivers[i]
    ensures Leaving(pool, delivers) == InState(pool, Released)
    decreases |pool|
  {
    if pool != [] {
      LeavingIsReleased(pool[1..], delivers[1..]);
    }
  }

  /** Between buffers of such a run every voice is free or held by a note that is on. */
  lemma {:induction false} NoneStaysReleased(pool: seq<VoiceRecord>, rounds: seq<Round>)
    requires Sized(rounds, |pool|) && InState(pool, Released) == 0 && AlwaysLeave(pool, rounds)
    ensures Free(RoundsPlayed(pool, rounds)) == |pool| - InState(RoundsPlayed(pool, rounds), Active)
    decreases |rounds|
  {
    hide Free, InState, Leaving, Retired, AllApplied, AllLeave;
    StatesAddUp(RoundsPlayed(pool, rounds));
    if rounds != [] {
      var n := |rounds| - 1;
      var struck := AllApplied(RoundsPlayed(pool, rounds[..n]), rounds[n].events);
      assert AllLeave(RoundsPlayed(pool, rounds[..n]), rounds[n]);
      AllLeaveMeans(RoundsPlayed(pool, rounds[..n]), rounds[n]);
      LeavingIsReleased(struck, rounds[n].delivers);
      RetiringFrees(struck, rounds[n].delivers);
    }
  }

  lemma {:induction false} AllLeaveMeans(pool: seq<VoiceRecord>, r: Round)
    requires |r.delivers| == |pool| && AllLeave(pool, r)
    ensures var struck := AllApplied(pool, r.events);
            forall i :: 0 <= i < |struck| && struck[i].state == Released ==> r.delivers[i]
  {
  }

  /** No buffer has more note-ons than there are voices that no note holds when it starts. */
  ghost predicate FitsUnheld(pool: seq<VoiceRecord>, rounds: seq<Round>)
    requires Sized(rounds, |pool|)
  {
    forall k :: 0 <= k < |rounds| ==>
      NoteOns(rounds[k].events) <= |pool| - InState(RoundsPlayed(pool, rounds[..k]), Active)
  }

  lemma {:induction false} FewerRounds(pool: seq<VoiceRecord>, rounds: seq<Round>)
    requires Sized(rounds, |pool|) && rounds != []
    ensures var n := |rounds| - 1;
            && Sized(rounds[..n], |pool|)
            && (AlwaysLeave(pool, rounds) ==> AlwaysLeave(pool, rounds[..n]))
            && (FitsUnheld(pool, rounds) <==>
                FitsUnheld(pool, rounds[..n])
                && NoteOns(rounds[n].events) <= |pool| - InState(RoundsPlayed(pool, rounds[..n]), Active))
  {
    hide RoundsPlayed, InState, NoteOns, AllLeave;
    var n := |rounds| - 1;
    assert forall k :: 0 <= k <= n ==> rounds[..n][..k] == rounds[..k];
  }

  /**
   If every released voice delivers, a run of the instrument loses no note in any buffer if and only if no buffer has
   more note-ons than there are voices not held when it starts.
   */
  lemma {:induction false} RoundsLoseNothingIff(pool: seq<VoiceRecord>, rounds: seq<Round>)
    requires Sized(rounds, |pool|) && InState(pool, Released) == 0 && AlwaysLeave(pool, rounds)
    ensures RoundsLose(pool, rounds) == 0 <==> FitsUnheld(pool, rounds)
    decreases |rounds|
  {
    hide InState, AlwaysLeave, LostNotes, NoteOns, Free, AllApplied, RoundPlayed;
    if rounds != [] {
      var n := |rounds| - 1;
      hide FitsUnheld, RoundsPlayed;
      FewerRounds(pool, rounds);
      RoundsLoseNothingIff(pool, rounds[..n]);
      NoneStaysReleased(pool, rounds[..n]);
      LostNotesAreExcess(RoundsPlayed(pool, rounds[..n]), rounds[n].events);
    }
  }

  // ----- runs over few notes -----

  ghost predicate ActiveIn(pool: seq<VoiceRecord>, notes: set<int>) {
    forall i :: 0 <= i < |pool| && pool[i].state == Active ==> pool[i].noteNumber in notes
  }

  /** With one active voice per note, no more voices are held than there are notes. */
  lemma {:induction false} HeldAreFew(pool: seq<VoiceRecord>, notes: set<int>)
    requires OneEach(pool) && ActiveIn(pool, notes)
    ensures InState(pool, Active) <= |notes|
    decreases |pool|
  {
    if pool != [] {
      if pool[0].state == Active {
        forall i | 0 <= i < |pool[1..]| && pool[1..][i].state == Active
          ensures pool[1..][i].noteNumber in notes - {pool[0].noteNumber}
        {
          assert pool[1..][i] == pool[i + 1];
        }
        HeldAreFew(pool[1..], notes - {pool[0].noteNumber});
      } else {
        HeldAreFew(pool[1..], notes);
      }
    }
  }

  lemma {:induction false} EventsStayIn(pool: seq<VoiceRecord>, events: seq<Event>, notes: set<int>)
    requires ActiveIn(pool, notes) && forall i :: 0 <= i < |events| ==> events[i].note in notes
    ensures ActiveIn(AllApplied(pool, events), notes)
    decreases |events|
  {
    hide Struck;
    if events != [] {
      var before, e := AllApplied(pool, events[..|events| - 1]), events[|events| - 1];
      EventsStayIn(pool, events[..|events| - 1], notes);
      var k := FirstInactive(before);
      StruckAt(before, e.note, e.velocity as real / 127.0, k);
    }
  }

  /** A round of off/on pairs over the notes. */
  ghost predicate OverNotes(r: Round, notes: set<int>) {
    OffOnPairs(r.events) && forall i :: 0 <= i < |r.events| ==> r.events[i].note in notes
  }

  lemma {:induction false} RoundKeepsFew(pool: seq<VoiceRecord>, r: Round, notes: set<int>)
    requires |r.delivers| == |pool| && OneEach(pool) && ActiveIn(pool, notes) && OverNotes(r, notes)
    ensures OneEach(RoundPlayed(pool, r)) && ActiveIn(RoundPlayed(pool, r), notes)
  {
    hide AllApplied, OffOnPairs;
    PairsKeepOneEach(pool, r.events);
    EventsStayIn(pool, r.events, notes);
  }

  lemma {:induction false} RoundsKeepFew(pool: seq<VoiceRecord>, rounds: seq<Round>, notes: set<int>)
    requires Sized(rounds, |pool|) && OneEach(pool) && ActiveIn(pool, notes)
    requires forall k :: 0 <= k < |rounds| ==> OverNotes(rounds[k], notes)
    ensures OneEach(RoundsPlayed(pool, rounds)) && ActiveIn(RoundsPlayed(pool, rounds), notes)
    decreases |rounds|
  {
    hide OneEach, ActiveIn, OverNotes, RoundPlayed;
    if rounds != [] {
      RoundsKeepFew(pool, rounds[..|rounds| - 1], notes);
      RoundKeepsFew(RoundsPlayed(pool, rounds[..|rounds| - 1]), rounds[|rounds| - 1], notes);
    }
  }

  /** Hits on at most N notes in all, in no buffer more of them than the pool has voices beyond N, are never lost. */
  lemma {:induction false} FewNotesAreSafe(pool: seq<VoiceRecord>, rounds: seq<Round>, notes: set<int>)
    requires Sized(rounds, |pool|) && InState(pool, Released) == 0 && AlwaysLeave(pool, rounds)
    requires OneEach(pool) && ActiveIn(pool, notes)
    requires forall k :: 0 <= k < |rounds| ==>
               OverNotes(rounds[k], notes) && NoteOns(rounds[k].events) + |notes| <= |pool|
    ensures RoundsLose(pool, rounds) == 0
  {
    hide InState, AlwaysLeave, OneEach, ActiveIn, OverNotes, NoteOns, RoundsPlayed, RoundsLose;
    forall k | 0 <= k < |rounds|
      ensures NoteOns(rounds[k].events) <= |pool| - InState(RoundsPlayed(pool, rounds[..k]), Active)
    {
      RoundsKeepFew(pool, rounds[..k], notes);
      HeldAreFew(RoundsPlayed(pool, rounds[..k]), notes);
    }
    RoundsLoseNothingIff(pool, rounds);
  }

  /** A note-on starts the first free voice with the note and its velocity in 127ths; other voices stay. */
  lemma {:induction false} NoteOnStartsOne(pool: seq<VoiceRecord>, e: Event, k: nat, i: nat)
    requires e.kind == NoteOn && k < |pool| && pool[k].state == Inactive && i < |pool|
    requires forall j :: 0 <= j < k ==> pool[j].state != Inactive
    ensures Applied(pool, e)[i].state == (if i == k then Active else pool[i].state)
    ensures Applied(pool, e)[i].noteNumber == (if i == k then e.note else pool[i].noteNumber)
    ensures Applied(pool, e)[i].velocity == (if i == k then e.velocity as real / 127.0 else pool[i].velocity)
  {
    StruckAt(pool, e.note, e.velocity as real / 127.0, k);
  }

  /** A note-off releases the active voices of its note, and no other; a control change does nothing. */
  lemma {:induction false} NoteOffReleases(pool: seq<VoiceRecord>, e: Event, i: nat)
    requires e.kind != NoteOn && i < |pool|
    ensures Applied(pool, e)[i].noteNumber == pool[i].noteNumber && Applied(pool, e)[i].velocity == pool[i].velocity
    ensures Applied(pool, e)[i].state
         == if e.kind == NoteOff && pool[i].state == Active && pool[i].noteNumber == e.note then Released
            else pool[i].state
  {
  }

  // ----- the voice manager -----

  /** The voices of the list that are not inactive, in order. */
  ghost function Living(list: seq<Voice>): seq<Voice>
    reads list
  {
    if list == [] then []
    else Living(list[..|list| - 1]) + if list[|list| - 1].state == Inactive then [] else [list[|list| - 1]]
  }

  lemma {:induction false} LivingMembers(list: seq<Voice>)
    requires Distinct(list)
    ensures Distinct(Living(list))
    ensures forall v :: v in Living(list) <==> v in list && v.state != Inactive
  {
    if list != [] {
      LivingMembers(list[..|list| - 1]);
      assert list == list[..|list| - 1] + [list[|list| - 1]];
    }
  }

  /** The living voices stay in their order. */
  lemma {:induction false} LivingConcat(a: seq<Voice>, b: seq<Voice>)
    ensures Living(a + b) == Living(a) + Living(b)
    ensures |b| == 1 ==> Living(b) == if b[0].state == Inactive then [] else b
    decreases |b|
  {
    if b == [] {
      assert a + b == a;
    } else {
      assert (a + b)[..|a + b| - 1] == a + b[..|b| - 1];
      LivingConcat(a, b[..|b| - 1]);
    }
  }

  class VoiceManager {
    const voices: seq<Voice>
    var activeVoices: seq<Voice>

    /** No voice is listed twice, and every voice in use is listed. */
    ghost predicate Valid()
      reads this, voices
    {
      && Distinct(voices) && Distinct(activeVoices)
      && (forall v :: v in activeVoices ==> v in voices)
      && (forall v :: v in voices && v.state != Inactive ==> v in activeVoices)
    }

    /** The list is exactly the voices in use. */
    ghost predicate Settled()
      reads this, voices
    {
      Valid() && forall v :: v in voices ==> (v in activeVoices <==> v.state != Inactive)
    }

    ghost predicate OneActivePerNote()
      reads voices
    {
      forall v, w :: v in voices && w in voices && v.state == Active && w.state == Active ==>
                       v.noteNumber == w.noteNumber ==> v == w
    }

    lemma {:induction false} OneActiveIsOneEach()
      requires Distinct(voices)
      ensures OneActivePerNote() <==> OneEach(Snapshot())
    {
      var pool := Snapshot();
      if OneActivePerNote() {
        forall i, j | 0 <= i < j < |pool| && pool[i].state == Active && pool[j].state == Active
          ensures pool[i].noteNumber != pool[j].noteNumber
        {
          assert voices[i] in voices && voices[j] in voices && voices[i] != voices[j];
        }
      }
      if OneEach(pool) {
        forall v, w | v in voices && w in voices && v.state == Active && w.state == Active
                      && v.noteNumber == w.noteNumber
          ensures v == w
        {
          var i :| 0 <= i < |voices| && voices[i] == v;
          var j :| 0 <= j < |voices| && voices[j] == w;
          assert pool[i].noteNumber == pool[j].noteNumber;
        }
      }
    }

    ghost function Snapshot(): seq<VoiceRecord>
      reads voices
    {
      seq(|voices|, i requires 0 <= i < |voices| reads voices =>
        VoiceRecord(voices[i].state, voices[i].noteNumber, voices[i].velocity))
    }

    /** Which voices of the pool are in the set, by position. */
    ghost function Positions(some: set<Voice>): (r: seq<bool>)
      ensures |r| == |voices|
    {
      seq(|voices|, i requires 0 <= i < |voices| => voices[i] in some)
    }

    lemma {:induction false} ListFitsPool()
      requires Valid()
      ensures |activeVoices| <= |voices|
    {
      SubsetSize(activeVoices, voices);
    }

    constructor (maxVoices: nat)
      ensures Settled() && OneActivePerNote() && |voices| == maxVoices && fresh(voices)
    {
      var pool: seq<Voice> := [];
      for i := 0 to maxVoices
        invariant |pool| == i && Distinct(pool) && fresh(pool)
        invariant forall v :: v in pool ==> v.state == Inactive
      {
        var v := new Voice();
        pool := pool + [v];
      }
      voices, activeVoices := pool, [];
    }

    ghost predicate FirstFree(k: int, voice: Voice)
      reads voices
    {
      0 <= k < |voices| && voices[k] == voice && voice.state == Inactive
      && forall j :: 0 <= j < k ==> voices[j].state != Inactive
    }

    method FindFreeVoice() returns (voice: Voice?)
      ensures voice == null ==> forall v :: v in voices ==> v.state != Inactive
      ensures voice != null ==> exists k :: FirstFree(k, voice)
    {
      for i := 0 to |voices|
        invariant forall j :: 0 <= j < i ==> voices[j].state != Inactive
      {
        if voices[i].state == Inactive {
          assert FirstFree(i, voices[i]);
          return voices[i];
        }
      }
      return null;
    }

    /** Starts the first free voice; a full pool drops the note. */
    method NoteOn(note: int, velocity: real) returns (voice: Voice?)
      requires Settled()
      modifies this, voices
      ensures Settled()
      ensures voice == null <==> old(forall v :: v in voices ==> v.state != Inactive)
      ensures voice == null ==> activeVoices == old(activeVoices)
      ensures voice != null ==> voice in voices && activeVoices == old(activeVoices) + [voice]
      ensures Snapshot() == Struck(old(Snapshot()), note, velocity)
    {
      ghost var before := Snapshot();
      voice := FindFreeVoice();
      if voice == null {
        StruckAt(before, note, velocity, |before|);
      } else {
        ghost var k :| FirstFree(k, voice);
        StruckAt(before, note, velocity, k);
        voice.NoteOn(note, velocity);
        activeVoices := activeVoices + [voice];
        assert Snapshot() == before[k := VoiceRecord(Active, note, velocity)];
      }
    }

    /** Releases every active voice of the note. */
    method NoteOff(note: int)
      requires Settled()
      modifies voices`state
      ensures Settled()
      ensures forall v :: v in voices ==>
                v.state == if old(v.state) == Active && v.noteNumber == note then Released else old(v.state)
      ensures Snapshot() == NoteReleased(old(Snapshot()), note)
    {
      for i := 0 to |activeVoices|
        invariant Settled()
        invariant forall v :: v in voices ==>
                    v.state == if v in activeVoices[..i] && old(v.state) == Active && v.noteNumber == note
                               then Released else old(v.state)
      {
        var v := activeVoices[i];
        assert activeVoices[..i + 1] == activeVoices[..i] + [v];
        if v.state == Active && v.noteNumber == note {
          v.NoteOff(note);
        }
      }
      assert activeVoices[..|activeVoices|] == activeVoices;
    }

    method RemoveInactiveVoices()
      requires Valid()
      modifies `activeVoices
      ensures Settled() && activeVoices == Living(old(activeVoices))
    {
      LivingMembers(activeVoices);
      var kept: seq<Voice> := [];
      for i := 0 to |activeVoices|
        invariant kept == Living(activeVoices[..i])
      {
        assert activeVoices[..i + 1][..i] == activeVoices[..i];
        if activeVoices[i].state != Inactive {
          kept := kept + [activeVoices[i]];
        }
      }
      assert activeVoices[..|activeVoices|] == activeVoices;
      activeVoices := kept;
    }
  }

  // ----- the instrument -----

  /** What the voices of the list deliver, in the order of the list. */
  function SignalsOf(list: seq<Voice>, delivers: map<Voice, seq<real>>): seq<seq<real>> {
    if list == [] then []
    else
      var last := list[|list| - 1];
      SignalsOf(list[..|list| - 1], delivers) + if last in delivers then [delivers[last]] else []
  }

  /** How many voices of the list deliver. */
  ghost function Delivering(list: seq<Voice>, delivers: map<Voice, seq<real>>): nat {
    Count(seq(|list|, i requires 0 <= i < |list| => list[i] in delivers), true)
  }

  lemma {:induction false} MoreDeliver(list: seq<Voice>, delivers: map<Voice, seq<real>>)
    requires list != []
    ensures var n := |list| - 1;
            Delivering(list, delivers) == Delivering(list[..n], delivers) + if list[n] in delivers then 1 else 0
  {
    var n := |list| - 1;
    var marks := seq(|list|, i requires 0 <= i < |list| => list[i] in delivers);
    assert marks[..n] == seq(n, i requires 0 <= i < n => list[..n][i] in delivers);
  }

  /** One signal per voice that delivers, in the order of the list. */
  lemma {:induction false} SignalOf(list: seq<Voice>, delivers: map<Voice, seq<real>>, i: nat)
    requires i < |list| && list[i] in delivers
    ensures |SignalsOf(list, delivers)| == Delivering(list, delivers)
    ensures Delivering(list[..i], delivers) < Delivering(list, delivers)
    ensures SignalsOf(list, delivers)[Delivering(list[..i], delivers)] == delivers[list[i]]
  {
    hide Delivering;
    var n := |list| - 1;
    SignalCount(list, delivers);
    SignalCount(list[..n], delivers);
    MoreDeliver(list, delivers);
    if i < n {
      SignalOf(list[..n], delivers, i);
      assert list[..n][..i] == list[..i];
    }
  }

  lemma {:induction false} SignalCount(list: seq<Voice>, delivers: map<Voice, seq<real>>)
    ensures |SignalsOf(list, delivers)| == Delivering(list, delivers)
  {
    if list != [] {
      hide Delivering;
      SignalCount(list[..|list| - 1], delivers);
      MoreDeliver(list, delivers);
    }
  }

  /** One buffer: the signals that arrive at the event input, and what the voices' graphs deliver. */
  datatype Buffer = Buffer(arrivals: seq<Signal>, delivers: map<Voice, seq<real>>, size: nat)

  /** The instrument as a value: the signals its event input holds, and its voices. */
  datatype Synth = Synth(box: seq<Signal>, pool: seq<VoiceRecord>)

  class Instrument {
    const input: InputPort
    const output: OutputPort
    const mix: seq<seq<real>> -> seq<real>
    const manager: VoiceManager

    ghost predicate Valid()
      reads manager, manager.voices
    {
      manager.Valid() && input.signalType == EventType && output.signalType == AudioType
    }

    /** The pool after one buffer in which the events are handled and the voices of the set deliver a signal. */
    ghost function PoolAfter(pool: seq<VoiceRecord>, events: seq<Event>, delivering: set<Voice>): (r: seq<VoiceRecord>)
      requires |pool| == |manager.voices|
      ensures |r| == |pool|
    {
      Retired(AllApplied(pool, events), manager.Positions(delivering))
    }

    /** The mix of the voices' signals, or silence if there is none. */
    function Mixdown(signals: seq<seq<real>>, size: nat): seq<real> {
      if signals == [] then seq(size, _ => 0.0) else mix(signals)
    }

    constructor (inputId: nat, outputId: nat, mix: seq<seq<real>> -> seq<real>)
      ensures Valid() && manager.OneActivePerNote() && |manager.voices| == 16 && fresh(manager) && fresh(manager.voices)
      ensures input.id == inputId && output.id == outputId && this.mix == mix
    {
      input, output, this.mix := InputPort(inputId, EventType), OutputPort(outputId, AudioType), mix;
      manager := new VoiceManager(16);
    }

    /** One turn: the events of the input are handled from last to first, and one audio signal is sent. */
    method Process(ports: PortNetwork, delivers: map<Voice, seq<real>>, size: nat)
      requires Valid()
      modifies manager, manager.voices, ports`boxes, ports`lastSignal
      ensures Valid()
      ensures var events := DrainView(Inbox(old(ports.boxes), input));
              && manager.Snapshot() == PoolAfter(old(manager.Snapshot()), events, delivers.Keys)
              && (OffOnPairs(events) && old(manager.OneActivePerNote()) ==> manager.OneActivePerNote())
      ensures var signal := AudioSignal(Mixdown(SignalsOf(manager.activeVoices, delivers), size));
              && ports.boxes == Delivered(Drained(old(ports.boxes), input), ports.Links(output), signal)
              && ports.lastSignal == old(ports.lastSignal)[output := signal]
    {
      hide AllApplied, DrainView, DrainRest, SignalsOf, OffOnPairs, Living, Retired, Delivered;
      manager.RemoveInactiveVoices();
      HandleEvents(ports);
      var signals := Retire(delivers);
      ports.Send(output, AudioSignal(Mixdown(signals, size)));
    }

    method Handle(e: Event)
      requires manager.Settled()
      modifies manager, manager.voices
      ensures manager.Settled() && manager.Snapshot() == Applied(old(manager.Snapshot()), e)
    {
      if e.kind == NoteOn {
        var voice := manager.NoteOn(e.note, e.velocity as real / 127.0);
      } else if e.kind == NoteOff {
        manager.NoteOff(e.note);
      }
    }

    /** After the events the list is exactly the voices in use. */
    method HandleEvents(ports: PortNetwork)
      requires manager.Settled()
      modifies manager, manager.voices, ports`boxes
      ensures manager.Settled() && ports.boxes == Drained(old(ports.boxes), input)
      ensures var events := DrainView(Inbox(old(ports.boxes), input));
              && manager.Snapshot() == AllApplied(old(manager.Snapshot()), events)
              && (OffOnPairs(events) && old(manager.OneActivePerNote()) ==> manager.OneActivePerNote())
    {
      hide AllApplied, DrainView, DrainRest, OffOnPairs, OneEach;
      ghost var before, events := manager.Snapshot(), DrainView(Inbox(ports.boxes, input));
      manager.OneActiveIsOneEach();
      DrainEvents(ports);
      if OffOnPairs(events) && OneEach(before) {
        PairsKeepOneEach(before, events);
      }
      manager.OneActiveIsOneEach();
    }

    method DrainEvents(ports: PortNetwork)
      requires manager.Settled()
      modifies manager, manager.voices, ports`boxes
      ensures manager.Settled() && ports.boxes == Drained(old(ports.boxes), input)
      ensures manager.Snapshot() == AllApplied(old(manager.Snapshot()), DrainView(Inbox(old(ports.boxes), input)))
    {
      hide Applied, AllApplied, DrainView, DrainRest, Drained;
      ghost var before, box, k := manager.Snapshot(), Inbox(ports.boxes, input), |Inbox(ports.boxes, input)|;
      ghost var seen: seq<Event> := [];
      NothingApplied(before, box);
      var signal := ports.Get(input);
      while signal.Some? && signal.value.EventSignal?
        invariant manager.Settled() && 0 <= k <= |box|
        invariant manager.Snapshot() == AllApplied(before, seen)
        invariant if signal.Some? then k > 0 && signal.value == box[k - 1] else k == 0
        invariant Inbox(ports.boxes, input) == if k > 0 then box[..k - 1] else []
        invariant ports.boxes == if box == [] then old(ports.boxes)
                                 else old(ports.boxes)[input := Inbox(ports.boxes, input)]
        invariant DrainView(box) == seen + DrainView(box[..k]) && DrainRest(box) == DrainRest(box[..k])
        decreases k
      {
        var e := signal.value.event;
        DrainNext(box, k, seen);
        AppliedNext(before, seen, e);
        Handle(e);
        seen, k := seen + [e], k - 1;
        signal := ports.Get(input);
      }
      DrainEnds(box, k, seen);
      DrainDone(old(ports.boxes), ports.boxes, input);
    }

    /** Voices that are released and deliver their signal become inactive; they stay listed until the next buffer. */
    method Retire(delivers: map<Voice, seq<real>>) returns (signals: seq<seq<real>>)
      requires Valid()
      modifies manager.voices`state
      ensures Valid() && signals == SignalsOf(manager.activeVoices, delivers)
      ensures manager.Snapshot() == Retired(old(manager.Snapshot()), manager.Positions(delivers.Keys))
      ensures forall v :: v in manager.voices ==>
                v.state == if old(v.state) == Released && v in delivers then Inactive else old(v.state)
      ensures old(manager.OneActivePerNote()) ==> manager.OneActivePerNote()
    {
      hide OneEach, Retired, SignalsOf, VoiceManager.OneActivePerNote;
      ghost var before := manager.Snapshot();
      manager.OneActiveIsOneEach();
      signals := PlayVoices(delivers);
      assert manager.Snapshot() == Retired(before, manager.Positions(delivers.Keys)) by {
        RetiredByState(before, manager.Snapshot(), manager.Positions(delivers.Keys));
      }
      if OneEach(before) {
        RetiringKeepsOneEach(before, manager.Positions(delivers.Keys));
      }
      manager.OneActiveIsOneEach();
    }

    method PlayVoices(delivers: map<Voice, seq<real>>) returns (signals: seq<seq<real>>)
      requires Valid()
      modifies manager.voices`state
      ensures Valid() && signals == SignalsOf(manager.activeVoices, delivers)
      ensures forall v :: v in manager.voices ==>
                v.state == if old(v.state) == Released && v in delivers then Inactive else old(v.state)
    {
      var list := manager.activeVoices;
      signals := [];
      for i := 0 to |list|
        invariant manager.Valid()
        invariant signals == SignalsOf(list[..i], delivers)
        invariant forall v :: v in manager.voices ==>
                    v.state == if v in list[..i] && old(v.state) == Released && v in delivers then Inactive
                               else old(v.state)
      {
        assert list[..i + 1] == list[..i] + [list[i]];
        if list[i] in delivers {
          if list[i].state == Released {
            list[i].SetState(Inactive);
          }
          signals := signals + [delivers[list[i]]];
        }
      }
      assert list[..|list|] == list;
    }

    ghost function Played(s: Synth, b: Buffer): (r: Synth)
      requires |s.pool| == |manager.voices|
      ensures |r.pool| == |s.pool|
    {
      var box := s.box + b.arrivals;
      Synth(DrainRest(box), PoolAfter(s.pool, DrainView(box), b.delivers.Keys))
    }

    ghost function AllPlayed(s: Synth, buffers: seq<Buffer>): (r: Synth)
      requires |s.pool| == |manager.voices|
      ensures |r.pool| == |s.pool|
      decreases |buffers|
    {
      if buffers == [] then s else Played(AllPlayed(s, buffers[..|buffers| - 1]), buffers[|buffers| - 1])
    }

    /** What sequencers send over one link each. */
    ghost predicate Paired(b: Buffer) {
      OnlyEvents(b.arrivals) && OnOffPairs(EventsOf(b.arrivals))
    }

    method Arrive(ports: PortNetwork, signals: seq<Signal>)
      modifies ports`boxes
      ensures Inbox(ports.boxes, input) == Inbox(old(ports.boxes), input) + signals
    {
      for i := 0 to |signals|
        invariant Inbox(ports.boxes, input) == Inbox(old(ports.boxes), input) + signals[..i]
      {
        ports.Receive(input, signals[i]);
        assert signals[..i + 1] == signals[..i] + [signals[i]];
      }
      assert signals[..|signals|] == signals;
    }

    method PlayBuffer(ports: PortNetwork, b: Buffer)
      requires Valid()
      modifies manager, manager.voices, ports`boxes, ports`lastSignal
      ensures Valid()
      ensures View(ports) == Played(old(View(ports)), b)
      ensures old(Inbox(ports.boxes, input)) == [] && Paired(b) ==>
                Inbox(ports.boxes, input) == [] && (old(manager.OneActivePerNote()) ==> manager.OneActivePerNote())
    {
      hide PoolAfter, DrainView, DrainRest, SignalsOf, OffOnPairs, OnOffPairs, OnlyEvents, EventsOf;
      Arrive(ports, b.arrivals);
      ghost var box, boxes := Inbox(ports.boxes, input), Drained(ports.boxes, input);
      Process(ports, b.delivers, b.size);
      AudioStaysOut(boxes, ports.Links(output), Mixdown(SignalsOf(manager.activeVoices, b.delivers), b.size), input);
      DrainedBox(box);
      if Paired(b) && old(Inbox(ports.boxes, input)) == [] {
        assert box == b.arrivals;
        DrainReverses(box);
        ReversedPairs(EventsOf(box));
      }
    }

    ghost function View(ports: PortNetwork): Synth
      reads ports, manager, manager.voices
    {
      Synth(Inbox(ports.boxes, input), manager.Snapshot())
    }

    /** Over every run no voice is listed twice and the list fits the pool; if every sequencer is linked at most once
        to the instrument, at most one voice per note is active. */
    method Run(ports: PortNetwork, buffers: seq<Buffer>)
      requires Valid()
      modifies manager, manager.voices, ports`boxes, ports`lastSignal
      ensures Valid() && |manager.activeVoices| <= |manager.voices|
      ensures View(ports) == AllPlayed(old(View(ports)), buffers)
      ensures (forall b :: b in buffers ==> Paired(b)) && old(Inbox(ports.boxes, input)) == [] ==>
                (old(manager.OneActivePerNote()) ==> manager.OneActivePerNote())
    {
      hide Played, Paired;
      ghost var paired := (forall b :: b in buffers ==> Paired(b)) && Inbox(ports.boxes, input) == [];
      for i := 0 to |buffers|
        invariant Valid() && View(ports) == AllPlayed(old(View(ports)), buffers[..i])
        invariant paired ==> Inbox(ports.boxes, input) == []
        invariant paired && old(manager.OneActivePerNote()) ==> manager.OneActivePerNote()
      {
        assert buffers[..i + 1][..i] == buffers[..i];
        PlayBuffer(ports, buffers[i]);
      }
      assert buffers[..|buffers|] == buffers;
      manager.ListFitsPool();
    }
  }

  lemma {:induction false} DrainDone(boxes: Inboxes, after: Inboxes, port: InputPort)
    requires var box := Inbox(boxes, port);
             after == if box == [] then boxes else boxes[port := DrainRest(box)]
    ensures after == Drained(boxes, port)
  {
  }

  lemma {:induction false} AudioStaysOut(boxes: Inboxes, targets: seq<InputPort>, samples: seq<real>, port: InputPort)
    requires port.signalType == EventType
    ensures Inbox(Delivered(boxes, targets, AudioSignal(samples)), port) == Inbox(boxes, port)
  {
    DeliveredInbox(boxes, targets, AudioSignal(samples), port);
    NoCopies(targets, port, AudioSignal(samples));
  }

  lemma {:induction false} DrainedBox(box: seq<Signal>)
    ensures box == [] ==> DrainRest(box) == []
  {
  }

  lemma {:induction false} PairAt(events: seq<Event>, i: nat)
    requires OffOnPairs(events) && i < |events|
    ensures i % 2 == 0 ==> events[i].kind == NoteOff
    ensures i % 2 == 1 ==> events[i].kind == NoteOn && events[i].note == events[i - 1].note
  {
    assert events[2 * (i / 2)].kind == NoteOff;
  }
}
