/** From the sequencers over their links to the synthesizer: what its instrument hears in a pass, over every run. */
module SynthPath {
  import opened Sequences
  import opened Numbers
  import opened Events
  import opened Ports
  import opened Graph
  import opened GraphPass
  import opened DrumPath
  import opened DrumMachine
  import Voices

  type Pool = seq<Voices.VoiceRecord>

  /** The module of the graph that is the instrument, with its ports. */
  datatype Site = Site(who: Module, input: InputPort, output: OutputPort) {
    predicate Fits() {
      && input.signalType == EventType && output.signalType == AudioType
      && input in who.inputs && output in who.outputs
    }
  }

  /** One pass: the graph, its sequencers and outputs as they then are, which voices deliver, and their mix. */
  datatype SynthPass = SynthPass(modules: seq<Module>, connections: seq<Connection>, order: seq<Module>,
                                 links: LinkTable, parts: map<Module, Part>, ctx: Context, delivers: seq<bool>,
                                 mixed: seq<real>)

  /** What all ports hold, and the instrument's voices. */
  datatype State = State(boxes: Inboxes, pool: Pool)

  function Sent(site: Site, mixed: seq<real>): seq<Emission> {
    [Emission(site.output, AudioSignal(mixed))]
  }

  function InstrumentTurn(s: State, site: Site, links: LinkTable, delivers: seq<bool>, mixed: seq<real>): (r: State)
    requires |delivers| == |s.pool|
    ensures |r.pool| == |s.pool|
  {
    State(SendAll(Drained(s.boxes, site.input), links, Sent(site, mixed)),
          Voices.Retired(Voices.AllApplied(s.pool, DrainView(Inbox(s.boxes, site.input))), delivers))
  }

  /** The turn of the instrument object is that of the value. */
  method TakeTurn(instrument: Voices.Instrument, ports: PortNetwork, delivers: map<Voices.Voice, seq<real>>, size: nat,
                  ghost who: Module)
    requires instrument.Valid()
    modifies instrument.manager, instrument.manager.voices, ports`boxes, ports`lastSignal
    ensures instrument.Valid()
    ensures var manager, mixed := instrument.manager,
                instrument.Mixdown(Voices.SignalsOf(instrument.manager.activeVoices, delivers), size);
            State(ports.boxes, manager.Snapshot())
            == InstrumentTurn(State(old(ports.boxes), old(manager.Snapshot())),
                              Site(who, instrument.input, instrument.output), ports.links,
                              manager.Positions(delivers.Keys), mixed)
  {
    hide DrainView, DrainRest, Voices.AllApplied, Voices.Retired, Voices.SignalsOf;
    ghost var drained := Drained(ports.boxes, instrument.input);
    instrument.Process(ports, delivers, size);
    ghost var signals := Voices.SignalsOf(instrument.manager.activeVoices, delivers);
    OneSend(drained, ports.links, Emission(instrument.output, AudioSignal(instrument.Mixdown(signals, size))));
  }

  // ----- one pass -----

  /** The behaviour of all modules during the pass. */
  ghost function SynthTurns(site: Site, p: SynthPass): Behaviour {
    (who, boxes) =>
      if who == site.who then Turn(Drained(boxes, site.input), Sent(site, p.mixed))
      else TurnsOf(p.parts, p.ctx)(who, boxes)
  }

  ghost function TurnPlayed(s: State, site: Site, p: SynthPass, who: Module): (r: State)
    requires |p.delivers| == |s.pool|
    ensures |r.pool| == |s.pool|
  {
    if who == site.who then InstrumentTurn(s, site, p.links, p.delivers, p.mixed)
    else
      var turn := TurnsOf(p.parts, p.ctx)(who, s.boxes);
      State(SendAll(turn.boxes, p.links, turn.sends), s.pool)
  }

  ghost function TurnsPlayed(s: State, site: Site, p: SynthPass, order: seq<Module>): (r: State)
    requires |p.delivers| == |s.pool|
    ensures |r.pool| == |s.pool|
    decreases |order|
  {
    if order == [] then s else TurnPlayed(TurnsPlayed(s, site, p, order[..|order| - 1]), site, p, order[|order| - 1])
  }

  lemma {:induction false} PlayedBoxes(s: State, site: Site, p: SynthPass, order: seq<Module>)
    requires |p.delivers| == |s.pool|
    ensures TurnsPlayed(s, site, p, order).boxes == Pass(order, SynthTurns(site, p), p.links, s.boxes)
    ensures site.who !in order ==> TurnsPlayed(s, site, p, order).pool == s.pool
    decreases |order|
  {
    hide TurnsOf, SendAll, DrainView, DrainRest, Voices.AllApplied, Voices.Retired;
    if order != [] {
      PlayedBoxes(s, site, p, order[..|order| - 1]);
      assert order == order[..|order| - 1] + [order[|order| - 1]];
    }
  }

  /** The pool changes only on the instrument's turn. */
  lemma {:induction false} PlayedPool(s: State, site: Site, p: SynthPass, order: seq<Module>, k: nat)
    requires |p.delivers| == |s.pool| && Distinct(order) && k < |order| && order[k] == site.who
    ensures TurnsPlayed(s, site, p, order).pool
         == InstrumentTurn(State(Pass(order[..k], SynthTurns(site, p), p.links, s.boxes), s.pool), site, p.links,
                           p.delivers, p.mixed).pool
    decreases |order|
  {
    hide TurnsOf, SendAll, DrainView, DrainRest, Voices.AllApplied, Voices.Retired, SynthTurns, Pass;
    var before, last := order[..|order| - 1], order[|order| - 1];
    if k < |order| - 1 {
      PlayedPool(s, site, p, before, k);
      assert before[..k] == order[..k] && last != site.who;
    } else {
      assert order[..k] == before && site.who !in before;
      PlayedBoxes(s, site, p, before);
    }
  }

  /** The instrument's graph in this pass: acyclic, its links recorded, and the instrument is no other part. */
  ghost predicate Fits(site: Site, p: SynthPass) {
    && site.Fits() && site.who !in p.parts && AllPortsFit(p.parts) && PortsOwned(p.parts)
    && Wired(p.modules, p.connections, p.links, p.order, site.who, site.input)
  }

  /** Every sequencer is linked to the port at most once. */
  ghost predicate LinkedOnce(parts: map<Module, Part>, links: LinkTable, port: InputPort) {
    forall w :: IsRing(parts, w) ==> Count(LinksOf(links, parts[w].output), port) <= 1
  }

  lemma {:induction false} SynthIsWellBehaved(site: Site, p: SynthPass)
    requires site.Fits() && PortsOwned(p.parts)
    ensures WellBehaved(SynthTurns(site, p))
  {
    hide PortsOwned, TurnsOf, DrainRest;
    MachineIsWellBehaved(p.parts, p.ctx);
  }

  lemma {:induction false} InstrumentDrains(site: Site, p: SynthPass)
    requires site.Fits()
    ensures Drains(SynthTurns(site, p), p.links, site.who, site.input)
  {
    hide TurnsOf, DrainRest;
    forall boxes | Typed(Inbox(boxes, site.input), site.input)
      ensures Inbox(SynthTurns(site, p)(site.who, boxes).boxes, site.input) == []
      ensures SynthTurns(site, p)(site.who, boxes).sends == Sent(site, p.mixed)
    {
      TypedIsEvents(Inbox(boxes, site.input), site.input);
      DrainReverses(Inbox(boxes, site.input));
      assert SynthTurns(site, p)(site.who, boxes) == Turn(Drained(boxes, site.input), Sent(site, p.mixed));
    }
  }

  /** What arrives at the instrument in a pass: the events of all sequencers, each once per link. */
  lemma {:induction false} SynthArrivals(site: Site, p: SynthPass, order: seq<Module>, boxes: Inboxes)
    requires site.Fits() && site.who !in p.parts && AllPortsFit(p.parts)
    ensures var arrived := PassArrivals(order, SynthTurns(site, p), p.links, boxes, site.input);
            OnlyEvents(arrived) && EventsOf(arrived) == SentEvents(p.parts, order, p.links, p.ctx, site.input)
    decreases |order|
  {
    hide AllPortsFit, TurnsOf, Arrivals, Emitted, Copied, Pass, Drained;
    if order != [] {
      var before, who, act := order[..|order| - 1], order[|order| - 1], SynthTurns(site, p);
      SynthArrivals(site, p, before, boxes);
      if who == site.who {
        NoArrivals(p.links, Sent(site, p.mixed), site.input);
      } else {
        TurnArrivals(p.parts, who, p.links, p.ctx, Pass(before, act, p.links, boxes), site.input);
      }
      var a := PassArrivals(before, act, p.links, boxes, site.input);
      var b := Arrivals(p.links, act(who, Pass(before, act, p.links, boxes)).sends, site.input);
      assert EventsOf(a + b) == EventsOf(a) + EventsOf(b);
    }
  }

  /** Over one link each, sequencers send on/off pairs, in any order of turns. */
  lemma {:induction false} SentArePairs(parts: map<Module, Part>, order: seq<Module>, links: LinkTable, ctx: Context,
                                        port: InputPort)
    requires LinkedOnce(parts, links, port)
    ensures OnOffPairs(SentEvents(parts, order, links, ctx, port))
    decreases |order|
  {
    hide OnOffPairs, Emitted, Copied;
    if order == [] {
      NothingIsPaired();
    } else {
      var before, who := order[..|order| - 1], order[|order| - 1];
      SentArePairs(parts, before, links, ctx, port);
      if IsRing(parts, who) {
        var events, c := Emitted(parts[who], ctx), Count(LinksOf(links, parts[who].output), port);
        EmittedArePairs(parts[who], ctx);
        if c == 0 {
          CopiedNever(events);
          NothingIsPaired();
        } else {
          CopiedOnce(events);
        }
        PairsConcat(SentEvents(parts, before, links, ctx, port), Copied(events, c));
      } else {
        var sent := SentEvents(parts, before, links, ctx, port);
        assert sent + [] == sent;
      }
    }
  }

  lemma {:induction false} NothingIsPaired()
    ensures OnOffPairs([])
  {
  }

  /**
   One pass over an acyclic graph: the instrument handles, from last to first, everything the sequencers send in the
   whole pass, and its input is empty when the pass ends.
   */
  lemma {:induction false} InstrumentHearsWholePass(s: State, site: Site, p: SynthPass)
    requires |p.delivers| == |s.pool| && Fits(site, p) && Inbox(s.boxes, site.input) == []
    ensures var after, sent := TurnsPlayed(s, site, p, p.order),
                SentEvents(p.parts, p.order, p.links, p.ctx, site.input);
            && Inbox(after.boxes, site.input) == []
            && after.pool == Voices.Retired(Voices.AllApplied(s.pool, Reverse(sent)), p.delivers)
  {
    hide WellBehaved, Drains, Wired, AllPortsFit, PortsOwned, Pass, PassArrivals, SentEvents, SynthTurns, DrainView,
         DrainRest, Typed, TurnsPlayed, SendAll, Voices.AllApplied, Voices.Retired;
    var act := SynthTurns(site, p);
    SynthIsWellBehaved(site, p);
    InstrumentDrains(site, p);
    TypedIsEvents(Inbox(s.boxes, site.input), site.input);
    var k := PassDrainsInput(p.modules, p.connections, p.order, act, p.links, s.boxes, site.who, site.input);
    WiredIsDistinct(p.modules, p.connections, p.links, p.order, site.who, site.input);
    PlayedBoxes(s, site, p, p.order);
    PlayedPool(s, site, p, p.order, k);
    SynthArrivals(site, p, p.order, s.boxes);
    var sent := PassArrivals(p.order, act, p.links, s.boxes, site.input);
    assert Inbox(s.boxes, site.input) + sent == sent;
    DrainReverses(sent);
  }

  // ----- runs -----

  ghost predicate Playable(site: Site, p: SynthPass) {
    Fits(site, p) && LinkedOnce(p.parts, p.links, site.input)
  }

  ghost function RunPlayed(s: State, site: Site, passes: seq<SynthPass>): (r: State)
    requires forall i :: 0 <= i < |passes| ==> |passes[i].delivers| == |s.pool|
    ensures |r.pool| == |s.pool|
    decreases |passes|
  {
    if passes == [] then s
    else
      var last := passes[|passes| - 1];
      TurnsPlayed(RunPlayed(s, site, passes[..|passes| - 1]), site, last, last.order)
  }

  lemma {:induction false} PassKeepsOneEach(s: State, site: Site, p: SynthPass)
    requires |p.delivers| == |s.pool| && Playable(site, p)
    requires Inbox(s.boxes, site.input) == [] && Voices.OneEach(s.pool)
    ensures var after := TurnsPlayed(s, site, p, p.order);
            Inbox(after.boxes, site.input) == [] && Voices.OneEach(after.pool)
  {
    hide Fits, LinkedOnce, SentEvents, TurnsPlayed, Voices.AllApplied, Voices.Retired, Voices.OneEach, OnOffPairs,
         OffOnPairs;
    var sent := SentEvents(p.parts, p.order, p.links, p.ctx, site.input);
    InstrumentHearsWholePass(s, site, p);
    SentArePairs(p.parts, p.order, p.links, p.ctx, site.input);
    ReversedPairs(sent);
    Voices.PairsKeepOneEach(s.pool, Reverse(sent));
    Voices.RetiringKeepsOneEach(Voices.AllApplied(s.pool, Reverse(sent)), p.delivers);
  }

  /**
   Over every run of passes, whatever timelines, tracks, tempi and graphs they have: if every sequencer is linked to the
   instrument at most once, at most one voice of each note is active.
   */
  lemma {:induction false} RunKeepsOneEach(s: State, site: Site, passes: seq<SynthPass>)
    requires forall i :: 0 <= i < |passes| ==> |passes[i].delivers| == |s.pool|
    requires forall i :: 0 <= i < |passes| ==> Playable(site, passes[i])
    requires Inbox(s.boxes, site.input) == [] && Voices.OneEach(s.pool)
    ensures var after := RunPlayed(s, site, passes);
            Inbox(after.boxes, site.input) == [] && Voices.OneEach(after.pool)
    decreases |passes|
  {
    hide Fits, LinkedOnce, TurnsPlayed, Voices.OneEach;
    if passes != [] {
      var n := |passes| - 1;
      RunKeepsOneEach(s, site, passes[..n]);
      PassKeepsOneEach(RunPlayed(s, site, passes[..n]), site, passes[n]);
    }
  }

  // ----- notes are lost exactly for want of unheld voices -----

  /** What the instrument handles in a pass, and which voices deliver. */
  ghost function RoundOf(site: Site, p: SynthPass): Voices.Round {
    Voices.Round(Reverse(SentEvents(p.parts, p.order, p.links, p.ctx, site.input)), p.delivers)
  }

  ghost function RoundsOf(site: Site, passes: seq<SynthPass>): seq<Voices.Round> {
    seq(|passes|, k requires 0 <= k < |passes| => RoundOf(site, passes[k]))
  }

  /** Over every run of passes the instrument's voices are those of its rounds. */
  lemma {:induction false} RunIsRounds(s: State, site: Site, passes: seq<SynthPass>)
    requires forall k :: 0 <= k < |passes| ==> |passes[k].delivers| == |s.pool|
    requires forall k :: 0 <= k < |passes| ==> Fits(site, passes[k])
    requires Inbox(s.boxes, site.input) == []
    ensures Voices.Sized(RoundsOf(site, passes), |s.pool|)
    ensures Inbox(RunPlayed(s, site, passes).boxes, site.input) == []
    ensures RunPlayed(s, site, passes).pool == Voices.RoundsPlayed(s.pool, RoundsOf(site, passes))
    decreases |passes|
  {
    hide Fits, SentEvents, TurnsPlayed, Voices.AllApplied, Voices.Retired;
    if passes != [] {
      var n := |passes| - 1;
      RunIsRounds(s, site, passes[..n]);
      assert RoundsOf(site, passes)[..n] == RoundsOf(site, passes[..n]);
      InstrumentHearsWholePass(RunPlayed(s, site, passes[..n]), site, passes[n]);
    }
  }

  /**
   Over every run of passes in which released voices deliver: the instrument loses no note in any pass if and only if
   the hits of each pass, counted once per link, are at most the voices that no note holds when it starts.
   */
  lemma {:induction false} RunLosesNothingIff(s: State, site: Site, passes: seq<SynthPass>)
    requires forall k :: 0 <= k < |passes| ==> |passes[k].delivers| == |s.pool|
    requires forall k :: 0 <= k < |passes| ==> Fits(site, passes[k])
    requires Inbox(s.boxes, site.input) == [] && Voices.InState(s.pool, Voices.Released) == 0
    requires Voices.Sized(RoundsOf(site, passes), |s.pool|)
    requires Voices.AlwaysLeave(s.pool, RoundsOf(site, passes))
    ensures Voices.RoundsLose(s.pool, RoundsOf(site, passes)) == 0 <==>
            forall k :: 0 <= k < |passes| ==>
              Voices.NoteOns(RoundOf(site, passes[k]).events)
              <= |s.pool| - Voices.InState(RunPlayed(s, site, passes[..k]).pool, Voices.Active)
  {
    hide Fits, SentEvents, TurnsPlayed, RunPlayed, RoundOf, Voices.AllApplied, Voices.InState, Voices.NoteOns,
         Voices.RoundsPlayed, Voices.RoundsLose, Voices.AlwaysLeave;
    var rounds := RoundsOf(site, passes);
    Voices.RoundsLoseNothingIff(s.pool, rounds);
    forall k | 0 <= k < |passes|
      ensures RunPlayed(s, site, passes[..k]).pool == Voices.RoundsPlayed(s.pool, rounds[..k])
    {
      RunIsRounds(s, site, passes[..k]);
      assert rounds[..k] == RoundsOf(site, passes[..k]);
    }
  }

  // ----- one link is the most -----

  function On(note: UInt8): Event {
    Event(NoteOn, 0, note, 100)
  }

  function Off(note: UInt8): Event {
    Event(NoteOff, 0, note, 0)
  }

  function SilentPool(voices: nat): Pool {
    Repeated(Voices.VoiceRecord(Voices.Inactive, -1, 0.0), voices)
  }

  lemma {:induction false} CopiedHit(note: UInt8, c: nat)
    ensures OnOffPairs([On(note), Off(note)])
    ensures Reverse(Copied([On(note), Off(note)], c)) == Repeated(Off(note), c) + Repeated(On(note), c)
  {
    var events := [On(note), Off(note)];
    assert events[..1] == [On(note)] && [On(note)][..0] == [];
    assert Copied([On(note)], c) == Copied([], c) + Repeated(On(note), c) == Repeated(On(note), c);
    assert Copied(events, c) == Repeated(On(note), c) + Repeated(Off(note), c);
  }

  lemma {:induction false} ReleasesFindNothing(voices: nat, note: UInt8, c: nat)
    ensures Voices.AllApplied(SilentPool(voices), Repeated(Off(note), c)) == SilentPool(voices)
  {
    if c > 0 {
      assert Repeated(Off(note), c)[..c - 1] == Repeated(Off(note), c - 1);
      ReleasesFindNothing(voices, note, c - 1);
    }
  }

  function RingingPool(voices: nat, note: UInt8, j: nat): Pool {
    var ringing: nat := Min(j, voices);
    Repeated(Voices.VoiceRecord(Voices.Active, note, 100 as real / 127.0), ringing) + SilentPool(voices - ringing)
  }

  /** Strikes of one note start one voice each, as long as there are any. */
  lemma {:induction false} StrikesAddUp(voices: nat, note: UInt8, c: nat, j: nat)
    ensures Voices.AllApplied(SilentPool(voices), Repeated(Off(note), c) + Repeated(On(note), j))
         == RingingPool(voices, note, j)
  {
    hide Voices.Struck;
    var events := Repeated(Off(note), c) + Repeated(On(note), j);
    if j == 0 {
      assert events == Repeated(Off(note), c);
      ReleasesFindNothing(voices, note, c);
      assert RingingPool(voices, note, 0) == SilentPool(voices);
    } else {
      assert events[..c + j - 1] == Repeated(Off(note), c) + Repeated(On(note), j - 1);
      StrikesAddUp(voices, note, c, j - 1);
      StrikeNext(voices, note, j);
      assert events[c + j - 1] == On(note);
    }
  }

  lemma {:induction false} StrikeNext(voices: nat, note: UInt8, j: nat)
    requires j > 0
    ensures Voices.Struck(RingingPool(voices, note, j - 1), note, 100 as real / 127.0) == RingingPool(voices, note, j)
  {
    hide Voices.Struck;
    Voices.StruckAt(RingingPool(voices, note, j - 1), note, 100 as real / 127.0, if j <= voices then j - 1 else voices);
  }

  /** Over two links or more one hit sounds on two voices. */
  lemma {:induction false} DoubledHit(voices: nat, note: UInt8, c: nat)
    requires voices >= 2 && c >= 2
    ensures Voices.OneEach(SilentPool(voices)) && OnOffPairs([On(note), Off(note)])
    ensures !Voices.OneEach(Voices.AllApplied(SilentPool(voices), Reverse(Copied([On(note), Off(note)], c))))
  {
    hide Voices.AllApplied;
    CopiedHit(note, c);
    StrikesAddUp(voices, note, c, c);
    var pool := RingingPool(voices, note, c);
    assert pool[0].state == Voices.Active && pool[1].state == Voices.Active;
  }

  ghost predicate CopiesKeepOneEach(voices: nat, c: nat) {
    forall pool: Pool, events :: |pool| == voices && Voices.OneEach(pool) && OnOffPairs(events) ==>
      Voices.OneEach(Voices.AllApplied(pool, Reverse(Copied(events, c))))
  }

  /** One link per sequencer is exactly what keeps one active voice per note, over all hits and all states of a pool
      with at least two voices. */
  lemma {:induction false} OneEachIff(voices: nat, c: nat)
    ensures CopiesKeepOneEach(voices, c) <==> c <= 1 || voices <= 1
  {
    hide Voices.AllApplied, OnOffPairs, OffOnPairs;
    if c <= 1 {
      forall pool: Pool, events | |pool| == voices && Voices.OneEach(pool) && OnOffPairs(events)
        ensures Voices.OneEach(Voices.AllApplied(pool, Reverse(Copied(events, c))))
      {
        if c == 0 {
          CopiedNever(events);
          NothingIsPaired();
        } else {
          CopiedOnce(events);
        }
        ReversedPairs(Copied(events, c));
        Voices.PairsKeepOneEach(pool, Reverse(Copied(events, c)));
      }
    } else if voices >= 2 {
      DoubledHit(voices, 60, c);
    }
  }
}
