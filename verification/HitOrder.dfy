/** The events of one buffer, one by one: which hits they belong to, in which order, and every field of each. */
module HitOrder {
  import opened Events
  import opened Timeline
  import opened Playhead
  import opened Schedule

  /** A hit: a point of the timeline and a track that has it active. */
  datatype HitAt = HitAt(point: nat, track: nat)

  predicate Earlier(a: HitAt, b: HitAt) {
    a.point < b.point || (a.point == b.point && a.track < b.track)
  }

  ghost predicate Struck(timeline: seq<Point>, tracks: seq<Track>, phase: real, span: real, h: HitAt) {
    && h.point < |timeline| && h.track < |tracks| && Hit(timeline[h.point].phase, phase, span)
    && h.point < |tracks[h.track].activePoints| && tracks[h.track].activePoints[h.point]
  }

  /** All hits of the buffer, each once, by point and then by track. */
  ghost predicate Ordered(timeline: seq<Point>, tracks: seq<Track>, phase: real, span: real, hits: seq<HitAt>) {
    && (forall h :: h in hits <==> Struck(timeline, tracks, phase, span, h))
    && forall j, k :: 0 <= j < k < |hits| ==> Earlier(hits[j], hits[k])
  }

  /** The pair of events a hit of a track makes at a sample of the buffer. */
  ghost predicate Pair(events: seq<Event>, k: nat, track: Track, offset: int, size: nat)
    requires 2 * k + 1 < |events|
  {
    var on, off := events[2 * k], events[2 * k + 1];
    && on.kind == NoteOn && on.offset == offset && on.note == track.noteNumber % 256
    && on.velocity == track.velocity % 256
    && off.kind == NoteOff && off.offset == offset + size / 4 && off.note == on.note && off.velocity == 0
  }

  /** Pair k belongs to hit k: its track, at the floor of the point's distance over the increment. */
  ghost predicate Matches(timeline: seq<Point>, tracks: seq<Track>, phase: real, inc: real, size: nat,
                          events: seq<Event>, hits: seq<HitAt>)
  {
    && |events| == 2 * |hits|
    && forall k :: 0 <= k < |hits| ==>
         && hits[k].point < |timeline| && hits[k].track < |tracks| && inc > 0.0
         && Pair(events, k, tracks[hits[k].track], (Ahead(timeline[hits[k].point].phase, phase) / inc).Floor, size)
  }

  lemma {:induction false} PairsKept(a: seq<Event>, b: seq<Event>, k: nat, track: Track, offset: int, size: nat)
    requires |a| % 2 == 0
    ensures 2 * k + 1 < |a| ==> (Pair(a + b, k, track, offset, size) <==> Pair(a, k, track, offset, size))
    ensures 2 * k + 1 < |b| ==> (Pair(a + b, |a| / 2 + k, track, offset, size) <==> Pair(b, k, track, offset, size))
  {
  }

  lemma {:induction false} PointInOrder(tracks: seq<Track>, i: nat, offset: nat, size: nat) returns (hits: seq<nat>)
    ensures var events := PointEvents(tracks, i, offset, size);
            && |events| == 2 * |hits|
            && forall k :: 0 <= k < |hits| ==> hits[k] < |tracks| && Pair(events, k, tracks[hits[k]], offset, size)
    ensures forall t: nat :: t in hits <==> t < |tracks| && Fires(tracks[t], i)
    ensures forall j, k :: 0 <= j < k < |hits| ==> hits[j] < hits[k]
  {
    hide Fires;
    if tracks == [] {
      hits := [];
    } else {
      var n := |tracks| - 1;
      var earlier := PointInOrder(tracks[..n], i, offset, size);
      var events := PointEvents(tracks[..n], i, offset, size);
      if Fires(tracks[n], i) {
        hits := earlier + [n];
        forall k | 0 <= k < |hits|
          ensures hits[k] < |tracks|
          ensures Pair(events + HitEvents(tracks[n], offset, size), k, tracks[hits[k]], offset, size)
        {
          PairsKept(events, HitEvents(tracks[n], offset, size), if k < |earlier| then k else 0, tracks[hits[k]], offset,
                    size);
        }
      } else {
        hits := earlier;
        assert events + [] == events;
      }
    }
  }

  /**
   The events of a buffer are those of its hits, in the order of the timeline and then of the tracks: a note-on at the
   floor of the point's distance over the increment, and a note-off a quarter buffer later.
   */
  lemma {:induction false} BufferInOrder(timeline: seq<Point>, tracks: seq<Track>, phase: real, inc: real, size: nat)
      returns (hits: seq<HitAt>)
    requires InCycles(timeline) && phase < 1.0
    ensures Ordered(timeline, tracks, phase, Span(inc, size), hits)
    ensures Matches(timeline, tracks, phase, inc, size, BufferEvents(timeline, tracks, phase, inc, size), hits)
    decreases |timeline|
  {
    hide Hit, Ahead, Matches, Ordered, PointEvents;
    if timeline == [] {
      hits := [];
      NothingInOrder(tracks, phase, inc, size);
    } else {
      var i := |timeline| - 1;
      var earlier := BufferInOrder(timeline[..i], tracks, phase, inc, size);
      var before := BufferEvents(timeline[..i], tracks, phase, inc, size);
      if Hit(timeline[i].phase, phase, Span(inc, size)) {
        var offset := SampleOffset(timeline[i].phase, phase, inc, size);
        var here := PointInOrder(tracks, i, offset, size);
        var events := PointEvents(tracks, i, offset, size);
        hits := earlier + AtPoint(i, here);
        OrderGrows(timeline, tracks, phase, Span(inc, size), earlier, here, hits);
        MatchesGrow(timeline, tracks, phase, inc, size, before, earlier, events, here);
      } else {
        hits := earlier;
        assert earlier + AtPoint(i, []) == earlier && before + [] == before;
        OrderGrows(timeline, tracks, phase, Span(inc, size), earlier, [], hits);
        MatchesGrow(timeline, tracks, phase, inc, size, before, earlier, [], []);
      }
    }
  }

  lemma {:induction false} NothingInOrder(tracks: seq<Track>, phase: real, inc: real, size: nat)
    ensures Ordered([], tracks, phase, Span(inc, size), []) && Matches([], tracks, phase, inc, size, [], [])
  {
  }

  function AtPoint(i: nat, here: seq<nat>): (r: seq<HitAt>)
    ensures |r| == |here| && forall k :: 0 <= k < |here| ==> r[k] == HitAt(i, here[k])
  {
    seq(|here|, k requires 0 <= k < |here| => HitAt(i, here[k]))
  }

  lemma {:induction false} MatchesGrow(timeline: seq<Point>, tracks: seq<Track>, phase: real, inc: real, size: nat,
                                       before: seq<Event>, earlier: seq<HitAt>, events: seq<Event>, here: seq<nat>)
    requires timeline != [] && Matches(timeline[..|timeline| - 1], tracks, phase, inc, size, before, earlier)
    requires |events| == 2 * |here| && (here != [] ==> inc > 0.0)
    requires forall k :: 0 <= k < |here| ==>
               && here[k] < |tracks| && inc > 0.0
               && Pair(events, k, tracks[here[k]], (Ahead(timeline[|timeline| - 1].phase, phase) / inc).Floor, size)
    ensures Matches(timeline, tracks, phase, inc, size, before + events, earlier + AtPoint(|timeline| - 1, here))
  {
    hide Pair, Ahead, AtPoint;
    var hits := earlier + AtPoint(|timeline| - 1, here);
    forall k | 0 <= k < |hits|
      ensures hits[k].point < |timeline| && hits[k].track < |tracks| && inc > 0.0
      ensures Pair(before + events, k, tracks[hits[k].track],
                   (Ahead(timeline[hits[k].point].phase, phase) / inc).Floor, size)
    {
      if k < |earlier| {
        PairsKept(before, events, k, tracks[hits[k].track],
                  (Ahead(timeline[hits[k].point].phase, phase) / inc).Floor, size);
      } else {
        var j := k - |earlier|;
        PairsKept(before, events, j, tracks[here[j]], (Ahead(timeline[|timeline| - 1].phase, phase) / inc).Floor, size);
      }
    }
  }

  lemma {:induction false} OrderGrows(timeline: seq<Point>, tracks: seq<Track>, phase: real, span: real,
                                      earlier: seq<HitAt>, here: seq<nat>, hits: seq<HitAt>)
    requires timeline != [] && Ordered(timeline[..|timeline| - 1], tracks, phase, span, earlier)
    requires var i := |timeline| - 1;
             && (forall t: nat :: t in here <==>
                   t < |tracks| && Hit(timeline[i].phase, phase, span) && Fires(tracks[t], i))
             && (forall j, k :: 0 <= j < k < |here| ==> here[j] < here[k])
             && hits == earlier + AtPoint(i, here)
    ensures Ordered(timeline, tracks, phase, span, hits)
  {
    hide Hit;
    var i := |timeline| - 1;
    var last := AtPoint(i, here);
    forall h
      ensures h in last <==> h.point == i && h.track in here
    {
      if h.point == i && h.track in here {
        var k :| 0 <= k < |here| && here[k] == h.track;
        assert last[k] == h;
      }
    }
    forall h
      ensures h in hits <==> Struck(timeline, tracks, phase, span, h)
    {
      assert h in hits <==> h in earlier || h in last;
      assert Struck(timeline, tracks, phase, span, h) <==>
             Struck(timeline[..i], tracks, phase, span, h) || (h.point == i && h.track in here);
    }
    forall j, k | 0 <= j < k < |hits|
      ensures Earlier(hits[j], hits[k])
    {
      if j < |earlier| <= k {
        assert earlier[j] in earlier;
        assert Struck(timeline[..i], tracks, phase, span, earlier[j]);
      }
    }
  }
}
