/**
 What the engine's messages do, stated on shapes, points and selection: which ring a message changes, what a run of
 encoder turns adds up to in each mode, and what no message changes.
 */
module MessageLaws {
  import opened Numbers
  import opened Options
  import opened Sequences
  import opened Timeline
  import opened Schedule
  import opened Rotation
  import opened PolyRhythm
  import opened EngineMessages

  // ----- words for effects -----

  /** Nothing changes but ring `k` and its selected point. */
  ghost predicate OnlyRing(s: EngineState, s': EngineState, k: nat) {
    && |s'.rings| == |s.rings| && |s'.selectedPoints| == |s.selectedPoints|
    && (forall i :: 0 <= i < |s.rings| && i != k ==> s'.rings[i] == s.rings[i])
    && (forall i :: 0 <= i < |s.selectedPoints| && i != k ==> s'.selectedPoints[i] == s.selectedPoints[i])
    && s'.mode == s.mode && s'.isPlaying == s.isPlaying
  }

  /** The selected point of a ring whose timeline has `count` points: the old one, or the last. */
  function Nearest(point: nat, count: nat): nat {
    if count == 0 then 0 else if point < count then point else count - 1
  }

  /** The tracks keep their notes and velocities. */
  ghost predicate SameVoices(a: seq<Track>, b: seq<Track>) {
    |a| == |b| && forall t :: 0 <= t < |a| ==> SameVoice(a[t], b[t])
  }

  /** The ring has a new timeline; points that exist on both keep their state, new ones are inactive. */
  ghost predicate Rebuilt(ring: Ring, ring': Ring, timeline: seq<Point>) {
    && ring'.timeline == timeline && SameVoices(ring.tracks, ring'.tracks)
    && forall t: nat, i: nat :: Active(ring'.tracks, t, i) <==> i < |timeline| && Active(ring.tracks, t, i)
  }

  /** Point `point` of the first track is flipped, if there is such a point; nothing else changes. */
  ghost predicate Flipped(ring: Ring, ring': Ring, point: nat) {
    && ring'.shapes == ring.shapes && ring'.timeline == ring.timeline && SameVoices(ring.tracks, ring'.tracks)
    && (forall t :: 0 <= t < |ring.tracks| ==> |ring'.tracks[t].activePoints| == |ring.tracks[t].activePoints|)
    && forall t, i :: 0 <= t < |ring.tracks| && 0 <= i < |ring.tracks[t].activePoints| ==>
         (Active(ring'.tracks, t, i) <==> (Active(ring.tracks, t, i) != (t == 0 && i == point)))
  }

  /** The first track is turned: its point i has the state of its point i + amount. */
  ghost predicate Spun(ring: Ring, ring': Ring, amount: int) {
    && ring'.shapes == ring.shapes && ring'.timeline == ring.timeline && SameVoices(ring.tracks, ring'.tracks)
    && (forall t :: 0 <= t < |ring.tracks| ==> |ring'.tracks[t].activePoints| == |ring.tracks[t].activePoints|)
    && forall t, i :: 0 <= t < |ring.tracks| && 0 <= i < |ring.tracks[t].activePoints| ==>
         (Active(ring'.tracks, t, i) <==>
          Active(ring.tracks, t, Ahead(t, i, amount, |ring.tracks[t].activePoints|)))
  }

  function Ahead(t: nat, i: nat, amount: int, count: nat): nat
    requires count > 0
  {
    if t == 0 then (i + amount) % count else i
  }

  lemma {:induction false} ReshapedIsRebuilt(ring: Ring, shapes: seq<Shape>, timeline: seq<Point>)
    ensures Reshaped(ring, shapes, timeline).shapes == shapes && Reshaped(ring, shapes, timeline).timeline == timeline
    ensures Rebuilt(ring, Reshaped(ring, shapes, timeline), timeline)
  {
    hide ResizeAll, Active;
    ResizingKeepsPoints(ring.tracks, |timeline|, 0, 0);
    forall t: nat | t < |ring.tracks|
      ensures SameVoice(ring.tracks[t], ResizeAll(ring.tracks, |timeline|)[t])
    {
      ResizingKeepsPoints(ring.tracks, |timeline|, t, 0);
    }
    forall t: nat, i: nat
      ensures Active(Reshaped(ring, shapes, timeline).tracks, t, i) <==> i < |timeline| && Active(ring.tracks, t, i)
    {
      ResizingKeepsPoints(ring.tracks, |timeline|, t, i);
    }
  }

  lemma {:induction false} ToggledIsFlipped(ring: Ring, point: nat)
    ensures Flipped(ring, ring.(tracks := Toggled(ring.tracks, 0, point)), point)
  {
    hide Toggled, Active;
    TogglingFlipsOne(ring.tracks, 0, point, 0, 0);
    forall t: nat | t < |ring.tracks|
      ensures SameVoice(ring.tracks[t], Toggled(ring.tracks, 0, point)[t])
      ensures |Toggled(ring.tracks, 0, point)[t].activePoints| == |ring.tracks[t].activePoints|
    {
      TogglingFlipsOne(ring.tracks, 0, point, t, 0);
    }
    forall t: nat, i: nat | t < |ring.tracks| && i < |ring.tracks[t].activePoints|
      ensures Active(Toggled(ring.tracks, 0, point), t, i) <==>
              (Active(ring.tracks, t, i) != (t == 0 && i == point))
    {
      TogglingFlipsOne(ring.tracks, 0, point, t, i);
    }
  }

  lemma {:induction false} RotatedIsSpun(ring: Ring, amount: int)
    ensures Spun(ring, ring.(tracks := Rotated(ring.tracks, 0, amount)), amount)
  {
    hide Rotated, Active;
    TurningMovesPoints(ring.tracks, 0, amount, 0, 0);
    forall t: nat | t < |ring.tracks|
      ensures SameVoice(ring.tracks[t], Rotated(ring.tracks, 0, amount)[t])
      ensures |Rotated(ring.tracks, 0, amount)[t].activePoints| == |ring.tracks[t].activePoints|
    {
      TurningMovesPoints(ring.tracks, 0, amount, t, 0);
    }
    forall t: nat, i: nat | t < |ring.tracks| && i < |ring.tracks[t].activePoints|
      ensures Active(Rotated(ring.tracks, 0, amount), t, i) <==>
              Active(ring.tracks, t, Ahead(t, i, amount, |ring.tracks[t].activePoints|))
    {
      TurningMovesPoints(ring.tracks, 0, amount, t, i);
    }
  }

  // ----- selection and flags -----

  /** Play, pause, navigation and mode messages change their flag alone. */
  lemma {:induction false} FlagMessages(s: EngineState, mode: HardwareMode, timeline: seq<Point>)
    requires SelectionValid(s)
    ensures Next(s, Play, timeline) == s.(isPlaying := true) && Next(s, Pause, timeline) == s.(isPlaying := false)
    ensures Next(s, SetHardwareMode(Some(mode)), timeline) == s.(mode := mode)
    ensures Next(s, SetHardwareMode(None), timeline) == s && Next(s, Navigate, timeline) == s
    ensures Next(s, GetInitialSetup, timeline) == s
  {
    if s.rings != [] {
      KeptSelection(s, s.selectedRing);
    }
  }

  /** Selecting a ring of a valid state changes the selected ring alone. */
  lemma {:induction false} KeptSelection(s: EngineState, ring: nat)
    requires SelectionValid(s) && s.rings != []
    ensures WithSelection(s, ring) == s.(selectedRing := if ring < |s.rings| then ring else |s.rings| - 1)
  {
    var r := SafeIndex(ring, |s.rings|);
    assert OnTimeline(s.selectedPoints[r], |s.rings[r].timeline|);
    assert ClampedAt(s.selectedPoints, r, s.rings) == s.selectedPoints;
  }

  /** A selection message selects the ring, or the last one if there is no such ring, and changes nothing else. */
  lemma {:induction false} SelectingRing(s: EngineState, ring: nat, timeline: seq<Point>)
    requires SelectionValid(s)
    ensures Next(s, SetSelectedRing(ring), timeline)
         == if s.rings == [] then s
            else s.(selectedRing := if ring < |s.rings| then ring else |s.rings| - 1)
  {
    if s.rings != [] {
      KeptSelection(s, ring);
    }
  }

  /** A point delta moves the selected point around the timeline in every mode, and changes nothing else. */
  lemma {:induction false} MovingPoint(s: EngineState, amount: int, timeline: seq<Point>)
    requires SelectionValid(s) && s.rings != [] && s.rings[s.selectedRing].timeline != []
    ensures var r := s.selectedRing;
            Next(s, SelectPointDelta(amount), timeline)
            == s.(selectedPoints := s.selectedPoints[r :=
                 (s.selectedPoints[r] + amount) % |s.rings[r].timeline|])
  {
  }

  // ----- an edited ring is selected, its point clamped -----

  lemma {:induction false} SelectedAfterEdit(s: EngineState, k: nat, ring: Ring)
    requires SelectionValid(s) && k < |s.rings|
    ensures var s' := WithSelection(WithRing(s, k, ring), k);
            && OnlyRing(s, s', k) && s'.rings[k] == ring && s'.selectedRing == k
            && s'.selectedPoints[k] == Nearest(s.selectedPoints[k], |ring.timeline|)
  {
  }

  /** A ring that keeps its timeline keeps its selected point. */
  lemma {:induction false} SelectedAsBefore(s: EngineState, k: nat)
    requires SelectionValid(s) && k < |s.rings|
    ensures Nearest(s.selectedPoints[k], |s.rings[k].timeline|) == s.selectedPoints[k]
  {
    assert OnTimeline(s.selectedPoints[k], |s.rings[k].timeline|);
  }

  // ----- points -----

  /** Ring `k` is selected, and its first track is turned by `amount`. */
  ghost predicate RingSpun(s: EngineState, s': EngineState, k: nat, amount: int) {
    && OnlyRing(s, s', k) && k < |s.rings| && s'.selectedRing == k && s'.selectedPoints == s.selectedPoints
    && Spun(s.rings[k], s'.rings[k], amount)
  }

  lemma {:induction false} RotatedAtSpins(s: EngineState, k: nat, amount: int)
    requires SelectionValid(s) && k < |s.rings|
    ensures RingSpun(s, RotatedAt(s, k, amount), k, amount)
  {
    hide WithSelection, WithRing, Rotated, Spun, SelectionValid;
    var ring := s.rings[k].(tracks := Rotated(s.rings[k].tracks, 0, amount));
    SelectedAfterEdit(s, k, ring);
    SelectedAsBefore(s, k);
    RotatedIsSpun(s.rings[k], amount);
    assert |s.selectedPoints| == |s.rings| by { OnePointEach(s); }
    assert RotatedAt(s, k, amount).selectedPoints == s.selectedPoints;
  }

  lemma {:induction false} OnePointEach(s: EngineState)
    requires SelectionValid(s)
    ensures |s.selectedPoints| == |s.rings| && (s.rings != [] ==> s.selectedRing < |s.rings|)
  {
  }

  /** Rotation messages turn the ring they name, or the selected one; a ring that does not exist is ignored. */
  lemma {:induction false} RotatingRing(s: EngineState, ring: nat, amount: int, timeline: seq<Point>)
    requires SelectionValid(s)
    ensures ring < |s.rings| ==> RingSpun(s, Next(s, Rotate(ring, amount), timeline), ring, amount)
    ensures ring >= |s.rings| ==> Next(s, Rotate(ring, amount), timeline) == s
    ensures s.rings != [] && amount != 0 ==>
              RingSpun(s, Next(s, RotateSelected(amount), timeline), s.selectedRing, amount)
    ensures s.rings == [] || amount == 0 ==> Next(s, RotateSelected(amount), timeline) == s
  {
    hide RotatedAt, RingSpun;
    OnePointEach(s);
    if ring < |s.rings| {
      RotatedAtSpins(s, ring, amount);
    }
    if s.rings != [] {
      RotatedAtSpins(s, s.selectedRing, amount);
    }
  }

  /** A toggle message flips its point, and selects the ring and the point, clamped to the timeline. */
  lemma {:induction false} TogglingPoint(s: EngineState, ring: nat, point: nat, timeline: seq<Point>)
    requires SelectionValid(s)
    ensures var s' := Next(s, Toggle(ring, point), timeline);
            if ring >= |s.rings| then s' == s
            else
              && OnlyRing(s, s', ring) && Flipped(s.rings[ring], s'.rings[ring], point)
              && s'.selectedRing == ring && s'.selectedPoints[ring] == Nearest(point, |s.rings[ring].timeline|)
  {
    hide Toggled, Flipped;
    if ring < |s.rings| {
      ToggledIsFlipped(s.rings[ring], point);
    }
  }

  /** A click in toggle mode, and the toggle message in every mode, flip the selected point and nothing else. */
  lemma {:induction false} TogglingSelected(s: EngineState, m: Message, timeline: seq<Point>)
    requires SelectionValid(s) && (m.ToggleSelectedPoint? || m.EncoderClick?)
    ensures var s', r := Next(s, m, timeline), s.selectedRing;
            if s.rings == [] || (m.EncoderClick? && s.mode != TogglePoint) then s' == s
            else
              && OnlyRing(s, s', r) && Flipped(s.rings[r], s'.rings[r], s.selectedPoints[r])
              && s'.selectedRing == r && s'.selectedPoints == s.selectedPoints
  {
    hide Toggled, Flipped;
    if s.rings != [] {
      ToggledIsFlipped(s.rings[s.selectedRing], s.selectedPoints[s.selectedRing]);
    }
  }

  // ----- shapes -----

  /** Ring `k` is selected and has the shapes, its timeline and points rebuilt, its selected point clamped. */
  ghost predicate RingRebuilt(s: EngineState, s': EngineState, k: nat, timeline: seq<Point>) {
    && OnlyRing(s, s', k) && k < |s.rings| == |s.selectedPoints| && s'.selectedRing == k
    && Rebuilt(s.rings[k], s'.rings[k], timeline)
    && s'.selectedPoints[k] == Nearest(s.selectedPoints[k], |timeline|)
  }

  lemma {:induction false} ReshapingRing(s: EngineState, k: nat, shapes: seq<Shape>, timeline: seq<Point>)
    requires SelectionValid(s) && k < |s.rings|
    ensures var s' := WithSelection(WithRing(s, k, Reshaped(s.rings[k], shapes, timeline)), k);
            RingRebuilt(s, s', k, timeline) && s'.rings[k].shapes == shapes
  {
    hide WithSelection, WithRing, Reshaped, Rebuilt, SelectionValid;
    OnePointEach(s);
    SelectedAfterEdit(s, k, Reshaped(s.rings[k], shapes, timeline));
    ReshapedIsRebuilt(s.rings[k], shapes, timeline);
  }

  /** An added shape stands last, without a mask; the others stay. */
  lemma {:induction false} AddingShape(s: EngineState, ring: nat, n: UInt32, offset: real, timeline: seq<Point>)
    requires SelectionValid(s)
    ensures var s' := Next(s, Message.AddShape(ring, n, offset), timeline);
            if ring >= |s.rings| then s' == s
            else
              && RingRebuilt(s, s', ring, timeline)
              && var before, after := s.rings[ring].shapes, s'.rings[ring].shapes;
              && |after| == |before| + 1 && after[..|before|] == before
              && after[|before|].subdivision == n && after[|before|].offset == offset
              && after[|before|].euclideanHits == 0
  {
    hide WithSelection, Reshaped, RingRebuilt, SelectionValid;
    if ring < |s.rings| {
      ReshapingRing(s, ring, s.rings[ring].shapes + [Shape(n, offset, "Shape", 0)], timeline);
    }
  }

  /** A removed shape leaves the earlier ones in place and moves the later ones up; without it, the ring is selected. */
  lemma {:induction false} RemovingShape(s: EngineState, ring: nat, k: nat, timeline: seq<Point>)
    requires SelectionValid(s)
    ensures var s' := Next(s, Message.RemoveShape(ring, k), timeline);
            if ring >= |s.rings| then s' == s
            else if k >= |s.rings[ring].shapes| then s' == s.(selectedRing := ring)
            else
              && RingRebuilt(s, s', ring, timeline)
              && var before, after := s.rings[ring].shapes, s'.rings[ring].shapes;
              && |after| == |before| - 1
              && forall j :: 0 <= j < |after| ==> after[j] == before[if j < k then j else j + 1]
  {
    hide WithSelection, Reshaped, RingRebuilt, SelectionValid;
    if ring < |s.rings| {
      var shapes := s.rings[ring].shapes;
      if k < |shapes| {
        ReshapingRing(s, ring, shapes[..k] + shapes[k + 1..], timeline);
      } else {
        KeptSelection(s, ring);
      }
    }
  }

  /** A modified shape has the new subdivision and offset, and keeps its mask and name; the others stay. */
  lemma {:induction false} ModifyingShape(s: EngineState, ring: nat, k: nat, n: UInt32, offset: real,
                                          timeline: seq<Point>)
    requires SelectionValid(s)
    ensures var s' := Next(s, ModifyShape(ring, k, n, offset), timeline);
            if ring >= |s.rings| || k >= |s.rings[ring].shapes| then s' == s
            else
              && RingRebuilt(s, s', ring, timeline)
              && ShapeChanged(s.rings[ring].shapes, s'.rings[ring].shapes, k, n, offset)
  {
    hide WithSelection, Reshaped, RingRebuilt, SelectionValid;
    if ring < |s.rings| && k < |s.rings[ring].shapes| {
      var shapes := s.rings[ring].shapes;
      ReshapingRing(s, ring, shapes[k := shapes[k].(subdivision := n, offset := offset)], timeline);
    }
  }

  /** Shape `k` has the subdivision and the offset; all else is as before. */
  ghost predicate ShapeChanged(before: seq<Shape>, after: seq<Shape>, k: nat, n: int, offset: real) {
    && |after| == |before| && k < |before|
    && (forall j :: 0 <= j < |before| && j != k ==> after[j] == before[j])
    && after[k].subdivision == n && after[k].offset == offset
    && after[k].name == before[k].name && after[k].euclideanHits == before[k].euclideanHits
  }

  /** Subdivision plus `amount`, within 1 to 32; the sum is taken on 32-bit signed integers. */
  function Clicked(n: nat, amount: int): nat {
    var x := (if n < 0x8000_0000 then n else n - 0x1_0000_0000) + amount;
    if x < 1 then 1 else if x > 32 then 32 else x
  }

  /** A change of the selected ring's point count sets its first shape's subdivision, and changes no other shape. */
  lemma {:induction false} AdjustingPoints(s: EngineState, m: Message, amount: int, timeline: seq<Point>)
    requires SelectionValid(s) && s.rings != [] && amount != 0
    requires m == AdjustPoints(amount) || (m == EncoderDelta(amount) && s.mode == AddRemovePoint)
    ensures var s', r, shapes := Next(s, m, timeline), s.selectedRing, s.rings[s.selectedRing].shapes;
            if shapes == [] || Clicked(shapes[0].subdivision, amount) == shapes[0].subdivision then s' == s
            else
              && RingRebuilt(s, s', r, timeline)
              && ShapeChanged(shapes, s'.rings[r].shapes, 0, Clicked(shapes[0].subdivision, amount), shapes[0].offset)
  {
    hide WithSelection, WithRing, Reshaped, RingRebuilt, SelectionValid;
    OnePointEach(s);
    var r, shapes := s.selectedRing, s.rings[s.selectedRing].shapes;
    if shapes != [] {
      var n := Clicked(shapes[0].subdivision, amount);
      assert AdjustedSubdivision(shapes[0].subdivision, amount) == n;
      ReshapingRing(s, r, shapes[0 := shapes[0].(subdivision := n)], timeline);
    }
  }

  // ----- runs of encoder turns -----

  /** The subdivision after a run of turns in points mode; a turn by nothing is ignored. */
  function AfterClicks(n: nat, amounts: seq<int>): nat {
    if amounts == [] then n
    else
      var before, last := AfterClicks(n, amounts[..|amounts| - 1]), amounts[|amounts| - 1];
      if last == 0 then before else Clicked(before, last)
  }

  /** In points mode a run of turns leaves the first shape of the selected ring with the subdivision clicked to, keeps
      its offset and mask, all other shapes and all other rings, and the mode. */
  ghost predicate ClickedTo(s: EngineState, s': EngineState, n: nat) {
    var r := s.selectedRing;
    && OnlyRing(s, s', r) && s'.selectedRing == r < |s.rings| && s.rings[r].shapes != []
    && ShapeChanged(s.rings[r].shapes, s'.rings[r].shapes, 0, n, s.rings[r].shapes[0].offset)
    && SameVoices(s.rings[r].tracks, s'.rings[r].tracks)
  }

  lemma {:induction false} PointsTurnsAddUp(s: EngineState, amounts: seq<int>, timelines: seq<seq<Point>>)
    requires SelectionValid(s) && s.mode == AddRemovePoint && |timelines| == |amounts|
    requires s.rings != [] && s.rings[s.selectedRing].shapes != []
    ensures ClickedTo(s, AllNext(s, Turns(amounts), timelines),
                      AfterClicks(s.rings[s.selectedRing].shapes[0].subdivision, amounts))
    decreases |amounts|
  {
    hide Next, AllNext, SelectionValid, ClickedTo, Clicked;
    AllNextUnfolds(s, Turns(amounts), timelines);
    OnePointEach(s);
    if amounts == [] {
      NoClick(s);
    } else {
      var n := |amounts| - 1;
      PointsTurnsAddUp(s, amounts[..n], timelines[..n]);
      assert Turns(amounts)[..n] == Turns(amounts[..n]);
      OneClick(s, AllNext(s, Turns(amounts[..n]), timelines[..n]),
               AfterClicks(s.rings[s.selectedRing].shapes[0].subdivision, amounts[..n]), amounts[n], timelines[n]);
    }
  }

  lemma {:induction false} NoClick(s: EngineState)
    requires SelectionValid(s) && s.rings != [] && s.rings[s.selectedRing].shapes != []
    ensures ClickedTo(s, s, s.rings[s.selectedRing].shapes[0].subdivision)
  {
  }

  lemma {:induction false} OneClick(s: EngineState, mid: EngineState, n: nat, amount: int, timeline: seq<Point>)
    requires SelectionValid(mid) && s.mode == AddRemovePoint && ClickedTo(s, mid, n)
    ensures ClickedTo(s, Next(mid, EncoderDelta(amount), timeline), if amount == 0 then n else Clicked(n, amount))
  {
    hide SelectionValid, Clicked;
    if amount == 0 {
      assert Next(mid, EncoderDelta(0), timeline) == mid;
    } else {
      hide Next;
      AdjustingPoints(mid, EncoderDelta(amount), amount, timeline);
    }
  }

  predicate AllUp(amounts: seq<int>) {
    forall k :: 0 <= k < |amounts| ==> amounts[k] >= 0
  }

  predicate AllDown(amounts: seq<int>) {
    forall k :: 0 <= k < |amounts| ==> amounts[k] <= 0
  }

  /** Turns up from 1 or more add up, as far as 32; turns down from at most 32 add up, as far as 1. */
  lemma {:induction false} ClicksOneWay(n: nat, amounts: seq<int>)
    requires 1 <= n <= 32
    ensures AllUp(amounts) ==> AfterClicks(n, amounts) == Min(32, n + Sum(amounts))
    ensures AllDown(amounts) ==> AfterClicks(n, amounts) == Max(1, n + Sum(amounts))
    ensures 1 <= AfterClicks(n, amounts) <= 32
    decreases |amounts|
  {
    if amounts != [] {
      var m := |amounts| - 1;
      ClicksOneWay(n, amounts[..m]);
      SumOfOneSign(amounts[..m]);
    }
  }

  lemma {:induction false} SumOfOneSign(amounts: seq<int>)
    ensures AllUp(amounts) ==> Sum(amounts) >= 0
    ensures AllDown(amounts) ==> Sum(amounts) <= 0
    decreases |amounts|
  {
    if amounts != [] {
      SumOfOneSign(amounts[..|amounts| - 1]);
    }
  }

  /** The state with the selected ring's first track turned. */
  function SpunBy(s: EngineState, amount: int): EngineState
    requires s.selectedRing < |s.rings|
  {
    var r := s.selectedRing;
    s.(rings := s.rings[r := s.rings[r].(tracks := Rotated(s.rings[r].tracks, 0, amount))])
  }

  lemma {:induction false} OneSpin(s: EngineState, amount: int, timeline: seq<Point>)
    requires SelectionValid(s) && s.mode == RotateRing && s.rings != []
    ensures Next(s, EncoderDelta(amount), timeline) == SpunBy(s, amount)
  {
    hide Rotated;
    var r := s.selectedRing;
    if amount == 0 {
      RotatedByNothing(s.rings[r].tracks);
      assert s.rings[r].(tracks := s.rings[r].tracks) == s.rings[r];
    } else {
      var s' := SpunBy(s, amount);
      assert SelectionValid(s');
      KeptSelection(s', r);
    }
  }

  lemma {:induction false} RotatedByNothing(tracks: seq<Track>)
    ensures Rotated(tracks, 0, 0) == tracks
  {
    hide Rotation.Rotate;
    if tracks != [] {
      RotationPeriod(tracks[0].activePoints, 0);
      assert tracks[0].(activePoints := tracks[0].activePoints) == tracks[0];
    }
  }

  lemma {:induction false} RotatedTwice(tracks: seq<Track>, a: int, b: int)
    ensures Rotated(Rotated(tracks, 0, a), 0, b) == Rotated(tracks, 0, a + b)
  {
    hide Rotation.Rotate;
    if tracks != [] {
      RotationsCompose(tracks[0].activePoints, a, b);
    }
  }

  lemma {:induction false} SpinsCompose(s: EngineState, a: int, b: int)
    requires SelectionValid(s) && s.rings != []
    ensures SelectionValid(SpunBy(s, a)) && SpunBy(SpunBy(s, a), b) == SpunBy(s, a + b)
  {
    hide Rotated;
    RotatedTwice(s.rings[s.selectedRing].tracks, a, b);
  }

  lemma {:induction false} SpinsFold(s: EngineState, amounts: seq<int>, timelines: seq<seq<Point>>)
    requires SelectionValid(s) && s.mode == RotateRing && s.rings != [] && |timelines| == |amounts|
    ensures AllNext(s, Turns(amounts), timelines) == SpunBy(s, Sum(amounts))
    decreases |amounts|
  {
    hide Next, AllNext, SelectionValid, Rotated;
    AllNextUnfolds(s, Turns(amounts), timelines);
    OnePointEach(s);
    if amounts == [] {
      RotatedByNothing(s.rings[s.selectedRing].tracks);
      assert s.rings[s.selectedRing].(tracks := s.rings[s.selectedRing].tracks) == s.rings[s.selectedRing];
    } else {
      var n := |amounts| - 1;
      SpinsFold(s, amounts[..n], timelines[..n]);
      assert Turns(amounts)[..n] == Turns(amounts[..n]);
      SpinsCompose(s, Sum(amounts[..n]), amounts[n]);
      OneSpin(SpunBy(s, Sum(amounts[..n])), amounts[n], timelines[n]);
    }
  }

  /** In rotate mode a run of turns leaves all shapes and timelines alone and turns the first track of the selected ring
      by the sum of the turns. */
  lemma {:induction false} RotateTurnsAddUp(s: EngineState, amounts: seq<int>, timelines: seq<seq<Point>>)
    requires SelectionValid(s) && s.mode == RotateRing && s.rings != [] && |timelines| == |amounts|
    ensures RingSpun(s, AllNext(s, Turns(amounts), timelines), s.selectedRing, Sum(amounts))
  {
    hide Rotated, AllNext, Spun;
    SpinsFold(s, amounts, timelines);
    RotatedIsSpun(s.rings[s.selectedRing], Sum(amounts));
  }

  // ----- what no message changes -----

  ghost predicate SameInstruments(s: EngineState, s': EngineState) {
    |s'.rings| == |s.rings| && forall k :: 0 <= k < |s.rings| ==> SameVoices(s.rings[k].tracks, s'.rings[k].tracks)
  }

  lemma {:induction false} OneRingKeepsInstruments(s: EngineState, s': EngineState, k: nat)
    requires OnlyRing(s, s', k) && (k < |s.rings| ==> SameVoices(s.rings[k].tracks, s'.rings[k].tracks))
    ensures SameInstruments(s, s')
  {
  }

  lemma {:induction false} MessageKeepsInstruments(s: EngineState, m: Message, timeline: seq<Point>)
    requires SelectionValid(s)
    ensures SameInstruments(s, Next(s, m, timeline))
  {
    hide Next, SelectionValid;
    match m
    case SetSelectedRing(ring) => SelectingRing(s, ring, timeline);
    case SetHardwareMode(mode) => FlagMessages(s, if mode.Some? then mode.value else TogglePoint, timeline);
    case SelectPointDelta(amount) => MovesKeepInstruments(s, m, timeline);
    case EncoderDelta(amount) => TurnKeepsInstruments(s, amount, timeline);
    case EncoderClick => TogglingSelected(s, m, timeline);
    case ToggleSelectedPoint => TogglingSelected(s, m, timeline);
    case AdjustPoints(amount) => MovesKeepInstruments(s, m, timeline);
    case RotateSelected(amount) => RotatingRing(s, 0, amount, timeline);
    case Toggle(ring, point) => TogglingPoint(s, ring, point, timeline);
    case AddShape(ring, n, offset) => AddingShape(s, ring, n, offset, timeline);
    case RemoveShape(ring, k) => RemovingShape(s, ring, k, timeline);
    case ModifyShape(ring, k, n, offset) => ModifyingShape(s, ring, k, n, offset, timeline);
    case Rotate(ring, amount) => RotatingRing(s, ring, amount, timeline);
    case _ => FlagMessages(s, TogglePoint, timeline);
  }

  lemma {:induction false} MovesKeepInstruments(s: EngineState, m: Message, timeline: seq<Point>)
    requires SelectionValid(s) && (m.SelectPointDelta? || m.AdjustPoints?)
    ensures SameInstruments(s, Next(s, m, timeline))
  {
    hide SelectionValid;
    OnePointEach(s);
    if m.AdjustPoints? && s.rings != [] && m.amount != 0 {
      hide Next;
      AdjustingPoints(s, m, m.amount, timeline);
    } else {
      hide Adjusted;
    }
  }

  lemma {:induction false} TurnKeepsInstruments(s: EngineState, amount: int, timeline: seq<Point>)
    requires SelectionValid(s)
    ensures SameInstruments(s, Next(s, EncoderDelta(amount), timeline))
  {
    hide SelectionValid, Rotated, Adjusted;
    OnePointEach(s);
    if s.rings != [] && amount != 0 {
      match s.mode
      case TogglePoint =>
      case AddRemovePoint => AdjustingPoints(s, EncoderDelta(amount), amount, timeline);
      case RotateRing =>
        OneSpin(s, amount, timeline);
        RotatedIsSpun(s.rings[s.selectedRing], amount);
    }
  }

  lemma {:induction false} SameInstrumentsChain(a: EngineState, b: EngineState, c: EngineState)
    requires SameInstruments(a, b) && SameInstruments(b, c)
    ensures SameInstruments(a, c)
  {
  }

  /** Over every run of messages each track keeps its note, its velocity and its name. */
  lemma {:induction false} MessagesKeepInstruments(s: EngineState, messages: seq<Message>, timelines: seq<seq<Point>>)
    requires SelectionValid(s) && |timelines| == |messages|
    ensures SameInstruments(s, AllNext(s, messages, timelines))
    decreases |messages|
  {
    hide Next, AllNext, SelectionValid, SameInstruments;
    AllNextUnfolds(s, messages, timelines);
    if messages == [] {
      SameAsItself(s);
    } else {
      var n := |messages| - 1;
      var before := AllNext(s, messages[..n], timelines[..n]);
      MessagesKeepInstruments(s, messages[..n], timelines[..n]);
      MessageKeepsInstruments(before, messages[n], timelines[n]);
      SameInstrumentsChain(s, before, AllNext(s, messages, timelines));
    }
  }

  lemma {:induction false} SameAsItself(s: EngineState)
    ensures SameInstruments(s, s)
  {
  }
}
