/** The engine's message loop: selection, encoder and shape edits over the rings, one polyrhythm module per ring. */
module EngineMessages {
  import opened Numbers
  import opened Options
  import opened Sequences
  import opened Euclid
  import opened Timeline
  import opened Schedule
  import opened Rotation
  import opened PolyRhythm

  datatype HardwareMode = TogglePoint | AddRemovePoint | RotateRing

  /** Messages of the GUI, numbers already parsed; `mode` is None for a mode name the engine does not know. */
  datatype Message =
    | GetInitialSetup
    | Play
    | Pause
    | Navigate
    | SetSelectedRing(ring: nat)
    | SetHardwareMode(mode: Option<HardwareMode>)
    | SelectPointDelta(amount: int)
    | EncoderDelta(amount: int)
    | EncoderClick
    | ToggleSelectedPoint
    | AdjustPoints(amount: int)
    | RotateSelected(amount: int)
    | Toggle(ring: nat, point: nat)
    | AddShape(ring: nat, subdivision: UInt32, offset: real)
    | RemoveShape(ring: nat, shape: nat)
    | ModifyShape(ring: nat, shape: nat, subdivision: UInt32, offset: real)
    | Rotate(ring: nat, amount: int)

  // ----- selection arithmetic -----

  /** The encoder moves the selection with C's remainder, corrected to be non-negative. */
  function NextPoint(point: nat, amount: int, count: nat): (next: nat)
    requires count > 0
    ensures next < count && next == (point + amount) % count
  {
    NextPointIsModulo(point, amount, count);
    var r := CRem(point % count + amount, count);
    if r < 0 then r + count else r
  }

  lemma {:induction false} NextPointIsModulo(point: nat, amount: int, count: nat)
    requires count > 0
    ensures var r := CRem(point % count + amount, count);
            (if r < 0 then r + count else r) == (point + amount) % count
  {
    var x := point % count + amount;
    ModOfSum(point, amount, count);
    if x < 0 {
      var q, m := (-x) / count, (-x) % count;
      assert -x == count * q + m;
      if m == 0 {
        ModUnique(x, count, -q, 0);
      } else {
        assert count * (-q - 1) == -(count * q) - count;
        ModUnique(x, count, -q - 1, count - m);
      }
    }
  }

  /** Encoder turns compose by addition, so a turn back undoes a turn. */
  lemma {:induction false} TurnsCompose(point: nat, a: int, b: int, count: nat)
    requires point < count
    ensures NextPoint(NextPoint(point, a, count), b, count) == NextPoint(point, a + b, count)
    ensures NextPoint(NextPoint(point, a, count), -a, count) == point
  {
    ModOfSum(point + a, b, count);
    ModOfSum(point + a, -a, count);
    ModUnique(point, count, 0, point);
    assert point + a + b == point + (a + b);
  }

  function Clamped(point: nat, count: nat): nat {
    if count == 0 then 0 else if point >= count then count - 1 else point
  }

  predicate OnTimeline(point: nat, count: nat) {
    if count == 0 then point == 0 else point < count
  }

  /** C's conversion of a `uint32_t` to `int`. */
  function ToInt32(x: UInt32): int {
    if x < UINT32_MODULUS / 2 then x else x - UINT32_MODULUS
  }

  function AdjustedSubdivision(subdivision: UInt32, amount: int): UInt32 {
    Max(1, Min(32, ToInt32(subdivision) + amount))
  }

  /** `vector::resize` of a selection that has fewer entries than there are rings. */
  function Padded(points: seq<nat>, n: nat): (r: seq<nat>)
    ensures |r| == if |points| < n then n else |points|
  {
    if |points| < n then points + seq(n - |points|, _ => 0) else points
  }

  function EditedShapes(shapes: seq<Shape>, m: Message): seq<Shape>
    requires m.AddShape? || m.RemoveShape? || m.ModifyShape?
  {
    match m
    case AddShape(_, subdivision, offset) => shapes + [Shape(subdivision, offset, "Shape", 0)]
    case RemoveShape(_, k) => if k < |shapes| then shapes[..k] + shapes[k + 1..] else shapes
    case ModifyShape(_, k, subdivision, offset) =>
      if k < |shapes| then shapes[k := shapes[k].(subdivision := subdivision, offset := offset)] else shapes
  }

  // ----- the engine as a value: what one message does -----

  datatype Ring = Ring(shapes: seq<Shape>, timeline: seq<Point>, tracks: seq<Track>)

  datatype EngineState = EngineState(rings: seq<Ring>, selectedRing: nat, selectedPoints: seq<nat>,
                                     mode: HardwareMode, isPlaying: bool)

  /** The selected ring exists, and each ring's selected point lies on its timeline, or is 0 if there is none. */
  ghost predicate SelectionValid(s: EngineState) {
    && |s.selectedPoints| == |s.rings|
    && (if s.rings == [] then s.selectedRing == 0 else s.selectedRing < |s.rings|)
    && forall i :: 0 <= i < |s.rings| ==> OnTimeline(s.selectedPoints[i], |s.rings[i].timeline|)
  }

  function SafeIndex(ring: nat, count: nat): nat {
    if count == 0 then 0 else Min(ring, count - 1)
  }

  function ClampedAt(points: seq<nat>, ring: nat, rings: seq<Ring>): (r: seq<nat>)
    ensures |points| == |rings| ==> |r| == |rings|
  {
    if ring >= |rings| then points
    else
      var padded := Padded(points, |rings|);
      padded[ring := Clamped(padded[ring], |rings[ring].timeline|)]
  }

  function WithSelection(s: EngineState, ring: nat): EngineState {
    if s.rings == [] then s
    else
      var r := SafeIndex(ring, |s.rings|);
      s.(selectedRing := r, selectedPoints := ClampedAt(s.selectedPoints, r, s.rings))
  }

  function Moved(s: EngineState, amount: int): EngineState
    requires SelectionValid(s) && s.rings != []
  {
    var count := |s.rings[s.selectedRing].timeline|;
    if count == 0 then s
    else s.(selectedPoints := s.selectedPoints[s.selectedRing :=
              NextPoint(s.selectedPoints[s.selectedRing], amount, count)])
  }

  /** The ring with other shapes, once its timeline is rebuilt. */
  function Reshaped(ring: Ring, shapes: seq<Shape>, timeline: seq<Point>): Ring {
    Ring(shapes, timeline, ResizeAll(ring.tracks, |timeline|))
  }

  function WithRing(s: EngineState, k: nat, ring: Ring): EngineState
    requires k < |s.rings|
  {
    s.(rings := s.rings[k := ring])
  }

  function Adjusted(s: EngineState, amount: int, timeline: seq<Point>): EngineState
    requires SelectionValid(s) && s.rings != []
  {
    var r, ring := s.selectedRing, s.rings[s.selectedRing];
    if ring.shapes == []
       || AdjustedSubdivision(ring.shapes[0].subdivision, amount) == ToInt32(ring.shapes[0].subdivision)
    then s
    else
      var shape := ring.shapes[0].(subdivision := AdjustedSubdivision(ring.shapes[0].subdivision, amount));
      WithSelection(WithRing(s, r, Reshaped(ring, ring.shapes[0 := shape], timeline)), r)
  }

  function RotatedAt(s: EngineState, k: nat, amount: int): EngineState
    requires k < |s.rings|
  {
    WithSelection(WithRing(s, k, s.rings[k].(tracks := Rotated(s.rings[k].tracks, 0, amount))), k)
  }

  function ToggledSelected(s: EngineState): EngineState
    requires SelectionValid(s)
  {
    if s.rings == [] then s
    else
      var r := s.selectedRing;
      WithRing(s, r, s.rings[r].(tracks := Toggled(s.rings[r].tracks, 0, s.selectedPoints[r])))
  }

  function ToggledAt(s: EngineState, ring: nat, point: nat): EngineState {
    if ring >= |s.rings| then s
    else
      var s' := WithRing(s, ring, s.rings[ring].(tracks := Toggled(s.rings[ring].tracks, 0, point)));
      WithSelection(s'.(selectedPoints := Padded(s.selectedPoints, |s.rings|)[ring := point]), ring)
  }

  function Edited(s: EngineState, m: Message, timeline: seq<Point>): EngineState
    requires m.AddShape? || m.RemoveShape? || m.ModifyShape?
  {
    if m.ring >= |s.rings| then s
    else
      var ring := s.rings[m.ring];
      if m.AddShape? || m.shape < |ring.shapes|
      then WithSelection(WithRing(s, m.ring, Reshaped(ring, EditedShapes(ring.shapes, m), timeline)), m.ring)
      else if m.RemoveShape? then WithSelection(s, m.ring)
      else s
  }

  function Turned(s: EngineState, amount: int, timeline: seq<Point>): EngineState
    requires SelectionValid(s)
  {
    if s.rings == [] || amount == 0 then s
    else match s.mode
      case TogglePoint => Moved(s, amount)
      case AddRemovePoint => Adjusted(s, amount, timeline)
      case RotateRing => RotatedAt(s, s.selectedRing, amount)
  }

  /** One message. A message that reshapes a ring rebuilds its timeline; `timeline` is the result. */
  function Next(s: EngineState, m: Message, timeline: seq<Point>): EngineState
    requires SelectionValid(s)
  {
    match m
    case GetInitialSetup => WithSelection(s, s.selectedRing)
    case Play => s.(isPlaying := true)
    case Pause => s.(isPlaying := false)
    case Navigate => s
    case SetSelectedRing(ring) => WithSelection(s, ring)
    case SetHardwareMode(mode) => if mode.Some? then s.(mode := mode.value) else s
    case SelectPointDelta(amount) => if s.rings == [] then s else Moved(s, amount)
    case EncoderDelta(amount) => Turned(s, amount, timeline)
    case EncoderClick => if s.mode == TogglePoint then ToggledSelected(s) else s
    case ToggleSelectedPoint => ToggledSelected(s)
    case AdjustPoints(amount) => if s.rings == [] || amount == 0 then s else Adjusted(s, amount, timeline)
    case RotateSelected(amount) => if s.rings == [] || amount == 0 then s else RotatedAt(s, s.selectedRing, amount)
    case Toggle(ring, point) => ToggledAt(s, ring, point)
    case Rotate(ring, amount) => if ring >= |s.rings| then s else RotatedAt(s, ring, amount)
    case _ => Edited(s, m, timeline)
  }

  /** Whatever timeline a message leaves behind, the selection is valid on it. */
  lemma {:induction false} NextKeepsSelection(s: EngineState, m: Message, timeline: seq<Point>)
    requires SelectionValid(s)
    ensures SelectionValid(Next(s, m, timeline)) && |Next(s, m, timeline).rings| == |s.rings|
  {
    hide Rotated, Toggled, ResizeAll, EditedShapes, AdjustedSubdivision, WithSelection, NextPoint, Edited;
    match m
    case GetInitialSetup => SelectingKeeps(s, s, s.selectedRing);
    case SetSelectedRing(ring) => SelectingKeeps(s, s, ring);
    case Toggle(ring, point) => TogglingKeeps(s, ring, point);
    case AddShape(_, _, _) => EditingKeeps(s, m, timeline);
    case RemoveShape(_, _) => EditingKeeps(s, m, timeline);
    case ModifyShape(_, _, _, _) => EditingKeeps(s, m, timeline);
    case _ => TurningKeeps(s, m, timeline);
  }

  /** Selecting a ring clamps its point, so it makes up for whatever happened to that ring. */
  lemma {:induction false} SelectingKeeps(s: EngineState, edited: EngineState, ring: nat)
    requires SelectionValid(s) && |edited.rings| == |s.rings| && |edited.selectedPoints| == |s.rings|
    requires s.rings == [] ==> edited.selectedRing == s.selectedRing
    requires forall i :: 0 <= i < |s.rings| && i != SafeIndex(ring, |s.rings|) ==>
               edited.rings[i].timeline == s.rings[i].timeline && edited.selectedPoints[i] == s.selectedPoints[i]
    ensures SelectionValid(WithSelection(edited, ring)) && |WithSelection(edited, ring).rings| == |s.rings|
  {
  }

  lemma {:induction false} TogglingKeeps(s: EngineState, ring: nat, point: nat)
    requires SelectionValid(s)
    ensures SelectionValid(ToggledAt(s, ring, point)) && |ToggledAt(s, ring, point).rings| == |s.rings|
  {
    hide Toggled, WithSelection;
    if ring < |s.rings| {
      var s' := WithRing(s, ring, s.rings[ring].(tracks := Toggled(s.rings[ring].tracks, 0, point)));
      SelectingKeeps(s, s'.(selectedPoints := Padded(s.selectedPoints, |s.rings|)[ring := point]), ring);
    }
  }

  lemma {:induction false} EditingKeeps(s: EngineState, m: Message, timeline: seq<Point>)
    requires SelectionValid(s) && (m.AddShape? || m.RemoveShape? || m.ModifyShape?)
    ensures SelectionValid(Edited(s, m, timeline)) && |Edited(s, m, timeline).rings| == |s.rings|
  {
    hide ResizeAll, EditedShapes, WithSelection;
    if m.ring < |s.rings| {
      var ring := s.rings[m.ring];
      SelectingKeeps(s, s, m.ring);
      SelectingKeeps(s, WithRing(s, m.ring, Reshaped(ring, EditedShapes(ring.shapes, m), timeline)), m.ring);
    }
  }

  /** Messages that move the selection or turn the selected ring. */
  lemma {:induction false} TurningKeeps(s: EngineState, m: Message, timeline: seq<Point>)
    requires SelectionValid(s)
    requires !m.GetInitialSetup? && !m.SetSelectedRing? && !m.Toggle? && !m.AddShape? && !m.RemoveShape?
    requires !m.ModifyShape?
    ensures SelectionValid(Next(s, m, timeline)) && |Next(s, m, timeline).rings| == |s.rings|
  {
    hide Rotated, Toggled, ResizeAll, AdjustedSubdivision, WithSelection, NextPoint;
    if s.rings != [] {
      var r, ring := s.selectedRing, s.rings[s.selectedRing];
      if ring.shapes != [] && (m.EncoderDelta? || m.AdjustPoints?) {
        var shape := ring.shapes[0].(subdivision := AdjustedSubdivision(ring.shapes[0].subdivision, m.amount));
        SelectingKeeps(s, WithRing(s, r, Reshaped(ring, ring.shapes[0 := shape], timeline)), r);
      }
      if m.EncoderDelta? || m.RotateSelected? {
        SelectingKeeps(s, WithRing(s, r, ring.(tracks := Rotated(ring.tracks, 0, m.amount))), r);
      }
      if m.Rotate? && m.ring < |s.rings| {
        var other := s.rings[m.ring];
        SelectingKeeps(s, WithRing(s, m.ring, other.(tracks := Rotated(other.tracks, 0, m.amount))), m.ring);
      }
    }
  }

  function AllNext(s: EngineState, messages: seq<Message>, timelines: seq<seq<Point>>): (r: EngineState)
    requires SelectionValid(s) && |timelines| == |messages|
    ensures SelectionValid(r) && |r.rings| == |s.rings|
    decreases |messages|
  {
    if messages == [] then s
    else
      var n := |messages| - 1;
      var before := AllNext(s, messages[..n], timelines[..n]);
      NextKeepsSelection(before, messages[n], timelines[n]);
      Next(before, messages[n], timelines[n])
  }

  /** Every ring's timeline is one of its own shapes. */
  ghost predicate Right(s: EngineState) {
    forall i :: 0 <= i < |s.rings| ==> IsTimeline(s.rings[i].shapes, EPSILON, s.rings[i].timeline)
  }

  function Sum(amounts: seq<int>): int {
    if amounts == [] then 0 else Sum(amounts[..|amounts| - 1]) + amounts[|amounts| - 1]
  }

  function Turns(amounts: seq<int>): seq<Message> {
    seq(|amounts|, i requires 0 <= i < |amounts| => EncoderDelta(amounts[i]))
  }

  function AtPoint(s: EngineState, point: nat): EngineState
    requires s.selectedRing < |s.selectedPoints|
  {
    s.(selectedPoints := s.selectedPoints[s.selectedRing := point])
  }

  /** The point `sum` places after `point`, around the timeline. */
  function Around(point: nat, sum: int, count: nat): nat
    requires count > 0
  {
    (point + sum) % count
  }

  ghost predicate CanToggle(s: EngineState) {
    && SelectionValid(s) && s.mode == TogglePoint && s.selectedRing < |s.rings| == |s.selectedPoints|
    && s.rings[s.selectedRing].timeline != []
  }

  /** In toggle mode any run of encoder turns moves the selected point by the sum of the turns, modulo the number of
      points, and changes nothing else. */
  lemma {:induction false} TurnsAddUp(s: EngineState, amounts: seq<int>, timelines: seq<seq<Point>>)
    requires CanToggle(s) && |timelines| == |amounts|
    ensures AllNext(s, Turns(amounts), timelines)
         == AtPoint(s, Around(s.selectedPoints[s.selectedRing], Sum(amounts), |s.rings[s.selectedRing].timeline|))
    decreases |amounts|
  {
    hide Next, AllNext, SelectionValid, AtPoint, Around;
    var start, count := s.selectedPoints[s.selectedRing], |s.rings[s.selectedRing].timeline|;
    AllNextUnfolds(s, Turns(amounts), timelines);
    if amounts == [] {
      NoTurn(s);
    } else {
      var n := |amounts| - 1;
      TurnsAddUp(s, amounts[..n], timelines[..n]);
      assert Turns(amounts)[..n] == Turns(amounts[..n]);
      AroundTwice(start, Sum(amounts[..n]), amounts[n], count);
      OneTurn(s, Around(start, Sum(amounts[..n]), count), amounts[n], timelines[n]);
    }
  }

  lemma {:induction false} NoTurn(s: EngineState)
    requires CanToggle(s)
    ensures AtPoint(s, Around(s.selectedPoints[s.selectedRing], 0, |s.rings[s.selectedRing].timeline|)) == s
  {
    var point, count := s.selectedPoints[s.selectedRing], |s.rings[s.selectedRing].timeline|;
    ModUnique(point, count, 0, point);
  }

  lemma {:induction false} AllNextUnfolds(s: EngineState, messages: seq<Message>, timelines: seq<seq<Point>>)
    requires SelectionValid(s) && |timelines| == |messages|
    ensures var n := |messages| - 1;
            AllNext(s, messages, timelines)
            == if n < 0 then s else Next(AllNext(s, messages[..n], timelines[..n]), messages[n], timelines[n])
  {
  }

  lemma {:induction false} AroundTwice(point: nat, sum: int, amount: int, count: nat)
    requires count > 0
    ensures Around(point, sum, count) < count
    ensures Around(Around(point, sum, count), amount, count) == Around(point, sum + amount, count)
  {
    ModOfSum(point + sum, amount, count);
    assert point + sum + amount == point + (sum + amount);
  }

  lemma {:induction false} OneTurn(s: EngineState, point: nat, amount: int, timeline: seq<Point>)
    requires CanToggle(s) && point < |s.rings[s.selectedRing].timeline|
    ensures SelectionValid(AtPoint(s, point))
    ensures Next(AtPoint(s, point), EncoderDelta(amount), timeline)
         == AtPoint(s, Around(point, amount, |s.rings[s.selectedRing].timeline|))
  {
    if amount == 0 {
      ModUnique(point, |s.rings[s.selectedRing].timeline|, 0, point);
    }
  }

  // ----- the engine object -----

  class AudioEngine {
    const rings: seq<PolyRhythmModule>
    var selectedRing: nat
    var selectedPoints: seq<nat>
    var hardwareMode: HardwareMode
    var isPlaying: bool

    ghost predicate RingsValid()
      reads rings
    {
      Distinct(rings) && forall r :: r in rings ==> r.Valid()
    }

    ghost function Rings(): (r: seq<Ring>)
      reads rings
      ensures |r| == |rings|
    {
      seq(|rings|, i requires 0 <= i < |rings| reads rings => Ring(rings[i].shapes, rings[i].timeline, rings[i].tracks))
    }

    ghost function View(): EngineState
      reads this, rings
    {
      EngineState(Rings(), selectedRing, selectedPoints, hardwareMode, isPlaying)
    }

    ghost predicate Valid()
      reads this, rings
    {
      RingsValid() && SelectionValid(View())
    }

    /** The timeline a message has rebuilt, if it has rebuilt one. */
    ghost function CurrentTimeline(): seq<Point>
      reads this, rings
    {
      if selectedRing < |rings| then rings[selectedRing].timeline else []
    }

    constructor (rings: seq<PolyRhythmModule>)
      requires Distinct(rings) && forall r :: r in rings ==> r.Valid()
      ensures Valid() && this.rings == rings && selectedRing == 0 && !isPlaying && hardwareMode == RotateRing
    {
      this.rings := rings;
      selectedRing, selectedPoints, hardwareMode, isPlaying := 0, seq(|rings|, _ => 0), RotateRing, false;
    }

    function SafeRing(ring: nat): nat {
      SafeIndex(ring, |rings|)
    }

    /** Clamps one ring's selected point to its timeline; a selection too short is padded first. */
    method ClampSelectedPoint(ring: nat)
      modifies `selectedPoints
      ensures selectedPoints == ClampedAt(old(selectedPoints), ring, Rings())
    {
      if ring >= |rings| {
        return;
      }
      if |selectedPoints| < |rings| {
        selectedPoints := selectedPoints + seq(|rings| - |selectedPoints|, _ => 0);
      }
      var count := |rings[ring].timeline|;
      if count == 0 {
        selectedPoints := selectedPoints[ring := 0];
        return;
      }
      if selectedPoints[ring] >= count {
        selectedPoints := selectedPoints[ring := count - 1];
      }
    }

    method SelectRing(ring: nat)
      modifies `selectedRing, `selectedPoints
      ensures View() == WithSelection(old(View()), ring)
    {
      if rings != [] {
        selectedRing := SafeRing(ring);
        ClampSelectedPoint(selectedRing);
      }
    }

    method MoveSelection(amount: int)
      requires Valid() && rings != []
      modifies `selectedRing, `selectedPoints
      ensures View() == Moved(old(View()), amount)
    {
      selectedRing := SafeRing(selectedRing);
      var count := |rings[selectedRing].timeline|;
      if count > 0 {
        var point := selectedPoints[selectedRing];
        NextPointIsModulo(point, amount, count);
        var next := CRem(point % count + amount, count);
        if next < 0 {
          next := next + count;
        }
        selectedPoints := selectedPoints[selectedRing := next];
        ClampSelectedPoint(selectedRing);
      }
    }

    // An edit of one ring's module leaves the other rings alone.

    method UpdateShapeOf(ring: nat, index: nat, shape: Shape)
      requires RingsValid() && ring < |rings| && index < |rings[ring].shapes|
      modifies rings`shapes, rings`timeline, rings`tracks
      ensures RingsValid()
      ensures Rings() == old(Rings())[ring :=
                Reshaped(old(Rings())[ring], old(rings[ring].shapes)[index := shape], rings[ring].timeline)]
    {
      hide ResizeAll, IsTimeline, InCycles, MasksMatch;
      rings[ring].UpdateShape(index, shape);
    }

    method AddShapeTo(ring: nat, shape: Shape)
      requires RingsValid() && ring < |rings|
      modifies rings`shapes, rings`timeline, rings`tracks
      ensures RingsValid()
      ensures Rings() == old(Rings())[ring :=
                Reshaped(old(Rings())[ring], old(rings[ring].shapes) + [shape], rings[ring].timeline)]
    {
      hide ResizeAll, IsTimeline, InCycles, MasksMatch;
      rings[ring].AddShape(shape);
    }

    method RemoveShapeOf(ring: nat, index: nat)
      requires RingsValid() && ring < |rings|
      modifies rings`shapes, rings`timeline, rings`tracks
      ensures RingsValid()
      ensures index >= |old(rings[ring].shapes)| ==> Rings() == old(Rings())
      ensures index < |old(rings[ring].shapes)| ==>
                Rings() == old(Rings())[ring :=
                  Reshaped(old(Rings())[ring], old(rings[ring].shapes)[..index] + old(rings[ring].shapes)[index + 1..],
                           rings[ring].timeline)]
    {
      hide ResizeAll, IsTimeline, InCycles, MasksMatch;
      rings[ring].RemoveShape(index);
    }

    method ToggleOf(ring: nat, point: nat)
      requires RingsValid() && ring < |rings|
      modifies rings`tracks
      ensures RingsValid()
      ensures Rings() == old(Rings())[ring :=
                old(Rings())[ring].(tracks := Toggled(old(rings[ring].tracks), 0, point))]
    {
      hide Toggled, IsTimeline, InCycles, MasksMatch;
      rings[ring].TogglePoint(0, point);
    }

    /** Changes the subdivision of the selected ring's first shape, within 1 to 32. */
    method AdjustSubdivision(amount: int)
      requires Valid() && rings != []
      modifies `selectedRing, `selectedPoints, rings`shapes, rings`timeline, rings`tracks
      ensures RingsValid() && View() == Adjusted(old(View()), amount, CurrentTimeline())
    {
      hide ResizeAll, IsTimeline, InCycles, MasksMatch, ClampedAt;
      selectedRing := SafeRing(selectedRing);
      var ring := rings[selectedRing];
      if ring.shapes != [] {
        var shape := ring.shapes[0];
        var subdivision := ToInt32(shape.subdivision) + amount;
        if subdivision < 1 {
          subdivision := 1;
        }
        if subdivision > 32 {
          subdivision := 32;
        }
        if subdivision != ToInt32(shape.subdivision) {
          UpdateShapeOf(selectedRing, 0, shape.(subdivision := subdivision));
          SelectRing(selectedRing);
        }
      }
    }

    method RotateMask(ring: nat, amount: int)
      requires Valid() && ring < |rings|
      modifies `selectedRing, `selectedPoints, rings`tracks
      ensures RingsValid() && View() == RotatedAt(old(View()), ring, amount)
    {
      ghost var before := Rings();
      rings[ring].RotateTrack(0, amount);
      assert Rings() == before[ring := Rings()[ring]];
      SelectRing(ring);
    }

    method ToggleSelected()
      requires Valid()
      modifies `selectedRing, `selectedPoints, rings`tracks
      ensures RingsValid() && View() == ToggledSelected(old(View()))
    {
      if rings != [] {
        SelectRing(selectedRing);
        ToggleOf(selectedRing, selectedPoints[selectedRing]);
      }
    }

    method TurnEncoder(amount: int)
      requires Valid()
      modifies `selectedRing, `selectedPoints, rings`shapes, rings`timeline, rings`tracks
      ensures RingsValid() && View() == Turned(old(View()), amount, CurrentTimeline())
    {
      if rings != [] && amount != 0 {
        match hardwareMode {
          case TogglePoint => MoveSelection(amount);
          case AddRemovePoint => AdjustSubdivision(amount);
          case RotateRing => RotateMask(SafeRing(selectedRing), amount);
        }
      }
    }

    method EditShapes(m: Message)
      requires Valid() && (m.AddShape? || m.RemoveShape? || m.ModifyShape?)
      modifies `selectedRing, `selectedPoints, rings`shapes, rings`timeline, rings`tracks
      ensures RingsValid() && View() == Edited(old(View()), m, CurrentTimeline())
    {
      hide ResizeAll, MasksMatch, IsTimeline, InCycles, ClampedAt;
      if m.ring >= |rings| {
        return;
      }
      var ring := rings[m.ring];
      match m {
        case AddShape(_, subdivision, offset) =>
          AddShapeTo(m.ring, Shape(subdivision, offset, "Shape", 0));
          SelectRing(m.ring);
        case RemoveShape(_, shape) =>
          RemoveShapeOf(m.ring, shape);
          SelectRing(m.ring);
        case ModifyShape(_, shape, subdivision, offset) =>
          if shape < |ring.shapes| {
            UpdateShapeOf(m.ring, shape, ring.shapes[shape].(subdivision := subdivision, offset := offset));
            SelectRing(m.ring);
          }
        case _ =>
      }
    }

    /** A click on a point toggles it and selects it. */
    method ToggleAt(ring: nat, point: nat)
      requires RingsValid()
      modifies `selectedRing, `selectedPoints, rings`tracks
      ensures RingsValid() && View() == ToggledAt(old(View()), ring, point)
    {
      hide Toggled, ClampedAt, IsTimeline, InCycles, MasksMatch;
      if ring < |rings| {
        ToggleOf(ring, point);
        if |selectedPoints| < |rings| {
          selectedPoints := selectedPoints + seq(|rings| - |selectedPoints|, _ => 0);
        }
        selectedPoints := selectedPoints[ring := point];
        SelectRing(ring);
      }
    }

    method Handle(m: Message)
      requires Valid()
      modifies this, rings`shapes, rings`timeline, rings`tracks
      ensures Valid() && View() == Next(old(View()), m, CurrentTimeline())
    {
      hide WithSelection, Moved, Adjusted, RotatedAt, ToggledSelected, ToggledAt, Edited, Turned, Rings;
      match m {
        case GetInitialSetup => SelectRing(selectedRing);
        case Play => isPlaying := true;
        case Pause => isPlaying := false;
        case Navigate =>
        case SetSelectedRing(ring) => SelectRing(ring);
        case SetHardwareMode(mode) =>
          if mode.Some? {
            hardwareMode := mode.value;
          }
        case SelectPointDelta(amount) =>
          if rings != [] {
            MoveSelection(amount);
          }
        case EncoderDelta(amount) => TurnEncoder(amount);
        case EncoderClick =>
          if hardwareMode == TogglePoint {
            ToggleSelected();
          }
        case ToggleSelectedPoint => ToggleSelected();
        case AdjustPoints(amount) =>
          if rings != [] && amount != 0 {
            AdjustSubdivision(amount);
          }
        case RotateSelected(amount) =>
          if rings != [] && amount != 0 {
            RotateMask(SafeRing(selectedRing), amount);
          }
        case Toggle(ring, point) => ToggleAt(ring, point);
        case Rotate(ring, amount) =>
          if ring < |rings| {
            RotateMask(ring, amount);
          }
        case _ => EditShapes(m);
      }
      NextKeepsSelection(old(View()), m, CurrentTimeline());
    }

    lemma {:induction false} RingsAreRight()
      requires RingsValid()
      ensures Right(View())
    {
      hide IsTimeline, InCycles, MasksMatch;
      forall i | 0 <= i < |rings|
        ensures IsTimeline(rings[i].shapes, EPSILON, rings[i].timeline)
      {
        assert rings[i].Valid();
      }
    }

    /** The selection stays valid over every sequence of messages. */
    method Run(messages: seq<Message>) returns (ghost timelines: seq<seq<Point>>)
      requires Valid()
      modifies this, rings`shapes, rings`timeline, rings`tracks
      ensures Valid() && |timelines| == |messages|
      ensures View() == AllNext(old(View()), messages, timelines)
      ensures forall k :: 0 <= k <= |messages| ==> Right(AllNext(old(View()), messages[..k], timelines[..k]))
    {
      hide Next, Right;
      RingsAreRight();
      timelines := [];
      for i := 0 to |messages|
        invariant Valid() && |timelines| == i
        invariant View() == AllNext(old(View()), messages[..i], timelines[..i])
        invariant forall k :: 0 <= k <= i ==> Right(AllNext(old(View()), messages[..k], timelines[..k]))
      {
        Handle(messages[i]);
        ghost var longer := timelines + [CurrentTimeline()];
        assert messages[..i + 1][..i] == messages[..i] && longer[..i + 1][..i] == timelines[..i];
        assert forall k :: 0 <= k <= i ==> longer[..k] == timelines[..k];
        timelines := longer;
        RingsAreRight();
      }
      assert messages[..|messages|] == messages && timelines[..|messages|] == timelines;
    }
  }
}
