/** Values exchanged with the hand tracker and the pure specification of what
    one hand update and one detection batch do to the tracker's per-hand state.
    Coordinates are normalized reals; IEEE-754 rounding is not modelled. */
module TrackerSpec {

  datatype Option<+T> = None | Some(value: T)

  /** A normalized 2-D position: a smoothed or a previous index-finger position. */
  datatype Point = Point(x: real, y: real)

  /** An RGB colour as the renderer reads it from a pointer. */
  datatype Color = Color(r: real, g: real, b: real)

  /** One hand landmark as the perception engine reports it (normalized). */
  datatype Landmark = Landmark(x: real, y: real, z: real)

  /** The handedness entry of one detected hand. */
  datatype Handedness = Handedness(handLabel: string)

  /** One frame of detection results; either list may be absent. Each hand is a
      list of landmarks, any of which may be missing. */
  datatype Results = Results(
    multiHandLandmarks: Option<seq<seq<Option<Landmark>>>>,
    multiHandedness: Option<seq<Handedness>>)

  /** The fields of a shared pointer record that the tracker reads or writes. */
  datatype PointerView = PointerView(
    texcoordX: real, texcoordY: real,
    prevTexcoordX: real, prevTexcoordY: real,
    deltaX: real, deltaY: real,
    down: bool, moved: bool,
    color: Color)

  /** Everything the tracker keeps about one hand: the shared pointer at that
      slot (absent until first needed) and the two filter memories. */
  datatype SlotState = SlotState(pointer: Option<PointerView>, smoothed: Option<Point>, prev: Option<Point>)

  /** Slot 0 is the left hand, slot 1 the right hand. */
  type Slot = i: int | 0 <= i < 2

  datatype Slots = Slots(left: SlotState, right: SlotState) {
    function At(i: Slot): SlotState {
      if i == 0 then left else right
    }

    function With(i: Slot, s: SlotState): (r: Slots)
      ensures r.At(i) == s && r.At(1 - i) == At(1 - i)
    {
      if i == 0 then this.(left := s) else this.(right := s)
    }
  }

  /** The tuning the tracker works with: the smoothing factor and the optional
      aspect-ratio corrections of the two delta axes (None: not defined). */
  datatype Params = Params(alpha: real, correctX: Option<real -> real>, correctY: Option<real -> real>)

  /** What a batch leaves behind; `threw` is set when the batch aborts with a
      TypeError because a hand has no handedness entry. */
  datatype Outcome = Outcome(slots: Slots, threw: bool)

  const LeftLabel: string := "Left"
  /** The index-finger tip in the 21-point hand model. */
  const IndexFingerTip: nat := 8
  const MovementThreshold: real := 0.001
  const DefaultSmoothingAlpha: real := 0.4
  /** Bright blue for the left hand, bright red for the right hand. */
  const LeftColor: Color := Color(0.0, 0.5, 1.0)
  const RightColor: Color := Color(1.0, 0.0, 0.25)

  function SlotOf(handLabel: string): Slot {
    if handLabel == LeftLabel then 0 else 1
  }

  function SlotColor(i: Slot): Color {
    if i == 0 then LeftColor else RightColor
  }

  function Abs(r: real): real {
    if r < 0.0 then -r else r
  }

  /** The anchor landmark of a hand, if it is there. */
  function Tip(landmarks: seq<Option<Landmark>>): Option<Landmark> {
    if |landmarks| > IndexFingerTip then landmarks[IndexFingerTip] else None
  }

  /** The camera image is mirrored: flip the horizontal axis. */
  function Mirror(lm: Landmark): Point {
    Point(1.0 - lm.x, lm.y)
  }

  /** One step of an exponential moving average with weight `alpha`. */
  function Ema(alpha: real, sample: real, prior: real): real {
    alpha * sample + (1.0 - alpha) * prior
  }

  /** Per-axis moving average; the first sample is taken as it is. */
  function Smooth(alpha: real, prior: Option<Point>, raw: Point): Point {
    match prior
    case None => raw
    case Some(o) => Point(Ema(alpha, raw.x, o.x), Ema(alpha, raw.y, o.y))
  }

  /** An optional correction; an absent one leaves the delta as it is. */
  function Correct(f: Option<real -> real>, d: real): real {
    match f
    case None => d
    case Some(g) => g(d)
  }

  predicate Significant(d: Point) {
    Abs(d.x) > MovementThreshold || Abs(d.y) > MovementThreshold
  }

  /** A delta is computed only for a hand that has a previous position and
      whose pointer was already down. */
  predicate Tracking(prev: Option<Point>, wasDown: bool) {
    prev.Some? && wasDown
  }

  /** The delta an update with new smoothed position `sm` reports. */
  function Delta(p: Params, prev: Option<Point>, wasDown: bool, sm: Point): Point {
    if Tracking(prev, wasDown) then
      Point(Correct(p.correctX, sm.x - prev.value.x), Correct(p.correctY, sm.y - prev.value.y))
    else
      Point(0.0, 0.0)
  }

  /** One call of the per-hand update on slot `i`, whose pointer exists. */
  function UpdateFromHand(p: Params, i: Slot, s: SlotState, landmarks: seq<Option<Landmark>>): SlotState
    requires s.pointer.Some?
  {
    match Tip(landmarks)
    case None => s
    case Some(lm) =>
      var sm := Smooth(p.alpha, s.smoothed, Mirror(lm));
      var ptr := s.pointer.value;
      var tracking := Tracking(s.prev, ptr.down);
      var d := Delta(p, s.prev, ptr.down, sm);
      var ptr' := PointerView(
        texcoordX := sm.x, texcoordY := sm.y,
        prevTexcoordX := ptr.texcoordX, prevTexcoordY := ptr.texcoordY,
        deltaX := d.x, deltaY := d.y,
        down := true,
        moved := if tracking && Significant(d) then true else ptr.moved,
        color := if ptr.down then ptr.color else SlotColor(i));
      SlotState(Some(ptr'), Some(sm), Some(sm))
  }

  /** Lazy creation of a slot's pointer from the pointer factory's record. */
  function Ensure(s: SlotState, proto: PointerView): SlotState {
    if s.pointer.None? then s.(pointer := Some(proto)) else s
  }

  /** One detected hand: resolve the slot, create its pointer if needed, update. */
  function Dispatch(p: Params, proto: PointerView, st: Slots,
                    landmarks: seq<Option<Landmark>>, h: Handedness): Slots
  {
    var i := SlotOf(h.handLabel);
    st.With(i, UpdateFromHand(p, i, Ensure(st.At(i), proto), landmarks))
  }

  /** The detected hands of a batch, in order. */
  function DispatchAll(p: Params, proto: PointerView, st: Slots,
                       hands: seq<seq<Option<Landmark>>>, hs: seq<Handedness>): Slots
    requires |hands| == |hs|
    decreases |hands|
  {
    if |hands| == 0 then st
    else
      var n := |hands| - 1;
      Dispatch(p, proto, DispatchAll(p, proto, st, hands[..n], hs[..n]), hands[n], hs[n])
  }

  lemma DispatchAllStep(p: Params, proto: PointerView, st: Slots,
                        hands: seq<seq<Option<Landmark>>>, hs: seq<Handedness>, k: nat)
    requires k < |hands| && k < |hs|
    ensures DispatchAll(p, proto, st, hands[..k + 1], hs[..k + 1])
         == Dispatch(p, proto, DispatchAll(p, proto, st, hands[..k], hs[..k]), hands[k], hs[k])
  {
    assert hands[..k + 1][..k] == hands[..k] && hs[..k + 1][..k] == hs[..k];
  }

  /** Whether some hand of the batch resolved to slot `i`. */
  predicate Detected(hs: seq<Handedness>, i: Slot) {
    exists k :: 0 <= k < |hs| && SlotOf(hs[k].handLabel) == i
  }

  lemma DetectedStep(hs: seq<Handedness>, k: nat, i: Slot)
    requires k < |hs|
    ensures Detected(hs[..k + 1], i) == (Detected(hs[..k], i) || SlotOf(hs[k].handLabel) == i)
  {
    if Detected(hs[..k + 1], i) {
      var j :| 0 <= j < k + 1 && SlotOf(hs[..k + 1][j].handLabel) == i;
      if j < k {
        assert hs[..k][j] == hs[j];
      }
    }
    if Detected(hs[..k], i) {
      var j :| 0 <= j < k && SlotOf(hs[..k][j].handLabel) == i;
      assert hs[..k + 1][j] == hs[j];
    }
    if SlotOf(hs[k].handLabel) == i {
      assert hs[..k + 1][k] == hs[k];
    }
  }

  /** Lift a slot's existing pointer. */
  function Release(s: SlotState): SlotState {
    match s.pointer
    case None => s
    case Some(ptr) => s.(pointer := Some(ptr.(down := false)))
  }

  /** The end-of-batch sweep: every slot that no hand resolved to is lifted. */
  function Sweep(st: Slots, hs: seq<Handedness>): Slots {
    Slots(if Detected(hs, 0) then st.left else Release(st.left),
          if Detected(hs, 1) then st.right else Release(st.right))
  }

  /** One results callback. */
  function OnResults(p: Params, proto: PointerView, st: Slots, r: Results): Outcome {
    if r.multiHandLandmarks.None? || r.multiHandedness.None? then
      Outcome(Slots(Release(st.left), Release(st.right)), false)
    else
      var hands := r.multiHandLandmarks.value;
      var hs := r.multiHandedness.value;
      if |hs| < |hands| then
        Outcome(DispatchAll(p, proto, st, hands[..|hs|], hs), true)
      else
        var hs' := hs[..|hands|];
        Outcome(Sweep(DispatchAll(p, proto, st, hands, hs'), hs'), false)
  }

  /** The slot-local view of a batch: only the hands that resolve to slot `i`. */
  function SlotRun(p: Params, proto: PointerView, i: Slot, s: SlotState,
                   hands: seq<seq<Option<Landmark>>>, hs: seq<Handedness>): SlotState
    requires |hands| == |hs|
    decreases |hands|
  {
    if |hands| == 0 then s
    else
      var n := |hands| - 1;
      var s0 := SlotRun(p, proto, i, s, hands[..n], hs[..n]);
      if SlotOf(hs[n].handLabel) == i then UpdateFromHand(p, i, Ensure(s0, proto), hands[n]) else s0
  }

  predicate InUnit(r: real) {
    0.0 <= r <= 1.0
  }

  predicate PointInUnit(q: Option<Point>) {
    q.Some? ==> InUnit(q.value.x) && InUnit(q.value.y)
  }
}
