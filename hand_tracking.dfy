/** The hand tracker as the object it is: a manager that owns two filter
    memories per hand and mutates, in place, pointer records held in an array it
    shares with the renderer. Each method is proved against the pure
    specification in TrackerSpec. */
module HandTracking {
  import opened TrackerSpec

  /** A pointer record of the fluid simulation (only the fields the tracker uses). */
  class Pointer {
    var texcoordX: real
    var texcoordY: real
    var prevTexcoordX: real
    var prevTexcoordY: real
    var deltaX: real
    var deltaY: real
    var down: bool
    var moved: bool
    var color: Color

    /** The pointer factory: a record with the factory's field values. */
    constructor (proto: PointerView)
      ensures View() == proto
    {
      texcoordX, texcoordY := proto.texcoordX, proto.texcoordY;
      prevTexcoordX, prevTexcoordY := proto.prevTexcoordX, proto.prevTexcoordY;
      deltaX, deltaY := proto.deltaX, proto.deltaY;
      down, moved, color := proto.down, proto.moved, proto.color;
    }

    function View(): PointerView
      reads this
    {
      PointerView(texcoordX, texcoordY, prevTexcoordX, prevTexcoordY, deltaX, deltaY, down, moved, color)
    }
  }

  class HandTrackingManager {
    /** The pointer array shared with the renderer; slot 0 is the left hand,
        slot 1 the right hand, other entries belong to other input sources. */
    const pointers: array<Pointer?>
    /** Last smoothed position per hand, used for the next frame's delta. */
    var prevPositions: seq<Option<Point>>
    /** Exponential-moving-average state per hand. */
    var smoothedPositions: seq<Option<Point>>
    const smoothingAlpha: real
    const correctDeltaX: Option<real -> real>
    const correctDeltaY: Option<real -> real>
    /** The record the pointer factory produces. */
    const newPointer: PointerView

    ghost predicate Valid()
      reads this, pointers
    {
      pointers.Length >= 2 &&
      |smoothedPositions| == 2 && prevPositions == smoothedPositions &&
      (pointers[0] != null && pointers[1] != null ==> pointers[0] != pointers[1]) &&
      !newPointer.down
    }

    function Parameters(): Params {
      Params(smoothingAlpha, correctDeltaX, correctDeltaY)
    }

    ghost function SlotView(i: Slot): SlotState
      requires Valid()
      reads this, pointers, pointers[i]
    {
      SlotState(if pointers[i] == null then None else Some(pointers[i].View()),
                smoothedPositions[i], prevPositions[i])
    }

    ghost function State(): Slots
      requires Valid()
      reads this, pointers, pointers[0], pointers[1]
    {
      Slots(SlotView(0), SlotView(1))
    }

    constructor (pointers: array<Pointer?>, correctDeltaX: Option<real -> real>,
                 correctDeltaY: Option<real -> real>, newPointer: PointerView)
      requires pointers.Length >= 2
      requires pointers[0] != null && pointers[1] != null ==> pointers[0] != pointers[1]
      requires !newPointer.down
      ensures Valid()
      ensures this.pointers == pointers && this.newPointer == newPointer
      ensures smoothingAlpha == DefaultSmoothingAlpha
      ensures this.correctDeltaX == correctDeltaX && this.correctDeltaY == correctDeltaY
      ensures smoothedPositions == prevPositions == [None, None]
    {
      this.pointers := pointers;
      this.correctDeltaX := correctDeltaX;
      this.correctDeltaY := correctDeltaY;
      this.newPointer := newPointer;
      smoothingAlpha := DefaultSmoothingAlpha;
      prevPositions := [None, None];
      smoothedPositions := [None, None];
    }

    /** Feeds the mirrored tip position of hand `handIndex` into its moving
        average and returns the new smoothed position. */
    method SmoothTip(handIndex: Slot, rawX: real, rawY: real) returns (smoothed: Point)
      requires |smoothedPositions| == 2
      modifies this`smoothedPositions
      ensures smoothed == Smooth(smoothingAlpha, old(smoothedPositions[handIndex]), Point(rawX, rawY))
      ensures smoothedPositions == old(smoothedPositions)[handIndex := Some(smoothed)]
    {
      if smoothedPositions[handIndex].None? {
        // first detection: start the average at the raw position
        smoothedPositions := smoothedPositions[handIndex := Some(Point(rawX, rawY))];
      } else {
        var alpha := smoothingAlpha;
        var prior := smoothedPositions[handIndex].value;
        smoothedPositions := smoothedPositions[handIndex :=
          Some(Point(Ema(alpha, rawX, prior.x), Ema(alpha, rawY, prior.y)))];
      }
      smoothed := smoothedPositions[handIndex].value;
    }

    /** The frame delta of hand `handIndex` and, for a significant one, the
        pointer's `moved` flag. */
    method TrackDelta(pointer: Pointer, handIndex: Slot, smoothedX: real, smoothedY: real)
      returns (deltaX: real, deltaY: real)
      requires |prevPositions| == 2
      modifies pointer`moved
      ensures Point(deltaX, deltaY) == Delta(Parameters(), prevPositions[handIndex], pointer.down, Point(smoothedX, smoothedY))
      ensures pointer.moved == ((Tracking(prevPositions[handIndex], pointer.down) && Significant(Point(deltaX, deltaY))) || old(pointer.moved))
    {
      deltaX, deltaY := 0.0, 0.0;
      if prevPositions[handIndex].Some? && pointer.down {
        deltaX := smoothedX - prevPositions[handIndex].value.x;
        deltaY := smoothedY - prevPositions[handIndex].value.y;
        // aspect-ratio correction, when the renderer defines one
        deltaX := Correct(correctDeltaX, deltaX);
        deltaY := Correct(correctDeltaY, deltaY);
        if Abs(deltaX) > MovementThreshold || Abs(deltaY) > MovementThreshold {
          pointer.moved := true;
        }
      }
    }

    /** Moves `pointer`, the pointer of slot `handIndex`, to the hand's
        smoothed index-finger tip. */
    method UpdatePointerFromHand(pointer: Pointer, landmarks: seq<Option<Landmark>>, handIndex: Slot)
      requires Valid() && pointers[handIndex] == pointer
      modifies this`smoothedPositions, this`prevPositions, pointer
      ensures Valid()
      ensures SlotView(handIndex) == UpdateFromHand(Parameters(), handIndex, old(SlotView(handIndex)), landmarks)
      ensures SlotView(1 - handIndex) == old(SlotView(1 - handIndex))
    {
      if |landmarks| <= IndexFingerTip || landmarks[IndexFingerTip].None? {
        return;
      }
      var indexFingerTip := landmarks[IndexFingerTip].value;
      var rawX := indexFingerTip.x;
      var rawY := indexFingerTip.y;
      rawX := 1.0 - rawX;

      var smoothed := SmoothTip(handIndex, rawX, rawY);
      var smoothedX, smoothedY := smoothed.x, smoothed.y;
      var deltaX, deltaY := TrackDelta(pointer, handIndex, smoothedX, smoothedY);

      pointer.prevTexcoordX := pointer.texcoordX;
      pointer.prevTexcoordY := pointer.texcoordY;
      pointer.texcoordX := smoothedX;
      pointer.texcoordY := smoothedY;
      pointer.deltaX := deltaX;
      pointer.deltaY := deltaY;

      if !pointer.down {
        pointer.down := true;
        pointer.color := if handIndex == 0 then LeftColor else RightColor;
      }

      prevPositions := prevPositions[handIndex := Some(Point(smoothedX, smoothedY))];
    }

    /** Lifts the pointer of slot `i`, if there is one. */
    method ReleasePointer(i: Slot)
      requires Valid()
      modifies pointers[i]
      ensures Valid()
      ensures SlotView(i) == Release(old(SlotView(i)))
      ensures SlotView(1 - i) == old(SlotView(1 - i))
    {
      if pointers[i] != null {
        pointers[i].down := false;
      }
    }

    /** The pointer of slot `i`, created with the pointer factory if absent. */
    method EnsurePointer(i: Slot) returns (pointer: Pointer)
      requires Valid()
      modifies pointers
      ensures Valid()
      ensures pointer == pointers[i]
      ensures old(pointers[i]) != null ==> pointer == old(pointers[i])
      ensures old(pointers[i]) == null ==> fresh(pointer)
      ensures forall j :: 0 <= j < pointers.Length && j != i ==> pointers[j] == old(pointers[j])
      ensures SlotView(i) == Ensure(old(SlotView(i)), newPointer)
      ensures SlotView(1 - i) == old(SlotView(1 - i))
    {
      if pointers[i] == null {
        pointer := new Pointer(newPointer);
        pointers[i] := pointer;
      } else {
        pointer := pointers[i];
      }
    }

    /** One detected hand, the body of the per-hand loop: resolve its slot,
        make sure the slot has a pointer, update it. Returns the slot. */
    method ProcessHand(landmarks: seq<Option<Landmark>>, handedness: Handedness) returns (pointerIndex: Slot)
      requires Valid()
      modifies this`smoothedPositions, this`prevPositions, pointers, pointers[0], pointers[1]
      ensures Valid()
      ensures pointerIndex == SlotOf(handedness.handLabel)
      ensures forall j :: 2 <= j < pointers.Length ==> pointers[j] == old(pointers[j])
      ensures old(pointers[0]) != null ==> pointers[0] == old(pointers[0])
      ensures old(pointers[1]) != null ==> pointers[1] == old(pointers[1])
      ensures old(pointers[0]) == null && pointers[0] != null ==> fresh(pointers[0])
      ensures old(pointers[1]) == null && pointers[1] != null ==> fresh(pointers[1])
      ensures State() == Dispatch(Parameters(), newPointer, old(State()), landmarks, handedness)
    {
      var isLeftHand := handedness.handLabel == LeftLabel;
      pointerIndex := if isLeftHand then 0 else 1;
      var pointer := EnsurePointer(pointerIndex);
      UpdatePointerFromHand(pointer, landmarks, pointerIndex);
    }

    /** The per-hand loop over one batch. It stops with `threw` at the first
        hand without a handedness entry; otherwise it reports which slots the
        batch's hands resolved to. */
    method ProcessHands(hands: seq<seq<Option<Landmark>>>, hs: seq<Handedness>)
      returns (threw: bool, detectedLeft: bool, detectedRight: bool)
      requires Valid()
      modifies this`smoothedPositions, this`prevPositions, pointers, pointers[0], pointers[1]
      ensures Valid()
      ensures forall j :: 2 <= j < pointers.Length ==> pointers[j] == old(pointers[j])
      ensures old(pointers[0]) != null ==> pointers[0] == old(pointers[0])
      ensures old(pointers[1]) != null ==> pointers[1] == old(pointers[1])
      ensures old(pointers[0]) == null && pointers[0] != null ==> fresh(pointers[0])
      ensures old(pointers[1]) == null && pointers[1] != null ==> fresh(pointers[1])
      ensures threw == (|hs| < |hands|)
      ensures threw ==> State() == DispatchAll(Parameters(), newPointer, old(State()), hands[..|hs|], hs)
      ensures !threw ==> State() == DispatchAll(Parameters(), newPointer, old(State()), hands, hs[..|hands|])
      ensures !threw ==> detectedLeft == Detected(hs[..|hands|], 0) && detectedRight == Detected(hs[..|hands|], 1)
    {
      detectedLeft, detectedRight := false, false;
      ghost var start := State();
      label Start:
      var k := 0;
      while k < |hands|
        invariant 0 <= k <= |hands| && k <= |hs|
        invariant Valid()
        invariant forall j :: 2 <= j < pointers.Length ==> pointers[j] == old@Start(pointers[j])
        invariant old@Start(pointers[0]) != null ==> pointers[0] == old@Start(pointers[0])
        invariant old@Start(pointers[1]) != null ==> pointers[1] == old@Start(pointers[1])
        invariant old@Start(pointers[0]) == null && pointers[0] != null ==> fresh(pointers[0])
        invariant old@Start(pointers[1]) == null && pointers[1] != null ==> fresh(pointers[1])
        invariant State() == DispatchAll(Parameters(), newPointer, start, hands[..k], hs[..k])
        invariant detectedLeft == Detected(hs[..k], 0) && detectedRight == Detected(hs[..k], 1)
      {
        if k >= |hs| {
          // `multiHandedness[index]` is undefined: reading its label throws
          assert hands[..k] == hands[..|hs|] && hs[..k] == hs;
          return true, detectedLeft, detectedRight;
        }
        var pointerIndex := ProcessHand(hands[k], hs[k]);
        if pointerIndex == 0 {
          detectedLeft := true;
        } else {
          detectedRight := true;
        }
        DispatchAllStep(Parameters(), newPointer, start, hands, hs, k);
        DetectedStep(hs, k, 0);
        DetectedStep(hs, k, 1);
        k := k + 1;
      }
      assert hands[..k] == hands;
      threw := false;
    }

    /** Processes one frame of detections. `threw` reports the TypeError raised
        when a hand has no handedness entry; the batch stops there. */
    method OnResults(results: Results) returns (threw: bool)
      requires Valid()
      modifies this`smoothedPositions, this`prevPositions, pointers, pointers[0], pointers[1]
      ensures Valid()
      ensures forall j :: 2 <= j < pointers.Length ==> pointers[j] == old(pointers[j])
      ensures old(pointers[0]) != null ==> pointers[0] == old(pointers[0])
      ensures old(pointers[1]) != null ==> pointers[1] == old(pointers[1])
      ensures old(pointers[0]) == null && pointers[0] != null ==> fresh(pointers[0])
      ensures old(pointers[1]) == null && pointers[1] != null ==> fresh(pointers[1])
      ensures Outcome(State(), threw) == TrackerSpec.OnResults(Parameters(), newPointer, old(State()), results)
    {
      if results.multiHandLandmarks.None? || results.multiHandedness.None? {
        // no hands: lift both hand pointers, keep the filter memories
        ReleasePointer(0);
        ReleasePointer(1);
        return false;
      }
      var detectedLeft, detectedRight;
      threw, detectedLeft, detectedRight := ProcessHands(results.multiHandLandmarks.value, results.multiHandedness.value);
      if threw {
        return;
      }
      // lift the pointer of each hand the batch did not contain
      if !detectedLeft {
        ReleasePointer(0);
      }
      if !detectedRight {
        ReleasePointer(1);
      }
    }
  }
}
