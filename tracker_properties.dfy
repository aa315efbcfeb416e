/** What the tracker promises, proved about the specification in TrackerSpec:
    first about one per-hand update, then about the hands of one batch as they
    reach a single slot, then about a whole results callback. */
module TrackerProperties {
  import opened TrackerSpec

  // ---------------------------------------------------------------------------
  // Arithmetic of the moving average

  lemma ProductNonNegative(a: real, b: real)
    requires 0.0 <= a && 0.0 <= b
    ensures 0.0 <= a * b
  {
  }

  /** A moving-average step is a convex combination, so it stays in [0,1]. */
  lemma EmaInUnit(alpha: real, sample: real, prior: real)
    requires InUnit(alpha) && InUnit(sample) && InUnit(prior)
    ensures InUnit(Ema(alpha, sample, prior))
  {
    ProductNonNegative(alpha, sample);
    ProductNonNegative(alpha, 1.0 - sample);
    ProductNonNegative(1.0 - alpha, prior);
    ProductNonNegative(1.0 - alpha, 1.0 - prior);
  }

  /** The step moves the average by `alpha` times the innovation. */
  lemma EmaStep(alpha: real, sample: real, prior: real)
    ensures Ema(alpha, sample, prior) - prior == alpha * (sample - prior)
  {
  }

  // ---------------------------------------------------------------------------
  // One per-hand update

  /** Without an index-finger tip the update changes nothing at all. */
  lemma MissingTipChangesNothing(p: Params, i: Slot, s: SlotState, landmarks: seq<Option<Landmark>>)
    requires s.pointer.Some?
    requires |landmarks| <= IndexFingerTip || landmarks[IndexFingerTip].None?
    ensures UpdateFromHand(p, i, s, landmarks) == s
  {
  }

  /** The tip is mirrored and then smoothed: the first sample of a hand is taken
      as it is, later ones are blended in with weight alpha, axis by axis; both
      filter memories then hold the new smoothed position. */
  lemma SmoothingRule(p: Params, i: Slot, s: SlotState, landmarks: seq<Option<Landmark>>, lm: Landmark)
    requires s.pointer.Some? && Tip(landmarks) == Some(lm)
    ensures var r := UpdateFromHand(p, i, s, landmarks);
      r.smoothed == r.prev && r.smoothed.Some? &&
      (s.smoothed.None? ==> r.smoothed.value == Point(1.0 - lm.x, lm.y)) &&
      (s.smoothed.Some? ==> r.smoothed.value == Point(p.alpha * (1.0 - lm.x) + (1.0 - p.alpha) * s.smoothed.value.x,
                                                      p.alpha * lm.y + (1.0 - p.alpha) * s.smoothed.value.y))
  {
    var r := UpdateFromHand(p, i, s, landmarks);
    assert r.smoothed == Some(Smooth(p.alpha, s.smoothed, Mirror(lm)));
  }

  /** With a tip inside the unit square and 0 <= alpha <= 1, a smoothed position
      inside the unit square stays there. */
  lemma UpdateStaysInUnit(p: Params, i: Slot, s: SlotState, landmarks: seq<Option<Landmark>>)
    requires s.pointer.Some? && InUnit(p.alpha) && PointInUnit(s.smoothed)
    requires Tip(landmarks).Some? ==> InUnit(Tip(landmarks).value.x) && InUnit(Tip(landmarks).value.y)
    ensures PointInUnit(UpdateFromHand(p, i, s, landmarks).smoothed)
  {
    match Tip(landmarks)
    case None =>
    case Some(lm) =>
      var raw := Mirror(lm);
      if s.smoothed.Some? {
        EmaInUnit(p.alpha, raw.x, s.smoothed.value.x);
        EmaInUnit(p.alpha, raw.y, s.smoothed.value.y);
      }
  }

  /** The pointer after an update: the old texture coordinates become the
      previous ones, the new ones are the smoothed position, the delta is the
      computed one, and the pointer is down. */
  lemma PointerAfterUpdate(p: Params, i: Slot, s: SlotState, landmarks: seq<Option<Landmark>>, lm: Landmark)
    requires s.pointer.Some? && Tip(landmarks) == Some(lm)
    ensures var r := UpdateFromHand(p, i, s, landmarks);
      var ptr, ptr' := s.pointer.value, r.pointer.value;
      var sm := Smooth(p.alpha, s.smoothed, Mirror(lm));
      r.pointer.Some? && ptr'.down &&
      ptr'.prevTexcoordX == ptr.texcoordX && ptr'.prevTexcoordY == ptr.texcoordY &&
      ptr'.texcoordX == sm.x && ptr'.texcoordY == sm.y &&
      r.smoothed.Some? && ptr'.texcoordX == r.smoothed.value.x && ptr'.texcoordY == r.smoothed.value.y &&
      Point(ptr'.deltaX, ptr'.deltaY) == Delta(p, s.prev, ptr.down, sm)
  {
  }

  /** No delta unless the hand has a previous position and its pointer was
      already down: then the delta is (0, 0) and `moved` keeps its value. */
  lemma NoDeltaUnlessTracking(p: Params, i: Slot, s: SlotState, landmarks: seq<Option<Landmark>>)
    requires s.pointer.Some? && Tip(landmarks).Some?
    requires s.prev.None? || !s.pointer.value.down
    ensures var ptr' := UpdateFromHand(p, i, s, landmarks).pointer.value;
      ptr'.deltaX == 0.0 && ptr'.deltaY == 0.0 && ptr'.moved == s.pointer.value.moved
  {
  }

  /** While tracking, and with no aspect-ratio correction, the delta is the
      smoothed position minus the previous one, which (the two memories
      agreeing) is alpha times the mirrored tip minus the old average. */
  lemma TrackedDelta(p: Params, i: Slot, s: SlotState, landmarks: seq<Option<Landmark>>, lm: Landmark)
    requires s.pointer.Some? && Tip(landmarks) == Some(lm)
    requires s.prev.Some? && s.pointer.value.down && s.smoothed == s.prev
    requires p.correctX.None? && p.correctY.None?
    ensures var r := UpdateFromHand(p, i, s, landmarks);
      var ptr' := r.pointer.value;
      ptr'.deltaX == r.smoothed.value.x - s.prev.value.x &&
      ptr'.deltaY == r.smoothed.value.y - s.prev.value.y &&
      ptr'.deltaX == p.alpha * ((1.0 - lm.x) - s.smoothed.value.x) &&
      ptr'.deltaY == p.alpha * (lm.y - s.smoothed.value.y)
  {
    EmaStep(p.alpha, 1.0 - lm.x, s.smoothed.value.x);
    EmaStep(p.alpha, lm.y, s.smoothed.value.y);
  }

  /** `moved` is never cleared, and it is raised only for a delta beyond the
      movement threshold on some axis. */
  lemma MovedOnlyRaised(p: Params, i: Slot, s: SlotState, landmarks: seq<Option<Landmark>>)
    requires s.pointer.Some?
    ensures var ptr, ptr' := s.pointer.value, UpdateFromHand(p, i, s, landmarks).pointer.value;
      (ptr.moved ==> ptr'.moved) &&
      (ptr'.moved && !ptr.moved ==> Abs(ptr'.deltaX) > 0.001 || Abs(ptr'.deltaY) > 0.001)
  {
  }

  /** The pointer goes down on a successful update; its colour is written only
      on the up-to-down transition, with the slot's own colour. */
  lemma ColorOnPress(p: Params, i: Slot, s: SlotState, landmarks: seq<Option<Landmark>>)
    requires s.pointer.Some?
    ensures var ptr, ptr' := s.pointer.value, UpdateFromHand(p, i, s, landmarks).pointer.value;
      (Tip(landmarks).Some? ==> ptr'.down) &&
      (ptr.down ==> ptr'.color == ptr.color) &&
      (ptr'.color != ptr.color ==> !ptr.down && ptr'.down) &&
      (!ptr.down && Tip(landmarks).Some? ==> ptr'.color == (if i == 0 then Color(0.0, 0.5, 1.0) else Color(1.0, 0.0, 0.25)))
  {
  }

  /** A hand held still at its smoothed position, with a correction that maps
      no movement to no movement, yields a zero delta and does not raise `moved`. */
  lemma StillHandDoesNotMove(p: Params, i: Slot, s: SlotState, landmarks: seq<Option<Landmark>>, lm: Landmark)
    requires s.pointer.Some? && Tip(landmarks) == Some(lm)
    requires s.smoothed == s.prev == Some(Mirror(lm))
    requires Correct(p.correctX, 0.0) == 0.0 && Correct(p.correctY, 0.0) == 0.0
    ensures var r := UpdateFromHand(p, i, s, landmarks);
      r.smoothed == s.smoothed &&
      r.pointer.value.deltaX == 0.0 && r.pointer.value.deltaY == 0.0 &&
      r.pointer.value.moved == s.pointer.value.moved
  {
    EmaStep(p.alpha, 1.0 - lm.x, 1.0 - lm.x);
    EmaStep(p.alpha, lm.y, lm.y);
  }

  // ---------------------------------------------------------------------------
  // The hands of one batch, as they reach one slot

  /** No cross-talk: what a batch does to slot `i` depends only on that slot's
      state and on the hands that resolve to it, in their order. */
  lemma {:induction false} DispatchIsPerSlot(p: Params, proto: PointerView, st: Slots,
                                             hands: seq<seq<Option<Landmark>>>, hs: seq<Handedness>, i: Slot)
    requires |hands| == |hs|
    ensures DispatchAll(p, proto, st, hands, hs).At(i) == SlotRun(p, proto, i, st.At(i), hands, hs)
    decreases |hands|
  {
    if |hands| > 0 {
      var n := |hands| - 1;
      DispatchIsPerSlot(p, proto, st, hands[..n], hs[..n], i);
    }
  }

  /** A slot that no hand of the batch resolves to is left exactly as it was. */
  lemma {:induction false} UndetectedSlotUntouched(p: Params, proto: PointerView, i: Slot, s: SlotState,
                                                   hands: seq<seq<Option<Landmark>>>, hs: seq<Handedness>)
    requires |hands| == |hs| && !Detected(hs, i)
    ensures SlotRun(p, proto, i, s, hands, hs) == s
    decreases |hands|
  {
    if |hands| > 0 {
      var n := |hands| - 1;
      assert hs[..n + 1] == hs;
      DetectedStep(hs, n, i);
      UndetectedSlotUntouched(p, proto, i, s, hands[..n], hs[..n]);
    }
  }

  /** A slot that some hand resolves to ends the batch with a pointer, and a
      pointer that was down stays down (it is never lifted within the hands). */
  lemma {:induction false} DetectedSlotHasPointer(p: Params, proto: PointerView, i: Slot, s: SlotState,
                                                  hands: seq<seq<Option<Landmark>>>, hs: seq<Handedness>)
    requires |hands| == |hs|
    ensures var r := SlotRun(p, proto, i, s, hands, hs);
      (Detected(hs, i) || s.pointer.Some? ==> r.pointer.Some?) &&
      (s.pointer.Some? && s.pointer.value.down ==> r.pointer.value.down)
    decreases |hands|
  {
    if |hands| > 0 {
      var n := |hands| - 1;
      assert hs[..n + 1] == hs;
      DetectedStep(hs, n, i);
      DetectedSlotHasPointer(p, proto, i, s, hands[..n], hs[..n]);
    }
  }

  /** A slot that a hand with an index-finger tip resolves to ends the batch
      with its pointer down: later hands never lift it. */
  lemma {:induction false} ReachedWithTipEndsDown(p: Params, proto: PointerView, i: Slot, s: SlotState,
                                                  hands: seq<seq<Option<Landmark>>>, hs: seq<Handedness>, k: nat)
    requires |hands| == |hs| && k < |hands|
    requires SlotOf(hs[k].handLabel) == i && Tip(hands[k]).Some?
    ensures var r := SlotRun(p, proto, i, s, hands, hs); r.pointer.Some? && r.pointer.value.down
    decreases |hands|
  {
    var n := |hands| - 1;
    var s0 := SlotRun(p, proto, i, s, hands[..n], hs[..n]);
    if k == n {
      ColorOnPress(p, i, Ensure(s0, proto), hands[n]);
    } else {
      assert hands[..n][k] == hands[k] && hs[..n][k] == hs[k];
      ReachedWithTipEndsDown(p, proto, i, s, hands[..n], hs[..n], k);
      if SlotOf(hs[n].handLabel) == i {
        if Tip(hands[n]).Some? {
          ColorOnPress(p, i, Ensure(s0, proto), hands[n]);
        } else {
          MissingTipChangesNothing(p, i, Ensure(s0, proto), hands[n]);
        }
      }
    }
  }

  /** The two filter memories agree before the hands, so they agree after. */
  lemma {:induction false} FilterMemoriesAgree(p: Params, proto: PointerView, i: Slot, s: SlotState,
                                               hands: seq<seq<Option<Landmark>>>, hs: seq<Handedness>)
    requires |hands| == |hs| && s.smoothed == s.prev
    ensures var r := SlotRun(p, proto, i, s, hands, hs); r.smoothed == r.prev
    decreases |hands|
  {
    if |hands| > 0 {
      var n := |hands| - 1;
      FilterMemoriesAgree(p, proto, i, s, hands[..n], hs[..n]);
    }
  }

  /** Every index-finger tip of the batch lies in the unit square. */
  predicate TipsInUnit(hands: seq<seq<Option<Landmark>>>) {
    forall k :: 0 <= k < |hands| && Tip(hands[k]).Some? ==>
      InUnit(Tip(hands[k]).value.x) && InUnit(Tip(hands[k]).value.y)
  }

  /** Convexity over any number of frames: the smoothed position never leaves
      the unit square when the tips do not. */
  lemma {:induction false} SmoothedStaysInUnit(p: Params, proto: PointerView, i: Slot, s: SlotState,
                                               hands: seq<seq<Option<Landmark>>>, hs: seq<Handedness>)
    requires |hands| == |hs| && InUnit(p.alpha) && PointInUnit(s.smoothed) && TipsInUnit(hands)
    ensures PointInUnit(SlotRun(p, proto, i, s, hands, hs).smoothed)
    decreases |hands|
  {
    if |hands| > 0 {
      var n := |hands| - 1;
      assert TipsInUnit(hands[..n]) by {
        forall k | 0 <= k < n ensures hands[..n][k] == hands[k] { }
      }
      SmoothedStaysInUnit(p, proto, i, s, hands[..n], hs[..n]);
      var s0 := SlotRun(p, proto, i, s, hands[..n], hs[..n]);
      if SlotOf(hs[n].handLabel) == i {
        UpdateStaysInUnit(p, i, Ensure(s0, proto), hands[n]);
      }
    }
  }

  /** Within a batch, an existing pointer's colour changes only if it was up
      when the batch began, and then to the slot's own colour. */
  lemma {:induction false} ColorOnlyOnPress(p: Params, proto: PointerView, i: Slot, s: SlotState,
                                            hands: seq<seq<Option<Landmark>>>, hs: seq<Handedness>)
    requires |hands| == |hs| && s.pointer.Some?
    ensures var r := SlotRun(p, proto, i, s, hands, hs);
      r.pointer.Some? &&
      (r.pointer.value.color != s.pointer.value.color ==> !s.pointer.value.down && r.pointer.value.color == SlotColor(i))
    decreases |hands|
  {
    if |hands| > 0 {
      var n := |hands| - 1;
      ColorOnlyOnPress(p, proto, i, s, hands[..n], hs[..n]);
      DetectedSlotHasPointer(p, proto, i, s, hands[..n], hs[..n]);
      var s0 := SlotRun(p, proto, i, s, hands[..n], hs[..n]);
      if SlotOf(hs[n].handLabel) == i {
        ColorOnPress(p, i, Ensure(s0, proto), hands[n]);
      }
    }
  }

  // ---------------------------------------------------------------------------
  // One results callback

  /** Without a landmark list or a handedness list, every existing hand pointer
      is lifted, nothing else in it changes, and the filter memories survive. */
  lemma NoHandsLiftsAll(p: Params, proto: PointerView, st: Slots, r: Results)
    requires r.multiHandLandmarks.None? || r.multiHandedness.None?
    ensures var o := OnResults(p, proto, st, r);
      !o.threw &&
      forall i: Slot :: var before, after := st.At(i), o.slots.At(i);
        after.smoothed == before.smoothed && after.prev == before.prev &&
        after.pointer.Some? == before.pointer.Some? &&
        (before.pointer.Some? ==> after.pointer.value == before.pointer.value.(down := false))
  {
  }

  /** A complete batch: a hand labelled "Left" drives slot 0 and any other
      label slot 1, each slot that a hand reached has a pointer (created if
      needed), each slot that none reached is left as it was except that its
      pointer is lifted, and slots evolve independently. */
  lemma BatchOutcome(p: Params, proto: PointerView, st: Slots, r: Results)
    requires r.multiHandLandmarks.Some? && r.multiHandedness.Some?
    requires |r.multiHandLandmarks.value| <= |r.multiHandedness.value|
    ensures var hands := r.multiHandLandmarks.value;
      var hs := r.multiHandedness.value[..|hands|];
      var o := OnResults(p, proto, st, r);
      !o.threw &&
      (forall k :: 0 <= k < |hands| && hs[k].handLabel == "Left" ==> o.slots.left.pointer.Some?) &&
      (forall k :: 0 <= k < |hands| && hs[k].handLabel != "Left" ==> o.slots.right.pointer.Some?) &&
      (forall i: Slot :: !Detected(hs, i) ==>
         o.slots.At(i).smoothed == st.At(i).smoothed && o.slots.At(i).prev == st.At(i).prev &&
         o.slots.At(i).pointer.Some? == st.At(i).pointer.Some? &&
         (st.At(i).pointer.Some? ==> o.slots.At(i).pointer.value == st.At(i).pointer.value.(down := false))) &&
      (forall i: Slot :: Detected(hs, i) ==> o.slots.At(i) == SlotRun(p, proto, i, st.At(i), hands, hs)) &&
      (forall k :: 0 <= k < |hands| && Tip(hands[k]).Some? ==>
         o.slots.At(SlotOf(hs[k].handLabel)).pointer.Some? && o.slots.At(SlotOf(hs[k].handLabel)).pointer.value.down)
  {
    var hands := r.multiHandLandmarks.value;
    var hs := r.multiHandedness.value[..|hands|];
    var all := DispatchAll(p, proto, st, hands, hs);
    var o := OnResults(p, proto, st, r);
    assert o.slots == Sweep(all, hs);
    forall i: Slot
      ensures o.slots.At(i) == (if Detected(hs, i) then all.At(i) else Release(all.At(i)))
      ensures all.At(i) == SlotRun(p, proto, i, st.At(i), hands, hs)
      ensures Detected(hs, i) ==> o.slots.At(i).pointer.Some?
      ensures !Detected(hs, i) ==> all.At(i) == st.At(i)
    {
      DispatchIsPerSlot(p, proto, st, hands, hs, i);
      DetectedSlotHasPointer(p, proto, i, st.At(i), hands, hs);
      if !Detected(hs, i) {
        UndetectedSlotUntouched(p, proto, i, st.At(i), hands, hs);
      }
    }
    forall k | 0 <= k < |hands|
      ensures Detected(hs, SlotOf(hs[k].handLabel))
      ensures Tip(hands[k]).Some? ==> o.slots.At(SlotOf(hs[k].handLabel)).pointer.Some? &&
                                      o.slots.At(SlotOf(hs[k].handLabel)).pointer.value.down
    {
      if Tip(hands[k]).Some? {
        ReachedWithTipEndsDown(p, proto, SlotOf(hs[k].handLabel), st.At(SlotOf(hs[k].handLabel)), hands, hs, k);
      }
    }
  }

  /** A hand without a handedness entry aborts the callback: the hands before
      it have been applied, and no pointer is lifted, not even that of a slot
      no hand reached. */
  lemma AbortedBatchSkipsSweep(p: Params, proto: PointerView, st: Slots, r: Results)
    requires r.multiHandLandmarks.Some? && r.multiHandedness.Some?
    requires |r.multiHandedness.value| < |r.multiHandLandmarks.value|
    ensures var hs := r.multiHandedness.value;
      var o := OnResults(p, proto, st, r);
      o.threw && forall i: Slot :: !Detected(hs, i) ==> o.slots.At(i) == st.At(i)
  {
    var hs := r.multiHandedness.value;
    var hands := r.multiHandLandmarks.value[..|hs|];
    forall i: Slot | !Detected(hs, i) ensures DispatchAll(p, proto, st, hands, hs).At(i) == st.At(i) {
      DispatchIsPerSlot(p, proto, st, hands, hs, i);
      UndetectedSlotUntouched(p, proto, i, st.At(i), hands, hs);
    }
  }

  /** Each slot's two filter memories agree. */
  predicate MemoriesAgree(st: Slots) {
    st.left.smoothed == st.left.prev && st.right.smoothed == st.right.prev
  }

  /** Whatever the callback does, it keeps the two filter memories of each
      slot in agreement and, for tips and a weight in [0,1], keeps the smoothed
      positions in the unit square. */
  lemma CallbackKeepsFilterInvariants(p: Params, proto: PointerView, st: Slots, r: Results)
    ensures MemoriesAgree(st) ==> MemoriesAgree(OnResults(p, proto, st, r).slots)
    ensures InUnit(p.alpha) && PointInUnit(st.left.smoothed) && PointInUnit(st.right.smoothed) &&
            (r.multiHandLandmarks.Some? ==> TipsInUnit(r.multiHandLandmarks.value)) ==>
            var o := OnResults(p, proto, st, r);
            PointInUnit(o.slots.left.smoothed) && PointInUnit(o.slots.right.smoothed)
  {
    if r.multiHandLandmarks.Some? && r.multiHandedness.Some? {
      var hands0 := r.multiHandLandmarks.value;
      var hs0 := r.multiHandedness.value;
      var n := if |hs0| < |hands0| then |hs0| else |hands0|;
      var hands, hs := hands0[..n], hs0[..n];
      assert hands == (if |hs0| < |hands0| then hands0[..|hs0|] else hands0);
      assert hs == (if |hs0| < |hands0| then hs0 else hs0[..|hands0|]);
      assert TipsInUnit(hands0) ==> TipsInUnit(hands) by {
        if TipsInUnit(hands0) {
          forall k | 0 <= k < n ensures hands[k] == hands0[k] { }
        }
      }
      forall i: Slot
        ensures st.At(i).smoothed == st.At(i).prev ==>
                DispatchAll(p, proto, st, hands, hs).At(i).smoothed == DispatchAll(p, proto, st, hands, hs).At(i).prev
        ensures InUnit(p.alpha) && PointInUnit(st.At(i).smoothed) && TipsInUnit(hands) ==>
                PointInUnit(DispatchAll(p, proto, st, hands, hs).At(i).smoothed)
      {
        DispatchIsPerSlot(p, proto, st, hands, hs, i);
        if st.At(i).smoothed == st.At(i).prev {
          FilterMemoriesAgree(p, proto, i, st.At(i), hands, hs);
        }
        if InUnit(p.alpha) && PointInUnit(st.At(i).smoothed) && TipsInUnit(hands) {
          SmoothedStaysInUnit(p, proto, i, st.At(i), hands, hs);
        }
      }
    }
  }
}
