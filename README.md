# Hand-to-pointer tracker, modelled in Dafny

This project models the core of `HandTrackingManager` from the Fluid-Jedi
simulation. The tracker is a small sequential state machine. It receives one
frame of hand detections at a time: a list of hands, each a list of landmarks,
and a parallel list of handedness labels. From these it updates a pointer array
that it shares with the fluid renderer.

- A hand labelled `Left` drives pointer slot 0. Any other label drives slot 1.
- A slot's pointer record is created the first time a hand needs it.
- The index-finger tip (landmark 8) is mirrored horizontally. It is then
  smoothed per axis by an exponential moving average with weight 0.4.
- A frame delta is reported only when the hand already has a previous position
  and its pointer was already down. The delta may pass through the renderer's
  optional aspect-ratio corrections. `moved` is raised when |dx| or |dy|
  exceeds 0.001.
- A pointer goes down when its hand is tracked. It gets its slot's colour only
  on the up-to-down transition: blue `(0, 0.5, 1)` for the left hand, red
  `(1, 0, 0.25)` for the right. A pointer is lifted when its hand is missing
  from the batch.

Files:

- `tracker_spec.dfy`, module `TrackerSpec`. The values the tracker exchanges
  (results, landmarks, handedness, a pointer's fields, per-slot filter state)
  and a pure specification of one hand update (`UpdateFromHand`), one
  callback (`OnResults`) and the slot-local view of a batch (`SlotRun`).
- `hand_tracking.dfy`, module `HandTracking`. The tracker in its own form:
  a class `Pointer` whose fields are updated in place, and a class
  `HandTrackingManager` that holds the shared `array<Pointer?>` and the
  per-slot `smoothedPositions` / `prevPositions` sequences. Its methods follow
  the source step by step. Each is proved to leave the state that the
  specification functions describe. The object invariant `Valid()` includes
  the fact that the two filter memories are equal between calls.
- `tracker_properties.dfy`, module `TrackerProperties`. Lemmas about the
  specification:
  - per update: smoothing, mirroring, convexity, delta rules, `moved`, colour;
  - per slot over a batch: no cross-talk, untouched slots, creation,
    memory agreement, convexity over many frames, colour written once per press;
  - per callback: no hands, a complete batch, an aborted batch.

Coordinates are `real`s, so the model says nothing about IEEE-754 rounding.
The smoothing factor is a field that the constructor sets to 0.4. The lemmas
about it hold for any weight in [0, 1].

Three behaviours of the code a reader might not expect:

- A hand with no handedness entry (a handedness list shorter than the landmark
  list) makes `handedness.label` throw a TypeError. The error leaves
  `onResults` part-way through the batch. The hands before it have been
  applied, and the end-of-batch sweep does not run. `OnResults` returns this as
  `threw`. So a malformed batch propagates a TypeError out of `onResults`.
- An empty landmark list is truthy in JavaScript. Such a batch is swept, not
  short-circuited, with the same effect on the pointers.
- A detected hand whose tip is missing leaves its pointer's `down` as it was,
  and the sweep does not lift it. So `down` does not mean "present in the last
  batch" for such a hand.

## Model

| member | source | states |
|---|---|---|
| `HandTracking.Pointer.constructor` | handTracking.js:118-120 | the new pointer record carries exactly the pointer factory's field values |
| `HandTracking.HandTrackingManager.constructor` | handTracking.js:8-27 | the tracker keeps the shared pointer array, smoothing weight 0.4, both filter memories null for both hands; the object invariant holds |
| `HandTracking.HandTrackingManager.SmoothTip` | handTracking.js:152-164 | the hand's smoothed memory becomes the mirrored raw tip on first use and the alpha-weighted blend afterwards; the other hand's memory is unchanged |
| `HandTracking.HandTrackingManager.TrackDelta` | handTracking.js:166-188 | the delta is the corrected smoothed-minus-previous difference only when a previous position exists and the pointer is down, otherwise (0,0); `moved` is raised only then and only for a delta beyond 0.001 on some axis |
| `HandTracking.HandTrackingManager.UpdatePointerFromHand` | handTracking.js:138-209 | the hand's pointer and filter memories become what `UpdateFromHand` prescribes; the other hand's slot is unchanged; the memories stay equal |
| `HandTracking.HandTrackingManager.ReleasePointer` | handTracking.js:127-132 | an existing pointer in the slot gets `down = false` and nothing else changes |
| `HandTracking.HandTrackingManager.EnsurePointer` | handTracking.js:117-120 | the slot's existing pointer is kept; an absent one is replaced by a fresh factory record; no other array entry changes |
| `HandTracking.HandTrackingManager.ProcessHand` | handTracking.js:107-124 | one hand: slot resolved from its label, pointer created if absent, then updated; the tracker state becomes `Dispatch` of the old state |
| `HandTracking.HandTrackingManager.ProcessHands` | handTracking.js:103-124 | the per-hand loop applies the hands in order, stops with `threw` exactly when a hand has no handedness entry, and otherwise reports which slots the hands reached |
| `HandTracking.HandTrackingManager.OnResults` | handTracking.js:95-133 | the callback leaves the state and error flag that `TrackerSpec.OnResults` prescribes; existing pointers of the two slots stay the same objects, new ones are fresh, other array entries are untouched |
| `TrackerProperties.EmaInUnit` | handTracking.js:157-160 | one moving-average step with weight in [0,1] maps values in [0,1] into [0,1] |
| `TrackerProperties.MissingTipChangesNothing` | handTracking.js:140-142 | without landmark 8 the update changes neither the pointer nor the filter memories |
| `TrackerProperties.SmoothingRule` | handTracking.js:145-161 | the first update sets smoothed = (1 - x, y); later ones set alpha*raw' + (1 - alpha)*old per axis; both memories then hold it |
| `TrackerProperties.UpdateStaysInUnit` | handTracking.js:152-161 | with a tip in the unit square and alpha in [0,1], a smoothed position in the unit square stays there |
| `TrackerProperties.PointerAfterUpdate` | handTracking.js:190-200 | after an update, prevTexcoord equals the former texcoord, texcoord equals the smoothed position that the update stores in the filter memory, delta equals the computed delta, and the pointer is down |
| `TrackerProperties.NoDeltaUnlessTracking` | handTracking.js:166-170 | without a previous position, or with the pointer up on entry, the delta is (0,0) and `moved` is unchanged |
| `TrackerProperties.TrackedDelta` | handTracking.js:170-181 | while tracking with no correction, the delta is smoothed minus previous, which equals alpha times (mirrored tip minus old smoothed) |
| `TrackerProperties.MovedOnlyRaised` | handTracking.js:183-187 | `moved` is never cleared, and it is newly raised only when abs(dx) > 0.001 or abs(dy) > 0.001 |
| `TrackerProperties.ColorOnPress` | handTracking.js:198-205 | a successful update leaves the pointer down; the colour changes only on an up-to-down transition, and then to the slot's fixed colour |
| `TrackerProperties.StillHandDoesNotMove` | handTracking.js:152-188 | a tip held at the smoothed position keeps the average, gives delta (0,0) and leaves `moved` alone |
| `TrackerProperties.DispatchIsPerSlot` | handTracking.js:107-124 | what a batch does to one slot depends only on that slot and the hands that resolve to it (no cross-talk) |
| `TrackerProperties.UndetectedSlotUntouched` | handTracking.js:107-124 | a slot that no hand resolves to is unchanged by the per-hand loop |
| `TrackerProperties.DetectedSlotHasPointer` | handTracking.js:114-123 | a slot that a hand resolves to ends the loop with a pointer; a pointer that was down stays down during the loop |
| `TrackerProperties.ReachedWithTipEndsDown` | handTracking.js:107-124 | a slot that a hand with an index-finger tip resolves to ends the per-hand loop with its pointer down, whatever the later hands are |
| `TrackerProperties.FilterMemoriesAgree` | handTracking.js:153-208 | if a slot's smoothed and previous memories agree before the hands, they agree after |
| `TrackerProperties.SmoothedStaysInUnit` | handTracking.js:152-161 | over any sequence of hands with tips in the unit square and alpha in [0,1], the smoothed position stays in the unit square |
| `TrackerProperties.ColorOnlyOnPress` | handTracking.js:198-205 | within a batch, an existing pointer's colour changes only if it was up when the batch began, and then to the slot's colour |
| `TrackerProperties.NoHandsLiftsAll` | handTracking.js:96-100 | with no landmark or handedness list, every existing hand pointer gets `down = false` and nothing else changes; the filter memories are unchanged |
| `TrackerProperties.BatchOutcome` | handTracking.js:104-132 | a complete batch: a "Left" hand gives slot 0 a pointer, any other label gives slot 1 one; a slot no hand reached keeps its memories and is only lifted; a reached slot is its slot-local run; the slot of every hand with an index-finger tip ends the callback with its pointer down |
| `TrackerProperties.AbortedBatchSkipsSweep` | handTracking.js:107-109 | a hand without a handedness entry ends the callback with an error, and a slot no earlier hand reached is not lifted |
| `TrackerProperties.CallbackKeepsFilterInvariants` | handTracking.js:95-133 | every callback keeps each slot's two memories in agreement and, for tips and alpha in [0,1], keeps smoothed positions in the unit square |

## Left out

- `initialize` (handTracking.js:32-90) is left out. It is DOM lookup, MediaPipe
  `Hands`/`Camera` construction, CDN paths, an asynchronous camera start and
  logging: all I/O and foreign libraries.
- `pause`, `resume`, `shutdown` and the `visibilitychange` listener
  (handTracking.js:214-252) are left out. They only start, stop or close the
  camera and the MediaPipe handle. They never touch `smoothedPositions` or
  `prevPositions`, so tracking resumes from the pre-pause memories.
- The fields `canvas`, `hands`, `camera`, `isInitialized` and `videoElement`
  are left out. They serve only the lifecycle code above.
- The asynchronous frame pipeline (`onFrame` / `hands.send`) is left out.
  `OnResults` is one atomic, sequential call.
- `correctDeltaX` / `correctDeltaY` are defined by the renderer, outside this
  model. They become optional constructor parameters: `None` stands for "not a
  function", which leaves the delta as it is, and `Some(f)` is any total
  function on reals.
- `pointerPrototype` is defined by the renderer, outside this model. It is a
  `PointerView` template given to the constructor. The model assumes that its
  `down` is false. Pointer fields that the tracker never touches are not
  modelled.
- The shared pointer array must have at least two entries. A JavaScript array
  would grow on the lazy write. Pointers 0 and 1 must be distinct objects
  (part of `Valid()`).
- Each hand's landmarks form a list whose entries may be missing. A hand entry
  that is not a list at all is not modelled.
- The source's shared `moved` flag is cleared by the renderer. That lies
  outside this core.
- Colour writes are not counted over a trace of several batches. Per update and
  per batch, `ColorOnPress` and `ColorOnlyOnPress` show that the colour is
  written only on an up-to-down transition.
