# Pupil Player plugins: participant-driven calibration and screen-corner tracking

This project models, in Dafny, two pieces of a pair of Pupil Player plugins.

**Participant-driven screen-marker calibration** (`calibration.dfy`, module
`ParticipantDrivenCalibration`). The calibration shows one site at a time. A dwell
counter (`screen_marker_state`) runs through a lead-in, a sampling window and a
lead-out. The participant opens a gate by pressing Space, and Escape forces the
session to end on the next frame. On each frame with a detected concentric-circle
marker inside the window, with the gate open, a reference point is recorded. On
every processed frame, whatever the window, the pupil samples above the
confidence threshold are collected. A fixation adds `fixation_boost` to the
counter, capped at the end of the sampling window. When the counter reaches the ceiling
`lead_in + sample_duration + lead_out`, the counter and the gate reset and the
next site is popped from the queue; with the queue empty, the session stops.

The pure value model is `Session` with `Tick` (one frame), `KeyEvent` (one key
press) and `Run` (any interleaving). The class `Calibration` holds the same state
in fields. Its methods `RecentEvents` and `OnKey` are proved to perform exactly
`Tick` and `KeyEvent`, and to keep the counter invariant.

**Screen-corner detection** (`screen_tracker.dfy`, module `ScreenTrackerOnline`).
The detector works in four steps:
- It keeps the contours that have both a parent and a child in the contour
  hierarchy and an area above 20 * 2500.
- It looks only at the first survivor.
- When that survivor's polygon approximation has four vertices, it orders them as
  top-left, top-right, bottom-right, bottom-left around their centroid
  (`sortCorners`).
- It emits them as one synthetic marker with `id = 32 + count`.

The module also covers the guard that refuses a non-positive gaze-history length
for a surface. `geometry.dfy` holds the shared `Point` type.

Foreign computations become inputs:
- The per-frame marker detection arrives as an `Option<Marker>`.
- The contour hierarchy, the contour area and the refined polygon arrive as a
  `Contour` record.

Behaviour of the code that the model records as it is:
- **Degenerate corner split.** When the four corners do not split two above and
  two below their centroid, `sortCorners` never binds `tl`. Its first slot write
  then reads the unbound name and raises before any slot is written. The exception
  leaves `detect_screen_corners`. The model has `SortCorners` fail with
  `UnboundCorners`, and the whole detector fails with it (see Findings).
- **Squares standing on a corner.** Such a square splits one above and three below
  its centroid, so the code raises on it (`DiamondRaises`). The detector already
  drops a polygon that is not a quadrilateral without complaint. Dropping a
  degenerate quadrilateral the same way is the consistent behaviour, and it is
  modelled as `ScreenCornersRejecting`.
- **Dwell length.** With lead-in 25, sample duration 40 and lead-out 5, 70 steady
  frames after a site's activation raise the counter from 0 to 70 on that site. The
  71st frame activates the next site (`SeventyFrameDwell`).

## Model

| member | source | states |
|---|---|---|
| ParticipantDrivenCalibration.ConfidentSpec | calibration/participant_driven_calibration.py:98-100 | a pupil sample is collected iff it is one of the frame's samples and its confidence exceeds the threshold; the filter never lengthens its input |
| ParticipantDrivenCalibration.ConfidentAppend | calibration/participant_driven_calibration.py:98-100 | filtering a concatenation is the concatenation of the filtered parts: samples keep their input order |
| ParticipantDrivenCalibration.TickIdle | calibration/participant_driven_calibration.py:66-67 | without an active session or without a frame, a tick changes nothing |
| ParticipantDrivenCalibration.TickAbort | calibration/participant_driven_calibration.py:71-73 | with `clicks_to_close <= 0` the session stops, nothing is appended to either list, and no other field changes |
| ParticipantDrivenCalibration.TickRefAppend | calibration/participant_driven_calibration.py:88-95 | a reference point is appended exactly when the tick is processed, the counter is strictly inside the window, a marker is detected and the gate is open; it carries the marker's normalised and raw position and the frame timestamp; otherwise the reference list is unchanged |
| ParticipantDrivenCalibration.TickPupils | calibration/participant_driven_calibration.py:97-100 | a processed tick appends exactly the confident samples, whatever the window, the detection and the gate; an unprocessed tick appends none |
| ParticipantDrivenCalibration.BoostCap | calibration/participant_driven_calibration.py:102-105 | the boost never lowers the counter; when it changes the counter, the tick was sampling with fixations present and the result is at most `lead_in + sample_duration` |
| ParticipantDrivenCalibration.TickKeepsCounterInRange | calibration/participant_driven_calibration.py:102-117 | every tick preserves `0 <= screen_marker_state <= lead_in + sample_duration + lead_out` |
| ParticipantDrivenCalibration.TickAdvance | calibration/participant_driven_calibration.py:107-110 | below the ceiling the session stays active on the same site with the same gate, and the counter is the boosted value plus one when `(detected and gate) or not on_position`, else the boosted value |
| ParticipantDrivenCalibration.TickStallInWindow | calibration/participant_driven_calibration.py:108-110 | inside the window, without a detection or without the gate, the counter does not move |
| ParticipantDrivenCalibration.TickAtCeiling | calibration/participant_driven_calibration.py:111-117 | at the ceiling the counter becomes 0 and the gate closes; with no queued site the session stops, otherwise exactly the front site is popped and becomes active |
| ParticipantDrivenCalibration.KeyEventEffect | calibration/participant_driven_calibration.py:57-63 | a pressed Escape sets `clicks_to_close` to 0, a pressed Space opens the gate, and no other field changes |
| ParticipantDrivenCalibration.TickGrows | calibration/participant_driven_calibration.py:90-117 | one frame extends the reference and pupil lists (the old list is a prefix of the new one) and leaves a suffix of the site queue |
| ParticipantDrivenCalibration.ApplyGrows | calibration/participant_driven_calibration.py:57-117 | the same for one key event or one frame |
| ParticipantDrivenCalibration.RunGrows | calibration/participant_driven_calibration.py:57-117 | across any sequence of key events and frames the lists only grow by appending and the site queue only loses front elements |
| ParticipantDrivenCalibration.RunKeepsCounterInRange | calibration/participant_driven_calibration.py:65-117 | across any run the counter stays within `0 .. ceiling` |
| ParticipantDrivenCalibration.RunStallsWhileUndetected | calibration/participant_driven_calibration.py:88-110 | once inside the window, the counter does not move for as long as no frame detects the marker, whatever keys are pressed |
| ParticipantDrivenCalibration.DwellAdvances | calibration/participant_driven_calibration.py:107-110 | with the gate open and the marker detected on every frame, each of `n` frames below the ceiling raises the counter by exactly one, on the same active site |
| ParticipantDrivenCalibration.DwellCycle | calibration/participant_driven_calibration.py:107-117 | from a freshly activated site, `ceiling` steady frames bring the counter to the ceiling on the same site, and the next frame activates the front queued site with the counter at 0 and the gate closed |
| ParticipantDrivenCalibration.SeventyFrameDwell | calibration/participant_driven_calibration.py:103-117 | with lead-in 25, sample duration 40 and lead-out 5, the site is unchanged after 69 and after 70 steady frames, the counter is 70 after 70 frames, and the 71st frame activates the next site |
| ParticipantDrivenCalibration.RestartKeepsGate | calibration/participant_driven_calibration.py:53-73 | after Space, Escape and the stopping frame the gate is still open; after `Restart` (the `C` switch starting the same object again) the new session is active with an empty reference list and the open gate, so `lead_in + 1` steady frames later a frame appends a reference point with no Space press in the new session |
| ParticipantDrivenCalibration.TickKeepsGateClosed | calibration/participant_driven_calibration.py:90-112 | with the gate closed a frame appends no reference point, and no frame opens the gate |
| ParticipantDrivenCalibration.RunWithoutSpaceSamplesNothing | calibration/participant_driven_calibration.py:57-112 | from a closed gate, any run of inputs without a Space press leaves the reference list unchanged and the gate closed |
| ParticipantDrivenCalibration.CorrectedRestartNeedsSpace | calibration/participant_driven_calibration.py:31-36 | `CorrectedRestart` reactivates the session on the given sites with the counter at 0, and no reference point is recorded in the new session before a Space press, whatever state the stopped session left |
| ParticipantDrivenCalibration.TickRefBudgetBelowCeiling | calibration/participant_driven_calibration.py:88-110 | below the ceiling a frame never raises the count of reference points collected plus still collectable |
| ParticipantDrivenCalibration.TickRefBudgetAtCeiling | calibration/participant_driven_calibration.py:111-117 | at the ceiling a frame never raises that count either: the new site's window replaces the popped one |
| ParticipantDrivenCalibration.ApplyRefBudget | calibration/participant_driven_calibration.py:57-117 | no key event or frame raises that count |
| ParticipantDrivenCalibration.RunRefBudget | calibration/participant_driven_calibration.py:65-117 | no run raises that count |
| ParticipantDrivenCalibration.RefListBound | calibration/participant_driven_calibration.py:88-117 | a session that starts with no reference points and N sites (the active one plus N-1 queued) never holds more than N * (sample_duration - 1) of them, so never more than N * sample_duration |
| ParticipantDrivenCalibration.Confident | calibration/participant_driven_calibration.py:98-100 | the confidence filter over a frame's pupil samples; its meaning is stated by `ConfidentSpec` and `ConfidentAppend` |
| ParticipantDrivenCalibration.Boosted | calibration/participant_driven_calibration.py:102-105 | the counter after the fixation-boost step; bounded by `BoostCap` |
| ParticipantDrivenCalibration.Sampled | calibration/participant_driven_calibration.py:76-100 | the detection and sampling steps of a processed frame; its effect on the lists is stated by `TickRefAppend` and `TickPupils` |
| ParticipantDrivenCalibration.Settle | calibration/participant_driven_calibration.py:102-122 | the boost, advance-or-stall and ceiling steps of a processed frame; their effect is stated by `TickAdvance`, `TickStallInWindow` and `TickAtCeiling` |
| ParticipantDrivenCalibration.Tick | calibration/participant_driven_calibration.py:65-123 | one frame of `recent_events`; its properties are the `Tick…` lemmas above, and `Calibration.RecentEvents` is proved to perform it |
| ParticipantDrivenCalibration.KeyEvent | calibration/participant_driven_calibration.py:57-63 | one `on_key` call; its effect is stated by `KeyEventEffect`, and `Calibration.OnKey` is proved to perform it |
| ParticipantDrivenCalibration.Calibration.Start | calibration/participant_driven_calibration.py:34-36 | a started session has the first site active, the rest queued, the counter at 0, empty lists and the gate closed |
| ParticipantDrivenCalibration.Calibration.OnKey | calibration/participant_driven_calibration.py:57-63 | the object's new state is `KeyEvent` of its old state, and the counter invariant is kept |
| ParticipantDrivenCalibration.Calibration.AppendConfidentPupils | calibration/participant_driven_calibration.py:98-100 | the loop appends to `pupil_list` exactly the confident samples, in input order, and changes no other field |
| ParticipantDrivenCalibration.Calibration.DetectAndSample | calibration/participant_driven_calibration.py:76-100 | the detection fields, the reference-point append and the pupil collection leave the object in the state `Sampled` gives |
| ParticipantDrivenCalibration.Calibration.Animate | calibration/participant_driven_calibration.py:102-122 | the boost, the advance-or-stall rule and the ceiling reset leave the object in the state `Settle` gives |
| ParticipantDrivenCalibration.Calibration.RecentEvents | calibration/participant_driven_calibration.py:65-123 | one call performs exactly one `Tick` on the object's state, and the counter invariant is kept |
| ScreenTrackerOnline.Top | screen_tracker_neon/ScreenTrackerOnline.py:21 | every corner in the top half lies strictly above the centre |
| ScreenTrackerOnline.Bottom | screen_tracker_neon/ScreenTrackerOnline.py:22 | every corner in the bottom half lies at or below the centre |
| ScreenTrackerOnline.Partition | screen_tracker_neon/ScreenTrackerOnline.py:21-22 | every corner lands in exactly one half: the two halves together are the input multiset, and their sizes add up to the input's |
| ScreenTrackerOnline.SortByXSpec | screen_tracker_neon/ScreenTrackerOnline.py:27-28 | sorting a pair by x gives an x-ordered permutation of it and keeps tied points in input order |
| ScreenTrackerOnline.SortCornersSpec | screen_tracker_neon/ScreenTrackerOnline.py:16-35 | the ordering succeeds iff the split is two above and two below the centre; on success the input had four corners and the result is a permutation of them with `tl, tr` above the centre, `br, bl` at or below it, `tl.x <= tr.x` and `bl.x <= br.x` |
| ScreenTrackerOnline.BadSplitFails | screen_tracker_neon/ScreenTrackerOnline.py:26-30 | any split other than two and two fails with the unbound-corner error |
| ScreenTrackerOnline.SortCornersInto | screen_tracker_neon/ScreenTrackerOnline.py:24-35 | the method that writes the four slots of a fresh array succeeds exactly when `SortCorners` does, and then the array holds its result |
| ScreenTrackerOnline.Kept | screen_tracker_neon/ScreenTrackerOnline.py:57 | every kept contour has a parent, a child and an area above 20 * 2500 |
| ScreenTrackerOnline.KeptExactly | screen_tracker_neon/ScreenTrackerOnline.py:57 | a contour is kept iff it is an input contour that passes the keep condition |
| ScreenTrackerOnline.KeptNone | screen_tracker_neon/ScreenTrackerOnline.py:57-60 | nothing is kept iff no input contour passes the keep condition |
| ScreenTrackerOnline.KeptFirst | screen_tracker_neon/ScreenTrackerOnline.py:57-61 | the contour examined (the first kept one) is the first input contour that passes the keep condition |
| ScreenTrackerOnline.Quads | screen_tracker_neon/ScreenTrackerOnline.py:64 | every candidate has four vertices, and there are no more candidates than approximations |
| ScreenTrackerOnline.QuadsExactly | screen_tracker_neon/ScreenTrackerOnline.py:64 | a polygon is a candidate iff it is one of the approximations and has exactly four vertices |
| ScreenTrackerOnline.Candidates | screen_tracker_neon/ScreenTrackerOnline.py:59-64 | there is at most one candidate; a candidate is the first survivor's polygon and has four vertices; and a first survivor with a four-vertex polygon is the candidate |
| ScreenTrackerOnline.MarkerForSpec | screen_tracker_neon/ScreenTrackerOnline.py:67-81 | a candidate's record exists iff its corners sort around its centroid; it has `id = 32 + count`, confidence 1, no frames since detection, that centroid, and the candidate's vertices in canonical order |
| ScreenTrackerOnline.EmitSpec | screen_tracker_neon/ScreenTrackerOnline.py:66-82 | the loop fails iff some candidate fails to sort; otherwise it emits one record per candidate, record `k` built from candidate `k` |
| ScreenTrackerOnline.ScreenCornersShape | screen_tracker_neon/ScreenTrackerOnline.py:57-84 | no survivor, or a survivor that is not a quadrilateral, gives no marker; at most one marker is emitted, and exactly one when a surviving quadrilateral does not fail; the detector fails iff the survivor's quadrilateral splits degenerately; an emitted marker is that quadrilateral in canonical order with `id = 32`, confidence 1 and no frames since detection |
| ScreenTrackerOnline.BuildMarker | screen_tracker_neon/ScreenTrackerOnline.py:67-81 | the loop body, which copies the candidate into a four-slot buffer and overwrites the slots with the sorted corners, yields exactly `MarkerFor` |
| ScreenTrackerOnline.DetectScreenCorners | screen_tracker_neon/ScreenTrackerOnline.py:39-84 | the imperative detector returns exactly `ScreenCorners` of its contours |
| ScreenTrackerOnline.DiamondRaises | screen_tracker_neon/ScreenTrackerOnline.py:26-30 | a frame contour of area 80000 whose quadrilateral is a square standing on a corner, `(300,100), (500,300), (300,500), (100,300)`, has centroid `(300,300)` and only one corner above it, and the detector fails on it |
| ScreenTrackerOnline.EmitRejectingSound | screen_tracker_neon/ScreenTrackerOnline.py:66-82 | the corrected loop emits at most one record per candidate; each record is exactly the record built from the candidate it is numbered after, so it has confidence 1, no frames since detection, that candidate's centroid, and that candidate's vertices in canonical order around it |
| ScreenTrackerOnline.EmitRejectingComplete | screen_tracker_neon/ScreenTrackerOnline.py:66-82 | the corrected loop drops no candidate that sorts: its record is among those emitted |
| ScreenTrackerOnline.EmitRejectingAgrees | screen_tracker_neon/ScreenTrackerOnline.py:66-82 | whenever the code's loop does not fail, the corrected loop emits the same records |
| ScreenTrackerOnline.ScreenCornersRejecting | screen_tracker_neon/ScreenTrackerOnline.py:57-82 | the corrected detector never fails and emits at most one marker; a marker is the record built from the first survivor's quadrilateral, with `id = 32`, confidence 1, that quadrilateral's centroid and its vertices in canonical order; wherever the code fails (a degenerate survivor) it emits nothing, and wherever the code does not fail it emits what the code emits |
| ScreenTrackerOnline.DiamondRejected | screen_tracker_neon/ScreenTrackerOnline.py:26-30 | on the standing-square frame the corrected detector reports no screen |
| ScreenTrackerOnline.SortByX | screen_tracker_neon/ScreenTrackerOnline.py:27-28 | the stable sort of a pair by horizontal coordinate; stated by `SortByXSpec` |
| ScreenTrackerOnline.SortCorners | screen_tracker_neon/ScreenTrackerOnline.py:16-35 | `sortCorners`, with the unbound-corner error as a failure; stated by `SortCornersSpec` and `BadSplitFails`, and performed in place by `SortCornersInto` |
| ScreenTrackerOnline.Centroid | screen_tracker_neon/ScreenTrackerOnline.py:69-70 | the mean of the four corners in exact arithmetic; its value on the diamond is stated by `DiamondRaises` |
| ScreenTrackerOnline.MarkerFor | screen_tracker_neon/ScreenTrackerOnline.py:67-81 | the corner record of one candidate or the sort's failure; stated by `MarkerForSpec`, and performed by `BuildMarker` |
| ScreenTrackerOnline.Emit | screen_tracker_neon/ScreenTrackerOnline.py:66-82 | the result of the candidate loop; stated by `EmitSpec` |
| ScreenTrackerOnline.ScreenCorners | screen_tracker_neon/ScreenTrackerOnline.py:57-84 | `detect_screen_corners` on the given contours; stated by `ScreenCornersShape`, and performed by `DetectScreenCorners` |
| ScreenTrackerOnline.EmitRejecting | screen_tracker_neon/ScreenTrackerOnline.py:66-82 | the candidate loop with degenerate candidates skipped; stated by `EmitRejectingSound`, `EmitRejectingComplete` and `EmitRejectingAgrees` |
| ScreenTrackerOnline.SetGazeHistLen | screen_tracker_neon/ScreenTrackerOnline.py:153-157 | a value is accepted iff it is positive; an accepted value is stored, a refused one leaves the surface's gaze-history length unchanged |

## Left out

- Marker detection and normalisation (`find_concetric_circles`, `normalize` with the flipped y axis) are foreign, float-based image processing. Each frame supplies their result as an optional `Marker`. The `markers` field that holds the detector's full list is not modelled, because only its first entry is read.
- `frame.gray`, `frame.width` and `frame.height` are read only by those foreign calls and are not modelled.
- The `stop()` of the unseen screen-marker calibration base is modelled only as clearing `active`, which is the field the run guard reads. The finish-calibration handoff it triggers is not modelled.
- Calibration.Start models the first start only. Starting the same object again through the `toggle` setter of the `C` switch runs the base class's start routine, which is not part of this model. `Restart` models it by its visible effect: it reactivates the session, and the gate carries over from a session stopped while it was open. That case is recorded under "## Findings".
- The base class's `__init__`, its site list construction and its constant values are not modelled. `Calibration.Start` takes the sites and `clicks_to_close` as parameters, and `Config` takes `lead_in`, `sample_duration`, `lead_out`, `fixation_boost` and the pupil confidence threshold.
- The mouse-click decrement of `clicks_to_close` happens in the base class and is not modelled.
- Config: the fixation boost is a whole number (`nat`) and so is the counter (`int`). The unseen base class sets the boost to `sample_duration / 2`, which is true division in Python 3. With an odd sample duration the boost and then the counter become fractional, and this is not modelled.
- TickKeepsCounterInRange holds for the whole-number boost only. With a fractional boost the code can overshoot the ceiling. Example: lead-in 25, sample duration 41, lead-out 5, boost 20.5. From state 26, a sampling frame with fixations gives min(66, 46.5) + 1 = 47.5, and steady frames then reach 70.5 and 71.5, above the ceiling 71. The model states no bound for that case.
- RunKeepsCounterInRange and the `Valid()` that `Calibration.RecentEvents` keeps rest on `TickKeepsCounterInRange`, so they too hold for the whole-number boost only, for the same reason.
- Changing `sample_duration` at runtime through the GUI slider is not modelled: `Config` is fixed for a session.
- A frame's events are assumed to carry `pupil_positions`. The `KeyError` the code would raise without them is not modelled.
- The fixation list is modelled only by its truthiness (`hasFixations`).
- `on_key` ignores its window, scancode and modifier arguments, so the model omits them.
- GL and GLFW rendering, GUI construction, the `button.status_text` string (line 123) and logging are not modelled: they are presentation only.
- DetectScreenCorners returns `Success([])` for an empty contour list. The code indexes `hierarchy[0]` after `findContours`, which returns `None` when the thresholded image has no contours, so it would raise `TypeError` there. The inverted adaptive threshold gives every real camera frame some contour, so this case is not modelled.
- OpenCV image processing is foreign: `adaptiveThreshold`, `findContours`, `contourArea`, `approxPolyDP`, `cornerSubPix`, and the `int32`/`float32` conversions around them. Each contour supplies its hierarchy links, its area and its refined polygon as a `Contour` record.
- The `perimeter` entry of the corner record (`cv2.arcLength`) is a foreign floating-point length and is not part of the modelled record.
- `Surface_Marker.from_square_tag_detection` and the lazy `map` the detector returns are foreign. The model returns the corner records themselves.
- Centroid: the corner mean is computed in exact real arithmetic. Float64 rounding is not modelled, so a point on the rounding boundary of the centroid may split differently in the code.
- The surface-tracker plumbing is not modelled: freeze-scene handling, heatmaps, gaze-history updates, surface persistence and menus. Only the positive-value guard of the gaze-history setter is modelled.

## Findings

| source | as written | input that shows it | evidently intended | confidence | as-written member | corrected member |
|---|---|---|---|---|---|---|
| screen_tracker_neon/ScreenTrackerOnline.py:26-30 | when the corners do not split two above and two below their centroid, `tl` is never bound, so line 30 raises `UnboundLocalError` out of `detect_screen_corners` and the frame yields no result at all | one frame contour (parent 0, child 1, area 80000) whose quadrilateral is the square standing on a corner `(300,100), (500,300), (300,500), (100,300)`: the centroid is `(300,300)` and only one corner lies above it | drop the degenerate candidate, as the detector already drops a polygon that is not a quadrilateral, so the frame reports no screen | not executed | ScreenTrackerOnline.DiamondRaises | ScreenTrackerOnline.ScreenCornersRejecting |
| calibration/participant_driven_calibration.py:71-73 | the gate is cleared only in the constructor and at the ceiling. When Space was pressed and the session is stopped by Escape before the site's window ends, the gate stays open, and a restart of the same object starts sampling without a new Space press, against the "key press before each sampling" promise of the class | Space, Escape, one frame (the session stops), a restart with the `C` switch, then `lead_in + 1` frames with the marker in view: the next frame appends a reference point | close the gate whenever a session starts | not executed; the restart runs the base class's start routine, which is not part of this model, and is assumed to leave this plugin's gate untouched | ParticipantDrivenCalibration.RestartKeepsGate | ParticipantDrivenCalibration.CorrectedRestartNeedsSpace |
