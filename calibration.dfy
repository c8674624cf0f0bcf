/**
  The participant-driven screen-marker calibration: a frame-driven state machine
  that shows one calibration site at a time, waits for the participant to press
  Space, samples reference points while the concentric-circle marker is detected
  inside the sampling window, collects confident pupil samples on every frame,
  and moves on to the next site when its dwell counter reaches the ceiling.

  The value model (`Session`, `Tick`, `KeyEvent`, `Run`) states what one frame
  or one key press does; the class `Calibration` holds the same state in fields
  and its methods are proved to perform exactly those transitions.
*/
module ParticipantDrivenCalibration {
  import opened Geometry

  datatype Option<T> = None | Some(value: T)

  /** The first detected concentric-circle marker of a frame: the centre of its
      innermost ellipse in image pixels, and that centre normalised to the unit
      square with the vertical axis flipped. */
  datatype Marker = Marker(screenPos: Point, normPos: Point)

  /** What the tick reads of a video frame: its timestamp and the detector's result. */
  datatype Frame = Frame(timestamp: real, marker: Option<Marker>)

  /** A pupil datum as delivered by the host; only its confidence is inspected. */
  datatype PupilSample = PupilSample(confidence: real, timestamp: real, normPos: Point)

  /** A reference point: the marker's normalised and raw position and the frame time. */
  datatype RefPoint = RefPoint(normPos: Point, screenPos: Point, timestamp: real)

  /** The events of one frame: the frame (absent when the host delivered none),
      the recent pupil positions, and whether the fixation list is non-empty. */
  datatype Events = Events(frame: Option<Frame>, pupilPositions: seq<PupilSample>, hasFixations: bool)

  datatype Key = Escape | Space | OtherKey(code: int)
  datatype KeyAction = Press | Release | Repeat

  /** Constants inherited from the screen-marker calibration base. */
  datatype Config = Config(
    leadIn: nat, sampleDuration: nat, leadOut: nat,
    fixationBoost: nat, pupilConfidenceThreshold: real)

  /** The state of a calibration session, one component per field the tick reads or writes. */
  datatype Session = Session(
    active: bool,
    screenMarkerState: int,
    spaceKeyWasPressed: bool,
    clicksToClose: int,
    sites: seq<Point>,
    activeSite: Point,
    refList: seq<RefPoint>,
    pupilList: seq<PupilSample>,
    detected: bool,
    pos: Option<Point>,
    onPosition: bool,
    displayPos: Point)

  /** One input to the session: a key event or the events of a frame. */
  datatype Input = KeyInput(key: Key, action: KeyAction) | FrameInput(events: Events)

  function Min(a: int, b: int): int { if a <= b then a else b }

  /** End of the sampling window: `lead_in + sample_duration`. */
  function SampleEnd(c: Config): nat { c.leadIn + c.sampleDuration }

  /** The counter value at which the site is finished: `lead_in + sample_duration + lead_out`. */
  function Ceiling(c: Config): nat { c.leadIn + c.sampleDuration + c.leadOut }

  /** The strict sampling window `lead_in < state < lead_in + sample_duration`. */
  predicate OnPosition(c: Config, state: int) { c.leadIn < state < SampleEnd(c) }

  predicate CounterInRange(c: Config, s: Session) { 0 <= s.screenMarkerState <= Ceiling(c) }

  /** The pupil samples whose confidence exceeds the threshold, in input order. */
  function Confident(ps: seq<PupilSample>, threshold: real): seq<PupilSample>
  {
    if ps == [] then []
    else
      var last := ps[|ps| - 1];
      Confident(ps[..|ps| - 1], threshold) + (if last.confidence > threshold then [last] else [])
  }

  /** A sample is kept exactly when it is one of the input samples with confidence above
      the threshold, and the filter never lengthens its input. */
  lemma {:induction false} ConfidentSpec(ps: seq<PupilSample>, threshold: real, p: PupilSample)
    ensures |Confident(ps, threshold)| <= |ps|
    ensures p in Confident(ps, threshold) <==> p in ps && p.confidence > threshold
    decreases |ps|
  {
    if ps != [] {
      var init := ps[..|ps| - 1];
      ConfidentSpec(init, threshold, p);
      assert ps == init + [ps[|ps| - 1]];
    }
  }

  /** Filtering distributes over concatenation: samples keep their input order. */
  lemma {:induction false} ConfidentAppend(a: seq<PupilSample>, b: seq<PupilSample>, threshold: real)
    ensures Confident(a + b, threshold) == Confident(a, threshold) + Confident(b, threshold)
    decreases |b|
  {
    if b == [] {
      assert a + b == a;
    } else {
      var b' := b[..|b| - 1];
      assert (a + b)[..|a + b| - 1] == a + b';
      ConfidentAppend(a, b', threshold);
    }
  }

  /** Whether the tick gets past the activity, frame and abort guards of `recent_events`. */
  predicate Processes(s: Session, e: Events) { s.active && e.frame.Some? && s.clicksToClose > 0 }

  /** Whether the events carry a detected marker. */
  predicate Detects(e: Events) { e.frame.Some? && e.frame.value.marker.Some? }

  /** Whether this tick appends a reference point: on position, detected, gate open. */
  predicate SamplesRef(c: Config, s: Session, e: Events) {
    OnPosition(c, s.screenMarkerState) && Detects(e) && s.spaceKeyWasPressed
  }

  /** The counter after the fixation-boost step of `recent_events`. */
  function Boosted(c: Config, s: Session, e: Events): int {
    if SamplesRef(c, s, e) && e.hasFixations
    then Min(SampleEnd(c), s.screenMarkerState + c.fixationBoost)
    else s.screenMarkerState
  }

  /** The session after the detection and sampling steps of a processed frame
      of `recent_events`: the marker result is recorded, a reference point is appended
      when `SamplesRef` holds, and the confident pupil samples are appended. */
  function Sampled(c: Config, s: Session, e: Events): Session
    requires e.frame.Some?
  {
    var f := e.frame.value;
    var detected := f.marker.Some?;
    s.(
      refList :=
        if SamplesRef(c, s, e)
        then s.refList + [RefPoint(f.marker.value.normPos, f.marker.value.screenPos, f.timestamp)]
        else s.refList,
      pupilList := s.pupilList + Confident(e.pupilPositions, c.pupilConfidenceThreshold),
      detected := detected,
      pos := if detected then Some(f.marker.value.normPos) else None)
  }

  /** The boost, advance-or-stall and ceiling steps of `recent_events` applied to the
      sampled session `t`; `s` is the session at the start of the frame. */
  function Settle(c: Config, s: Session, e: Events, t: Session): Session {
    var onPos := OnPosition(c, s.screenMarkerState);
    var state := Boosted(c, s, e);
    if state < Ceiling(c) then
      t.(
        screenMarkerState := if (Detects(e) && s.spaceKeyWasPressed) || !onPos then state + 1 else state,
        onPosition := onPos,
        displayPos := s.activeSite)
    else if s.sites == [] then
      t.(spaceKeyWasPressed := false, screenMarkerState := 0, active := false)
    else
      t.(
        spaceKeyWasPressed := false, screenMarkerState := 0,
        activeSite := s.sites[0], sites := s.sites[1..],
        onPosition := onPos, displayPos := s.sites[0])
  }

  /** One frame of `recent_events`. */
  function Tick(c: Config, s: Session, e: Events): Session {
    if !s.active || e.frame.None? then s
    else if s.clicksToClose <= 0 then s.(active := false)
    else Settle(c, s, e, Sampled(c, s, e))
  }

  /** `on_key`: Escape forces the abort countdown to zero, Space opens the gate. */
  function KeyEvent(s: Session, key: Key, action: KeyAction): Session {
    if action != Press then s
    else if key == Escape then s.(clicksToClose := 0)
    else if key == Space then s.(spaceKeyWasPressed := true)
    else s
  }

  function Apply(c: Config, s: Session, i: Input): Session {
    match i
    case KeyInput(k, a) => KeyEvent(s, k, a)
    case FrameInput(e) => Tick(c, s, e)
  }

  /** The session after a sequence of inputs. */
  function Run(c: Config, s: Session, inputs: seq<Input>): Session
    decreases |inputs|
  {
    if inputs == [] then s else Run(c, Apply(c, s, inputs[0]), inputs[1..])
  }

  /** The session after `n` frames that all carry the same events. */
  function TickN(c: Config, s: Session, e: Events, n: nat): Session
    decreases n
  {
    if n == 0 then s else TickN(c, Tick(c, s, e), e, n - 1)
  }

  // ---------------------------------------------------------------------------
  // Properties of one tick

  /** Without an active session or a frame, nothing happens. */
  lemma TickIdle(c: Config, s: Session, e: Events)
    requires !s.active || e.frame.None?
    ensures Tick(c, s, e) == s
  {
  }

  /** With the abort countdown exhausted the session stops and nothing is appended. */
  lemma TickAbort(c: Config, s: Session, e: Events)
    requires s.active && e.frame.Some? && s.clicksToClose <= 0
    ensures var r := Tick(c, s, e);
      !r.active && r.refList == s.refList && r.pupilList == s.pupilList && r == s.(active := false)
  {
  }

  /** A reference point is appended exactly when the counter is inside the window,
      a marker is detected and the gate is open; it carries this frame's position
      and timestamp. */
  lemma TickRefAppend(c: Config, s: Session, e: Events)
    ensures var r := Tick(c, s, e);
      if Processes(s, e) && SamplesRef(c, s, e) then
        var m := e.frame.value.marker.value;
        r.refList == s.refList + [RefPoint(m.normPos, m.screenPos, e.frame.value.timestamp)]
      else r.refList == s.refList
  {
  }

  /** Every confident pupil sample of a processed frame is appended, in order, and no
      other, whatever the window, the detection and the gate. */
  lemma TickPupils(c: Config, s: Session, e: Events)
    ensures var r := Tick(c, s, e);
      r.pupilList == s.pupilList + (if Processes(s, e) then Confident(e.pupilPositions, c.pupilConfidenceThreshold) else [])
  {
  }

  /** The fixation boost never lowers the counter and never lifts it above the end
      of the sampling window. */
  lemma BoostCap(c: Config, s: Session, e: Events)
    ensures s.screenMarkerState <= Boosted(c, s, e)
    ensures Boosted(c, s, e) != s.screenMarkerState ==>
      SamplesRef(c, s, e) && e.hasFixations && Boosted(c, s, e) <= SampleEnd(c)
  {
  }

  /** Every tick keeps `0 <= screen_marker_state <= ceiling`. */
  lemma TickKeepsCounterInRange(c: Config, s: Session, e: Events)
    requires CounterInRange(c, s)
    ensures CounterInRange(c, Tick(c, s, e))
  {
    if Processes(s, e) {
      BoostCap(c, s, e);
    }
  }

  /** Below the ceiling the counter rises by exactly one when the marker is detected
      with the gate open or the counter is outside the window, and otherwise keeps
      its boosted value. */
  lemma TickAdvance(c: Config, s: Session, e: Events)
    requires Processes(s, e) && Boosted(c, s, e) < Ceiling(c)
    ensures var r := Tick(c, s, e);
      && r.active && r.sites == s.sites && r.activeSite == s.activeSite
      && r.spaceKeyWasPressed == s.spaceKeyWasPressed
      && r.screenMarkerState ==
         if (Detects(e) && s.spaceKeyWasPressed) || !OnPosition(c, s.screenMarkerState)
         then Boosted(c, s, e) + 1 else Boosted(c, s, e)
  {
  }

  /** Inside the window, without a detection or without the gate, the counter stalls. */
  lemma TickStallInWindow(c: Config, s: Session, e: Events)
    requires OnPosition(c, s.screenMarkerState)
    requires !Detects(e) || !s.spaceKeyWasPressed
    ensures Tick(c, s, e).screenMarkerState == s.screenMarkerState
  {
  }

  /** At the ceiling the counter and the gate reset; the next site is popped from the
      front of the queue, or, with the queue empty, the session stops. */
  lemma TickAtCeiling(c: Config, s: Session, e: Events)
    requires Processes(s, e) && Boosted(c, s, e) >= Ceiling(c)
    ensures var r := Tick(c, s, e);
      && r.screenMarkerState == 0 && !r.spaceKeyWasPressed
      && (s.sites == [] ==> !r.active && r.sites == [] && r.activeSite == s.activeSite)
      && (s.sites != [] ==> r.active && r.activeSite == s.sites[0] && r.sites == s.sites[1..])
  {
  }

  /** Escape zeroes the abort countdown, Space opens the gate, and nothing else changes. */
  lemma KeyEventEffect(s: Session, key: Key, action: KeyAction)
    ensures var r := KeyEvent(s, key, action);
      && r.clicksToClose == (if action == Press && key == Escape then 0 else s.clicksToClose)
      && r.spaceKeyWasPressed == (s.spaceKeyWasPressed || (action == Press && key == Space))
      && r == s.(clicksToClose := r.clicksToClose, spaceKeyWasPressed := r.spaceKeyWasPressed)
  {
  }

  // ---------------------------------------------------------------------------
  // Properties of whole runs

  /** `t.sites` is what is left of `s.sites` after popping some front elements. */
  predicate SuffixOf(t: seq<Point>, s: seq<Point>) {
    |t| <= |s| && s[|s| - |t|..] == t
  }

  /** The sample lists only grow, by appending, and the site queue only shrinks from the front. */
  predicate Grows(s: Session, t: Session) {
    s.refList <= t.refList && s.pupilList <= t.pupilList && SuffixOf(t.sites, s.sites)
  }

  lemma GrowsTransitive(a: Session, b: Session, d: Session)
    requires Grows(a, b) && Grows(b, d)
    ensures Grows(a, d)
  {
    var n, m, k := |a.sites|, |b.sites|, |d.sites|;
    assert a.sites[n - k..] == a.sites[n - m..][m - k..];
  }

  lemma SuffixOfRefl(q: seq<Point>)
    ensures SuffixOf(q, q)
  {
    assert q[|q| - |q|..] == q;
  }

  lemma SuffixOfTail(q: seq<Point>)
    requires q != []
    ensures SuffixOf(q[1..], q)
  {
    assert q[|q| - |q[1..]|..] == q[1..];
  }

  /** One frame never shortens the sample lists and pops at most the queue's front. */
  lemma TickGrows(c: Config, s: Session, e: Events)
    ensures Grows(s, Tick(c, s, e))
  {
    var r := Tick(c, s, e);
    TickRefAppend(c, s, e);
    TickPupils(c, s, e);
    assert s.refList <= r.refList;
    assert s.pupilList <= r.pupilList;
    if !Processes(s, e) {
      assert r.sites == s.sites;
      SuffixOfRefl(s.sites);
    } else if Boosted(c, s, e) < Ceiling(c) {
      TickAdvance(c, s, e);
      SuffixOfRefl(s.sites);
    } else {
      TickAtCeiling(c, s, e);
      if s.sites == [] {
        SuffixOfRefl(s.sites);
      } else {
        SuffixOfTail(s.sites);
      }
    }
  }

  lemma ApplyGrows(c: Config, s: Session, i: Input)
    ensures Grows(s, Apply(c, s, i))
  {
    match i
    case KeyInput(k, a) =>
      KeyEventEffect(s, k, a);
      SuffixOfRefl(s.sites);
    case FrameInput(e) =>
      TickGrows(c, s, e);
  }

  /** Across any run the sample lists only grow and the site queue only shrinks. */
  lemma {:induction false} RunGrows(c: Config, s: Session, inputs: seq<Input>)
    ensures Grows(s, Run(c, s, inputs))
    decreases |inputs|
  {
    if inputs == [] {
      assert s.sites[|s.sites| - |s.sites|..] == s.sites;
    } else {
      var s' := Apply(c, s, inputs[0]);
      ApplyGrows(c, s, inputs[0]);
      RunGrows(c, s', inputs[1..]);
      GrowsTransitive(s, s', Run(c, s', inputs[1..]));
    }
  }

  /** Across any run the counter stays within `0 .. ceiling`. */
  lemma {:induction false} RunKeepsCounterInRange(c: Config, s: Session, inputs: seq<Input>)
    requires CounterInRange(c, s)
    ensures CounterInRange(c, Run(c, s, inputs))
    decreases |inputs|
  {
    if inputs != [] {
      if inputs[0].FrameInput? {
        TickKeepsCounterInRange(c, s, inputs[0].events);
      }
      RunKeepsCounterInRange(c, Apply(c, s, inputs[0]), inputs[1..]);
    }
  }

  /** Inputs none of which is a frame with a detected marker. */
  predicate NeverDetects(inputs: seq<Input>) {
    forall i :: 0 <= i < |inputs| ==> !(inputs[i].FrameInput? && Detects(inputs[i].events))
  }

  /** Once inside the sampling window, the session does not progress, and never times
      out, for as long as the marker stays undetected, whatever keys are pressed. */
  lemma {:induction false} RunStallsWhileUndetected(c: Config, s: Session, inputs: seq<Input>)
    requires OnPosition(c, s.screenMarkerState)
    requires NeverDetects(inputs)
    ensures Run(c, s, inputs).screenMarkerState == s.screenMarkerState
    decreases |inputs|
  {
    if inputs != [] {
      assert !(inputs[0].FrameInput? && Detects(inputs[0].events));
      if inputs[0].FrameInput? {
        TickStallInWindow(c, s, inputs[0].events);
      }
      assert NeverDetects(inputs[1..]) by {
        forall i | 0 <= i < |inputs[1..]|
          ensures !(inputs[1..][i].FrameInput? && Detects(inputs[1..][i].events))
        {
          assert inputs[1..][i] == inputs[i + 1];
        }
      }
      RunStallsWhileUndetected(c, Apply(c, s, inputs[0]), inputs[1..]);
    }
  }

  /** A frame on which the participant is ready and the marker is in view, with no fixation. */
  predicate SteadyFrame(e: Events) {
    Detects(e) && !e.hasFixations
  }

  /** With the gate open and the marker in view every frame, each of `n` frames below the
      ceiling raises the counter by exactly one and the active site does not change. */
  lemma {:induction false} DwellAdvances(c: Config, s: Session, e: Events, n: nat)
    requires s.active && s.clicksToClose > 0 && s.spaceKeyWasPressed && SteadyFrame(e)
    requires 0 <= s.screenMarkerState && s.screenMarkerState + n <= Ceiling(c)
    ensures var t := TickN(c, s, e, n);
      && t.screenMarkerState == s.screenMarkerState + n
      && t.active && t.spaceKeyWasPressed && t.clicksToClose == s.clicksToClose
      && t.activeSite == s.activeSite && t.sites == s.sites
    decreases n
  {
    if n > 0 {
      TickAdvance(c, s, e);
      DwellAdvances(c, Tick(c, s, e), e, n - 1);
    }
  }

  /** Starting from a freshly activated site with the gate open and the marker in view,
      the counter needs exactly `ceiling` frames to reach the ceiling, and the frame after
      those moves the marker to the next queued site and closes the gate. */
  lemma DwellCycle(c: Config, s: Session, e: Events)
    requires s.active && s.clicksToClose > 0 && s.spaceKeyWasPressed && SteadyFrame(e)
    requires s.screenMarkerState == 0 && s.sites != []
    ensures var t := TickN(c, s, e, Ceiling(c));
      && t.screenMarkerState == Ceiling(c) && t.activeSite == s.activeSite
      && var u := Tick(c, t, e);
      u.screenMarkerState == 0 && u.active && !u.spaceKeyWasPressed
      && u.activeSite == s.sites[0] && u.sites == s.sites[1..]
  {
    DwellAdvances(c, s, e, Ceiling(c));
    var t := TickN(c, s, e, Ceiling(c));
    TickAtCeiling(c, t, e);
  }

  /** With lead-in 25, sample duration 40 and lead-out 5, a site is shown for 70 advancing
      frames and the 71st frame activates the next site. */
  lemma SeventyFrameDwell(s: Session, e: Events)
    requires s.active && s.clicksToClose > 0 && s.spaceKeyWasPressed && SteadyFrame(e)
    requires s.screenMarkerState == 0 && s.sites != []
    ensures var c := Config(25, 40, 5, 20, 0.6);
      && TickN(c, s, e, 69).activeSite == s.activeSite
      && TickN(c, s, e, 70).screenMarkerState == 70
      && TickN(c, s, e, 70).activeSite == s.activeSite
      && Tick(c, TickN(c, s, e, 70), e).activeSite == s.sites[0]
  {
    var c := Config(25, 40, 5, 20, 0.6);
    DwellAdvances(c, s, e, 69);
    DwellCycle(c, s, e);
  }

  // ---------------------------------------------------------------------------
  // Restarting a stopped session

  /** The session after the `C` switch starts calibration again on the same plugin
      object (the `toggle` setter). The start routine belongs to the screen-marker base
      class; as far as this model needs it, it reactivates the session with a fresh
      site queue, a zero counter, a reset abort countdown and empty sample lists.
      Nothing in the base knows `space_key_was_pressed`, so the gate keeps whatever
      value the stopped session left in it. */
  function Restart(s: Session, firstSite: Point, queued: seq<Point>, clicksToClose: int): Session {
    s.(active := true, screenMarkerState := 0, clicksToClose := clicksToClose,
       sites := queued, activeSite := firstSite, refList := [], pupilList := [],
       displayPos := firstSite)
  }

  /** A restart that also closes the gate, as the constructor does. */
  function CorrectedRestart(s: Session, firstSite: Point, queued: seq<Point>, clicksToClose: int): Session {
    Restart(s, firstSite, queued, clicksToClose).(spaceKeyWasPressed := false)
  }

  /** The participant presses Space, then aborts with Escape, and the next frame stops the
      session with the gate still open. After a restart, `lead_in + 1` frames with the
      marker in view bring the counter into the sampling window, and the next frame
      appends a reference point although Space was never pressed in the new session. */
  lemma RestartKeepsGate(c: Config, s: Session, e: Events, firstSite: Point, queued: seq<Point>, clicks: int)
    requires s.active && s.clicksToClose > 0 && SteadyFrame(e)
    requires clicks > 0 && c.sampleDuration >= 2
    ensures var t := Run(c, s, [KeyInput(Space, Press), KeyInput(Escape, Press), FrameInput(e)]);
      var u := Restart(t, firstSite, queued, clicks);
      var w := TickN(c, u, e, c.leadIn + 1);
      && !t.active && t.spaceKeyWasPressed
      && u.active && u.spaceKeyWasPressed && u.refList == []
      && |Tick(c, w, e).refList| == |w.refList| + 1
  {
    var inputs := [KeyInput(Space, Press), KeyInput(Escape, Press), FrameInput(e)];
    var s1 := KeyEvent(s, Space, Press);
    var s2 := KeyEvent(s1, Escape, Press);
    var t := Tick(c, s2, e);
    assert Run(c, s, inputs) == Run(c, s1, inputs[1..]);
    assert inputs[1..][1..] == [FrameInput(e)];
    assert Run(c, s1, inputs[1..]) == Run(c, s2, [FrameInput(e)]);
    assert Run(c, s2, [FrameInput(e)]) == Run(c, t, []);
    TickAbort(c, s2, e);
    var u := Restart(t, firstSite, queued, clicks);
    DwellAdvances(c, u, e, c.leadIn + 1);
    var w := TickN(c, u, e, c.leadIn + 1);
    TickRefAppend(c, w, e);
  }

  /** No input of the sequence is a Space press. */
  predicate NoSpacePress(inputs: seq<Input>) {
    forall i :: 0 <= i < |inputs| ==> inputs[i] != KeyInput(Space, Press)
  }

  /** With the gate closed, a frame appends no reference point and leaves the gate closed. */
  lemma TickKeepsGateClosed(c: Config, s: Session, e: Events)
    requires !s.spaceKeyWasPressed
    ensures Tick(c, s, e).refList == s.refList && !Tick(c, s, e).spaceKeyWasPressed
  {
    TickRefAppend(c, s, e);
  }

  /** With the gate closed, no sequence of inputs without a Space press records a
      reference point, and the gate stays closed. */
  lemma {:induction false} RunWithoutSpaceSamplesNothing(c: Config, s: Session, inputs: seq<Input>)
    requires !s.spaceKeyWasPressed && NoSpacePress(inputs)
    ensures Run(c, s, inputs).refList == s.refList && !Run(c, s, inputs).spaceKeyWasPressed
    decreases |inputs|
  {
    if inputs != [] {
      var t := Apply(c, s, inputs[0]);
      match inputs[0] {
        case KeyInput(k, a) => KeyEventEffect(s, k, a);
        case FrameInput(e) => TickKeepsGateClosed(c, s, e);
      }
      assert NoSpacePress(inputs[1..]) by {
        forall i | 0 <= i < |inputs[1..]|
          ensures inputs[1..][i] != KeyInput(Space, Press)
        {
          assert inputs[1..][i] == inputs[i + 1];
        }
      }
      RunWithoutSpaceSamplesNothing(c, t, inputs[1..]);
    }
  }

  /** After the corrected restart, whatever the stopped session left behind, no reference
      point is recorded in the new session until Space is pressed. */
  lemma CorrectedRestartNeedsSpace(c: Config, s: Session, firstSite: Point, queued: seq<Point>,
                                   clicks: int, inputs: seq<Input>)
    requires NoSpacePress(inputs)
    ensures var u := CorrectedRestart(s, firstSite, queued, clicks);
      u.active && u.screenMarkerState == 0 && u.activeSite == firstSite && u.sites == queued
      && Run(c, u, inputs).refList == []
  {
    RunWithoutSpaceSamplesNothing(c, CorrectedRestart(s, firstSite, queued, clicks), inputs);
  }

  /** Number of counter values strictly inside the sampling window. */
  function WindowSize(c: Config): nat { if c.sampleDuration >= 1 then c.sampleDuration - 1 else 0 }

  /** Window values the counter has not yet passed: an upper bound on the reference
      points the active site can still contribute. */
  function WindowLeft(c: Config, state: int): nat {
    if state <= c.leadIn then WindowSize(c)
    else if state >= SampleEnd(c) then 0
    else SampleEnd(c) - state
  }

  /** Reference points collected so far plus those the session can still collect. */
  function RefBudget(c: Config, s: Session): nat {
    |s.refList| + (if s.active then WindowLeft(c, s.screenMarkerState) + |s.sites| * WindowSize(c) else 0)
  }

  lemma WindowLeftAntitone(c: Config, a: int, b: int)
    requires a <= b
    ensures WindowLeft(c, b) <= WindowLeft(c, a)
  {
  }

  /** A processed frame that stays below the ceiling does not raise the budget: an
      appended reference point is paid for by the counter leaving a window value behind. */
  lemma TickRefBudgetBelowCeiling(c: Config, s: Session, e: Events)
    requires Processes(s, e) && Boosted(c, s, e) < Ceiling(c)
    ensures RefBudget(c, Tick(c, s, e)) <= RefBudget(c, s)
  {
    var r := Tick(c, s, e);
    TickAdvance(c, s, e);
    BoostCap(c, s, e);
    TickRefAppend(c, s, e);
    WindowLeftAntitone(c, s.screenMarkerState, r.screenMarkerState);
    if SamplesRef(c, s, e) {
      WindowLeftAntitone(c, s.screenMarkerState + 1, r.screenMarkerState);
    }
  }

  /** A processed frame at the ceiling does not raise the budget: the popped site's
      window is the one the new active site now has. */
  lemma TickRefBudgetAtCeiling(c: Config, s: Session, e: Events)
    requires Processes(s, e) && Boosted(c, s, e) >= Ceiling(c)
    ensures RefBudget(c, Tick(c, s, e)) <= RefBudget(c, s)
  {
    var r := Tick(c, s, e);
    TickAtCeiling(c, s, e);
    TickRefAppend(c, s, e);
    assert SamplesRef(c, s, e) ==> WindowLeft(c, s.screenMarkerState) >= 1;
    if s.sites != [] {
      var n, w := |r.sites|, WindowSize(c);
      assert |s.sites| == n + 1;
      assert (n + 1) * w == n * w + w;
    }
  }

  /** No tick or key press raises the reference budget. */
  lemma ApplyRefBudget(c: Config, s: Session, i: Input)
    ensures RefBudget(c, Apply(c, s, i)) <= RefBudget(c, s)
  {
    if i.FrameInput? && Processes(s, i.events) {
      if Boosted(c, s, i.events) < Ceiling(c) {
        TickRefBudgetBelowCeiling(c, s, i.events);
      } else {
        TickRefBudgetAtCeiling(c, s, i.events);
      }
    }
  }

  /** No run raises the reference budget. */
  lemma {:induction false} RunRefBudget(c: Config, s: Session, inputs: seq<Input>)
    ensures RefBudget(c, Run(c, s, inputs)) <= RefBudget(c, s)
    decreases |inputs|
  {
    if inputs != [] {
      ApplyRefBudget(c, s, inputs[0]);
      RunRefBudget(c, Apply(c, s, inputs[0]), inputs[1..]);
    }
  }

  /** A session that starts with no reference points and N sites (the active one and
      N-1 queued) never collects more than N times the window size, hence never more
      than N times `sample_duration`, reference points. */
  lemma RefListBound(c: Config, s: Session, inputs: seq<Input>)
    requires s.refList == []
    ensures |Run(c, s, inputs).refList| <= (|s.sites| + 1) * WindowSize(c)
    ensures |Run(c, s, inputs).refList| <= (|s.sites| + 1) * c.sampleDuration
  {
    var r := Run(c, s, inputs);
    RunRefBudget(c, s, inputs);
    assert |r.refList| <= RefBudget(c, r);
    assert WindowLeft(c, s.screenMarkerState) <= WindowSize(c);
    BudgetArithmetic(|r.refList|, |s.sites|, WindowSize(c), c.sampleDuration);
  }

  /** The arithmetic step of the bound: `x <= n*w + w` and `w <= d` give `x <= (n+1)*w <= (n+1)*d`. */
  lemma BudgetArithmetic(x: nat, n: nat, w: nat, d: nat)
    requires x <= n * w + w && w <= d
    ensures x <= (n + 1) * w && x <= (n + 1) * d
  {
    assert (n + 1) * w == n * w + w;
    assert (n + 1) * w <= (n + 1) * d;
  }

  // ---------------------------------------------------------------------------
  // The plugin object

  class Calibration {
    const cfg: Config
    var active: bool
    var screenMarkerState: int
    var spaceKeyWasPressed: bool
    var clicksToClose: int
    var sites: seq<Point>
    var activeSite: Point
    var refList: seq<RefPoint>
    var pupilList: seq<PupilSample>
    var detected: bool
    var pos: Option<Point>
    var onPosition: bool
    var displayPos: Point

    /** The counter invariant of the session. */
    ghost predicate Valid()
      reads this
    {
      CounterInRange(cfg, Snapshot())
    }

    /** The object's state as a `Session` value. */
    function Snapshot(): Session
      reads this
    {
      Session(active, screenMarkerState, spaceKeyWasPressed, clicksToClose, sites, activeSite,
              refList, pupilList, detected, pos, onPosition, displayPos)
    }

    /** A started session: the first site is active, the rest are queued, the counter and
        the sample lists are empty and the gate is closed. */
    constructor Start(cfg: Config, firstSite: Point, queued: seq<Point>, clicksToClose: int)
      ensures Valid() && this.cfg == cfg
      ensures Snapshot() == Session(true, 0, false, clicksToClose, queued, firstSite, [], [],
                                    false, None, false, firstSite)
    {
      this.cfg := cfg;
      active := true;
      screenMarkerState := 0;
      spaceKeyWasPressed := false;
      this.clicksToClose := clicksToClose;
      sites := queued;
      activeSite := firstSite;
      refList := [];
      pupilList := [];
      detected := false;
      pos := None;
      onPosition := false;
      displayPos := firstSite;
    }

    /** `on_key`. */
    method OnKey(key: Key, action: KeyAction)
      requires Valid()
      modifies this
      ensures Valid()
      ensures Snapshot() == KeyEvent(old(Snapshot()), key, action)
    {
      if action == Press {
        if key == Escape {
          clicksToClose := 0;
        }
        if key == Space {
          spaceKeyWasPressed := true;
        }
      }
    }

    /** The pupil loop of `recent_events`: appends, in order, every sample whose
        confidence exceeds the threshold. */
    method AppendConfidentPupils(ps: seq<PupilSample>)
      modifies this`pupilList
      ensures pupilList == old(pupilList) + Confident(ps, cfg.pupilConfidenceThreshold)
    {
      for i := 0 to |ps|
        invariant pupilList == old(pupilList) + Confident(ps[..i], cfg.pupilConfidenceThreshold)
      {
        assert ps[..i + 1][..i] == ps[..i];
        if ps[i].confidence > cfg.pupilConfidenceThreshold {
          pupilList := pupilList + [ps[i]];
        }
      }
      assert ps[..|ps|] == ps;
    }

    /** The detection and sampling steps of a processed frame: record the detector's
        result, append the reference point when the counter is on position with a
        detection and the gate open, and collect the confident pupil samples. */
    method DetectAndSample(frame: Frame, e: Events)
      requires e.frame == Some(frame)
      modifies this
      ensures Snapshot() == Sampled(cfg, old(Snapshot()), e)
    {
      var markerPos := Origin;
      if frame.marker.Some? {
        detected := true;
        markerPos := frame.marker.value.screenPos;
        pos := Some(frame.marker.value.normPos);
      } else {
        detected := false;
        pos := None;
      }

      var onPos := cfg.leadIn < screenMarkerState < cfg.leadIn + cfg.sampleDuration;

      if onPos && detected && spaceKeyWasPressed {
        refList := refList + [RefPoint(pos.value, markerPos, frame.timestamp)];
      }

      AppendConfidentPupils(e.pupilPositions);
    }

    /** The animation steps of a processed frame: the fixation boost, then the advance-or-stall
        rule below the ceiling, or the reset and the site pop at the ceiling. `s` is the
        session at the start of the frame. */
    method Animate(e: Events, ghost s: Session, onPos: bool)
      requires onPos == OnPosition(cfg, s.screenMarkerState)
      requires screenMarkerState == s.screenMarkerState && spaceKeyWasPressed == s.spaceKeyWasPressed
      requires sites == s.sites && activeSite == s.activeSite && active
      requires detected == Detects(e)
      modifies this
      ensures Snapshot() == Settle(cfg, s, e, old(Snapshot()))
    {
      if onPos && detected && e.hasFixations && spaceKeyWasPressed {
        screenMarkerState := Min(cfg.sampleDuration + cfg.leadIn, screenMarkerState + cfg.fixationBoost);
      }
      assert screenMarkerState == Boosted(cfg, s, e);

      if screenMarkerState < cfg.leadIn + cfg.sampleDuration + cfg.leadOut {
        if (detected && spaceKeyWasPressed) || !onPos {
          screenMarkerState := screenMarkerState + 1;
        }
      } else {
        spaceKeyWasPressed := false;
        screenMarkerState := 0;
        if sites == [] {
          active := false;
          return;
        }
        activeSite := sites[0];
        sites := sites[1..];
      }

      displayPos := activeSite;
      onPosition := onPos;
    }

    /** `recent_events`: one frame of the state machine. */
    method RecentEvents(e: Events)
      requires Valid()
      modifies this
      ensures Valid()
      ensures Snapshot() == Tick(cfg, old(Snapshot()), e)
    {
      ghost var s := Snapshot();
      TickKeepsCounterInRange(cfg, s, e);
      if !active || e.frame.None? {
        return;
      }
      var frame := e.frame.value;
      if clicksToClose <= 0 {
        active := false;
        return;
      }

      var onPos := cfg.leadIn < screenMarkerState < cfg.leadIn + cfg.sampleDuration;
      DetectAndSample(frame, e);

      Animate(e, s, onPos);
    }
  }
}
