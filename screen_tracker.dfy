/**
  The screen tracker's corner detector: of the contours found in a grayscale frame
  it keeps those with both a parent and a child in the contour hierarchy and a
  large enough area, looks at the first one only, and, when its polygon
  approximation is a quadrilateral, orders the four corners canonically
  (top-left, top-right, bottom-right, bottom-left) and emits them as one
  synthetic marker. Also the guard on a surface's gaze-history length.

  Image processing (thresholding, contour extraction, area, polygon
  approximation, sub-pixel refinement) is foreign: its results arrive as
  `Contour` records.
*/
module ScreenTrackerOnline {
  import opened Geometry

  /** `sortCorners` assigns its first slot from `tl` without having bound it. */
  datatype CornerError = UnboundCorners

  datatype Result<T> = Success(value: T) | Failure(error: CornerError)

  // ---------------------------------------------------------------------------
  // sortCorners

  /** The corners strictly above the centre (smaller image y), in input order. */
  function Top(corners: seq<Point>, center: Point): (top: seq<Point>)
    ensures forall i :: 0 <= i < |top| ==> top[i].y < center.y
  {
    if corners == [] then []
    else (if corners[0].y < center.y then [corners[0]] else []) + Top(corners[1..], center)
  }

  /** The corners at or below the centre, in input order. */
  function Bottom(corners: seq<Point>, center: Point): (bot: seq<Point>)
    ensures forall i :: 0 <= i < |bot| ==> bot[i].y >= center.y
  {
    if corners == [] then []
    else (if corners[0].y >= center.y then [corners[0]] else []) + Bottom(corners[1..], center)
  }

  /** Every corner lands in exactly one of the two halves: together they are the input. */
  lemma {:induction false} Partition(corners: seq<Point>, center: Point)
    ensures multiset(Top(corners, center)) + multiset(Bottom(corners, center)) == multiset(corners)
    ensures |Top(corners, center)| + |Bottom(corners, center)| == |corners|
  {
    if corners != [] {
      Partition(corners[1..], center);
      assert corners == [corners[0]] + corners[1..];
    }
  }

  /** The stable sort of a pair of points by horizontal coordinate. */
  function SortByX(pair: seq<Point>): seq<Point>
    requires |pair| == 2
  {
    if pair[1].x < pair[0].x then [pair[1], pair[0]] else pair
  }

  /** The sorted pair is ordered by x, holds the same two points, and keeps a tie in
      input order. */
  lemma SortByXSpec(pair: seq<Point>)
    requires |pair| == 2
    ensures var r := SortByX(pair);
      && |r| == 2 && r[0].x <= r[1].x
      && multiset(r) == multiset(pair)
      && (pair[0].x == pair[1].x ==> r == pair)
  {
    assert pair == [pair[0], pair[1]];
  }

  /** A quadrilateral in the order `[tl, tr, br, bl]` around `center`. */
  predicate Canonical(q: seq<Point>, center: Point) {
    && |q| == 4
    && q[0].y < center.y && q[1].y < center.y
    && q[2].y >= center.y && q[3].y >= center.y
    && q[0].x <= q[1].x && q[3].x <= q[2].x
  }

  /** Emitting `[tl, tr, br, bl]` from the sorted halves loses and adds no point. */
  lemma Arrange(t: seq<Point>, b: seq<Point>)
    requires |t| == 2 && |b| == 2
    ensures multiset([t[0], t[1], b[1], b[0]]) == multiset(t) + multiset(b)
  {
    calc {
      multiset([t[0], t[1], b[1], b[0]]);
      { assert [t[0], t[1], b[1], b[0]] == t + [b[1]] + [b[0]]; }
      multiset(t) + multiset([b[1]]) + multiset([b[0]]);
      { assert b == [b[0]] + [b[1]]; }
      multiset(t) + multiset(b);
    }
  }

  /** `sortCorners`: the two halves around the centre, each sorted by x, emitted as
      `[tl, tr, br, bl]`; any split other than two and two fails. */
  function SortCorners(corners: seq<Point>, center: Point): Result<seq<Point>> {
    var top := Top(corners, center);
    var bot := Bottom(corners, center);
    if |top| == 2 && |bot| == 2 then
      var t := SortByX(top);
      var b := SortByX(bot);
      Success([t[0], t[1], b[1], b[0]])
    else
      Failure(UnboundCorners)
  }

  /** `sortCorners` succeeds exactly on a two-and-two split, and then returns its four
      input points rearranged into canonical order. */
  lemma SortCornersSpec(corners: seq<Point>, center: Point)
    ensures var r := SortCorners(corners, center);
      && (r.Success? <==> |Top(corners, center)| == 2 && |Bottom(corners, center)| == 2)
      && (r.Success? ==> |corners| == 4)
      && (r.Success? ==> Canonical(r.value, center) && multiset(r.value) == multiset(corners))
  {
    var top := Top(corners, center);
    var bot := Bottom(corners, center);
    Partition(corners, center);
    if |top| == 2 && |bot| == 2 {
      SortByXSpec(top);
      SortByXSpec(bot);
      Arrange(SortByX(top), SortByX(bot));
    }
  }

  /** A split other than two above and two below the centre makes `sortCorners` fail. */
  lemma BadSplitFails(corners: seq<Point>, center: Point)
    requires |Top(corners, center)| != 2 || |Bottom(corners, center)| != 2
    ensures SortCorners(corners, center) == Failure(UnboundCorners)
  {
  }

  /** `sortCorners` as the code runs it: the halves are computed, a fresh zeroed
      four-slot array is allocated, and on a two-and-two split its slots are written
      with `tl, tr, br, bl`; on any other split the first write reads the unbound
      `tl` and the call fails before any slot is written. */
  method SortCornersInto(corners: seq<Point>, center: Point) returns (r: Result<array<Point>>)
    ensures r.Success? <==> SortCorners(corners, center).Success?
    ensures r.Success? ==> fresh(r.value) && r.value[..] == SortCorners(corners, center).value
  {
    var top := Top(corners, center);
    var bot := Bottom(corners, center);
    var out := new Point[4](_ => Origin);
    if |top| != 2 || |bot| != 2 {
      return Failure(UnboundCorners);
    }
    var t := SortByX(top);
    var b := SortByX(bot);
    out[0] := t[0];
    out[1] := t[1];
    out[2] := b[1];
    out[3] := b[0];
    assert out[..] == [t[0], t[1], b[1], b[0]];
    return Success(out);
  }

  /** The mean of the four corners, in exact arithmetic. */
  function Centroid(q: seq<Point>): Point
    requires |q| == 4
  {
    Point((q[0].x + q[1].x + q[2].x + q[3].x) * 0.25, (q[0].y + q[1].y + q[2].y + q[3].y) * 0.25)
  }

  // ---------------------------------------------------------------------------
  // detect_screen_corners

  /** What the foreign contour stage yields per contour: its hierarchy links, its
      area, and the vertices of its polygon approximation after sub-pixel refinement. */
  datatype Contour = Contour(parent: int, firstChild: int, area: real, polygon: seq<Point>)

  /** The corner record the detector emits (the perimeter, a foreign length, is not modelled). */
  datatype ScreenMarker = ScreenMarker(
    id: int, verts: seq<Point>, centroid: Point,
    framesSinceTrueDetection: int, idConfidence: real)

  /** The keep condition of the contour filter: a parent, a child and an area above 20 * 2500. */
  predicate IsScreenFrame(c: Contour) {
    c.parent >= 0 && c.firstChild >= 0 && c.area > (20 * 2500) as real
  }

  /** The contours that pass the keep condition, in input order. */
  function Kept(cs: seq<Contour>): (r: seq<Contour>)
    ensures |r| <= |cs|
    ensures forall i :: 0 <= i < |r| ==> IsScreenFrame(r[i])
  {
    if cs == [] then []
    else (if IsScreenFrame(cs[0]) then [cs[0]] else []) + Kept(cs[1..])
  }

  /** A contour is kept exactly when it passes the keep condition. */
  lemma {:induction false} KeptExactly(cs: seq<Contour>, c: Contour)
    ensures c in Kept(cs) <==> c in cs && IsScreenFrame(c)
  {
    if cs != [] {
      KeptExactly(cs[1..], c);
      assert cs == [cs[0]] + cs[1..];
    }
  }

  /** Nothing is kept exactly when no input contour passes the keep condition. */
  lemma {:induction false} KeptNone(cs: seq<Contour>)
    ensures Kept(cs) == [] <==> forall i :: 0 <= i < |cs| ==> !IsScreenFrame(cs[i])
  {
    if cs != [] {
      KeptNone(cs[1..]);
      if !IsScreenFrame(cs[0]) {
        assert forall i :: 0 < i < |cs| ==> cs[i] == cs[1..][i - 1];
      }
    }
  }

  /** The head of `Kept` is the first input contour that passes the keep condition. */
  lemma {:induction false} KeptFirst(cs: seq<Contour>, i: nat)
    requires i < |cs| && IsScreenFrame(cs[i])
    requires forall j :: 0 <= j < i ==> !IsScreenFrame(cs[j])
    ensures Kept(cs) != [] && Kept(cs)[0] == cs[i]
  {
    if i > 0 {
      assert !IsScreenFrame(cs[0]);
      assert forall j :: 0 <= j < i - 1 ==> cs[1..][j] == cs[j + 1];
      KeptFirst(cs[1..], i - 1);
    }
  }

  /** The approximations with exactly four vertices, in input order. */
  function Quads(polys: seq<seq<Point>>): (r: seq<seq<Point>>)
    ensures AllQuads(r)
    ensures |r| <= |polys|
  {
    if polys == [] then []
    else (if |polys[0]| == 4 then [polys[0]] else []) + Quads(polys[1..])
  }

  /** A polygon is a candidate exactly when it is one of the approximations and has
      four vertices. */
  lemma {:induction false} QuadsExactly(polys: seq<seq<Point>>, p: seq<Point>)
    ensures p in Quads(polys) <==> p in polys && |p| == 4
  {
    if polys != [] {
      QuadsExactly(polys[1..], p);
      assert polys == [polys[0]] + polys[1..];
    }
  }

  /** The candidate to examine: the polygon of the first kept contour, if any. */
  function Candidates(cs: seq<Contour>): (r: seq<seq<Point>>)
    ensures |r| <= 1
    ensures r != [] ==> Kept(cs) != [] && r == [Kept(cs)[0].polygon] && |r[0]| == 4
    ensures Kept(cs) != [] && |Kept(cs)[0].polygon| == 4 ==> r == [Kept(cs)[0].polygon]
  {
    var kept := Kept(cs);
    if kept == [] then [] else Quads([kept[0].polygon])
  }

  /** The marker for candidate number `count`, or the error `sortCorners` raises. */
  function MarkerFor(count: nat, quad: seq<Point>): Result<ScreenMarker>
    requires |quad| == 4
  {
    var centroid := Centroid(quad);
    match SortCorners(quad, centroid)
    case Failure(e) => Failure(e)
    case Success(sorted) => Success(ScreenMarker(32 + count, sorted, centroid, 0, 1.0))
  }

  /** The corner record: `id = 32 + count`, confidence 1, no frames since detection,
      the candidate's centroid, and its vertices in canonical order. */
  lemma MarkerForSpec(count: nat, quad: seq<Point>)
    requires |quad| == 4
    ensures var r := MarkerFor(count, quad);
      && (r.Success? <==> SortCorners(quad, Centroid(quad)).Success?)
      && (r.Success? ==>
            && r.value.id == 32 + count && r.value.idConfidence == 1.0
            && r.value.framesSinceTrueDetection == 0 && r.value.centroid == Centroid(quad)
            && Canonical(r.value.verts, r.value.centroid) && multiset(r.value.verts) == multiset(quad))
  {
    SortCornersSpec(quad, Centroid(quad));
  }

  predicate AllQuads(cands: seq<seq<Point>>) {
    forall i :: 0 <= i < |cands| ==> |cands[i]| == 4
  }

  /** What the candidate loop of `detect_screen_corners` produces: one marker per
      candidate, numbered from 0, or the first candidate's error. */
  function Emit(cands: seq<seq<Point>>): Result<seq<ScreenMarker>>
    requires AllQuads(cands)
    decreases |cands|
  {
    if cands == [] then Success([])
    else
      var n := |cands| - 1;
      match Emit(cands[..n])
      case Failure(e) => Failure(e)
      case Success(ms) =>
        match MarkerFor(n, cands[n])
        case Failure(e) => Failure(e)
        case Success(m) => Success(ms + [m])
  }

  /** The loop succeeds exactly when every candidate sorts, and then marker `k` is the
      one built from candidate `k`. */
  lemma {:induction false} EmitSpec(cands: seq<seq<Point>>)
    requires AllQuads(cands)
    ensures Emit(cands).Success? ==>
      (|Emit(cands).value| == |cands| &&
       forall k :: 0 <= k < |cands| ==> MarkerFor(k, cands[k]) == Success(Emit(cands).value[k]))
    ensures Emit(cands).Failure? <==> exists k :: 0 <= k < |cands| && MarkerFor(k, cands[k]).Failure?
    decreases |cands|
  {
    if cands != [] {
      var n := |cands| - 1;
      var init := cands[..n];
      assert forall k :: 0 <= k < n ==> init[k] == cands[k];
      EmitSpec(init);
    }
  }

  /** `detect_screen_corners` on the given contours. */
  function ScreenCorners(cs: seq<Contour>): Result<seq<ScreenMarker>> {
    Emit(Candidates(cs))
  }

  /** At most one marker is produced, none without a surviving quadrilateral; a marker
      comes from the first survivor's polygon, rearranged into canonical order, with
      `id = 32`, confidence 1 and no frames since detection. The detector fails
      exactly when that polygon's split around its centroid is degenerate. */
  lemma ScreenCornersShape(cs: seq<Contour>)
    ensures var r := ScreenCorners(cs);
      && (Kept(cs) == [] ==> r == Success([]))
      && (Kept(cs) != [] && |Kept(cs)[0].polygon| != 4 ==> r == Success([]))
      && (r.Success? ==> |r.value| <= 1)
      && (r.Success? && Kept(cs) != [] && |Kept(cs)[0].polygon| == 4 ==> |r.value| == 1)
      && (r.Failure? <==>
            Kept(cs) != [] && |Kept(cs)[0].polygon| == 4 &&
            SortCorners(Kept(cs)[0].polygon, Centroid(Kept(cs)[0].polygon)).Failure?)
      && (r.Success? && r.value != [] ==>
            var m, quad := r.value[0], Kept(cs)[0].polygon;
            && |quad| == 4 && m == MarkerFor(0, quad).value
            && m.id == 32 && m.idConfidence == 1.0 && m.framesSinceTrueDetection == 0
            && Canonical(m.verts, m.centroid) && multiset(m.verts) == multiset(quad))
  {
    var cands := Candidates(cs);
    EmitSpec(cands);
    if Kept(cs) != [] && |Kept(cs)[0].polygon| == 4 {
      assert cands == [Kept(cs)[0].polygon];
      MarkerForSpec(0, cands[0]);
    } else {
      assert cands == [];
    }
  }

  /** The body of the candidate loop for candidate number `count`: its vertices
      are copied into a four-slot buffer, the centroid is taken, the slots are
      overwritten with the sorted corners and the corner record is built; a
      degenerate split fails. */
  method BuildMarker(count: nat, quad: seq<Point>) returns (r: Result<ScreenMarker>)
    requires |quad| == 4
    ensures r == MarkerFor(count, quad)
  {
    var buf := new Point[4];
    buf[0], buf[1], buf[2], buf[3] := quad[0], quad[1], quad[2], quad[3];
    var corners := buf[..];
    assert corners == quad;
    var centroid := Centroid(corners);
    var sorted := SortCornersInto(corners, centroid);
    if sorted.Failure? {
      return Failure(sorted.error);
    }
    var slots := sorted.value;
    ghost var canonical := slots[..];
    buf[0], buf[1], buf[2], buf[3] := slots[0], slots[1], slots[2], slots[3];
    assert buf[..] == canonical;
    return Success(ScreenMarker(32 + count, buf[..], centroid, 0, 1.0));
  }

  /** `detect_screen_corners`: the keep-filter, the first survivor's polygon, and the
      loop over its quadrilateral candidates, appending one marker per candidate or
      failing on the first degenerate one. */
  method DetectScreenCorners(contours: seq<Contour>) returns (r: Result<seq<ScreenMarker>>)
    ensures r == ScreenCorners(contours)
  {
    var kept := Kept(contours);
    var rectCand: seq<seq<Point>> := [];
    if |kept| > 0 {
      rectCand := Quads([kept[0].polygon]);
    }
    assert rectCand == Candidates(contours);
    var screenCorners: seq<ScreenMarker> := [];
    for count := 0 to |rectCand|
      invariant Emit(rectCand[..count]) == Success(screenCorners)
    {
      var marker := BuildMarker(count, rectCand[count]);
      assert rectCand[..count + 1][..count] == rectCand[..count];
      if marker.Failure? {
        return Failure(marker.error);
      }
      screenCorners := screenCorners + [marker.value];
    }
    assert rectCand[..|rectCand|] == rectCand;
    return Success(screenCorners);
  }

  // ---------------------------------------------------------------------------
  // Degenerate splits: what the code does, and what it evidently means to do

  /** A square of 400 pixels' diagonal standing on a corner: one vertex above the
      centroid, three at or below it. */
  const Diamond: seq<Point> :=
    [Point(300.0, 100.0), Point(500.0, 300.0), Point(300.0, 500.0), Point(100.0, 300.0)]

  /** The frame contour around the diamond: it has a parent and a child, and its area
      (half the product of the diagonals, 80000) passes the keep condition. */
  const DiamondFrame: Contour := Contour(0, 1, 80000.0, Diamond)

  /** As written, a frame contour whose quadrilateral is the diamond makes the
      detector fail (the unbound `tl`) instead of reporting no screen. */
  lemma DiamondRaises()
    ensures Centroid(Diamond) == Point(300.0, 300.0)
    ensures |Top(Diamond, Centroid(Diamond))| == 1
    ensures ScreenCorners([DiamondFrame]).Failure?
  {
    var cs := [DiamondFrame];
    assert Kept(cs) == cs;
    var c := Centroid(Diamond);
    assert Top(Diamond, c) == [Diamond[0]];
    ScreenCornersShape(cs);
  }

  /** The loop with a degenerate candidate skipped instead of raising; each candidate
      keeps its enumeration number. */
  function EmitRejecting(cands: seq<seq<Point>>): seq<ScreenMarker>
    requires AllQuads(cands)
    decreases |cands|
  {
    if cands == [] then []
    else
      var n := |cands| - 1;
      var ms := EmitRejecting(cands[..n]);
      match MarkerFor(n, cands[n])
      case Failure(_) => ms
      case Success(m) => ms + [m]
  }

  /** A well-formed corner record for one of the candidates: it is the record built from
      the candidate it is numbered after, so its confidence is 1, it has no frames since
      detection, its centroid is that candidate's, and its vertices are the candidate's
      in canonical order around that centroid. */
  predicate RecordOf(m: ScreenMarker, cands: seq<seq<Point>>) {
    && 32 <= m.id < 32 + |cands| && |cands[m.id - 32]| == 4
    && MarkerFor(m.id - 32, cands[m.id - 32]) == Success(m)
    && m.idConfidence == 1.0 && m.framesSinceTrueDetection == 0
    && m.centroid == Centroid(cands[m.id - 32])
    && Canonical(m.verts, m.centroid) && multiset(m.verts) == multiset(cands[m.id - 32])
  }

  lemma RecordOfPrefix(m: ScreenMarker, cands: seq<seq<Point>>, n: nat)
    requires n <= |cands| && RecordOf(m, cands[..n])
    ensures RecordOf(m, cands)
  {
    assert cands[..n][m.id - 32] == cands[m.id - 32];
  }

  /** The record built from the last candidate is a well-formed record of the list. */
  lemma RecordOfLast(cands: seq<seq<Point>>)
    requires AllQuads(cands) && cands != []
    requires MarkerFor(|cands| - 1, cands[|cands| - 1]).Success?
    ensures RecordOf(MarkerFor(|cands| - 1, cands[|cands| - 1]).value, cands)
  {
    var n := |cands| - 1;
    var q := cands[n];
    MarkerForSpec(n, q);
    var m := MarkerFor(n, q).value;
    assert m.id - 32 == n;
  }

  /** The corrected loop emits well-formed records only, at most one per candidate. */
  lemma {:induction false} EmitRejectingSound(cands: seq<seq<Point>>)
    requires AllQuads(cands)
    ensures |EmitRejecting(cands)| <= |cands|
    ensures forall j :: 0 <= j < |EmitRejecting(cands)| ==> RecordOf(EmitRejecting(cands)[j], cands)
    decreases |cands|
  {
    if cands != [] {
      var n := |cands| - 1;
      var init := cands[..n];
      EmitRejectingSound(init);
      var ms := EmitRejecting(init);
      var r := EmitRejecting(cands);
      if MarkerFor(n, cands[n]).Success? {
        RecordOfLast(cands);
        assert r == ms + [MarkerFor(n, cands[n]).value];
      } else {
        assert r == ms;
      }
      forall j | 0 <= j < |r| ensures RecordOf(r[j], cands) {
        if j < |ms| {
          assert r[j] == ms[j];
          RecordOfPrefix(ms[j], cands, n);
        }
      }
    }
  }

  /** The corrected loop drops no candidate that sorts: its record is emitted. */
  lemma {:induction false} EmitRejectingComplete(cands: seq<seq<Point>>, k: nat)
    requires AllQuads(cands) && k < |cands| && MarkerFor(k, cands[k]).Success?
    ensures MarkerFor(k, cands[k]).value in EmitRejecting(cands)
    decreases |cands|
  {
    var n := |cands| - 1;
    var init := cands[..n];
    if k < n {
      assert init[k] == cands[k];
      EmitRejectingComplete(init, k);
    }
  }

  /** Whenever the code's loop does not raise, the corrected loop emits the same records. */
  lemma {:induction false} EmitRejectingAgrees(cands: seq<seq<Point>>)
    requires AllQuads(cands)
    ensures Emit(cands).Success? ==> EmitRejecting(cands) == Emit(cands).value
    decreases |cands|
  {
    if cands != [] {
      EmitRejectingAgrees(cands[..|cands| - 1]);
    }
  }

  /** The detector with degenerate candidates rejected: it never fails and emits at most
      one record. A record is the one built from the first survivor's quadrilateral: id 32,
      confidence 1, that quadrilateral's centroid, and its vertices in canonical order.
      Where the code raises, it emits nothing; where the code does not raise, it emits
      what the code emits. */
  function ScreenCornersRejecting(cs: seq<Contour>): (r: seq<ScreenMarker>)
    ensures |r| <= 1
    ensures r != [] ==>
      (&& Kept(cs) != [] && |Kept(cs)[0].polygon| == 4
       && MarkerFor(0, Kept(cs)[0].polygon) == Success(r[0])
       && r[0].id == 32 && r[0].idConfidence == 1.0
       && r[0].centroid == Centroid(Kept(cs)[0].polygon)
       && Canonical(r[0].verts, r[0].centroid)
       && multiset(r[0].verts) == multiset(Kept(cs)[0].polygon))
    ensures ScreenCorners(cs).Failure? ==> r == []
    ensures ScreenCorners(cs).Success? ==> r == ScreenCorners(cs).value
  {
    var cands := Candidates(cs);
    EmitRejectingSound(cands);
    EmitRejectingAgrees(cands);
    ScreenCornersShape(cs);
    assert cands != [] ==> cands[..0] == [];
    EmitRejecting(cands)
  }

  /** On the diamond the corrected detector reports no screen. */
  lemma DiamondRejected()
    ensures ScreenCornersRejecting([DiamondFrame]) == []
  {
    DiamondRaises();
  }

  // ---------------------------------------------------------------------------
  // set_gaze_hist_len

  class Surface {
    var gazeHistoryLength: real

    constructor (gazeHistoryLength: real)
      ensures this.gazeHistoryLength == gazeHistoryLength
    {
      this.gazeHistoryLength := gazeHistoryLength;
    }
  }

  /** The gaze-history-length setter: a non-positive length is refused (with a warning,
      reported here as `accepted == false`) and leaves the surface as it was. */
  method SetGazeHistLen(surface: Surface, val: real) returns (accepted: bool)
    modifies surface
    ensures accepted <==> val > 0.0
    ensures surface.gazeHistoryLength == if accepted then val else old(surface.gazeHistoryLength)
  {
    if val <= 0.0 {
      return false;
    }
    surface.gazeHistoryLength := val;
    return true;
  }
}
