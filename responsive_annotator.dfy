/**
 * The Annotator of the bundled dist/image-annotator-lib.js. The canvas
 * takes the container's width and a scale factor maps between image pixels
 * (where points live) and canvas pixels (where clicks and drawing happen).
 */
module ResponsiveAnnotator {

  import opened Optional
  import opened PointStore
  import Helpers

  // ---------------------------------------------------------------------
  // Scale and coordinate mapping
  // ---------------------------------------------------------------------

  /** The canvas layout resizeCanvas computes. */
  datatype Layout = Layout(scaleFactor: real, width: nat, height: nat)

  /** resizeCanvas's arithmetic: the scale factor is the container width
      over the image's native width, the canvas takes the container width,
      and its height is the native height scaled alike and truncated to a
      whole pixel, as every canvas dimension is. */
  function ComputeLayout(containerWidth: nat, imageWidth: nat, imageHeight: nat): (l: Layout)
    requires imageWidth > 0
    ensures l.width == containerWidth
    ensures l.scaleFactor >= 0.0
    ensures l.scaleFactor * imageWidth as real == containerWidth as real
    ensures l.height as real <= imageHeight as real * l.scaleFactor < l.height as real + 1.0
  {
    var s := containerWidth as real / imageWidth as real;
    assert s >= 0.0;
    var scaled := imageHeight as real * s;
    assert scaled >= 0.0;
    var h := scaled.Floor;
    assert h as real <= scaled < h as real + 1.0;
    Layout(s, containerWidth, h)
  }

  /** The click handlers' mapping from a canvas offset to image space. */
  function ToImage(d: real, scaleFactor: real): (v: real)
    requires scaleFactor != 0.0
    ensures ToDevice(v, scaleFactor) == d
  {
    d / scaleFactor
  }

  /** drawPoint's mapping from image space to canvas pixels. */
  function ToDevice(v: real, scaleFactor: real): (d: real)
    ensures scaleFactor != 0.0 ==> d / scaleFactor == v
  {
    v * scaleFactor
  }

  /** The click handlers' hit radius, in image pixels. */
  function ClickRadius(scaleFactor: real): (r: real)
    requires scaleFactor > 0.0
    ensures r > 0.0 && ToDevice(r, scaleFactor) == BaseRadius
  {
    BaseRadius / scaleFactor
  }

  /** A point moved to where drawPoint puts its centre on the canvas. */
  function OnCanvas(p: Point, scaleFactor: real): Point
  {
    Point(p.id, ToDevice(p.x, scaleFactor), ToDevice(p.y, scaleFactor), p.data)
  }

  /** Every point moved to its canvas centre, in sequence order. */
  function CanvasPositions(ps: seq<Point>, scaleFactor: real): (qs: seq<Point>)
    ensures |qs| == |ps|
    ensures forall i :: 0 <= i < |ps| ==> qs[i] == OnCanvas(ps[i], scaleFactor)
  {
    seq(|ps|, i requires 0 <= i < |ps| => OnCanvas(ps[i], scaleFactor))
  }

  /** Multiplying both sides by a positive factor keeps a comparison. */
  lemma ScaleComparison(u: real, v: real, t: real)
    requires t > 0.0
    ensures u <= v <==> u * t <= v * t
  {
    if u <= v {
      assert (v - u) * t >= 0.0;
    } else {
      assert (u - v) * t > 0.0;
    }
  }

  /** Testing the image-space click against the radius 10 / scale is testing
      the canvas offset against the marker's canvas centre with radius 10. */
  lemma ScaledWithin(p: Point, c: Helpers.CanvasPoint, scaleFactor: real)
    requires scaleFactor > 0.0
    ensures Within(p, ToImage(c.x, scaleFactor), ToImage(c.y, scaleFactor), ClickRadius(scaleFactor))
        <==> Within(OnCanvas(p, scaleFactor), c.x, c.y, BaseRadius)
  {
    var s := scaleFactor;
    var a, b := ToImage(c.x, s) - p.x, ToImage(c.y, s) - p.y;
    var da, db := c.x - ToDevice(p.x, s), c.y - ToDevice(p.y, s);
    var r := ClickRadius(s);
    assert da == a * s && db == b * s;
    var q, rr, t := a * a + b * b, r * r, s * s;
    assert da * da + db * db == q * t;
    assert BaseRadius * BaseRadius == rr * t;
    ScaleComparison(q, rr, t);
    assert Within(p, ToImage(c.x, s), ToImage(c.y, s), r) <==> q <= rr;
    assert Within(OnCanvas(p, s), c.x, c.y, BaseRadius) <==> q * t <= rr * t;
  }

  /** The click handlers' hit test. The source takes the canvas offset to
      image space and tests it against the radius 10 / scale; that is the
      first point whose canvas centre lies within 10 canvas pixels of the
      offset, whatever radius its marker is drawn with. */
  function ClickHit(ps: seq<Point>, c: Helpers.CanvasPoint, scaleFactor: real): (h: Option<nat>)
    requires scaleFactor > 0.0
    ensures h == FirstHit(CanvasPositions(ps, scaleFactor), c.x, c.y, BaseRadius)
  {
    var x, y, r := ToImage(c.x, scaleFactor), ToImage(c.y, scaleFactor), ClickRadius(scaleFactor);
    var qs := CanvasPositions(ps, scaleFactor);
    assert forall i :: 0 <= i < |ps| ==> (Within(ps[i], x, y, r) <==> Within(qs[i], c.x, c.y, BaseRadius)) by {
      forall i | 0 <= i < |ps|
        ensures Within(ps[i], x, y, r) <==> Within(qs[i], c.x, c.y, BaseRadius)
      {
        ScaledWithin(ps[i], c, scaleFactor);
      }
    }
    FirstHitSameHits(ps, qs, x, y, r, c.x, c.y, BaseRadius);
    FirstHit(ps, x, y, r)
  }

  /** drawPoint: the point at its scaled position, radius and font scaled
      alike, blue when it is the selected point. The click mapping takes the
      marker's centre back to the point. */
  function DrawPoint(p: Point, selected: Option<int>, scaleFactor: real): (m: Marker)
    ensures m.caption == p.id && m.fill == Fill(p, selected)
    ensures m.cx == ToDevice(p.x, scaleFactor) && m.cy == ToDevice(p.y, scaleFactor)
    ensures m.radius == ToDevice(BaseRadius, scaleFactor) && m.fontSize == ToDevice(BaseFontSize, scaleFactor)
    ensures scaleFactor != 0.0 ==> ToImage(m.cx, scaleFactor) == p.x && ToImage(m.cy, scaleFactor) == p.y
  {
    Marker(p.id, ToDevice(p.x, scaleFactor), ToDevice(p.y, scaleFactor),
           BaseRadius * scaleFactor, Fill(p, selected), BaseFontSize * scaleFactor)
  }

  /** The markers a redraw paints over the scaled image, in sequence order. */
  function Render(ps: seq<Point>, selected: Option<int>, scaleFactor: real): (ms: seq<Marker>)
    ensures |ms| == |ps|
    ensures forall i :: 0 <= i < |ps| ==> ms[i] == DrawPoint(ps[i], selected, scaleFactor)
  {
    seq(|ps|, i requires 0 <= i < |ps| => DrawPoint(ps[i], selected, scaleFactor))
  }

  // ---------------------------------------------------------------------
  // Properties of the mapping
  // ---------------------------------------------------------------------

  /** A point added by a click at canvas offset c is drawn right under the
      pointer, whatever the scale. */
  lemma AddedPointDrawnUnderPointer(ps: seq<Point>, selected: Option<int>, c: Helpers.CanvasPoint, scaleFactor: real)
    requires scaleFactor > 0.0
    ensures var added := Point(NextId(ps), ToImage(c.x, scaleFactor), ToImage(c.y, scaleFactor), "");
            var ms := Render(ps + [added], selected, scaleFactor);
            ms[|ps|].cx == c.x && ms[|ps|].cy == c.y
  {
  }

  /** Clicking the centre of any drawn marker hits a point, the first hit
      being that marker's point or one before it. */
  lemma ClickOnMarkerHits(ps: seq<Point>, i: nat, selected: Option<int>, scaleFactor: real)
    requires scaleFactor > 0.0 && i < |ps|
    ensures var m := Render(ps, selected, scaleFactor)[i];
            var hit := ClickHit(ps, Helpers.CanvasPoint(m.cx, m.cy), scaleFactor);
            hit.Some? && hit.value <= i
  {
    var m := Render(ps, selected, scaleFactor)[i];
    var c := Helpers.CanvasPoint(m.cx, m.cy);
    assert ToImage(c.x, scaleFactor) == ps[i].x && ToImage(c.y, scaleFactor) == ps[i].y;
    assert Within(ps[i], ps[i].x, ps[i].y, ClickRadius(scaleFactor));
  }

  /** At scale 1 the hover test and the click test agree. */
  lemma HoverAgreesWithClickAtUnitScale(ps: seq<Point>, c: Helpers.CanvasPoint)
    ensures HoverHit(ps, c.x, c.y) == ClickHit(ps, c, 1.0).Some?
  {
    assert ToImage(c.x, 1.0) == c.x && ToImage(c.y, 1.0) == c.y && ClickRadius(1.0) == BaseRadius;
  }

  /** At scale 2 they do not: the hover test compares the canvas offset with
      image-space positions, so the pointer over a marker drawn at (40, 0)
      clicks its point but does not hover it. */
  lemma HoverDisagreesWithClickWhenScaled()
    ensures var ps := [Point(1, 20.0, 0.0, "")];
            var c := Helpers.CanvasPoint(40.0, 0.0);
            && Render(ps, None, 2.0)[0].cx == c.x
            && ClickHit(ps, c, 2.0) == Some(0)
            && !HoverHit(ps, c.x, c.y)
  {
    var ps := [Point(1, 20.0, 0.0, "")];
    assert Within(ps[0], ToImage(40.0, 2.0), ToImage(0.0, 2.0), ClickRadius(2.0));
    assert !Within(ps[0], 40.0, 0.0, BaseRadius);
  }

  /** The click radius does not follow the drawn radius: at scale 2 the
      marker of a point at (20, 0) is painted at (40, 0) with radius 20, yet a
      click 15 canvas pixels from its centre, well inside it, hits nothing. */
  lemma ClickInsideMarkerMissesWhenScaled()
    ensures var ps := [Point(1, 20.0, 0.0, "")];
            var m := Render(ps, None, 2.0)[0];
            var c := Helpers.CanvasPoint(55.0, 0.0);
            && m.cx == 40.0 && m.cy == 0.0 && m.radius == 20.0
            && (c.x - m.cx) * (c.x - m.cx) + (c.y - m.cy) * (c.y - m.cy) <= m.radius * m.radius
            && ClickHit(ps, c, 2.0) == None
  {
    var ps := [Point(1, 20.0, 0.0, "")];
    assert !Within(CanvasPositions(ps, 2.0)[0], 55.0, 0.0, BaseRadius);
  }

  /** The export overlay is the render at scale 1 with nothing selected,
      whatever scale the live canvas has. */
  lemma ExportIsUnscaledRender(ps: seq<Point>)
    ensures ExportMarkers(ps) == Render(ps, None, 1.0)
  {
    var e, r := ExportMarkers(ps), Render(ps, None, 1.0);
    forall i | 0 <= i < |ps|
      ensures e[i] == r[i]
    {
      assert e[i] in e;
    }
  }

  /** A point at native x = 500 is drawn at 250 on a canvas scaled to 0.5
      but exported at 500. */
  lemma ExportKeepsNativePosition()
    ensures var ps := [Point(1, 500.0, 100.0, "")];
            && ComputeLayout(500, 1000, 400).scaleFactor == 0.5
            && Render(ps, None, 0.5)[0].cx == 250.0
            && ExportMarkers(ps)[0].cx == 500.0
  {
    var l := ComputeLayout(500, 1000, 400);
    assert l.scaleFactor * 1000.0 == 500.0;
  }

  // ---------------------------------------------------------------------
  // The component
  // ---------------------------------------------------------------------

  class Annotator {
    /** `this.points`, in insertion order. */
    var points: seq<Point>
    /** `this.selectedPointId`; None stands for null. */
    var selectedPointId: Option<int>
    /** `this.canvas` and `this.ctx` exist: renderImage has run. */
    var hasCanvas: bool
    var originalImageWidth: nat
    var originalImageHeight: nat
    var scaleFactor: real
    var canvasWidth: nat
    var canvasHeight: nat

    /** The store invariant, and the state before the image has loaded. */
    ghost predicate Consistent()
      reads this
    {
      && IdsWellFormed(points)
      && SelectionPresent(points, selectedPointId)
      && (hasCanvas ==> originalImageWidth > 0)
      && (!hasCanvas ==> scaleFactor == 1.0)
    }

    /** Consistent, and the canvas laid out for its own width. */
    ghost predicate Valid()
      reads this
    {
      && Consistent()
      && (hasCanvas ==>
            Layout(scaleFactor, canvasWidth, canvasHeight)
            == ComputeLayout(canvasWidth, originalImageWidth, originalImageHeight))
    }

    /** The constructor once the container is found: the seed points
        renumbered 1..N, nothing selected, scale 1, no canvas yet. */
    constructor (initialPoints: seq<Point>)
      ensures Valid()
      ensures points == Renumber(initialPoints) && selectedPointId == None
      ensures !hasCanvas && scaleFactor == 1.0
      ensures originalImageWidth == 0 && originalImageHeight == 0
    {
      points := Renumber(initialPoints);
      selectedPointId := None;
      hasCanvas := false;
      originalImageWidth, originalImageHeight := 0, 0;
      scaleFactor := 1.0;
      canvasWidth, canvasHeight := 0, 0;
      RenumberIds(initialPoints);
    }

    /** The constructor with its container lookup: it throws (None) when no
        element with id "image-annotator" exists. */
    static method Create(initialPoints: seq<Point>, containerFound: bool) returns (r: Option<Annotator>)
      ensures r.Some? <==> containerFound
      ensures r.Some? ==> fresh(r.value) && r.value.Valid() && !r.value.hasCanvas
      ensures r.Some? ==> r.value.points == Renumber(initialPoints) && r.value.selectedPointId == None
      ensures r.Some? ==> r.value.scaleFactor == 1.0
    {
      if !containerFound {
        return None;
      }
      var a := new Annotator(initialPoints);
      r := Some(a);
    }

    /** resizeCanvas: nothing without a canvas; otherwise the layout for the
        container's current width. */
    method ResizeCanvas(containerWidth: nat)
      requires Consistent()
      modifies this`scaleFactor, this`canvasWidth, this`canvasHeight
      ensures Valid()
      ensures !hasCanvas ==>
                scaleFactor == old(scaleFactor) && canvasWidth == old(canvasWidth) && canvasHeight == old(canvasHeight)
      ensures hasCanvas ==>
                Layout(scaleFactor, canvasWidth, canvasHeight)
                == ComputeLayout(containerWidth, originalImageWidth, originalImageHeight)
    {
      if !hasCanvas {
        return;
      }
      var layout := ComputeLayout(containerWidth, originalImageWidth, originalImageHeight);
      scaleFactor := layout.scaleFactor;
      canvasWidth := layout.width;
      canvasHeight := layout.height;
    }

    /** The image's onload with renderImage: record the native size, create
        the canvas and lay it out for the container. */
    method ImageLoaded(imageWidth: nat, imageHeight: nat, containerWidth: nat)
      requires Valid() && !hasCanvas && imageWidth > 0
      modifies this`originalImageWidth, this`originalImageHeight, this`hasCanvas,
               this`scaleFactor, this`canvasWidth, this`canvasHeight
      ensures Valid() && hasCanvas
      ensures originalImageWidth == imageWidth && originalImageHeight == imageHeight
      ensures Layout(scaleFactor, canvasWidth, canvasHeight) == ComputeLayout(containerWidth, imageWidth, imageHeight)
    {
      originalImageWidth, originalImageHeight := imageWidth, imageHeight;
      hasCanvas := true;
      ResizeCanvas(containerWidth);
    }

    /** addPoint: appends a point whose id is one more than the largest id
        present, or 1 in an empty store. */
    method AddPoint(x: real, y: real, data: string)
      requires Valid()
      modifies this`points
      ensures Valid()
      ensures points == old(points) + [Point(NextId(old(points)), x, y, data)]
    {
      var id := if |points| > 0 then MaxId(points) + 1 else 1;
      AddKeepsWellFormed(points, x, y, data);
      var point := Point(id, x, y, data);
      if selectedPointId.Some? {
        var i :| 0 <= i < |points| && points[i].id == selectedPointId.value;
        assert (points + [point])[i] == points[i];
      }
      points := points + [point];
    }

    /** deletePoint: drops every point with id k, keeping the order of the
        rest, clears the selection if it was k, and redraws, which lays the
        canvas out again for the container's current width. */
    method DeletePoint(k: int, containerWidth: nat)
      requires Valid()
      modifies this`points, this`selectedPointId, this`scaleFactor, this`canvasWidth, this`canvasHeight
      ensures Valid()
      ensures points == Remove(old(points), k)
      ensures selectedPointId == if old(selectedPointId) == Some(k) then None else old(selectedPointId)
      ensures hasCanvas ==>
                Layout(scaleFactor, canvasWidth, canvasHeight)
                == ComputeLayout(containerWidth, originalImageWidth, originalImageHeight)
      ensures !hasCanvas ==>
                scaleFactor == old(scaleFactor) && canvasWidth == old(canvasWidth) && canvasHeight == old(canvasHeight)
    {
      RemoveKeepsWellFormed(points, k);
      DeleteKeepsSelection(points, selectedPointId, k);
      points := Remove(points, k);
      if selectedPointId == Some(k) {
        selectedPointId := None;
      }
      ResizeCanvas(containerWidth);
    }

    /** The click listener registered first (setupCanvasEvents): the click
        taken to image space; when no point lies within the scaled radius it
        adds one there with empty text. */
    method OnClickAdd(clientX: real, clientY: real, rect: Helpers.Rect)
      requires Valid() && hasCanvas && scaleFactor > 0.0
      modifies this`points
      ensures Valid()
      ensures var c := Helpers.CalculateCanvasCoordinates(rect, clientX, clientY);
              points == if ClickHit(old(points), c, scaleFactor).None?
                        then old(points) + [Point(NextId(old(points)), ToImage(c.x, scaleFactor), ToImage(c.y, scaleFactor), "")]
                        else old(points)
    {
      var c := Helpers.CalculateCanvasCoordinates(rect, clientX, clientY);
      var x := ToImage(c.x, scaleFactor);
      var y := ToImage(c.y, scaleFactor);
      var clickedPoint := FirstHit(points, x, y, ClickRadius(scaleFactor));
      if clickedPoint.Some? {
        return;
      }
      AddPoint(x, y, "");
    }

    /** The click listener registered second (setupPointClickEvents): selects
        the first point within the scaled radius and redraws, which lays the
        canvas out again; `clicked` is what onPointClicked gets. */
    method OnClickSelect(clientX: real, clientY: real, rect: Helpers.Rect, containerWidth: nat)
      returns (clicked: Option<Point>)
      requires Valid() && hasCanvas && scaleFactor > 0.0
      modifies this`selectedPointId, this`scaleFactor, this`canvasWidth, this`canvasHeight
      ensures Valid()
      ensures var c := Helpers.CalculateCanvasCoordinates(rect, clientX, clientY);
              var hit := ClickHit(points, c, old(scaleFactor));
              && clicked == (if hit.Some? then Some(points[hit.value]) else None)
              && selectedPointId == (if hit.Some? then Some(points[hit.value].id) else old(selectedPointId))
              && Layout(scaleFactor, canvasWidth, canvasHeight)
                 == (if hit.Some? then ComputeLayout(containerWidth, originalImageWidth, originalImageHeight)
                     else old(Layout(scaleFactor, canvasWidth, canvasHeight)))
    {
      var c := Helpers.CalculateCanvasCoordinates(rect, clientX, clientY);
      var hit := ClickHit(points, c, scaleFactor);
      if hit.Some? {
        clicked := Some(points[hit.value]);
        selectedPointId := Some(points[hit.value].id);
        ResizeCanvas(containerWidth);
      } else {
        clicked := None;
      }
    }

    /** One click runs both listeners in registration order. A hit selects
        the first point hit; a miss adds a point with empty text, which the
        second listener then finds at distance 0 and selects. Either way the
        second listener redraws and so lays the canvas out again. */
    method Click(clientX: real, clientY: real, rect: Helpers.Rect, containerWidth: nat)
      returns (clicked: Option<Point>)
      requires Valid() && hasCanvas && scaleFactor > 0.0
      modifies this`points, this`selectedPointId, this`scaleFactor, this`canvasWidth, this`canvasHeight
      ensures Valid()
      ensures var c := Helpers.CalculateCanvasCoordinates(rect, clientX, clientY);
              match ClickHit(old(points), c, old(scaleFactor))
              case Some(i) =>
                points == old(points) && selectedPointId == Some(old(points)[i].id) && clicked == Some(old(points)[i])
              case None =>
                var added := Point(NextId(old(points)), ToImage(c.x, old(scaleFactor)), ToImage(c.y, old(scaleFactor)), "");
                points == old(points) + [added] && selectedPointId == Some(added.id) && clicked == Some(added)
      ensures Layout(scaleFactor, canvasWidth, canvasHeight)
              == ComputeLayout(containerWidth, originalImageWidth, originalImageHeight)
    {
      ghost var before := points;
      var c := Helpers.CalculateCanvasCoordinates(rect, clientX, clientY);
      var x := ToImage(c.x, scaleFactor);
      var y := ToImage(c.y, scaleFactor);
      OnClickAdd(clientX, clientY, rect);
      if FirstHit(before, x, y, ClickRadius(scaleFactor)).None? {
        var added := Point(NextId(before), x, y, "");
        WithinAtOwnPosition(added, ClickRadius(scaleFactor));
        FirstHitAppend(before, added, x, y, ClickRadius(scaleFactor));
      }
      clicked := OnClickSelect(clientX, clientY, rect, containerWidth);
    }

    /** The hover listener: the pointer cursor exactly when some point lies
        within 10 of the canvas offset, the offset left unscaled and the
        points taken in image space. */
    function HoverCursor(clientX: real, clientY: real, rect: Helpers.Rect): (cursor: Cursor)
      reads this
      ensures var c := Helpers.CalculateCanvasCoordinates(rect, clientX, clientY);
              cursor == PointerCursor <==> exists i :: 0 <= i < |points| && Within(points[i], c.x, c.y, BaseRadius)
      ensures var c := Helpers.CalculateCanvasCoordinates(rect, clientX, clientY);
              scaleFactor == 1.0 ==> (cursor == PointerCursor <==> ClickHit(points, c, scaleFactor).Some?)
    {
      var c := Helpers.CalculateCanvasCoordinates(rect, clientX, clientY);
      HoverAgreesWithClickAtUnitScale(points, c);
      if HoverHit(points, c.x, c.y) then PointerCursor else DefaultCursor
    }

    /** The markers a redraw paints over the scaled image: each point at its
        position times the scale factor with radius 10 times it, and exactly
        one of them blue when a point is selected. */
    function Frame(): (ms: seq<Marker>)
      reads this
      requires Valid()
      ensures |ms| == |points|
      ensures forall i :: 0 <= i < |ms| ==>
                ms[i].cx == points[i].x * scaleFactor && ms[i].cy == points[i].y * scaleFactor
                && ms[i].radius == BaseRadius * scaleFactor
      ensures forall i, j :: 0 <= i < j < |ms| ==> !(ms[i].fill == Blue && ms[j].fill == Blue)
      ensures (exists i :: 0 <= i < |ms| && ms[i].fill == Blue) <==> selectedPointId.Some?
      ensures forall i :: 0 <= i < |ms| ==> (ms[i].fill == Blue <==> selectedPointId == Some(points[i].id))
    {
      OneHighlighted(points, selectedPointId);
      Render(points, selectedPointId, scaleFactor)
    }

    /** exportImage's synchronous part: None where reading `this.canvas.width`
        throws because no canvas exists yet; otherwise a raster the size of
        the scaled canvas with every point painted at its native position
        and radius, whatever the scale factor. */
    function ExportImage(): (r: Option<ExportPlan>)
      reads this
      ensures r.None? <==> !hasCanvas
      ensures r.Some? ==> r.value.width == canvasWidth && r.value.height == canvasHeight
      ensures r.Some? ==> r.value.markers == ExportMarkers(points) == Render(points, None, 1.0)
    {
      ExportIsUnscaledRender(points);
      if hasCanvas then Some(ExportPlan(canvasWidth, canvasHeight, ExportMarkers(points))) else None
    }
  }
}
