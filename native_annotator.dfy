/**
 * The Annotator of src/annotator.js. It renders at the image's native size,
 * so canvas pixels are image pixels and the hit radius is a fixed 10.
 */
module NativeAnnotator {

  import opened Optional
  import opened PointStore
  import Helpers

  /** drawPoint: a circle of radius 10 at the point's own position, blue
      when it is the selected point, with its id in a 12-pixel font. */
  function DrawPoint(p: Point, selected: Option<int>): (m: Marker)
    ensures m.caption == p.id && m.cx == p.x && m.cy == p.y
    ensures m.radius == BaseRadius && m.fontSize == BaseFontSize
    ensures m.fill == Blue <==> selected == Some(p.id)
    ensures Within(p, m.cx, m.cy, m.radius)
  {
    Marker(p.id, p.x, p.y, BaseRadius, Fill(p, selected), BaseFontSize)
  }

  /** The markers a full redraw paints over the image, in sequence order. */
  function Render(ps: seq<Point>, selected: Option<int>): (ms: seq<Marker>)
    ensures |ms| == |ps|
    ensures forall i :: 0 <= i < |ps| ==> ms[i] == DrawPoint(ps[i], selected)
  {
    seq(|ps|, i requires 0 <= i < |ps| => DrawPoint(ps[i], selected))
  }

  /** The export overlay is what the live canvas shows with nothing selected. */
  lemma ExportIsUnselectedRender(ps: seq<Point>)
    ensures ExportMarkers(ps) == Render(ps, None)
  {
    var e, r := ExportMarkers(ps), Render(ps, None);
    forall i | 0 <= i < |ps|
      ensures e[i] == r[i]
    {
      assert e[i] in e;
    }
  }

  class Annotator {
    /** `this.points`, in insertion order. */
    var points: seq<Point>
    /** `this.selectedPointId`; None stands for null. */
    var selectedPointId: Option<int>
    /** `this.canvas` exists: renderImage has run. */
    var hasCanvas: bool
    var canvasWidth: nat
    var canvasHeight: nat

    /** Ids are positive, increase along the sequence, and a selection names
        a present point. */
    ghost predicate Valid()
      reads this
    {
      IdsWellFormed(points) && SelectionPresent(points, selectedPointId)
    }

    /** The constructor: the seed points renumbered 1..N, nothing selected,
        no canvas until the image has loaded. */
    constructor (initialPoints: seq<Point>)
      ensures Valid()
      ensures points == Renumber(initialPoints) && selectedPointId == None
      ensures !hasCanvas && canvasWidth == 0 && canvasHeight == 0
    {
      points := Renumber(initialPoints);
      selectedPointId := None;
      hasCanvas := false;
      canvasWidth, canvasHeight := 0, 0;
      RenumberIds(initialPoints);
    }

    /** renderImage, run once when the image has decoded: the canvas takes
        the image's native size; the predefined points are then drawn (Frame). */
    method RenderImage(imageWidth: nat, imageHeight: nat)
      requires !hasCanvas
      modifies this`hasCanvas, this`canvasWidth, this`canvasHeight
      ensures hasCanvas && canvasWidth == imageWidth && canvasHeight == imageHeight
    {
      canvasWidth, canvasHeight := imageWidth, imageHeight;
      hasCanvas := true;
    }

    /** addPoint: appends a point whose id is one more than the largest id
        present, or 1 in an empty store. */
    method AddPoint(x: real, y: real, data: string)
      requires Valid()
      modifies this`points
      ensures Valid()
      ensures points == old(points) + [Point(NextId(old(points)), x, y, data)]
    {
      var id := if |points| > 0 then MaxId(points) + 1 else 1;
      AddKeepsWellFormed(points, x, y, data);
      var point := Point(id, x, y, data);
      if selectedPointId.Some? {
        var i :| 0 <= i < |points| && points[i].id == selectedPointId.value;
        assert (points + [point])[i] == points[i];
      }
      points := points + [point];
    }

    /** deletePoint: drops every point with id k, keeping the order of the
        rest, and clears the selection if it was k. */
    method DeletePoint(k: int)
      requires Valid()
      modifies this`points, this`selectedPointId
      ensures Valid()
      ensures points == Remove(old(points), k)
      ensures selectedPointId == if old(selectedPointId) == Some(k) then None else old(selectedPointId)
    {
      RemoveKeepsWellFormed(points, k);
      DeleteKeepsSelection(points, selectedPointId, k);
      points := Remove(points, k);
      if selectedPointId == Some(k) {
        selectedPointId := None;
      }
    }

    /** The click listener registered first (setupCanvasEvents): on a click
        that hits no point, it adds one at the click position provided the
        prompt's answer is truthy; `answer` is what prompt() returns. */
    method OnClickAdd(clientX: real, clientY: real, rect: Helpers.Rect, answer: Option<string>)
      requires Valid() && hasCanvas
      modifies this`points
      ensures Valid()
      ensures var c := Helpers.CalculateCanvasCoordinates(rect, clientX, clientY);
              points == if FirstHit(old(points), c.x, c.y, BaseRadius).None? && Truthy(answer)
                        then old(points) + [Point(NextId(old(points)), c.x, c.y, answer.value)]
                        else old(points)
    {
      var c := Helpers.CalculateCanvasCoordinates(rect, clientX, clientY);
      var clickedPoint := FirstHit(points, c.x, c.y, BaseRadius);
      if clickedPoint.Some? {
        return;
      }
      if Truthy(answer) {
        AddPoint(c.x, c.y, answer.value);
      }
    }

    /** The click listener registered second (setupPointClickEvents): selects
        the first point hit, if any; `clicked` is what onPointClicked gets. */
    method OnClickSelect(clientX: real, clientY: real, rect: Helpers.Rect) returns (clicked: Option<Point>)
      requires Valid() && hasCanvas
      modifies this`selectedPointId
      ensures Valid()
      ensures var c := Helpers.CalculateCanvasCoordinates(rect, clientX, clientY);
              var hit := FirstHit(points, c.x, c.y, BaseRadius);
              && clicked == (if hit.Some? then Some(points[hit.value]) else None)
              && selectedPointId == (if hit.Some? then Some(points[hit.value].id) else old(selectedPointId))
    {
      var c := Helpers.CalculateCanvasCoordinates(rect, clientX, clientY);
      var hit := FirstHit(points, c.x, c.y, BaseRadius);
      if hit.Some? {
        clicked := Some(points[hit.value]);
        selectedPointId := Some(points[hit.value].id);
      } else {
        clicked := None;
      }
    }

    /** One click runs both listeners in registration order. A hit selects
        the first point hit and adds nothing; a miss with a truthy answer adds
        a point, which the second listener then finds at distance 0 and
        selects; a miss without an answer changes nothing. */
    method Click(clientX: real, clientY: real, rect: Helpers.Rect, answer: Option<string>)
      returns (clicked: Option<Point>)
      requires Valid() && hasCanvas
      modifies this`points, this`selectedPointId
      ensures Valid()
      ensures var c := Helpers.CalculateCanvasCoordinates(rect, clientX, clientY);
              match FirstHit(old(points), c.x, c.y, BaseRadius)
              case Some(i) =>
                points == old(points) && selectedPointId == Some(old(points)[i].id) && clicked == Some(old(points)[i])
              case None =>
                if Truthy(answer) then
                  var added := Point(NextId(old(points)), c.x, c.y, answer.value);
                  points == old(points) + [added] && selectedPointId == Some(added.id) && clicked == Some(added)
                else
                  points == old(points) && selectedPointId == old(selectedPointId) && clicked == None
    {
      ghost var before := points;
      var c := Helpers.CalculateCanvasCoordinates(rect, clientX, clientY);
      OnClickAdd(clientX, clientY, rect, answer);
      if FirstHit(before, c.x, c.y, BaseRadius).None? && Truthy(answer) {
        var added := Point(NextId(before), c.x, c.y, answer.value);
        WithinAtOwnPosition(added, BaseRadius);
        FirstHitAppend(before, added, c.x, c.y, BaseRadius);
      }
      clicked := OnClickSelect(clientX, clientY, rect);
    }

    /** The hover listener: the pointer cursor exactly when some point lies
        within 10 canvas pixels of the mouse. */
    function HoverCursor(clientX: real, clientY: real, rect: Helpers.Rect): (cursor: Cursor)
      reads this
      ensures var c := Helpers.CalculateCanvasCoordinates(rect, clientX, clientY);
              cursor == PointerCursor <==> exists i :: 0 <= i < |points| && Within(points[i], c.x, c.y, BaseRadius)
    {
      var c := Helpers.CalculateCanvasCoordinates(rect, clientX, clientY);
      if HoverHit(points, c.x, c.y) then PointerCursor else DefaultCursor
    }

    /** The markers renderImage and redrawPoints paint over the image: one
        per point, and exactly one of them blue when a point is selected. */
    function Frame(): (ms: seq<Marker>)
      reads this
      requires Valid()
      ensures |ms| == |points|
      ensures forall i :: 0 <= i < |ms| ==> ms[i].cx == points[i].x && ms[i].cy == points[i].y && ms[i].radius == BaseRadius
      ensures forall i, j :: 0 <= i < j < |ms| ==> !(ms[i].fill == Blue && ms[j].fill == Blue)
      ensures (exists i :: 0 <= i < |ms| && ms[i].fill == Blue) <==> selectedPointId.Some?
      ensures forall i :: 0 <= i < |ms| ==> (ms[i].fill == Blue <==> selectedPointId == Some(points[i].id))
    {
      OneHighlighted(points, selectedPointId);
      Render(points, selectedPointId)
    }

    /** exportImage's synchronous part: None where reading `this.canvas.width`
        throws because no canvas exists yet; otherwise a raster the size of
        the canvas with every point painted at its own position. */
    function ExportImage(): (r: Option<ExportPlan>)
      reads this
      ensures r.None? <==> !hasCanvas
      ensures r.Some? ==> r.value.width == canvasWidth && r.value.height == canvasHeight
      ensures r.Some? ==> r.value.markers == ExportMarkers(points)
    {
      if hasCanvas then Some(ExportPlan(canvasWidth, canvasHeight, ExportMarkers(points))) else None
    }
  }
}
