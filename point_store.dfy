/**
 * The annotation point store that both Annotator variants share: the
 * ordered points, their identity scheme, the hit test behind the click and
 * hover handlers, the colour rule of drawPoint and the overlay that export
 * paints. Coordinates are exact reals, and the source's distance test
 * `Math.sqrt(dx * dx + dy * dy) <= r` is written `dx * dx + dy * dy <= r * r`,
 * which agrees with it for every r >= 0.
 */
module PointStore {

  import opened Optional

  /** One annotation: its identity, its image-space position and its text. */
  datatype Point = Point(id: int, x: real, y: real, data: string)

  /** The fill colours drawPoint chooses between. */
  datatype Colour = Red | Blue

  /** What drawing one marker paints: a filled circle of `radius` centred at
      (cx, cy), with `caption` written over it in a font of `fontSize` pixels. */
  datatype Marker = Marker(caption: int, cx: real, cy: real, radius: real, fill: Colour, fontSize: real)

  /** The cursor the hover handler sets on the canvas. */
  datatype Cursor = PointerCursor | DefaultCursor

  /** What export composes: a raster of `width` x `height` pixels, the image
      drawn at (0, 0) at its native size, and `markers` painted over it. */
  datatype ExportPlan = ExportPlan(width: nat, height: nat, markers: seq<Marker>)

  /** The hit and hover radius, and the marker radius at native size. */
  const BaseRadius: real := 10.0

  /** The caption font size at native size. */
  const BaseFontSize: real := 12.0

  // ---------------------------------------------------------------------
  // Hit test
  // ---------------------------------------------------------------------

  /** (x, y) lies at distance at most `radius` from the point: the square of
      `Math.sqrt(dx * dx + dy * dy) <= radius`. A position within the radius
      lies inside the square of side 2 * radius centred on the point. */
  function Within(p: Point, x: real, y: real, radius: real): (w: bool)
    ensures w ==> (x - p.x) * (x - p.x) <= radius * radius && (y - p.y) * (y - p.y) <= radius * radius
  {
    var dx := x - p.x;
    var dy := y - p.y;
    dx * dx + dy * dy <= radius * radius
  }

  /** `points.find(...)` with the distance test: the index of the first point
      in sequence order within `radius` of (x, y), or None when none is. */
  function FirstHit(ps: seq<Point>, x: real, y: real, radius: real): (r: Option<nat>)
    ensures r.Some? ==> r.value < |ps| && Within(ps[r.value], x, y, radius)
    ensures r.Some? ==> forall j :: 0 <= j < r.value ==> !Within(ps[j], x, y, radius)
    ensures r.None? <==> forall j :: 0 <= j < |ps| ==> !Within(ps[j], x, y, radius)
  {
    if |ps| == 0 then None
    else if Within(ps[0], x, y, radius) then Some(0)
    else match FirstHit(ps[1..], x, y, radius)
      case None => None
      case Some(i) => Some(i + 1)
  }

  /** The first hit depends only on which points are hits: two stores of
      the same length whose points hit at the same positions give the same
      first hit. */
  lemma {:induction false} FirstHitSameHits(ps: seq<Point>, qs: seq<Point>, x: real, y: real, r: real,
                                            x': real, y': real, r': real)
    requires |ps| == |qs|
    requires forall i :: 0 <= i < |ps| ==> (Within(ps[i], x, y, r) <==> Within(qs[i], x', y', r'))
    ensures FirstHit(ps, x, y, r) == FirstHit(qs, x', y', r')
  {
    if |ps| > 0 {
      FirstHitSameHits(ps[1..], qs[1..], x, y, r, x', y', r');
    }
  }

  /** The hover handler's test, identical in both variants: some point lies
      within BaseRadius of (x, y), taken in canvas pixels as they are. */
  function HoverHit(ps: seq<Point>, x: real, y: real): (hit: bool)
    ensures hit <==> exists i :: 0 <= i < |ps| && Within(ps[i], x, y, BaseRadius)
  {
    FirstHit(ps, x, y, BaseRadius).Some?
  }

  /** A point appended behind points that all miss is the first hit exactly
      when it is itself within range. */
  lemma {:induction false} FirstHitAppend(ps: seq<Point>, q: Point, x: real, y: real, radius: real)
    requires FirstHit(ps, x, y, radius).None?
    ensures FirstHit(ps + [q], x, y, radius) == if Within(q, x, y, radius) then Some(|ps|) else None
  {
    var qs := ps + [q];
    assert forall j :: 0 <= j < |ps| ==> qs[j] == ps[j];
    assert qs[|ps|] == q;
  }

  /** A point placed exactly at the tested position is within any radius. */
  lemma WithinAtOwnPosition(p: Point, radius: real)
    ensures Within(p, p.x, p.y, radius)
  {
  }

  // ---------------------------------------------------------------------
  // Identity
  // ---------------------------------------------------------------------

  /** `Math.max(...points.map(point => point.id))` on a non-empty store. */
  function MaxId(ps: seq<Point>): (m: int)
    requires |ps| > 0
    ensures forall i :: 0 <= i < |ps| ==> ps[i].id <= m
    ensures exists i :: 0 <= i < |ps| && ps[i].id == m
  {
    if |ps| == 1 then ps[0].id
    else
      var rest := MaxId(ps[1..]);
      assert exists i :: 1 <= i < |ps| && ps[i].id == rest by {
        var k :| 0 <= k < |ps[1..]| && ps[1..][k].id == rest;
        assert ps[k + 1].id == rest;
      }
      if ps[0].id >= rest then ps[0].id else rest
  }

  /** The id addPoint gives a new point: one more than the largest id
      present, or 1 when the store is empty. */
  function NextId(ps: seq<Point>): (id: int)
    ensures forall i :: 0 <= i < |ps| ==> ps[i].id < id
    ensures |ps| == 0 ==> id == 1
    ensures |ps| > 0 ==> exists i :: 0 <= i < |ps| && ps[i].id == id - 1
  {
    if |ps| > 0 then MaxId(ps) + 1 else 1
  }

  /** The store invariant: ids are positive and strictly increase along the
      sequence, so that no two points share an id. */
  predicate IdsWellFormed(ps: seq<Point>)
  {
    && (forall i :: 0 <= i < |ps| ==> ps[i].id > 0)
    && (forall i, j :: 0 <= i < j < |ps| ==> ps[i].id < ps[j].id)
  }

  /** Some point of the store carries `id`. */
  predicate HasId(ps: seq<Point>, id: int)
  {
    exists i :: 0 <= i < |ps| && ps[i].id == id
  }

  /** A selection, if set, names a point that is present. */
  predicate SelectionPresent(ps: seq<Point>, selected: Option<int>)
  {
    selected.Some? ==> HasId(ps, selected.value)
  }

  /** Ids in a well-formed store are pairwise distinct. */
  lemma IdsDistinct(ps: seq<Point>, i: nat, j: nat)
    requires IdsWellFormed(ps)
    requires i < |ps| && j < |ps| && i != j
    ensures ps[i].id != ps[j].id
  {
  }

  /** The constructor's `initialPoints.map((point, index) => ({ ...point, id: index + 1 }))`:
      the seed points in their order, with ids 1..N in place of whatever they carried. */
  function Renumber(seed: seq<Point>): (ps: seq<Point>)
    ensures |ps| == |seed|
    ensures forall i :: 0 <= i < |ps| ==> ps[i].id == i + 1
    ensures forall i :: 0 <= i < |ps| ==> ps[i].x == seed[i].x && ps[i].y == seed[i].y && ps[i].data == seed[i].data
  {
    seq(|seed|, i requires 0 <= i < |seed| => seed[i].(id := i + 1))
  }

  /** The ids of a renumbered store are exactly 1..N, and it is well formed. */
  lemma RenumberIds(seed: seq<Point>)
    ensures IdsWellFormed(Renumber(seed))
    ensures forall n :: HasId(Renumber(seed), n) <==> 1 <= n <= |seed|
  {
    var ps := Renumber(seed);
    forall n | 1 <= n <= |seed|
      ensures HasId(ps, n)
    {
      assert ps[n - 1].id == n;
    }
  }

  /** Appending a point with NextId keeps the store well formed. */
  lemma AddKeepsWellFormed(ps: seq<Point>, x: real, y: real, data: string)
    requires IdsWellFormed(ps)
    ensures IdsWellFormed(ps + [Point(NextId(ps), x, y, data)])
  {
  }

  /** While ids are exactly 1..N in order, the next id is N + 1: adding to
      an empty store numbers the points 1, 2, 3, ... in call order. */
  lemma NextIdAfterConsecutive(ps: seq<Point>)
    requires forall i :: 0 <= i < |ps| ==> ps[i].id == i + 1
    ensures NextId(ps) == |ps| + 1
  {
    if |ps| > 0 {
      assert ps[|ps| - 1].id == |ps|;
    }
  }

  // ---------------------------------------------------------------------
  // Deletion
  // ---------------------------------------------------------------------

  /** `points.filter(point => point.id !== k)`. */
  function Remove(ps: seq<Point>, k: int): (r: seq<Point>)
    ensures forall p :: p in r <==> p in ps && p.id != k
    ensures forall p :: multiset(r)[p] == if p.id == k then 0 else multiset(ps)[p]
    ensures (forall i :: 0 <= i < |ps| ==> ps[i].id != k) ==> r == ps
  {
    if |ps| == 0 then []
    else
      assert ps == [ps[0]] + ps[1..];
      if ps[0].id == k then Remove(ps[1..], k)
      else [ps[0]] + Remove(ps[1..], k)
  }

  /** Filtering distributes over concatenation, so the survivors keep their
      relative order. */
  lemma {:induction false} RemoveConcat(a: seq<Point>, b: seq<Point>, k: int)
    ensures Remove(a + b, k) == Remove(a, k) + Remove(b, k)
  {
    if |a| == 0 {
      assert a + b == b;
    } else {
      assert (a + b)[0] == a[0];
      assert (a + b)[1..] == a[1..] + b;
      RemoveConcat(a[1..], b, k);
    }
  }

  /** A point whose id is positive and below every id of a well-formed
      store can be put in front of it. */
  lemma ConsWellFormed(p: Point, r: seq<Point>)
    requires IdsWellFormed(r) && p.id > 0
    requires forall j :: 0 <= j < |r| ==> p.id < r[j].id
    ensures IdsWellFormed([p] + r)
  {
    var s := [p] + r;
    assert forall j :: 1 <= j < |s| ==> s[j] == r[j - 1];
  }

  /** Deletion keeps the store well formed. */
  lemma {:induction false} RemoveKeepsWellFormed(ps: seq<Point>, k: int)
    requires IdsWellFormed(ps)
    ensures IdsWellFormed(Remove(ps, k))
  {
    if |ps| > 0 {
      var rest := ps[1..];
      RemoveKeepsWellFormed(rest, k);
      if ps[0].id != k {
        var r := Remove(rest, k);
        forall j | 0 <= j < |r|
          ensures ps[0].id < r[j].id
        {
          assert r[j] in rest;
        }
        ConsWellFormed(ps[0], r);
      }
    }
  }

  /** Deleting id k keeps the selection valid once a selection of k is cleared. */
  lemma DeleteKeepsSelection(ps: seq<Point>, selected: Option<int>, k: int)
    requires SelectionPresent(ps, selected)
    ensures SelectionPresent(Remove(ps, k), if selected == Some(k) then None else selected)
  {
    if selected.Some? && selected.value != k {
      var i :| 0 <= i < |ps| && ps[i].id == selected.value;
      var r := Remove(ps, k);
      assert ps[i] in r;
      var m :| 0 <= m < |r| && r[m] == ps[i];
      assert HasId(r, selected.value);
    }
  }

  // ---------------------------------------------------------------------
  // Drawing
  // ---------------------------------------------------------------------

  /** drawPoint's colour choice: blue for the selected point, red otherwise. */
  function Fill(p: Point, selected: Option<int>): (c: Colour)
    ensures c == Blue <==> selected == Some(p.id)
    ensures c == Red <==> selected != Some(p.id)
  {
    if selected == Some(p.id) then Blue else Red
  }

  /** In a well-formed store at most one point is drawn blue, and one is
      exactly when the selection names a present point. */
  lemma OneHighlighted(ps: seq<Point>, selected: Option<int>)
    requires IdsWellFormed(ps)
    ensures forall i, j :: 0 <= i < |ps| && 0 <= j < |ps| && Fill(ps[i], selected) == Blue && Fill(ps[j], selected) == Blue ==> i == j
    ensures (exists i :: 0 <= i < |ps| && Fill(ps[i], selected) == Blue) <==> selected.Some? && HasId(ps, selected.value)
  {
  }

  /** The overlay exportImage paints: every point at its own image-space
      position, in sequence order, red, with radius 10 and a 12-pixel caption. */
  function ExportMarkers(ps: seq<Point>): (ms: seq<Marker>)
    ensures |ms| == |ps|
    ensures forall i :: 0 <= i < |ps| ==> ms[i].caption == ps[i].id && ms[i].cx == ps[i].x && ms[i].cy == ps[i].y
    ensures forall m :: m in ms ==> m.radius == BaseRadius && m.fill == Red && m.fontSize == BaseFontSize
  {
    seq(|ps|, i requires 0 <= i < |ps| => Marker(ps[i].id, ps[i].x, ps[i].y, BaseRadius, Red, BaseFontSize))
  }
}
