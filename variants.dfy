/**
 * The two Annotator variants side by side: at scale factor 1 the responsive
 * one tests clicks and paints markers exactly as the native-size one does.
 */
module Variants {

  import opened Optional
  import opened PointStore
  import Helpers
  import NativeAnnotator
  import ResponsiveAnnotator

  /** At scale 1 the responsive click test is the native one. */
  lemma ClickHitAgreesAtUnitScale(ps: seq<Point>, c: Helpers.CanvasPoint)
    ensures ResponsiveAnnotator.ClickHit(ps, c, 1.0) == FirstHit(ps, c.x, c.y, BaseRadius)
  {
    assert ResponsiveAnnotator.ToImage(c.x, 1.0) == c.x;
    assert ResponsiveAnnotator.ToImage(c.y, 1.0) == c.y;
    assert ResponsiveAnnotator.ClickRadius(1.0) == BaseRadius;
  }

  /** At scale 1 the responsive redraw paints the native markers. */
  lemma RenderAgreesAtUnitScale(ps: seq<Point>, selected: Option<int>)
    ensures ResponsiveAnnotator.Render(ps, selected, 1.0) == NativeAnnotator.Render(ps, selected)
  {
    var r, n := ResponsiveAnnotator.Render(ps, selected, 1.0), NativeAnnotator.Render(ps, selected);
    forall i | 0 <= i < |ps|
      ensures r[i] == n[i]
    {
      assert r[i] == ResponsiveAnnotator.DrawPoint(ps[i], selected, 1.0);
    }
  }
}
