/** The renderer's visibility query: does a primitive's box touch the
    viewport? Boxes are closed, so a box touching the viewport's edge
    counts as on screen. */
module Visibility {
  import opened Base
  import opened Entities
  import opened Cameras

  datatype Box = Box(x: real, y: real, width: real, height: real)

  predicate InBox(p: Point, b: Box) {
    b.x <= p.x <= b.x + b.width && b.y <= p.y <= b.y + b.height
  }

  /** Closed boxes `a` and `b` overlap or touch on both axes. */
  predicate Meets(a: Box, b: Box) {
    a.x <= b.x + b.width && b.x <= a.x + a.width && a.y <= b.y + b.height && b.y <= a.y + a.height
  }

  /** For boxes of non-negative size, meeting means sharing a point. */
  lemma MeetsIffCommonPoint(a: Box, b: Box)
    requires a.width >= 0.0 && a.height >= 0.0 && b.width >= 0.0 && b.height >= 0.0
    ensures Meets(a, b) <==> exists p :: InBox(p, a) && InBox(p, b)
  {
    if Meets(a, b) {
      var p := Point(if a.x < b.x then b.x else a.x, if a.y < b.y then b.y else a.y);
      assert InBox(p, a) && InBox(p, b);
    }
  }

  /** Position and size of a primitive, when it has all four. A sprite
      has a position, and a size once the caller gives it one; a text has
      no size; a bare primitive has neither. */
  function Geometry(p: Primitive): (g: Option<Box>)
    ensures g.Some? <==> p.Sprite? && p.width.Some? && p.height.Some?
    ensures g.Some? ==> g.value == Box(p.x, p.y, p.width.value, p.height.value)
  {
    match p
    case Sprite(_, x, y, Some(w), Some(h), _, _, _) => Some(Box(x, y, w, h))
    case _ => None
  }

  /** The part of the world the camera shows, in the camera's own terms. */
  function Viewport(cam: Camera, canvas: Canvas): Box {
    Box(cam.x, cam.y, canvas.width as real, canvas.height as real)
  }

  /** Right of, below, left of or above the viewport, with no overlap. */
  predicate WhollyOutside(b: Box, v: Box) {
    b.x > v.x + v.width || b.y > v.y + v.height || b.x + b.width < v.x || b.y + b.height < v.y
  }

  /** `isOnScreen` as written. It throws when position or size is missing,
      and fails (on the missing `layer` link) for a primitive that was
      never added to a layer. It then shifts the box by the camera
      position times the layer's parallax, adding where the layer's
      drawing translation subtracts. */
  function IsOnScreen(cam: Camera, canvas: Canvas, p: Primitive): (r: Result<bool>)
    ensures r.Err? <==> Geometry(p).None? || p.layer.None?
    ensures Geometry(p).None? ==> r == Err(MissingGeometry)
    ensures Geometry(p).Some? && p.layer.None? ==> r == Err(MissingLayer)
    ensures r.Ok? ==> var g := Geometry(p).value; var k := p.layer.value.parallax;
      var shifted := Box(g.x + cam.x * k.x, g.y + cam.y * k.y, g.width, g.height);
      && (!r.value <==> WhollyOutside(shifted, Viewport(cam, canvas)))
      && (r.value <==> Meets(shifted, Viewport(cam, canvas)))
  {
    match Geometry(p)
    case None => Err(MissingGeometry)
    case Some(g) =>
      match p.layer
      case None => Err(MissingLayer)
      case Some(ref) =>
        var trueX := g.x + cam.x * ref.parallax.x;
        var trueY := g.y + cam.y * ref.parallax.y;
        if trueX > cam.x + canvas.width as real then Ok(false)
        else if trueY > cam.y + canvas.height as real then Ok(false)
        else if trueX + g.width < cam.x then Ok(false)
        else if trueY + g.height < cam.y then Ok(false)
        else Ok(true)
  }

  /** On a layer that scrolls fully with the camera, the as-written answer
      does not depend on where the camera is at all. */
  lemma IsOnScreenIgnoresCamera(cam: Camera, canvas: Canvas, p: Primitive)
    requires p.layer.Some? && p.layer.value.parallax == Point(1.0, 1.0)
    ensures IsOnScreen(cam, canvas, p) == IsOnScreen(cam.(x := 0.0, y := 0.0), canvas, p)
  {
  }

  /** Where a primitive appears on the canvas: the layer's drawing
      translation moves it by minus the camera position times the layer's
      parallax. */
  function DrawnBox(cam: Camera, g: Box, parallax: Point): Box {
    Box(g.x - cam.x * parallax.x, g.y - cam.y * parallax.y, g.width, g.height)
  }

  function CanvasBox(canvas: Canvas): Box {
    Box(0.0, 0.0, canvas.width as real, canvas.height as real)
  }

  /** The visibility query as evidently intended: the same error cases,
      then whether the box as drawn touches the canvas. */
  function IsDrawnOnScreen(cam: Camera, canvas: Canvas, p: Primitive): (r: Result<bool>)
    ensures r.Err? <==> Geometry(p).None? || p.layer.None?
    ensures Geometry(p).None? ==> r == Err(MissingGeometry)
    ensures Geometry(p).Some? && p.layer.None? ==> r == Err(MissingLayer)
    ensures r.Ok? ==> (r.value <==> Meets(DrawnBox(cam, Geometry(p).value, p.layer.value.parallax), CanvasBox(canvas)))
  {
    match Geometry(p)
    case None => Err(MissingGeometry)
    case Some(g) =>
      match p.layer
      case None => Err(MissingLayer)
      case Some(ref) =>
        Ok(Meets(DrawnBox(cam, g, ref.parallax), CanvasBox(canvas)))
  }

  /** For a primitive of non-negative size, the corrected query answers
      true exactly when some point of the canvas is covered by the box as
      drawn. */
  lemma DrawnOnScreenIffCanvasPointCovered(cam: Camera, canvas: Canvas, p: Primitive)
    requires IsDrawnOnScreen(cam, canvas, p).Ok?
    requires Geometry(p).value.width >= 0.0 && Geometry(p).value.height >= 0.0
    ensures IsDrawnOnScreen(cam, canvas, p).value <==>
      exists q :: InBox(q, DrawnBox(cam, Geometry(p).value, p.layer.value.parallax)) && InBox(q, CanvasBox(canvas))
  {
    MeetsIffCommonPoint(DrawnBox(cam, Geometry(p).value, p.layer.value.parallax), CanvasBox(canvas));
  }

  /** The two agree while the camera sits at the origin. */
  lemma AgreeAtOrigin(cam: Camera, canvas: Canvas, p: Primitive)
    requires cam.x == 0.0 && cam.y == 0.0
    ensures IsOnScreen(cam, canvas, p) == IsDrawnOnScreen(cam, canvas, p)
  {
  }

  /** The discrepancy: with the camera at (1000, 0) over an 800 by 600
      canvas, a 10 by 10 sprite at (1000, 0) on a fully scrolling layer is
      drawn at the canvas's top-left corner, yet the as-written query
      reports it off screen. */
  lemma IsOnScreenMissesVisibleSprite()
    ensures var cam := Camera(1000.0, 0.0, 1000.0, 0.0, false, 12.0, false, None, true);
      var p := Sprite("s", 1000.0, 0.0, Some(10.0), Some(10.0), [], Traces.NoHooks,
                      Some(LayerRef("l", Point(1.0, 1.0))));
      && IsOnScreen(cam, Canvas(800, 600), p) == Ok(false)
      && IsDrawnOnScreen(cam, Canvas(800, 600), p) == Ok(true)
  {
  }
}
