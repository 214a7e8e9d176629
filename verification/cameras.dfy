/** The camera: a position, a desired position, an optional tracked
    sprite, and the per-frame step that moves the camera. */
module Cameras {
  import opened Base

  datatype Camera = Camera(
    x: real,
    y: real,
    targetX: real,
    targetY: real,
    smoothing: bool,
    smoothingAmount: real,
    lockedTarget: bool,
    target: Option<Id>,            // the tracked sprite, held by id
    centerScreenOnTarget: bool)

  /** Pixel size of the drawing surface. */
  datatype Canvas = Canvas(width: nat, height: nat)

  /** Where the tracked sprite currently stands. The camera holds the
      sprite by reference and the sprite need not be on any layer, so the
      caller resolves the id. */
  type Locate = Id -> Point

  /** The eased step of a smoothing camera, from (current position, target
      position, smoothing amount) to the next position. It is built on the
      trigonometric helpers of the geometry library and is a parameter of
      this model. */
  type SmoothStep = (Point, Point, real) -> Point

  const DefaultSmoothingAmount: real := 12.0

  /** The camera constructor: it starts at `position`, aiming at where it
      stands, tracking nothing, with centring on. */
  function NewCamera(position: Point, smoothing: bool, smoothingAmount: real): (c: Camera)
    ensures c.x == position.x && c.y == position.y
    ensures c.targetX == c.x && c.targetY == c.y
    ensures c.smoothing == smoothing && c.smoothingAmount == smoothingAmount
    ensures !c.lockedTarget && c.target.None? && c.centerScreenOnTarget
  {
    Camera(position.x, position.y, position.x, position.y, smoothing, smoothingAmount, false, None, true)
  }

  /** `setTarget`: lock onto a sprite. */
  function SetTarget(c: Camera, sprite: Id, centerScreen: bool): (r: Camera)
    ensures r.lockedTarget && r.target == Some(sprite) && r.centerScreenOnTarget == centerScreen
    ensures r.(lockedTarget := c.lockedTarget, target := c.target, centerScreenOnTarget := c.centerScreenOnTarget) == c
  {
    c.(lockedTarget := true, target := Some(sprite), centerScreenOnTarget := centerScreen)
  }

  /** `unsetTarget`: back to manual control, centring off. */
  function UnsetTarget(c: Camera): (r: Camera)
    ensures !r.lockedTarget && r.target.None? && !r.centerScreenOnTarget
    ensures r.(lockedTarget := c.lockedTarget, target := c.target, centerScreenOnTarget := c.centerScreenOnTarget) == c
  {
    c.(lockedTarget := false, target := None, centerScreenOnTarget := false)
  }

  /** `__logic`: when a sprite is tracked, aim at it (shifted by half the
      surface when centring, so the sprite lands mid-screen); then either
      snap to the aim or take one eased step towards it. Only `target` is
      consulted: `lockedTarget` is never read. */
  function Step(c: Camera, locate: Locate, canvas: Canvas, smooth: SmoothStep): (r: Camera)
    ensures r.smoothing == c.smoothing && r.smoothingAmount == c.smoothingAmount
    ensures r.lockedTarget == c.lockedTarget && r.target == c.target
    ensures r.centerScreenOnTarget == c.centerScreenOnTarget
    ensures c.target.None? ==> r.targetX == c.targetX && r.targetY == c.targetY
    ensures c.target.Some? && !c.centerScreenOnTarget ==> Point(r.targetX, r.targetY) == locate(c.target.value)
    ensures c.target.Some? && c.centerScreenOnTarget ==>
      && r.targetX + (canvas.width as real) / 2.0 == locate(c.target.value).x
      && r.targetY + (canvas.height as real) / 2.0 == locate(c.target.value).y
    ensures !c.smoothing ==> r.x == r.targetX && r.y == r.targetY
    ensures c.smoothing ==> Point(r.x, r.y) == smooth(Point(c.x, c.y), Point(r.targetX, r.targetY), c.smoothingAmount)
  {
    var aimed :=
      match c.target
      case None => c
      case Some(t) =>
        var p := locate(t);
        c.(targetX := if c.centerScreenOnTarget then p.x - (canvas.width as real) / 2.0 else p.x,
           targetY := if c.centerScreenOnTarget then p.y - (canvas.height as real) / 2.0 else p.y);
    if !aimed.smoothing then aimed.(x := aimed.targetX, y := aimed.targetY)
    else
      var next := smooth(Point(aimed.x, aimed.y), Point(aimed.targetX, aimed.targetY), aimed.smoothingAmount);
      aimed.(x := next.x, y := next.y)
  }

  /** Without smoothing the camera converges in one step: stepping again
      while the tracked sprite stays put changes nothing. */
  lemma SnapIsIdempotent(c: Camera, locate: Locate, canvas: Canvas, smooth: SmoothStep)
    requires !c.smoothing
    ensures Step(Step(c, locate, canvas, smooth), locate, canvas, smooth) == Step(c, locate, canvas, smooth)
  {
  }

  /** With centring on and no smoothing, after one step the tracked sprite
      sits exactly at the middle of the viewport
      [x, x + width] by [y, y + height]. */
  lemma CenteredTargetAtViewportMiddle(c: Camera, sprite: Id, locate: Locate, canvas: Canvas, smooth: SmoothStep)
    requires !c.smoothing
    ensures var r := Step(SetTarget(c, sprite, true), locate, canvas, smooth);
      && locate(sprite).x == r.x + (canvas.width as real) / 2.0
      && locate(sprite).y == r.y + (canvas.height as real) / 2.0
  {
  }

  /** After `unsetTarget` the camera stops following and, without
      smoothing, freezes at the last aim it had: a step moves it onto the
      previous target position and no further. */
  lemma UnsetFreezesAtLastAim(c: Camera, locate: Locate, canvas: Canvas, smooth: SmoothStep)
    requires !c.smoothing
    ensures var r := Step(UnsetTarget(c), locate, canvas, smooth);
      r.x == c.targetX && r.y == c.targetY && r.targetX == c.targetX && r.targetY == c.targetY
  {
  }
}
