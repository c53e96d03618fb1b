/** The scrolling camera: it keeps its target a third of the way across the window
    and half-way down, clamped so that the view never leaves the level. */
module CameraView {
  import opened Geometry
  import Config

  /** Horizontal screen position the target's centre is kept at */
  const AnchorX: int := Config.WindowWidth / 3
  /** Vertical screen position the target's centre is kept at */
  const AnchorY: int := Config.WindowHeight / 2

  /** The camera offset (x, y) for a level of size width x height. */
  datatype Camera = Camera(x: int, y: int, width: int, height: int)

  function NewCamera(width: int, height: int): (c: Camera)
    ensures c.x == 0 && c.y == 0 && c.width == width && c.height == height
  {
    Camera(0, 0, width, height)
  }

  /** Screen position of a level rectangle. */
  function Apply(c: Camera, r: Rect): (r': Rect)
    ensures r'.x - c.x == r.x && r'.y - c.y == r.y && r'.w == r.w && r'.h == r.h
  {
    r.Move(c.x, c.y)
  }

  /** One clamped axis: the ideal offset, no more than 0 and no less than the
      negated overhang of the level past the window. */
  function ClampOffset(ideal: int, levelSize: int, windowSize: int): (o: int)
    ensures levelSize >= windowSize ==> -(levelSize - windowSize) <= o <= 0
    ensures -(levelSize - windowSize) <= ideal <= 0 ==> o == ideal
    ensures ideal > 0 ==> o == MaxI(0, windowSize - levelSize)
    ensures ideal < -(levelSize - windowSize) ==> o == -(levelSize - windowSize)
  {
    MaxI(-(levelSize - windowSize), MinI(0, ideal))
  }

  /** Re-centres the camera on the target. */
  function Update(c: Camera, target: Rect): (c': Camera)
    ensures c'.width == c.width && c'.height == c.height
    ensures c'.x == ClampOffset(AnchorX - target.CenterX(), c.width, Config.WindowWidth)
    ensures c'.y == ClampOffset(AnchorY - target.CenterY(), c.height, Config.WindowHeight)
  {
    Camera(ClampOffset(AnchorX - target.CenterX(), c.width, Config.WindowWidth),
           ClampOffset(AnchorY - target.CenterY(), c.height, Config.WindowHeight),
           c.width, c.height)
  }

  // ---------------------------------------------------------------------------
  // Properties

  /** In a level at least as large as the window, every visible screen column and
      row lies inside the level. */
  lemma ViewInsideLevel(c: Camera, target: Rect, sx: int, sy: int)
    requires c.width >= Config.WindowWidth && c.height >= Config.WindowHeight
    requires 0 <= sx < Config.WindowWidth && 0 <= sy < Config.WindowHeight
    ensures var c' := Update(c, target);
      0 <= sx - c'.x < c.width && 0 <= sy - c'.y < c.height
  {
  }

  /** Away from the level's edges the target's centre is drawn exactly at the anchor. */
  lemma TargetAtAnchor(c: Camera, target: Rect)
    requires AnchorX <= target.CenterX() <= AnchorX + c.width - Config.WindowWidth
    requires AnchorY <= target.CenterY() <= AnchorY + c.height - Config.WindowHeight
    ensures var s := Apply(Update(c, target), target);
      s.CenterX() == AnchorX && s.CenterY() == AnchorY
  {
  }

  /** A level exactly one window high never scrolls vertically. */
  lemma NoVerticalScroll(c: Camera, target: Rect)
    requires c.height == Config.WindowHeight
    ensures Update(c, target).y == 0
  {
  }

  /** The further right the target, the further left the view is shifted. */
  lemma FollowsMonotonically(c: Camera, a: Rect, b: Rect)
    requires a.CenterX() <= b.CenterX()
    ensures Update(c, b).x <= Update(c, a).x
  {
  }
}
