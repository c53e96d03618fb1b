/** Axis-separated collision resolution of a moving rectangle against static
    platforms, shared by the player and the exam AI. Each axis is resolved by one
    pass over the platforms in order; every overlapping platform pushes the
    rectangle back against the direction of travel. */
module Collision {
  import opened Geometry

  /** Snapping on the horizontal axis: moving right, the right edge goes to the
      platform's left edge; moving left, the left edge goes to the platform's right
      edge; not moving, nothing changes. */
  function PushOutX(r: Rect, vx: real, p: Rect): (r': Rect)
    requires Overlaps(r, p)
    ensures r'.y == r.y && r'.w == r.w && r'.h == r.h
    ensures vx > 0.0 ==> r'.x < r.x && r'.Right() == p.Left() && !Overlaps(r', p)
    ensures vx < 0.0 ==> r'.x > r.x && r'.Left() == p.Right() && !Overlaps(r', p)
    ensures vx == 0.0 ==> r' == r
  {
    if vx > 0.0 then r.WithRight(p.Left())
    else if vx < 0.0 then r.WithX(p.Right())
    else r
  }

  /** Snapping on the vertical axis: falling, the bottom goes to the platform's top;
      rising, the top goes to the platform's bottom. */
  function PushOutY(r: Rect, vy: real, p: Rect): (r': Rect)
    requires Overlaps(r, p)
    ensures r'.x == r.x && r'.w == r.w && r'.h == r.h
    ensures vy > 0.0 ==> r'.y < r.y && r'.Bottom() == p.Top() && !Overlaps(r', p)
    ensures vy < 0.0 ==> r'.y > r.y && r'.Top() == p.Bottom() && !Overlaps(r', p)
    ensures vy == 0.0 ==> r' == r
  {
    if vy > 0.0 then r.WithBottom(p.Top())
    else if vy < 0.0 then r.WithY(p.Bottom())
    else r
  }

  /** The exam AI's horizontal pass: snaps on every overlap, keeps its velocity. */
  function SlideX(r: Rect, vx: real, ps: seq<Rect>): (r': Rect)
    ensures r'.y == r.y && r'.w == r.w && r'.h == r.h
    ensures vx > 0.0 ==> r'.x <= r.x
    ensures vx < 0.0 ==> r'.x >= r.x
    decreases |ps|
  {
    if |ps| == 0 then r
    else
      var r1 := if Overlaps(r, ps[0]) then PushOutX(r, vx, ps[0]) else r;
      SlideX(r1, vx, ps[1..])
  }

  datatype HorizontalResult = HorizontalResult(rect: Rect, vx: real)

  /** The player's horizontal pass: snaps on an overlap and stops. After the first
      overlap the velocity is 0, so later overlaps do not move the rectangle. */
  function StopX(r: Rect, vx: real, ps: seq<Rect>): (res: HorizontalResult)
    ensures res.rect.y == r.y && res.rect.w == r.w && res.rect.h == r.h
    ensures res.vx == 0.0 || res.vx == vx
    ensures vx > 0.0 ==> res.rect.x <= r.x
    ensures vx < 0.0 ==> res.rect.x >= r.x
    ensures vx == 0.0 ==> res == HorizontalResult(r, vx)
    decreases |ps|
  {
    if |ps| == 0 then HorizontalResult(r, vx)
    else if Overlaps(r, ps[0]) then StopX(PushOutX(r, vx, ps[0]), 0.0, ps[1..])
    else StopX(r, vx, ps[1..])
  }

  datatype VerticalResult = VerticalResult(rect: Rect, vy: real, landed: bool)

  /** The vertical pass of both actors: on an overlap the rectangle snaps and the
      vertical velocity becomes 0; a downward snap also marks it as landed. */
  function ResolveY(r: Rect, vy: real, landed: bool, ps: seq<Rect>): (res: VerticalResult)
    ensures res.rect.x == r.x && res.rect.w == r.w && res.rect.h == r.h
    ensures res.vy == 0.0 || res.vy == vy
    ensures vy > 0.0 ==> res.rect.y <= r.y
    ensures vy < 0.0 ==> res.rect.y >= r.y
    ensures res.landed ==> landed || (vy > 0.0 && res.vy == 0.0)
    ensures vy == 0.0 ==> res == VerticalResult(r, vy, landed)
    decreases |ps|
  {
    if |ps| == 0 then VerticalResult(r, vy, landed)
    else if Overlaps(r, ps[0]) && vy != 0.0 then
      ResolveY(PushOutY(r, vy, ps[0]), 0.0, landed || vy > 0.0, ps[1..])
    else ResolveY(r, vy, landed, ps[1..])
  }

  // ---------------------------------------------------------------------------
  // Properties of the passes

  /** Without any overlap, a pass changes nothing. */
  lemma {:induction false} NoOverlapNoChange(r: Rect, vx: real, vy: real, ps: seq<Rect>)
    requires !AnyOverlap(r, ps)
    ensures SlideX(r, vx, ps) == r
    ensures StopX(r, vx, ps) == HorizontalResult(r, vx)
    ensures ResolveY(r, vy, false, ps) == VerticalResult(r, vy, false)
    decreases |ps|
  {
    if |ps| > 0 {
      assert !Overlaps(r, ps[0]);
      assert !AnyOverlap(r, ps[1..]) by {
        forall i | 0 <= i < |ps[1..]|
          ensures !Overlaps(r, ps[1..][i])
        {
          assert ps[1..][i] == ps[i + 1];
        }
      }
      NoOverlapNoChange(r, vx, vy, ps[1..]);
    }
  }

  /** Dropping a platform the rectangle does not touch does not change whether it
      touches any. */
  lemma AnyOverlapTail(r: Rect, ps: seq<Rect>)
    requires |ps| > 0 && !Overlaps(r, ps[0])
    ensures AnyOverlap(r, ps) <==> AnyOverlap(r, ps[1..])
  {
    if AnyOverlap(r, ps) {
      var i :| 0 <= i < |ps| && Overlaps(r, ps[i]);
      assert ps[1..][i - 1] == ps[i];
    }
    if AnyOverlap(r, ps[1..]) {
      var j :| 0 <= j < |ps[1..]| && Overlaps(r, ps[1..][j]);
      assert ps[j + 1] == ps[1..][j];
    }
  }

  /** The player's horizontal pass stops it exactly when its box touches a platform. */
  lemma {:induction false} StopXStopsOnContact(r: Rect, vx: real, ps: seq<Rect>)
    ensures StopX(r, vx, ps).vx == (if AnyOverlap(r, ps) then 0.0 else vx)
    decreases |ps|
  {
    if |ps| > 0 {
      if Overlaps(r, ps[0]) {
        assert AnyOverlap(r, ps);
      } else {
        AnyOverlapTail(r, ps);
        StopXStopsOnContact(r, vx, ps[1..]);
      }
    }
  }

  /** A horizontal AI pass at zero velocity leaves the rectangle where it is. */
  lemma {:induction false} SlideXAtRest(r: Rect, ps: seq<Rect>)
    ensures SlideX(r, 0.0, ps) == r
    decreases |ps|
  {
    if |ps| > 0 {
      SlideXAtRest(r, ps[1..]);
    }
  }

  /** Resolving the vertical axis a second time, after a pass that stopped the
      rectangle, changes nothing. */
  lemma VerticalResolutionIdempotent(r: Rect, vy: real, ps: seq<Rect>)
    requires ResolveY(r, vy, false, ps).vy == 0.0
    ensures var first := ResolveY(r, vy, false, ps);
      ResolveY(first.rect, first.vy, first.landed, ps) == first
  {
  }

  /** Landing happens exactly when a falling rectangle is stopped, and it leaves the
      bottom edge on the top edge of a platform. */
  lemma {:induction false} LandedOnPlatformTop(r: Rect, vy: real, ps: seq<Rect>)
    ensures var res := ResolveY(r, vy, false, ps);
      && (res.landed <==> vy > 0.0 && res.vy == 0.0)
      && (res.landed ==> exists i :: 0 <= i < |ps| && res.rect.Bottom() == ps[i].Top())
    decreases |ps|
  {
    if |ps| > 0 {
      if Overlaps(r, ps[0]) && vy != 0.0 {
      } else {
        LandedOnPlatformTop(r, vy, ps[1..]);
        var res := ResolveY(r, vy, false, ps);
        if res.landed {
          var i :| 0 <= i < |ps[1..]| && res.rect.Bottom() == ps[1..][i].Top();
          assert ps[1..][i] == ps[i + 1];
        }
      }
    }
  }
}
