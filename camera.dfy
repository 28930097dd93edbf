/** The camera of `game.go`: `worldView.focus` snaps the view rectangle so
    that the tracked point lies in the central dead zone (a quarter of the
    view from each edge), then clamps the view into the world rectangle,
    lower bound first and upper bound last, one axis after the other. */
module Camera {
  import opened Geometry

  /** The X rule's dead-zone snap: the right edge is tested before the left. */
  function SnapRightFirst(pos: int, p: int, left: int, right: int): (r: int)
  {
    var a := if p - pos > right then p - right else pos;
    if p - a < left then p - left else a
  }

  /** The Y rule's dead-zone snap: the top edge is tested before the bottom. */
  function SnapTopFirst(pos: int, p: int, top: int, bottom: int): (r: int)
  {
    var a := if p - pos < top then p - top else pos;
    if p - a > bottom then p - bottom else a
  }

  /** Clamp a view origin into `[lo, lo + extent]`: the lower bound is applied
      first, so the upper bound wins when the world is narrower than the view. */
  function Clamp(pos: int, len: int, lo: int, extent: int): (r: int)
    ensures r + len <= lo + extent
    ensures len <= extent ==> lo <= r
    ensures lo <= pos && pos + len <= lo + extent ==> r == pos
    ensures len > extent ==> r == lo + extent - len
  {
    var c := if pos < lo then lo else pos;
    if c + len > lo + extent then lo + extent - len else c
  }

  /** The new view X after `focus(x, _)`; it does not depend on the Y coordinate. */
  function FocusX(view: Rect, world: Rect, x: int): int
  {
    Clamp(SnapRightFirst(view.X, x, Quo(view.W, 4), Quo(3 * view.W, 4)), view.W, world.X, world.W)
  }

  /** The new view Y after `focus(_, y)`. */
  function FocusY(view: Rect, world: Rect, y: int): int
  {
    Clamp(SnapTopFirst(view.Y, y, Quo(view.H, 4), Quo(3 * view.H, 4)), view.H, world.Y, world.H)
  }

  /** The view rectangle after `focus(x, y)`: only its origin moves. */
  function Focused(view: Rect, world: Rect, x: int, y: int): (r: Rect)
    ensures r.W == view.W && r.H == view.H
    ensures r.X + r.W <= world.X + world.W && r.Y + r.H <= world.Y + world.H
    ensures world.W >= view.W ==> world.X <= r.X
    ensures world.H >= view.H ==> world.Y <= r.Y
  {
    view.(X := FocusX(view, world, x), Y := FocusY(view, world, y))
  }

  // ---------------------------------------------------------------------
  // Properties of one axis
  // ---------------------------------------------------------------------

  /** For a view of non-negative size the dead-zone bounds are ordered. */
  lemma QuartersOrdered(len: int)
    requires len >= 0
    ensures 0 <= Quo(len, 4) <= Quo(3 * len, 4) <= len
  {
  }

  /** With ordered bounds at most one of the two edge tests fires, so the
      X and Y rules snap alike. */
  lemma SnapOrderIrrelevant(pos: int, p: int, left: int, right: int)
    requires left <= right
    ensures SnapRightFirst(pos, p, left, right) == SnapTopFirst(pos, p, left, right)
  {
  }

  /** After a snap that the clamp leaves alone, the point lies in the dead zone. */
  lemma SnapLandsInDeadZone(pos: int, p: int, left: int, right: int)
    requires left <= right
    ensures var r := SnapRightFirst(pos, p, left, right);
            left <= p - r <= right &&
            (left <= p - pos <= right ==> r == pos)
  {
  }

  /** One snapped-and-clamped axis: applying the rule to its own result
      changes nothing, whatever the sizes. */
  lemma {:induction false} AxisIdempotent(pos: int, p: int, left: int, right: int, len: int, lo: int, extent: int)
    ensures var r := Clamp(SnapRightFirst(pos, p, left, right), len, lo, extent);
            Clamp(SnapRightFirst(r, p, left, right), len, lo, extent) == r
    ensures var r := Clamp(SnapTopFirst(pos, p, left, right), len, lo, extent);
            Clamp(SnapTopFirst(r, p, left, right), len, lo, extent) == r
  {
    var s := SnapRightFirst(pos, p, left, right);
    var r := Clamp(s, len, lo, extent);
    var s2 := SnapRightFirst(r, p, left, right);
    if len > extent {
    } else if r == s {
      assert left <= right ==> s2 == r;
      assert left > right ==> s2 == p - left && s == p - left;
    } else if s < lo {
      assert r == lo;
      assert s2 == r || s2 < lo;
    } else {
      assert r == lo + extent - len && s > r;
      assert s2 == r || s2 > r;
    }
    var t := SnapTopFirst(pos, p, left, right);
    var u := Clamp(t, len, lo, extent);
    var t2 := SnapTopFirst(u, p, left, right);
    if len > extent {
    } else if u == t {
      assert left <= right ==> t2 == u;
      assert left > right ==> t2 == p - right && t == p - right;
    } else if t < lo {
      assert u == lo;
      assert t2 == u || t2 < lo;
    } else {
      assert u == lo + extent - len && t > u;
      assert t2 == u || t2 > u;
    }
  }

  // ---------------------------------------------------------------------
  // Properties of focus
  // ---------------------------------------------------------------------

  /** `focus` is idempotent: a second call with the same point does not move
      the view again. */
  lemma FocusIdempotent(view: Rect, world: Rect, x: int, y: int)
    ensures Focused(Focused(view, world, x, y), world, x, y) == Focused(view, world, x, y)
  {
    AxisIdempotent(view.X, x, Quo(view.W, 4), Quo(3 * view.W, 4), view.W, world.X, world.W);
    AxisIdempotent(view.Y, y, Quo(view.H, 4), Quo(3 * view.H, 4), view.H, world.Y, world.H);
  }

  /** When no clamp moves the snapped view, the point ends up between a
      quarter and three quarters of the view on each axis. */
  lemma FocusKeepsPointInDeadZone(view: Rect, world: Rect, x: int, y: int)
    requires view.W >= 0 && view.H >= 0
    ensures var r := Focused(view, world, x, y);
            (r.X == SnapRightFirst(view.X, x, Quo(view.W, 4), Quo(3 * view.W, 4)) ==>
               Quo(view.W, 4) <= x - r.X <= Quo(3 * view.W, 4)) &&
            (r.Y == SnapTopFirst(view.Y, y, Quo(view.H, 4), Quo(3 * view.H, 4)) ==>
               Quo(view.H, 4) <= y - r.Y <= Quo(3 * view.H, 4))
  {
    QuartersOrdered(view.W);
    QuartersOrdered(view.H);
    SnapLandsInDeadZone(view.X, x, Quo(view.W, 4), Quo(3 * view.W, 4));
    SnapOrderIrrelevant(view.Y, y, Quo(view.H, 4), Quo(3 * view.H, 4));
    SnapLandsInDeadZone(view.Y, y, Quo(view.H, 4), Quo(3 * view.H, 4));
  }

  /** A point already inside the dead zone of a view that lies in the world
      leaves the view where it is. */
  lemma FocusInsideDeadZoneIsStill(view: Rect, world: Rect, x: int, y: int)
    requires view.W >= 0 && view.H >= 0
    requires Quo(view.W, 4) <= x - view.X <= Quo(3 * view.W, 4)
    requires Quo(view.H, 4) <= y - view.Y <= Quo(3 * view.H, 4)
    requires world.X <= view.X && view.X + view.W <= world.X + world.W
    requires world.Y <= view.Y && view.Y + view.H <= world.Y + world.H
    ensures Focused(view, world, x, y) == view
  {
  }

  /** The view and world the game starts with. */
  const StartView := Rect(0, 0, 1024, 768)
  const StartWorld := Rect(0, 0, 4096, 768)

  /** From the starting view: the left edge holds the view at 0; a point near
      the right edge of the world clamps it to 4096 - 1024 = 3072; a point at
      x = 3600 is only snapped (to 3600 - 768 = 2832, not clamped); and since
      the world is exactly as tall as the view, Y stays 0. */
  lemma StartViewExamples(y: int)
    ensures Focused(StartView, StartWorld, 0, y).X == 0
    ensures Focused(StartView, StartWorld, 4000, y).X == 3072
    ensures Focused(StartView, StartWorld, 3600, y).X == 2832
    ensures forall x :: Focused(StartView, StartWorld, x, y).Y == 0
  {
  }

  // ---------------------------------------------------------------------
  // The world view
  // ---------------------------------------------------------------------

  /** `worldView`: the view rectangle and the world rectangle it moves in. */
  class WorldView {
    var view: Rect
    var world: Rect

    constructor (view: Rect, world: Rect)
      ensures this.view == view && this.world == world
    {
      this.view := view;
      this.world := world;
    }

    /** `focus(x, y)`: the view origin is worked out step by step, one axis
        after the other, and stored; the view's size and the world stay as
        they were. */
    method Focus(x: int, y: int)
      modifies this
      ensures view == Focused(old(view), old(world), x, y)
      ensures world == old(world)
    {
      var vx := view.X;
      var left, right := Quo(view.W, 4), Quo(3 * view.W, 4);
      if x - vx > right {
        vx := x - right;
      }
      if x - vx < left {
        vx := x - left;
      }
      if vx < world.X {
        vx := world.X;
      }
      if vx + view.W > world.X + world.W {
        vx := world.X + world.W - view.W;
      }
      assert vx == FocusX(view, world, x);

      var vy := view.Y;
      var top, bottom := Quo(view.H, 4), Quo(3 * view.H, 4);
      if y - vy < top {
        vy := y - top;
      }
      if y - vy > bottom {
        vy := y - bottom;
      }
      if vy < world.Y {
        vy := world.Y;
      }
      if vy + view.H > world.Y + world.H {
        vy := world.Y + world.H - view.H;
      }
      assert vy == FocusY(view, world, y);
      view := view.(X := vx, Y := vy);
    }
  }
}
