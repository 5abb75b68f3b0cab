/**
 * The camera of game.js: it follows a target with smoothing and is then
 * clamped to the level's bounds.
 */
module Cameras {
  import opened Utils
  import opened Entities
  import Players

  /** The rectangle the camera's top-left corner may range over, extended by the view size. */
  datatype Limits = Limits(left: real, right: real, top: real, bottom: real)

  datatype CameraState = CameraState(x: real, y: real, width: real, height: real, limits: Limits)

  /** Each update moves the camera this fraction of the way to the target. */
  const SMOOTHING: real := 0.1
  const DEFAULT_LIMITS: Limits := Limits(0.0, 3000.0, 0.0, 600.0)

  /** The Camera constructor: at the origin, with the default level bounds. */
  function NewCameraState(width: real, height: real): (c: CameraState)
    ensures c.x == 0.0 && c.y == 0.0 && c.width == width && c.height == height
    ensures c.limits == DEFAULT_LIMITS
  {
    CameraState(0.0, 0.0, width, height, DEFAULT_LIMITS)
  }

  /** Where the camera would be with the target centred in the view. */
  function CenteredX(c: CameraState, t: Body): real
  {
    t.x - c.width / 2.0 + t.width / 2.0
  }

  function CenteredY(c: CameraState, t: Body): real
  {
    t.y - c.height / 2.0 + t.height / 2.0
  }

  function Abs(a: real): real { if a < 0.0 then -a else a }

  /**
   * Camera.update: without a target nothing happens; otherwise move a tenth
   * of the way to the centred position, then clamp to the bounds.
   */
  function CameraStep(c: CameraState, target: Option<Body>): (r: CameraState)
    ensures target.None? ==> r == c
    ensures r.width == c.width && r.height == c.height && r.limits == c.limits
    ensures target.Some? && c.limits.left <= c.limits.right - c.width ==>
      c.limits.left <= r.x <= c.limits.right - c.width
    ensures target.Some? && c.limits.top <= c.limits.bottom - c.height ==>
      c.limits.top <= r.y <= c.limits.bottom - c.height
  {
    match target
    case None => c
    case Some(t) =>
      var sx := c.x + (CenteredX(c, t) - c.x) * SMOOTHING;
      var sy := c.y + (CenteredY(c, t) - c.y) * SMOOTHING;
      c.(x := Clamp(sx, c.limits.left, c.limits.right - c.width),
         y := Clamp(sy, c.limits.top, c.limits.bottom - c.height))
  }

  /** Away from the bounds, the camera covers exactly a tenth of the distance to the centred target. */
  lemma CameraSmoothing(c: CameraState, t: Body)
    requires var sx := c.x + (CenteredX(c, t) - c.x) * SMOOTHING;
      c.limits.left <= sx <= c.limits.right - c.width
    ensures CameraStep(c, Some(t)).x - c.x == SMOOTHING * (CenteredX(c, t) - c.x)
  {
  }

  /**
   * When the centred position lies within the bounds, every update closes
   * at least a tenth of the remaining horizontal distance: clamping towards
   * a range that contains the goal never moves the camera away from it.
   */
  lemma CameraClosesIn(c: CameraState, t: Body)
    requires c.limits.left <= CenteredX(c, t) <= c.limits.right - c.width
    ensures Abs(CenteredX(c, t) - CameraStep(c, Some(t)).x) <= 0.9 * Abs(CenteredX(c, t) - c.x)
  {
    var goal := CenteredX(c, t);
    var sx := c.x + (goal - c.x) * SMOOTHING;
    assert goal - sx == 0.9 * (goal - c.x);
    var r := Clamp(sx, c.limits.left, c.limits.right - c.width);
    assert Abs(goal - r) <= Abs(goal - sx);
  }

  /** A camera already at the centred position inside the bounds stays there. */
  lemma CameraSettles(c: CameraState, t: Body)
    requires c.x == CenteredX(c, t) && c.y == CenteredY(c, t)
    requires c.limits.left <= c.x <= c.limits.right - c.width
    requires c.limits.top <= c.y <= c.limits.bottom - c.height
    ensures CameraStep(c, Some(t)) == c
  {
  }

  class Camera {
    var x: real
    var y: real
    var width: real
    var height: real
    var target: Players.Player?
    var limits: Limits

    function Model(): CameraState
      reads this
    {
      CameraState(x, y, width, height, limits)
    }

    constructor (width: real, height: real)
      ensures Model() == NewCameraState(width, height) && target == null
    {
      x := 0.0;
      y := 0.0;
      this.width := width;
      this.height := height;
      target := null;
      limits := DEFAULT_LIMITS;
    }

    method Follow(t: Players.Player)
      modifies this`target
      ensures target == t && Model() == old(Model())
    {
      target := t;
    }

    method Update()
      modifies this`x, this`y
      ensures target == old(target)
      ensures Model() == CameraStep(old(Model()), if target == null then None else Some(target.body))
    {
      if target == null {
        return;
      }
      var t := target.body;
      var targetX := t.x - width / 2.0 + t.width / 2.0;
      var targetY := t.y - height / 2.0 + t.height / 2.0;
      x := x + (targetX - x) * SMOOTHING;
      y := y + (targetY - y) * SMOOTHING;
      x := Clamp(x, limits.left, limits.right - width);
      y := Clamp(y, limits.top, limits.bottom - height);
    }

    method SetBounds(left: real, right: real, top: real, bottom: real)
      modifies this`limits
      ensures target == old(target) && Model() == old(Model()).(limits := Limits(left, right, top, bottom))
    {
      limits := Limits(left, right, top, bottom);
    }
  }
}
