/**
 * The launch mapping: a drag from the launcher to the pointer becomes an angle, a strength in
 * [0, 1] and a speed between 160 and 420 pixels per second.
 */
module Launch {
  import opened Numerics

  /** The longest drag that still adds speed, as a fraction of the smaller canvas side. */
  const MaxDragRatio: real := 0.35
  const BaseSpeed: real := 160.0
  const SpeedRange: real := 260.0

  datatype Aim = Aim(angle: real, strength: real, speed: real)

  function MaxDrag(width: real, height: real): real
  {
    Min(width, height) * MaxDragRatio
  }

  /** Length of the drag vector, `Math.hypot(dx, dy)`. */
  function DragLength(m: Math, launcher: Vec, target: Vec): (d: real)
    ensures d >= 0.0
  {
    var dx := target.x - launcher.x;
    var dy := target.y - launcher.y;
    Hypot(m, dx, dy)
  }

  /**
   * The aim a drag to `target` produces. Only the length is clamped; the direction is the raw
   * drag's, whatever its length (a zero-length drag gives the minimum speed). Its range and its
   * clamping are `DragPreviewSpec`.
   */
  function DragPreview(m: Math, launcher: Vec, width: real, height: real, target: Vec): (aim: Aim)
    requires width > 0.0 && height > 0.0
    ensures aim.angle == Atan2(m, target.y - launcher.y, target.x - launcher.x)
  {
    var maxDrag := MaxDrag(width, height);
    var clamped := Min(maxDrag, DragLength(m, launcher, target));
    var strength := clamped / maxDrag;
    Aim(Atan2(m, target.y - launcher.y, target.x - launcher.x), strength, BaseSpeed + strength * SpeedRange)
  }

  /**
   * Strength lies in [0, 1] and speed in [160, 420], speed is 160 + 260 * strength, strength is 1
   * exactly when the drag reaches the maximum drag, and below it strength is the drag's fraction
   * of the maximum.
   */
  lemma DragPreviewSpec(m: Math, launcher: Vec, width: real, height: real, target: Vec)
    requires width > 0.0 && height > 0.0
    ensures var aim := DragPreview(m, launcher, width, height, target);
      var length := DragLength(m, launcher, target);
      && 0.0 <= aim.strength <= 1.0
      && BaseSpeed <= aim.speed <= BaseSpeed + SpeedRange
      && aim.speed == BaseSpeed + aim.strength * SpeedRange
      && (aim.strength == 1.0 <==> length >= MaxDrag(width, height))
      && (length < MaxDrag(width, height) ==> aim.strength * MaxDrag(width, height) == length)
  {
    ClampedRatio(DragLength(m, launcher, target), MaxDrag(width, height));
  }

  /**
   * The first half of `firePuck`, which repeats the arithmetic of `getDragPreview` instead of
   * calling it: the launch angle and speed for a drag from `launcher` to `target`. They are the
   * preview's, so the shot flies as the aiming guide showed.
   */
  method FireAim(m: Math, launcher: Vec, width: real, height: real, target: Vec) returns (angle: real, speed: real)
    requires width > 0.0 && height > 0.0
    ensures angle == DragPreview(m, launcher, width, height, target).angle
    ensures speed == DragPreview(m, launcher, width, height, target).speed
  {
    var dx := target.x - launcher.x;
    var dy := target.y - launcher.y;
    var maxDrag := Min(width, height) * MaxDragRatio;
    var dragLength := Hypot(m, dx, dy);
    var clamped := Min(maxDrag, dragLength);
    var strength := clamped / maxDrag;
    speed := BaseSpeed + strength * SpeedRange;
    angle := Atan2(m, dy, dx);
  }

  /** The clamped drag over the maximum drag: a fraction in [0, 1] that is 1 exactly when the drag reaches the maximum. */
  lemma ClampedRatio(length: real, maxDrag: real)
    requires length >= 0.0 && maxDrag > 0.0
    ensures var s := Min(maxDrag, length) / maxDrag;
      && 0.0 <= s <= 1.0
      && (s == 1.0 <==> length >= maxDrag)
      && (length < maxDrag ==> s * maxDrag == length)
      && BaseSpeed <= BaseSpeed + s * SpeedRange <= BaseSpeed + SpeedRange
  {
    var s := Min(maxDrag, length) / maxDrag;
    if length >= maxDrag {
      assert s == 1.0;
    } else {
      assert s * maxDrag == length;
      if s >= 1.0 {
        ScaleAtLeast(s, maxDrag);
      }
    }
  }

  lemma ScaleAtLeast(s: real, d: real)
    requires s >= 1.0 && d > 0.0
    ensures s * d >= d
  {
    assert (s - 1.0) * d >= 0.0;
  }

  /** Velocity of a launch at `angle` with `speed`: (cos angle * speed, sin angle * speed). */
  function LaunchVelocity(m: Math, angle: real, speed: real): Vec
  {
    Vec(Cos(m, angle) * speed, Sin(m, angle) * speed)
  }

  /** The launch velocity depends on the angle and speed only. */
  lemma SameLaunch(m: Math, a1: real, s1: real, a2: real, s2: real)
    requires a1 == a2 && s1 == s2
    ensures LaunchVelocity(m, a1, s1) == Vec(Cos(m, a2) * s2, Sin(m, a2) * s2)
  {
  }

  /** A longer drag never gives a slower shot (the in-game tip: longer drags mean faster shots). */
  lemma LongerDragIsFaster(m: Math, launcher: Vec, width: real, height: real, t1: Vec, t2: Vec)
    requires width > 0.0 && height > 0.0
    requires DragLength(m, launcher, t1) <= DragLength(m, launcher, t2)
    ensures DragPreview(m, launcher, width, height, t1).speed <= DragPreview(m, launcher, width, height, t2).speed
  {
    var maxDrag := MaxDrag(width, height);
    var c1 := Min(maxDrag, DragLength(m, launcher, t1));
    var c2 := Min(maxDrag, DragLength(m, launcher, t2));
    assert c1 <= c2;
    DivideMonotone(c1, c2, maxDrag);
  }

  lemma DivideMonotone(a: real, b: real, d: real)
    requires a <= b && d > 0.0
    ensures a / d <= b / d
  {
  }
}
