/** The river editor: a Bezier river whose control points are laid out on the
    y axis, picked and dragged with the mouse on the z = 0 plane, plus the
    parameters the keyboard edits and the splash particles that are
    regenerated when the animation speed changes. */
module RiverEditor {
  import opened Vectors
  import opened CurveMath
  import opened Particles

  /** The end of `ScreenToWorldSpace`: the picking ray from the unprojected
      near point to the unprojected far point, cut with the plane z = 0 at
      `t = -near.z / (far - near).z`. The source divides without a guard, so a
      ray parallel to the plane is excluded by the precondition. */
  function IntersectZPlane(near: Vec3, far: Vec3): (p: Vec3)
    requires near.z != far.z
    ensures p.z == 0.0
    ensures Cross(Sub(p, near), Sub(far, near)) == Zero
  {
    var pickRay := Sub(far, near);
    var t := -near.z / pickRay.z;
    var p := Add(near, Scale(t, pickRay));
    assert Sub(p, near) == Scale(t, pickRay);
    p
  }

  /** The intersection is the only point of the ray's line that lies on z = 0. */
  lemma ZPlaneHitUnique(near: Vec3, far: Vec3, s: real)
    requires near.z != far.z
    requires Add(near, Scale(s, Sub(far, near))).z == 0.0
    ensures Add(near, Scale(s, Sub(far, near))) == IntersectZPlane(near, far)
  {
    var d := Sub(far, near);
    assert near.z + s * d.z == 0.0;
    assert s == -near.z / d.z;
  }

  /** The y coordinate `Init` gives control point `i` of `count` on a column of
      height `height`: the middle of the i-th of `count` equal slots. */
  function SlotY(i: int, count: int, height: real): real
    requires count > 0
  {
    var step := height / count as real;
    -height / 2.0 + i as real * step + step / 2.0
  }

  /** Neighbouring points are one slot apart. */
  lemma SlotSpacing(i: int, count: int, height: real)
    requires count > 0
    ensures SlotY(i + 1, count, height) - SlotY(i, count, height) == height / count as real
  {
  }

  /** On a column of positive height the points go strictly upwards. */
  lemma SlotsIncreasing(i: int, j: int, count: int, height: real)
    requires count > 0 && 0.0 < height && i < j
    ensures SlotY(i, count, height) < SlotY(j, count, height)
  {
    var step := height / count as real;
    assert 0.0 < step;
    assert SlotY(j, count, height) - SlotY(i, count, height) == (j - i) as real * step;
  }

  /** Every point lies strictly inside the column (-height/2, height/2). */
  lemma SlotInside(i: int, count: int, height: real)
    requires 0 <= i < count && 0.0 < height
    ensures -height / 2.0 < SlotY(i, count, height) < height / 2.0
  {
    var step := height / count as real;
    assert count as real * step == height;
    assert 0.0 < step;
    assert 0.0 <= i as real * step;
    assert 0.0 <= (count - (i + 1)) as real * step;
    assert (i + 1) as real * step <= height;
  }

  /** The layout is symmetric about y = 0. */
  lemma SlotsSymmetric(i: int, count: int, height: real)
    requires count > 0
    ensures SlotY(count - 1 - i, count, height) == -SlotY(i, count, height)
  {
    var step := height / count as real;
    assert count as real * step == height;
  }

  /** The points `Init` pushes: on the y axis, each in the middle of its slot. */
  ghost predicate IsLayout(points: seq<Vec3>, count: int, height: real)
    requires count > 0
  {
    |points| == count &&
    forall i :: 0 <= i < |points| ==> points[i] == Vec3(0.0, SlotY(i, count, height), 0.0)
  }

  lemma LayoutSpacing(points: seq<Vec3>, count: int, height: real)
    requires count > 0 && IsLayout(points, count, height)
    ensures forall i :: 0 < i < |points| ==> points[i].y - points[i - 1].y == height / count as real
  {
    forall i | 0 < i < |points|
      ensures points[i].y - points[i - 1].y == height / count as real
    {
      SlotSpacing(i - 1, count, height);
    }
  }

  lemma LayoutSymmetric(points: seq<Vec3>, count: int, height: real)
    requires count > 0 && IsLayout(points, count, height)
    ensures forall i :: 0 <= i < |points| ==> points[|points| - 1 - i].y == -points[i].y
  {
    forall i | 0 <= i < |points|
      ensures points[|points| - 1 - i].y == -points[i].y
    {
      SlotsSymmetric(i, count, height);
    }
  }

  lemma LayoutInside(points: seq<Vec3>, count: int, height: real)
    requires count > 0 && 0.0 < height && IsLayout(points, count, height)
    ensures forall i :: 0 <= i < |points| ==> -height / 2.0 < points[i].y < height / 2.0
  {
    forall i | 0 <= i < |points|
      ensures -height / 2.0 < points[i].y < height / 2.0
    {
      SlotInside(i, count, height);
    }
  }

  lemma LayoutIncreasing(points: seq<Vec3>, count: int, height: real)
    requires count > 0 && 0.0 < height && IsLayout(points, count, height)
    ensures forall i, j :: 0 <= i < j < |points| ==> points[i].y < points[j].y
  {
    forall i, j | 0 <= i < j < |points|
      ensures points[i].y < points[j].y
    {
      SlotsIncreasing(i, j, count, height);
    }
  }

  /** The control-point loop of `Init`: `count` points pushed in order, each
      on the y axis at the middle of its slot of the column of height
      `height` (the aspect ratio's y). */
  method LayoutControlPoints(count: int, height: real) returns (points: seq<Vec3>)
    ensures |points| == if count < 0 then 0 else count
    ensures forall i :: 0 <= i < |points| ==>
      points[i].x == 0.0 && points[i].z == 0.0 && points[i].y == SlotY(i, count, height)
    ensures forall i :: 0 < i < |points| ==> points[i].y - points[i - 1].y == height / count as real
    ensures forall i :: 0 <= i < |points| ==> points[|points| - 1 - i].y == -points[i].y
    ensures 0.0 < height ==> forall i :: 0 <= i < |points| ==>
      -height / 2.0 < points[i].y < height / 2.0
    ensures 0.0 < height ==> forall i, j :: 0 <= i < j < |points| ==> points[i].y < points[j].y
  {
    points := [];
    // With no points the loop body never runs and the step is never used.
    if count <= 0 {
      return;
    }
    var step := height / count as real;
    var i := 0;
    while i < count
      invariant 0 <= i <= count && |points| == i
      invariant forall k :: 0 <= k < i ==> points[k] == Vec3(0.0, SlotY(k, count, height), 0.0)
    {
      points := points + [Vec3(0.0, -height / 2.0 + i as real * step + step / 2.0, 0.0)];
      i := i + 1;
    }
    LayoutSpacing(points, count, height);
    LayoutSymmetric(points, count, height);
    if 0.0 < height {
      LayoutInside(points, count, height);
      LayoutIncreasing(points, count, height);
    }
  }

  /** The selection a left press leaves: the last point, in index order, within
      `threshold` of the mouse, or the previous selection when there is none. */
  function LastHit(points: seq<Vec3>, mouse: Vec3, threshold: real, previous: int): (r: int)
    ensures (forall i :: 0 <= i < |points| ==> !Within(mouse, points[i], threshold)) ==> r == previous
    ensures (exists i :: 0 <= i < |points| && Within(mouse, points[i], threshold)) ==>
      && 0 <= r < |points|
      && Within(mouse, points[r], threshold)
      && forall j :: r < j < |points| ==> !Within(mouse, points[j], threshold)
  {
    if |points| == 0 then previous
    else if Within(mouse, points[|points| - 1], threshold) then |points| - 1
    else
      var front := points[..|points| - 1];
      assert forall i :: 0 <= i < |front| ==> front[i] == points[i];
      LastHit(front, mouse, threshold, previous)
  }

  class RiverEditor {
    // Control points
    var controlPointsCount: int
    var controlPoints: seq<Vec3>

    // River animation
    var animationSpeed: real
    var tilingFactor: real

    // Particle effect: the buffer last filled by `UpdateVFX`
    var particles: array<Particle>

    // Editing
    var smoothness: real

    // Camera
    var viewDistance: real
    var aspectRatio: Vec2

    // Current mouse selection
    var selection: int
    var clickDistanceThreshold: real

    // Curve generation parameters
    var instanceCount: int
    var generatedPoints: int
    var riverWidth: real

    /** The C library's `rand()`: value number `k` it returns is `rng(k)`,
        and `randCalls` values have been taken so far. */
    const rng: nat -> nat
    const randMax: nat
    var randCalls: nat

    /** One control point per count, and the selection is none (-1) or one of them. */
    ghost predicate SelectionValid()
      reads this
    {
      |controlPoints| == controlPointsCount && -1 <= selection < controlPointsCount
    }

    /** `rand()` returns values in [0, RAND_MAX], and RAND_MAX is positive. */
    ghost predicate RandValid() {
      0 < randMax && forall k :: rng(k) <= randMax
    }

    /** The particle buffer holds as many particles as the animation speed
        asks for, each drawn from the splash ranges. */
    ghost predicate ParticlesValid()
      reads this, particles
    {
      && particles.Length == ParticleCount(animationSpeed)
      && forall i :: 0 <= i < particles.Length ==> WithinSplashBounds(particles[i])
    }

    ghost predicate Valid()
      reads this, particles
    {
      SelectionValid() && RandValid() && ParticlesValid()
    }

    constructor Init(rng: nat -> nat, randMax: nat)
      requires 0 < randMax && forall k :: rng(k) <= randMax
      ensures Valid() && fresh(particles)
      ensures controlPointsCount == 4 && selection == -1
      ensures forall i :: 0 <= i < 4 ==> controlPoints[i] == Vec3(0.0, SlotY(i, 4, 9.0), 0.0)
      ensures smoothness == 0.5 && animationSpeed == 0.1 && tilingFactor == 3.0
      ensures aspectRatio == Vec2(16.0, 9.0) && viewDistance == 100.0
      ensures clickDistanceThreshold == 0.2
      ensures instanceCount == 1 && generatedPoints == 30 && riverWidth == 1.0
      ensures randCalls == 4 * particles.Length && particles.Length == 1
      ensures this.rng == rng && this.randMax == randMax
      ensures particles[0] == SplashDraw(0)
    {
      this.rng := rng;
      this.randMax := randMax;
      randCalls := 0;
      controlPoints := [];
      particles := new Particle[0];
      new;
      DefaultParameters();
      var layout := LayoutControlPoints(controlPointsCount, aspectRatio.y);
      controlPoints := controlPoints + layout;
      UpdateVFX();
    }

    /** Every editor parameter back to its default; the selection cleared. */
    method DefaultParameters()
      modifies this`controlPointsCount, this`smoothness, this`animationSpeed, this`tilingFactor
      modifies this`aspectRatio, this`viewDistance, this`clickDistanceThreshold, this`selection
      modifies this`instanceCount, this`generatedPoints, this`riverWidth
      ensures controlPointsCount == 4 && smoothness == 0.5 && animationSpeed == 0.1 && tilingFactor == 3.0
      ensures aspectRatio == Vec2(16.0, 9.0) && viewDistance == 100.0
      ensures clickDistanceThreshold == 0.2 && selection == -1
      ensures instanceCount == 1 && generatedPoints == 30 && riverWidth == 1.0
    {
      controlPointsCount := 4;
      smoothness := 0.5;
      animationSpeed := 0.1;
      tilingFactor := 3.0;
      aspectRatio := Vec2(16.0, 9.0);
      viewDistance := 100.0;
      clickDistanceThreshold := 0.2;
      selection := -1;
      instanceCount := 1;
      generatedPoints := 30;
      riverWidth := 1.0;
    }

    /** `rand()`: the next value of the generator. */
    method Rand() returns (r: nat)
      requires RandValid()
      modifies this`randCalls
      ensures r == rng(old(randCalls)) && r <= randMax
      ensures randCalls == old(randCalls) + 1
    {
      r := rng(randCalls);
      randCalls := randCalls + 1;
    }

    /** The particle made from values `first` to `first + 3` of `rand()`. */
    function SplashDraw(first: nat): Particle
      requires RandValid()
    {
      SplashParticle(rng(first), rng(first + 1), rng(first + 2), rng(first + 3), randMax)
    }

    /** The body of the `UpdateVFX` loop: one particle from four calls of `rand()`. */
    method DrawParticle() returns (p: Particle)
      requires RandValid()
      modifies this`randCalls
      ensures randCalls == old(randCalls) + 4
      ensures p == SplashDraw(old(randCalls))
    {
      var r0 := Rand();
      var px := RandFloat(-0.5, 0.5, r0, randMax);
      var r1 := Rand();
      var py := RandFloat(0.0, 1.0, r1, randMax);
      var r2 := Rand();
      var sx := RandFloat(-0.125, 0.125, r2, randMax);
      var r3 := Rand();
      var sy := RandFloat(0.0, 0.25, r3, randMax);
      p := Particle(Vec4(px, py, 0.0, 1.0), Vec4(sx, sy, 0.0, 0.0));
    }

    /** A fresh particle buffer of `10 * |animationSpeed|` particles, each from
        four further values of `rand()`. */
    method UpdateVFX()
      requires RandValid()
      modifies this`particles, this`randCalls
      ensures fresh(particles) && ParticlesValid()
      ensures randCalls == old(randCalls) + 4 * particles.Length
      ensures forall i :: 0 <= i < particles.Length ==> particles[i] == SplashDraw(old(randCalls) + 4 * i)
    {
      var nrParticles := ParticleCount(animationSpeed);
      var data := new Particle[nrParticles];
      var i := 0;
      while i < nrParticles
        invariant 0 <= i <= nrParticles
        invariant randCalls == old(randCalls) + 4 * i
        invariant forall k :: 0 <= k < i ==> data[k] == SplashDraw(old(randCalls) + 4 * k)
      {
        data[i] := DrawParticle();
        i := i + 1;
      }
      particles := data;
    }

    /** The point at parameter `t` of the river's Bezier curve. The loop keeps
        the binomial coefficient of the current index in `c`, updating it by
        `c * (n - i) / i`. */
    method GetBezierPoint(t: real) returns (r: Vec3)
      requires |controlPoints| == controlPointsCount
      ensures r == Bezier(controlPoints, t)
      ensures 1 <= |controlPoints| && t == 0.0 ==> r == controlPoints[0]
      ensures 1 <= |controlPoints| && t == 1.0 ==> r == controlPoints[|controlPoints| - 1]
      ensures 1 <= |controlPoints| && (forall i :: 0 <= i < |controlPoints| ==> controlPoints[i] == controlPoints[0])
        ==> r == controlPoints[0]
    {
      var n, points := controlPointsCount, controlPoints;
      r := Zero;
      var c := 1.0;
      var i := 0;
      while i < n
        invariant 0 <= i <= n == |points|
        invariant r == BezierPrefix(points, t, i)
        invariant 0 < i ==> c == Binomial(n - 1, i - 1)
        invariant i == 0 ==> c == 1.0
      {
        if i > 0 {
          CoefficientStep(n, i, c);
          c := c * ((n - i) as real / i as real);
        }
        var w := c * Pow(1.0 - t, n - 1 - i) * Pow(t, i);
        BezierLoopStep(points, n, t, i, c, w, r);
        r := Add(r, Scale(w, points[i]));
        i := i + 1;
      }
      BezierFacts(controlPoints, t);
    }

    /** Keys held this frame: T widens and R narrows the river, P raises and O
        lowers the texture tiling, each by `smoothness * deltaTime`, unclamped. */
    method OnInputUpdate(deltaTime: real, holdT: bool, holdR: bool, holdP: bool, holdO: bool)
      requires Valid()
      modifies this`riverWidth, this`tilingFactor
      ensures Valid()
      ensures riverWidth == old(riverWidth)
        + (if holdT then smoothness * deltaTime else 0.0) - (if holdR then smoothness * deltaTime else 0.0)
      ensures tilingFactor == old(tilingFactor)
        + (if holdP then smoothness * deltaTime else 0.0) - (if holdO then smoothness * deltaTime else 0.0)
      ensures holdT == holdR ==> riverWidth == old(riverWidth)
      ensures holdP == holdO ==> tilingFactor == old(tilingFactor)
    {
      if holdT {
        riverWidth := riverWidth + smoothness * deltaTime;
      }
      if holdR {
        riverWidth := riverWidth - smoothness * deltaTime;
      }
      if holdP {
        tilingFactor := tilingFactor + smoothness * deltaTime;
      }
      if holdO {
        tilingFactor := tilingFactor - smoothness * deltaTime;
      }
    }

    /** A key press while keypad + or keypad - is held: the animation speed
        steps by `smoothness`, unclamped, and the particles are regenerated
        after each step. */
    method OnKeyPress(holdAdd: bool, holdSubtract: bool)
      requires Valid()
      modifies this`animationSpeed, this`particles, this`randCalls
      ensures Valid()
      ensures animationSpeed == old(animationSpeed)
        + (if holdAdd then smoothness else 0.0) - (if holdSubtract then smoothness else 0.0)
      ensures holdAdd || holdSubtract ==> fresh(particles)
      ensures !holdAdd && !holdSubtract ==> particles == old(particles) && randCalls == old(randCalls)
      ensures holdAdd || holdSubtract ==>
        randCalls == (old(randCalls)
          + (if holdAdd && holdSubtract then 4 * ParticleCount(old(animationSpeed) + smoothness) else 0)
          + 4 * particles.Length)
      ensures holdAdd || holdSubtract ==>
        forall i :: 0 <= i < particles.Length ==> particles[i] == SplashDraw(randCalls - 4 * particles.Length + 4 * i)
    {
      if holdAdd {
        animationSpeed := animationSpeed + smoothness;
        UpdateVFX();
      }
      if holdSubtract {
        animationSpeed := animationSpeed - smoothness;
        UpdateVFX();
      }
    }

    /** Dragging: the selected control point, and no other, moves to where the
        picking ray meets z = 0. */
    method OnMouseMove(near: Vec3, far: Vec3)
      requires Valid()
      requires selection != -1 ==> near.z != far.z
      modifies this`controlPoints
      ensures Valid()
      ensures selection != -1 ==> controlPoints == old(controlPoints)[selection := IntersectZPlane(near, far)]
      ensures selection == -1 ==> controlPoints == old(controlPoints)
      ensures |controlPoints| == |old(controlPoints)|
      ensures forall i :: 0 <= i < |controlPoints| && i != selection ==> controlPoints[i] == old(controlPoints)[i]
    {
      if selection != -1 {
        controlPoints := controlPoints[selection := IntersectZPlane(near, far)];
      }
    }

    /** A left press selects the last control point within the click
        threshold of the picked point; with none in reach the selection stays. */
    method OnMouseBtnPress(leftButton: bool, near: Vec3, far: Vec3)
      requires Valid()
      requires leftButton ==> near.z != far.z
      modifies this`selection
      ensures Valid()
      ensures leftButton ==>
        selection == LastHit(controlPoints, IntersectZPlane(near, far), clickDistanceThreshold, old(selection))
      ensures !leftButton ==> selection == old(selection)
    {
      if leftButton {
        var mousePos := IntersectZPlane(near, far);
        var i := 0;
        while i < controlPointsCount
          invariant 0 <= i <= controlPointsCount
          invariant selection == LastHit(controlPoints[..i], mousePos, clickDistanceThreshold, old(selection))
          invariant -1 <= selection < controlPointsCount
        {
          if Within(mousePos, controlPoints[i], clickDistanceThreshold) {
            selection := i;
          }
          assert controlPoints[..i + 1][..i] == controlPoints[..i];
          i := i + 1;
        }
        assert controlPoints[..i] == controlPoints;
      }
    }

    /** Releasing the left button clears the selection. */
    method OnMouseBtnRelease(leftButton: bool)
      requires Valid()
      modifies this`selection
      ensures Valid()
      ensures leftButton ==> selection == -1
      ensures !leftButton ==> selection == old(selection)
    {
      if leftButton {
        selection := -1;
      }
    }
  }
}
