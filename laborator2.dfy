/** The surface-generation laboratory: four control points of a cubic Bezier
    curve on the ground plane y = 0, the first moved with the arrow keys, the
    first two picked with the mouse on y = 0 and dragged, and the parameters
    of the generated surface. */
module Laborator2 {
  import opened Vectors

  datatype Option<T> = None | Some(value: T)

  /** The control points a mouse press can select. */
  datatype PointId = P1 | P2

  /** A control point is hit when the picked point is closer than this. */
  const HitRadius: real := 0.1

  /** The distance the press starts comparing against before any hit. */
  const StartMin: real := 10.0

  /** The step one frame of a held arrow key moves the first control point. */
  const KeyStep: real := 0.05

  /** The picking ray from the unprojected near point to the unprojected far
      point, cut with the ground plane y = 0 at `t = -near.y / (far - near).y`.
      The source divides without a guard, so a ray parallel to the plane is
      excluded by the precondition. */
  function IntersectYPlane(near: Vec3, far: Vec3): (p: Vec3)
    requires near.y != far.y
    ensures p.y == 0.0
    ensures Cross(Sub(p, near), Sub(far, near)) == Zero
  {
    var mouseDir := Sub(far, near);
    var t := -near.y / mouseDir.y;
    var p := Add(near, Scale(t, mouseDir));
    assert Sub(p, near) == Scale(t, mouseDir);
    p
  }

  /** The intersection is the only point of the ray's line on y = 0. */
  lemma YPlaneHitUnique(near: Vec3, far: Vec3, s: real)
    requires near.y != far.y
    requires Add(near, Scale(s, Sub(far, near))).y == 0.0
    ensures Add(near, Scale(s, Sub(far, near))) == IntersectYPlane(near, far)
  {
    var d := Sub(far, near);
    assert near.y + s * d.y == 0.0;
    assert s == -near.y / d.y;
  }

  /** The selection a left press leaves, on squared distances: the first
      point when it is hit, replaced by the second when that one is hit and
      strictly closer than the best distance so far (the first point's when it
      was hit, `StartMin` otherwise); with no hit the selection stays. */
  function PressPick(mouse: Vec3, p1: Vec3, p2: Vec3, current: Option<PointId>): (r: Option<PointId>)
    ensures r == current || r == Some(P1) || r == Some(P2)
    ensures !Within(mouse, p1, HitRadius) && !Within(mouse, p2, HitRadius) ==> r == current
    ensures (&& Within(mouse, p2, HitRadius)
             && (!Within(mouse, p1, HitRadius) || DistSq(mouse, p2) < DistSq(mouse, p1)))
      ==> r == Some(P2)
    ensures (&& Within(mouse, p1, HitRadius)
             && !(Within(mouse, p2, HitRadius) && DistSq(mouse, p2) < DistSq(mouse, p1)))
      ==> r == Some(P1)
  {
    var hit1 := Within(mouse, p1, HitRadius);
    var afterFirst := if hit1 then Some(P1) else current;
    var minSq := if hit1 then DistSq(mouse, p1) else StartMin * StartMin;
    if Within(mouse, p2, HitRadius) && DistSq(mouse, p2) < minSq then Some(P2) else afterFirst
  }

  /** The press as the source writes it, on the lengths `l1 = length(mouse - p1)`
      and `l2 = length(mouse - p2)`. */
  function PickByLengths(l1: real, l2: real, current: Option<PointId>): Option<PointId> {
    var afterFirst := if l1 < HitRadius then Some(P1) else current;
    var min := if l1 < HitRadius then l1 else StartMin;
    if l2 < HitRadius && l2 < min then Some(P2) else afterFirst
  }

  /** Picking on squared distances selects exactly what the source's length
      comparisons select. */
  lemma PressPickMatchesLengths(l1: real, l2: real, mouse: Vec3, p1: Vec3, p2: Vec3, current: Option<PointId>)
    requires IsLength(l1, Sub(mouse, p1)) && IsLength(l2, Sub(mouse, p2))
    ensures PressPick(mouse, p1, p2, current) == PickByLengths(l1, l2, current)
  {
    WithinIsLengthTest(l1, mouse, p1, HitRadius);
    WithinIsLengthTest(l2, mouse, p2, HitRadius);
    CloserIsLengthTest(l1, l2, mouse, p1, p2);
    SquaresOrdered(l2, StartMin);
  }

  class Laborator2 {
    // Control points of the cubic Bezier curve
    var controlP1: Vec3
    var controlP2: Vec3
    var controlP3: Vec3
    var controlP4: Vec3

    /** The point the global `selected` pointer designates, if any. */
    var selected: Option<PointId>

    // Surface generation parameters
    var generatedPoints: int
    var instanceCount: int
    var maxTranslate: real

    constructor Init()
      ensures generatedPoints == 10 && instanceCount == 5 && maxTranslate == 8.0
      ensures controlP1 == Vec3(-4.0, 0.0, -2.5) && controlP2 == Vec3(-2.5, 0.0, 1.5)
      ensures controlP3 == Vec3(-1.5, 0.0, 3.0) && controlP4 == Vec3(-4.0, 0.0, 4.0)
      ensures selected == None
    {
      generatedPoints := 10;
      instanceCount := 5;
      maxTranslate := 8.0;
      controlP1 := Vec3(-4.0, 0.0, -2.5);
      controlP2 := Vec3(-2.5, 0.0, 1.5);
      controlP3 := Vec3(-1.5, 0.0, 3.0);
      controlP4 := Vec3(-4.0, 0.0, 4.0);
      selected := None;
    }

    /** The control point a selection designates. */
    function Point(id: PointId): Vec3
      reads this
    {
      match id
      case P1 => controlP1
      case P2 => controlP2
    }

    /** Arrow keys held this frame move the first control point by `KeyStep`:
        left and right along x, up and down along z. Opposite keys cancel. */
    method OnInputUpdate(left: bool, right: bool, up: bool, down: bool)
      modifies this`controlP1
      ensures controlP1.x == old(controlP1.x) - (if left then KeyStep else 0.0) + (if right then KeyStep else 0.0)
      ensures controlP1.y == old(controlP1.y)
      ensures controlP1.z == old(controlP1.z) + (if up then KeyStep else 0.0) - (if down then KeyStep else 0.0)
      ensures left == right && up == down ==> controlP1 == old(controlP1)
    {
      if left {
        controlP1 := Sub(controlP1, Vec3(KeyStep, 0.0, 0.0));
      }
      if right {
        controlP1 := Add(controlP1, Vec3(KeyStep, 0.0, 0.0));
      }
      if up {
        controlP1 := Add(controlP1, Vec3(0.0, 0.0, KeyStep));
      }
      if down {
        controlP1 := Sub(controlP1, Vec3(0.0, 0.0, KeyStep));
      }
    }

    /** Dragging: the selected control point, and no other, moves to the
        unprojected cursor `mouse`, laid on y = 0 with its z negated. */
    method OnMouseMove(mouse: Vec3)
      modifies this`controlP1, this`controlP2
      ensures selected.Some? ==> Point(selected.value) == Vec3(mouse.x, 0.0, -mouse.z)
      ensures selected != Some(P1) ==> controlP1 == old(controlP1)
      ensures selected != Some(P2) ==> controlP2 == old(controlP2)
    {
      var target := Vec3(mouse.x, 0.0, -mouse.z);
      match selected
      case None =>
      case Some(P1) => controlP1 := target;
      case Some(P2) => controlP2 := target;
    }

    /** A left press picks the ground point under the cursor and selects the
        first or second control point as `PressPick` says. */
    method OnMouseBtnPress(leftButton: bool, near: Vec3, far: Vec3)
      requires leftButton ==> near.y != far.y
      modifies this`selected
      ensures leftButton ==> selected == PressPick(IntersectYPlane(near, far), controlP1, controlP2, old(selected))
      ensures !leftButton ==> selected == old(selected)
    {
      if leftButton {
        var mousePos := IntersectYPlane(near, far);
        var min := StartMin * StartMin;
        if Within(mousePos, controlP1, HitRadius) {
          selected := Some(P1);
          min := DistSq(mousePos, controlP1);
        }
        if Within(mousePos, controlP2, HitRadius) && DistSq(mousePos, controlP2) < min {
          selected := Some(P2);
        }
      }
    }

    /** Releasing the left button clears the selection. */
    method OnMouseBtnRelease(leftButton: bool)
      modifies this`selected
      ensures leftButton ==> selected == None
      ensures !leftButton ==> selected == old(selected)
    {
      if leftButton {
        selected := None;
      }
    }
  }
}
