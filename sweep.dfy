/** The cube-sweep animation: the shared record that drives the four rolling
    cubes, and the pure formulas the per-frame update derives from it
    (clamped progress, distance, lead x, no-slip rolling angle, each cube's
    pose). The per-frame update itself is World.UpdateCubeAnimation. */
module Sweep {
  import opened Geometry
  import Layout

  /** The cubeAnim record. */
  datatype CubeAnim = CubeAnim(
    initialized: bool,
    startX: real,
    endX: real,
    y: real,
    z: real,
    spacing: real,
    virtualRadius: real,
    time: real,
    duration: real)

  /** The record's value before the cubes are created. */
  const InitialAnim: CubeAnim := CubeAnim(false, 0.0, 0.0, 0.0, 0.0, 1.0, 0.4, 0.0, 6.0)

  /** The record as the cube builder leaves it. */
  const RollingAnim: CubeAnim := CubeAnim(
    true, Layout.CubeStartX, Layout.CubeEndX, Layout.CubeY, Layout.WallCenterZ,
    Layout.CubeSpacing, Layout.CubeSize * 0.5, 0.0, 6.0)

  /** The divisions of the update are defined: both records above satisfy it and no update changes it. */
  predicate WellFormed(a: CubeAnim)
  {
    a.duration > 0.0 && a.virtualRadius > 0.0
  }

  /** The one field a frame changes: time accumulates deltaTime. */
  function Advance(a: CubeAnim, deltaTime: real): CubeAnim
  {
    a.(time := a.time + deltaTime)
  }

  /** What the sweep needs to know about dividing by a positive duration. */
  lemma Quotient(n: real, d: real)
    requires d > 0.0
    ensures (n / d) * d == n
    ensures n / d > 1.0 <==> n > d
    ensures n / d == 1.0 <==> n == d
    ensures n >= 0.0 ==> n / d >= 0.0
  {
    var t := n / d;
    assert t * d == n;
    assert (t - 1.0) * d == n - d;
    if t > 1.0 {
      assert (t - 1.0) * d > 0.0;
    } else if t < 1.0 {
      assert (1.0 - t) * d == d - n;
      assert (1.0 - t) * d > 0.0;
    }
    if t == 1.0 {
      assert t * d == d;
    }
    if t < 0.0 {
      assert (0.0 - t) * d == 0.0 - n;
      assert (0.0 - t) * d > 0.0;
    }
  }

  /** Progress of the sweep: time / duration, clamped above at 1. */
  function TNorm(a: CubeAnim): (t: real)
    requires a.duration > 0.0
    ensures t <= 1.0
    ensures a.time >= 0.0 ==> 0.0 <= t
    ensures t == 1.0 <==> a.time >= a.duration
    ensures t < 1.0 ==> t * a.duration == a.time
  {
    var t := a.time / a.duration;
    Quotient(a.time, a.duration);
    if t > 1.0 then 1.0 else t
  }

  /** Distance covered so far by the lead position. */
  function Distance(a: CubeAnim): (d: real)
    requires a.duration > 0.0
    ensures a.time >= a.duration ==> d == a.endX - a.startX
    ensures a.time == 0.0 ==> d == 0.0
  {
    (a.endX - a.startX) * TNorm(a)
  }

  /** The group's current lead x: a linear interpolation between startX and endX. */
  function CurrentX(a: CubeAnim): (x: real)
    requires a.duration > 0.0
    ensures a.time >= a.duration ==> x == a.endX
    ensures a.time == 0.0 ==> x == a.startX
    ensures 0.0 <= a.time && a.startX <= a.endX ==> a.startX <= x <= a.endX
  {
    a.startX + Distance(a)
  }

  /** Rolling angle without slipping: the arc length radius * angle equals the distance covered. */
  function Angle(a: CubeAnim): (theta: real)
    requires WellFormed(a)
    ensures theta * a.virtualRadius == Distance(a)
  {
    Distance(a) / a.virtualRadius
  }

  /** Position the update gives to cube i: centred offsets (i - 1.5) * spacing about the lead x. */
  function CubePosition(a: CubeAnim, i: nat): Vec3
    requires a.duration > 0.0
  {
    Vec3(CurrentX(a) + (i as real - 1.5) * a.spacing, a.y, a.z)
  }

  /** The record after a series of frames with the given deltas. */
  function Run(a: CubeAnim, deltas: seq<real>): (r: CubeAnim)
    ensures r.(time := a.time) == a
    decreases |deltas|
  {
    if deltas == [] then a else Run(Advance(a, deltas[0]), deltas[1..])
  }

  function Sum(deltas: seq<real>): real
    decreases |deltas|
  {
    if deltas == [] then 0.0 else deltas[0] + Sum(deltas[1..])
  }

  predicate NonNegative(deltas: seq<real>)
  {
    forall i :: 0 <= i < |deltas| ==> deltas[i] >= 0.0
  }

  /** A series of frames changes only time, by the sum of the deltas. */
  lemma {:induction false} RunAdvances(a: CubeAnim, deltas: seq<real>)
    ensures Run(a, deltas) == a.(time := a.time + Sum(deltas))
    decreases |deltas|
  {
    if deltas != [] {
      RunAdvances(Advance(a, deltas[0]), deltas[1..]);
    }
  }

  lemma {:induction false} SumNonNegative(deltas: seq<real>)
    requires NonNegative(deltas)
    ensures Sum(deltas) >= 0.0
    decreases |deltas|
  {
    if deltas != [] {
      assert NonNegative(deltas[1..]) by {
        forall i | 0 <= i < |deltas| - 1 ensures deltas[1..][i] >= 0.0 {
          assert deltas[1..][i] == deltas[i + 1];
        }
      }
      SumNonNegative(deltas[1..]);
    }
  }

  /** One frame with a non-negative delta never decreases progress. */
  lemma TNormMonotone(a: CubeAnim, deltaTime: real)
    requires a.duration > 0.0 && deltaTime >= 0.0
    ensures TNorm(a) <= TNorm(Advance(a, deltaTime))
  {
    var b := Advance(a, deltaTime);
    assert a.time / a.duration <= b.time / b.duration by {
      assert b.time / b.duration - a.time / a.duration == deltaTime / a.duration;
    }
  }

  /** Across any series of frames with non-negative deltas, progress never decreases. */
  lemma ProgressNonDecreasing(a: CubeAnim, deltas: seq<real>)
    requires a.duration > 0.0 && NonNegative(deltas)
    ensures TNorm(a) <= TNorm(Run(a, deltas))
  {
    RunAdvances(a, deltas);
    SumNonNegative(deltas);
    TNormMonotone(a, Sum(deltas));
  }

  /** Two records that differ only in a time at or past the duration show the same pose. */
  lemma SamePoseWhenStopped(a: CubeAnim, b: CubeAnim, i: nat)
    requires WellFormed(a) && b == a.(time := b.time)
    requires a.time >= a.duration && b.time >= a.duration
    ensures CurrentX(b) == CurrentX(a) == a.endX
    ensures CubePosition(b, i) == CubePosition(a, i)
    ensures Angle(b) == Angle(a)
  {
    assert Distance(b) == Distance(a);
  }

  /** Rolling -> Stopped is terminal: once time has reached duration, further frames
      with non-negative deltas leave the lead at endX and every cube's pose unchanged. */
  lemma Frozen(a: CubeAnim, deltas: seq<real>, i: nat)
    requires WellFormed(a) && a.time >= a.duration && NonNegative(deltas)
    ensures CurrentX(Run(a, deltas)) == a.endX
    ensures CubePosition(Run(a, deltas), i) == CubePosition(a, i)
    ensures Angle(Run(a, deltas)) == Angle(a)
  {
    RunAdvances(a, deltas);
    SumNonNegative(deltas);
    SamePoseWhenStopped(a, Run(a, deltas), i);
  }

  /** At time 0 the update's centred offsets reproduce the four places where the cube builder put the cubes. */
  lemma StartMatchesBuilder(i: nat)
    requires i < |Layout.InitialCubeOffsets|
    ensures CubePosition(RollingAnim, i) == Layout.InitialCubePos(i)
    ensures Angle(RollingAnim) == 0.0
  {
  }

  /** Any two cubes are (j - i) * spacing apart at every frame: the group moves as one rigid body. */
  lemma RigidGroup(a: CubeAnim, i: nat, j: nat)
    requires a.duration > 0.0
    ensures CubePosition(a, j).x - CubePosition(a, i).x == (j as real - i as real) * a.spacing
    ensures CubePosition(a, j).y == CubePosition(a, i).y && CubePosition(a, j).z == CubePosition(a, i).z
  {
  }

  /** With duration 6 and elapsed 3, progress is one half and the lead is halfway between start and end. */
  lemma Halfway(a: CubeAnim)
    requires a.duration == 6.0 && a.time == 3.0
    ensures TNorm(a) == 0.5
    ensures CurrentX(a) == a.startX + 0.5 * (a.endX - a.startX)
  {
  }

  /** The scripted sweep: 24 units from the left terrain centre to the right one in 6 seconds,
      ending after 60 radians of rotation. */
  lemma ScriptedSweep(a: CubeAnim)
    requires a == RollingAnim.(time := a.time) && a.time >= 6.0
    ensures CurrentX(a) == Layout.RightLandCenter.x
    ensures Angle(a) == 60.0
  {
  }
}
