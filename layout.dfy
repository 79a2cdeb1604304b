/** The scene's layout constants and the closed-form placement formulas of the
    scene builder: the running-bond brick wall, the ramp, the two side terrain
    blocks, the cannon muzzle and the rolling cubes' starting places. */
module Layout {
  import opened Geometry

  // ---- Brick wall ----

  const BrickLength: real := 1.2
  const BrickDepth: real := 0.6
  const BrickHeight: real := 0.6
  const BrickMass: real := 0.8

  const NumBricksLength: nat := 6
  const NumBricksHeight: nat := 6
  const WallHeight: real := NumBricksHeight as real * BrickHeight

  const WallCenterX: real := 0.0
  const WallCenterZ: real := 0.0

  const HalfL: real := BrickLength * 0.5
  const HalfD: real := BrickDepth * 0.5
  const HalfH: real := BrickHeight * 0.5

  /** Number of bricks the two nested loops of the wall builder create. */
  const WallBricks: nat := NumBricksLength * NumBricksHeight

  /** The collision box given to every brick (half extents). */
  const BrickHalfExtents: Vec3 := Vec3(HalfL, HalfH, HalfD)

  // ---- Ramp ----

  const RampLength: real := 16.0
  const RampWidth: real := 2.0
  const RampThickness: real := 0.3
  const RampMass: real := 5.0
  const RampHeight: real := WallHeight + RampThickness * 0.5 + 0.5

  const RampHalfExtents: Vec3 := Vec3(RampLength * 0.5, RampThickness * 0.5, RampWidth * 0.5)
  const RampCenter: Vec3 := Vec3(WallCenterX, RampHeight, WallCenterZ)

  /** The ramp's top surface, and the x of its two ends. */
  const RampTopY: real := RampHeight + RampThickness * 0.5
  const RampStartX: real := WallCenterX - RampLength * 0.5
  const RampEndX: real := WallCenterX + RampLength * 0.5

  // ---- Ground ----

  const GroundSize: Vec3 := Vec3(60.0, 1.0, 40.0)
  const GroundHalfExtents: Vec3 := Vec3(GroundSize.x * 0.5, GroundSize.y * 0.5, GroundSize.z * 0.5)
  const GroundCenter: Vec3 := Vec3(0.0, -0.5, 0.0)

  // ---- Side terrain ----

  const LandThickness: real := 2.0
  const LandDepth: real := 12.0
  const LandWidth: real := 8.0

  /** Centre height of both terrain blocks, chosen so that their tops are level with the ramp's top. */
  const TerrainCenterY: real := RampTopY - LandThickness / 2.0

  const LeftLandCenter: Vec3 := Vec3(RampStartX - LandWidth / 2.0, TerrainCenterY, WallCenterZ)
  const RightLandCenter: Vec3 := Vec3(RampEndX + LandWidth / 2.0, TerrainCenterY, WallCenterZ)

  // ---- Cannon ----

  /** The point cannon balls are spawned from; the cannon meshes are only decoration around it. */
  const Muzzle: Vec3 := Vec3(WallCenterX, RampHeight + 0.5, WallCenterZ - 15.0)

  const BallRadius: real := 0.5
  const BallMass: real := 3.0

  // ---- Rolling cubes ----

  const CubeSize: real := 0.8
  const CubeSpacing: real := 1.0

  /** Height of the cubes' centres: resting on the ramp's top surface. */
  const CubeY: real := RampHeight + RampThickness * 0.5 + CubeSize * 0.5

  /** The sweep runs from the centre of the left terrain block to the centre of the right one. */
  const CubeStartX: real := (WallCenterX - RampLength * 0.5) - LandWidth / 2.0
  const CubeEndX: real := (WallCenterX + RampLength * 0.5) + LandWidth / 2.0

  /** The four cubes' x offsets from CubeStartX, in spacing units, in creation order. */
  const InitialCubeOffsets: seq<real> := [-1.5, -0.5, 0.5, 1.5]

  /** Position of the i-th cube as the cube builder places it. */
  function InitialCubePos(i: nat): (p: Vec3)
    requires i < |InitialCubeOffsets|
    ensures p.y == CubeY && p.z == WallCenterZ
  {
    Vec3(CubeStartX + InitialCubeOffsets[i] * CubeSpacing, CubeY, WallCenterZ)
  }

  // ---- Placement formulas of the wall ----

  /** Horizontal shift of row y: none on even rows, half a brick on odd rows. */
  function RowOffset(y: nat): (r: real)
    ensures r == 0.0 <==> y % 2 == 0
    ensures r == 0.0 || r == HalfL
  {
    if y % 2 == 0 then 0.0 else HalfL
  }

  /** x of brick x in row y. */
  function BrickX(x: nat, y: nat): real
  {
    WallCenterX + (x as real * BrickLength - (NumBricksLength - 1) as real * HalfL) + RowOffset(y)
  }

  /** y of the centre of a brick in row y. */
  function BrickY(y: nat): real
  {
    HalfH + y as real * BrickHeight
  }

  function BrickPos(x: nat, y: nat): Vec3
  {
    Vec3(BrickX(x, y), BrickY(y), WallCenterZ)
  }

  /** Position of the k-th brick the wall builder creates (rows outer, bricks of a row inner). */
  function WallBrick(k: nat): Vec3
  {
    BrickPos(k % NumBricksLength, k / NumBricksLength)
  }

  /** The brick built at step (y, x) of the nested loops is the (y * 6 + x)-th brick. */
  lemma WallBrickIndex(y: nat, x: nat)
    requires x < NumBricksLength
    ensures WallBrick(y * NumBricksLength + x) == BrickPos(x, y)
  {
    var k := y * NumBricksLength + x;
    assert k / NumBricksLength == y && k % NumBricksLength == x;
  }

  /** Neighbouring bricks of a row are exactly one brick length apart, so they touch. */
  lemma BricksAdjacent(x: nat, y: nat)
    ensures BrickX(x + 1, y) - BrickX(x, y) == BrickLength
    ensures BrickX(x + 1, y) - HalfL == BrickX(x, y) + HalfL
  {
  }

  /** Running bond: relative to the first row, row y is shifted by RowOffset(y);
      relative to the row below it, an odd row is shifted by +halfL and an even row by -halfL. */
  lemma RunningBond(x: nat, y: nat)
    ensures BrickX(x, y) - BrickX(x, 0) == RowOffset(y)
    ensures y > 0 && y % 2 == 1 ==> BrickX(x, y) - BrickX(x, y - 1) == HalfL
    ensures y > 0 && y % 2 == 0 ==> BrickX(x, y) - BrickX(x, y - 1) == -HalfL
  {
  }

  /** Rows stack without gaps: a row's top is the next row's bottom, and the top row ends at wallHeight. */
  lemma RowsStack(y: nat)
    ensures BrickY(y + 1) - HalfH == BrickY(y) + HalfH
    ensures BrickY(0) - HalfH == 0.0
    ensures BrickY(NumBricksHeight - 1) + HalfH == WallHeight
  {
  }

  /** Sum of the x positions of the first n bricks of row y. */
  function RowSum(n: nat, y: nat): real
  {
    if n == 0 then 0.0 else RowSum(n - 1, y) + BrickX(n - 1, y)
  }

  /** Closed form of RowSum: n bricks starting at BrickX(0, y), one brick length apart. */
  lemma {:induction false} RowSumClosed(n: nat, y: nat)
    ensures RowSum(n, y) == n as real * BrickX(0, y) + BrickLength * (n as real * (n as real - 1.0)) / 2.0
  {
    if n > 0 {
      RowSumClosed(n - 1, y);
      var m := (n - 1) as real;
      assert BrickX(n - 1, y) == BrickX(0, y) + m * BrickLength;
      calc {
        RowSum(n, y);
        RowSum(n - 1, y) + BrickX(n - 1, y);
        m * BrickX(0, y) + BrickLength * (m * (m - 1.0)) / 2.0 + BrickX(0, y) + m * BrickLength;
        (m + 1.0) * BrickX(0, y) + BrickLength * ((m + 1.0) * m) / 2.0;
      }
    }
  }

  /** The mean x of a row is wallCenterX plus the row's offset: even rows are centred on the wall's centre. */
  lemma RowCentre(y: nat)
    ensures RowSum(NumBricksLength, y) / NumBricksLength as real == WallCenterX + RowOffset(y)
    ensures y % 2 == 0 ==> RowSum(NumBricksLength, y) / NumBricksLength as real == WallCenterX
  {
    RowSumClosed(NumBricksLength, y);
  }

  /** An even row is mirror-symmetric about wallCenterX, and its outer edge lies numBricksLength half-bricks from it. */
  lemma EvenRowSymmetric(x: nat, y: nat)
    requires x < NumBricksLength && y % 2 == 0
    ensures BrickX(x, y) + BrickX(NumBricksLength - 1 - x, y) == 2.0 * WallCenterX
    ensures BrickX(0, y) - HalfL == WallCenterX - NumBricksLength as real * HalfL
  {
  }

  /** The ramp's underside sits 0.5 above the wall's top. */
  lemma RampClearsWall()
    ensures RampHeight - RampThickness * 0.5 == WallHeight + 0.5
    ensures RampHeight == 4.25
  {
  }

  /** Both terrain blocks are level with the ramp's top and touch its two ends. */
  lemma TerrainMeetsRamp()
    ensures TerrainCenterY + LandThickness / 2.0 == RampTopY
    ensures LeftLandCenter.x + LandWidth / 2.0 == RampStartX
    ensures RightLandCenter.x - LandWidth / 2.0 == RampEndX
  {
  }

  /** The cubes rest on the ramp's top surface and sweep between the two terrain centres. */
  lemma CubesOnRamp()
    ensures CubeY - CubeSize * 0.5 == RampTopY
    ensures CubeStartX == LeftLandCenter.x && CubeEndX == RightLandCenter.x
    ensures CubeEndX - CubeStartX == RampLength + LandWidth
  {
  }

  /** The four initial cubes are one spacing apart and centred on CubeStartX. */
  lemma InitialCubesEvenlySpaced(i: nat)
    requires i + 1 < |InitialCubeOffsets|
    ensures InitialCubePos(i + 1).x - InitialCubePos(i).x == CubeSpacing
    ensures InitialCubePos(0).x + InitialCubePos(3).x == 2.0 * CubeStartX
  {
  }

  /** The muzzle is half a unit above the ramp's centre, 15 units in front of the wall. */
  lemma MuzzlePlacement()
    ensures Muzzle.y - RampHeight == 0.5
    ensures WallCenterZ - Muzzle.z == 15.0
    ensures Muzzle.x == WallCenterX
  {
  }
}
