/**
 * The tessellation-evaluation shader of src/main.cpp: a generated point
 * (u, v) of a patch gets a bilinearly interpolated texture coordinate and
 * position, a height read from the heightmap's green channel, and is
 * displaced along the patch's unit face normal by that height.
 */
module TessEval {
  import opened Geometry
  import opened PatchGrid

  const HeightScale: real := 64.0
  const HeightShift: real := 16.0

  /**
   * Bilinear interpolation as the shader writes it: first along u on the
   * two rows, then along v between the rows.
   */
  function Bilerp2(t00: Vec2, t01: Vec2, t10: Vec2, t11: Vec2, u: real, v: real): (r: Vec2)
    ensures u == 0.0 && v == 0.0 ==> r == t00
    ensures u == 1.0 && v == 0.0 ==> r == t01
    ensures u == 0.0 && v == 1.0 ==> r == t10
    ensures u == 1.0 && v == 1.0 ==> r == t11
  {
    var t0 := Add2(Scale2(Sub2(t01, t00), u), t00);
    var t1 := Add2(Scale2(Sub2(t11, t10), u), t10);
    Add2(Scale2(Sub2(t1, t0), v), t0)
  }

  /** The same interpolation on positions (the w = 1 component stays 1 and is dropped). */
  function Bilerp3(p00: Vec3, p01: Vec3, p10: Vec3, p11: Vec3, u: real, v: real): (r: Vec3)
    ensures u == 0.0 && v == 0.0 ==> r == p00
    ensures u == 1.0 && v == 0.0 ==> r == p01
    ensures u == 0.0 && v == 1.0 ==> r == p10
    ensures u == 1.0 && v == 1.0 ==> r == p11
  {
    var p0 := Add3(Scale3(Sub3(p01, p00), u), p00);
    var p1 := Add3(Scale3(Sub3(p11, p10), u), p10);
    Add3(Scale3(Sub3(p1, p0), v), p0)
  }

  /** cross(vVec, uVec) with uVec = p01 - p00 and vVec = p10 - p00, before normalisation. */
  function FaceDirection(p: Patch): Vec3 {
    Cross(Sub3(p.p2.pos, p.p0.pos), Sub3(p.p1.pos, p.p0.pos))
  }

  /** `n` is normalize(d): a unit vector pointing the same way as the non-zero vector `d`. */
  predicate IsNormalized(n: Vec3, d: Vec3) {
    Dot3(n, n) == 1.0 && Cross(n, d) == Zero3 && Dot3(n, d) > 0.0
  }

  /** The height remap of the green sample: sample * 64 - 16. */
  function SampleHeight(sample: real): (h: real)
    ensures 0.0 <= sample <= 1.0 ==> -HeightShift <= h <= HeightScale - HeightShift
    ensures (h + HeightShift) / HeightScale == sample
  {
    sample * HeightScale - HeightShift
  }

  /** What the shader passes on for one generated point. */
  datatype TessPoint = TessPoint(texCoord: Vec2, height: real, position: Vec3)

  /**
   * The shader for point (u, v) of patch `p`. `green` is the green channel of
   * the heightmap sampled at a texture coordinate; `normal` is the unit face
   * normal the shader obtains with normalize(cross(vVec, uVec)).
   */
  function EvaluatePoint(p: Patch, u: real, v: real, green: Vec2 -> real, normal: Vec3): (r: TessPoint)
    requires IsNormalized(normal, FaceDirection(p))
    ensures r.height == SampleHeight(green(r.texCoord))
    ensures (u == 0.0 || u == 1.0) && (v == 0.0 || v == 1.0) ==>
              var c := if u == 0.0 && v == 0.0 then p.p0 else if v == 0.0 then p.p1
                       else if u == 0.0 then p.p2 else p.p3;
              r.texCoord == c.tex && r.position == Add3(c.pos, Scale3(normal, r.height))
  {
    var texCoord := Bilerp2(p.p0.tex, p.p1.tex, p.p2.tex, p.p3.tex, u, v);
    var height := SampleHeight(green(texCoord));
    var position := Bilerp3(p.p0.pos, p.p1.pos, p.p2.pos, p.p3.pos, u, v);
    TessPoint(texCoord, height, Add3(position, Scale3(normal, height)))
  }

  const Up := Vec3(0.0, 1.0, 0.0)

  lemma PositiveProduct(a: real, b: real)
    requires a > 0.0 && b > 0.0
    ensures a * b > 0.0
  {
  }

  lemma ZeroFactor(x: real, a: real)
    requires a > 0.0 && x * a == 0.0
    ensures x == 0.0
  {
    if x > 0.0 {
      PositiveProduct(x, a);
    } else if x < 0.0 {
      PositiveProduct(-x, a);
    }
  }

  lemma UnitSquareRoot(y: real)
    requires y * y == 1.0 && y > 0.0
    ensures y == 1.0
  {
    assert (y - 1.0) * (y + 1.0) == y * y - 1.0;
    ZeroFactor(y - 1.0, y + 1.0);
  }

  /** A unit vector in the direction of (0, a, 0), a > 0, is (0, 1, 0). */
  lemma NormalizedAlongY(n: Vec3, a: real)
    requires a > 0.0
    ensures IsNormalized(n, Vec3(0.0, a, 0.0)) <==> n == Up
  {
    if IsNormalized(n, Vec3(0.0, a, 0.0)) {
      NormalizedAlongYIsUp(n, a);
    }
    UpIsNormalizedAlongY(a);
  }

  lemma NormalizedAlongYIsUp(n: Vec3, a: real)
    requires a > 0.0 && IsNormalized(n, Vec3(0.0, a, 0.0))
    ensures n == Up
  {
    assert Cross(n, Vec3(0.0, a, 0.0)) == Zero3;
    assert n.z * a == 0.0 && n.x * a == 0.0;
    ZeroFactor(n.x, a);
    ZeroFactor(n.z, a);
    assert Dot3(n, n) == n.y * n.y;
    assert Dot3(n, Vec3(0.0, a, 0.0)) == n.y * a;
    if n.y <= 0.0 {
      PositiveProduct(-n.y, a);
    }
    UnitSquareRoot(n.y);
  }

  lemma UpIsNormalizedAlongY(a: real)
    requires a > 0.0
    ensures IsNormalized(Up, Vec3(0.0, a, 0.0))
  {
    assert Dot3(Up, Vec3(0.0, a, 0.0)) == a;
  }

  /** Every grid patch faces +y: its normalised face normal is exactly (0, 1, 0). */
  lemma GridFaceNormal(width: nat, height: nat, rez: nat, i: nat, j: nat, n: Vec3)
    requires width > 0 && height > 0 && rez > 0
    ensures IsNormalized(n, FaceDirection(GridPatch(width, height, rez, i, j))) <==> n == Up
  {
    var dx := LatticeX(width, rez, i + 1) - LatticeX(width, rez, i);
    var dz := LatticeZ(height, rez, j + 1) - LatticeZ(height, rez, j);
    LatticeMonotone(width, rez, i, i + 1);
    LatticeMonotone(height, rez, j, j + 1);
    LatticeAsFraction(height, rez, j);
    LatticeAsFraction(height, rez, j + 1);
    PositiveProduct(dz, dx);
    assert FaceDirection(GridPatch(width, height, rez, i, j)) == Vec3(0.0, dz * dx, 0.0);
    NormalizedAlongY(n, dz * dx);
  }

  /** Linear interpolation between lattice nodes k and k+1 lands on lattice coordinate k + u. */
  lemma LatticeLerp(extent: nat, rez: nat, k: nat, u: real)
    requires rez > 0
    ensures (((k + 1) as real) / (rez as real) - (k as real) / (rez as real)) * u + (k as real) / (rez as real)
         == ((k as real) + u) / (rez as real)
    ensures (LatticeX(extent, rez, k + 1) - LatticeX(extent, rez, k)) * u + LatticeX(extent, rez, k)
         == -(extent as real) / 2.0 + (extent as real) * ((k as real) + u) / (rez as real)
  {
    var r, e := rez as real, extent as real;
    assert ((k + 1) as real) / r - (k as real) / r == 1.0 / r;
    assert (1.0 / r) * u + (k as real) / r == ((k as real) + u) / r;
    assert LatticeX(extent, rez, k + 1) - LatticeX(extent, rez, k) == e / r by {
      assert e * ((k + 1) as real) / r - e * (k as real) / r == e * (((k + 1) as real) - (k as real)) / r;
    }
    assert (e / r) * u + e * (k as real) / r == e * ((k as real) + u) / r;
  }

  /** Interpolated texture coordinate on grid patch (i, j): ((i + u) / rez, (j + v) / rez). */
  lemma GridTexInterpolation(width: nat, height: nat, rez: nat, i: nat, j: nat, u: real, v: real)
    requires rez > 0
    ensures var p := GridPatch(width, height, rez, i, j);
      Bilerp2(p.p0.tex, p.p1.tex, p.p2.tex, p.p3.tex, u, v)
        == Vec2(((i as real) + u) / (rez as real), ((j as real) + v) / (rez as real))
  {
    LatticeLerp(width, rez, i, u);
    LatticeLerp(height, rez, j, v);
  }

  /** Interpolated position on grid patch (i, j): lattice coordinate i + u along x, j + v along z, y = 0. */
  lemma GridPosInterpolation(width: nat, height: nat, rez: nat, i: nat, j: nat, u: real, v: real)
    requires rez > 0
    ensures var p := GridPatch(width, height, rez, i, j);
      Bilerp3(p.p0.pos, p.p1.pos, p.p2.pos, p.p3.pos, u, v)
        == Vec3(-(width as real) / 2.0 + (width as real) * ((i as real) + u) / (rez as real),
                0.0,
                -(height as real) / 2.0 + (height as real) * ((j as real) + v) / (rez as real))
  {
    LatticeLerp(width, rez, i, u);
    LatticeLerp(height, rez, j, v);
    LatticeAsFraction(height, rez, j);
    LatticeAsFraction(height, rez, j + 1);
  }

  /** A point of cell k < rez, as a fraction of rez, lies in [0,1]. */
  lemma CellFraction(rez: nat, k: nat, u: real)
    requires k < rez && 0.0 <= u <= 1.0
    ensures 0.0 <= ((k as real) + u) / (rez as real) <= 1.0
  {
    var r := rez as real;
    assert (k as real) + u <= r;
    RealDivMonotone(0.0, (k as real) + u, r);
    RealDivMonotone((k as real) + u, r, r);
  }

  /** On a grid patch every generated point (u, v) in [0,1]^2 samples the heightmap inside [0,1]^2. */
  lemma GridTexCoordInRange(width: nat, height: nat, rez: nat, i: nat, j: nat, u: real, v: real)
    requires rez > 0 && i < rez && j < rez
    requires 0.0 <= u <= 1.0 && 0.0 <= v <= 1.0
    ensures var p := GridPatch(width, height, rez, i, j);
      var t := Bilerp2(p.p0.tex, p.p1.tex, p.p2.tex, p.p3.tex, u, v);
      0.0 <= t.x <= 1.0 && 0.0 <= t.y <= 1.0
  {
    GridTexInterpolation(width, height, rez, i, j, u, v);
    CellFraction(rez, i, u);
    CellFraction(rez, j, v);
  }

  /**
   * A flat heightmap (every sample c) gives a planar surface at height
   * c * 64 - 16 over the undisplaced lattice position, whatever (u, v) the
   * tessellator generates.
   */
  lemma FlatHeightmapIsPlanar(width: nat, height: nat, rez: nat, i: nat, j: nat, u: real, v: real,
                              green: Vec2 -> real, c: real)
    requires width > 0 && height > 0 && rez > 0
    requires forall t :: green(t) == c
    ensures IsNormalized(Up, FaceDirection(GridPatch(width, height, rez, i, j)))
    ensures EvaluatePoint(GridPatch(width, height, rez, i, j), u, v, green, Up).position
        == Vec3(-(width as real) / 2.0 + (width as real) * ((i as real) + u) / (rez as real),
                c * HeightScale - HeightShift,
                -(height as real) / 2.0 + (height as real) * ((j as real) + v) / (rez as real))
  {
    GridFaceNormal(width, height, rez, i, j, Up);
    GridPosInterpolation(width, height, rez, i, j, u, v);
  }

  /**
   * No gap opens along a shared edge: the last column (u = 1) of patch (i, j)
   * and the first column (u = 0) of patch (i+1, j) evaluate to the same
   * points, and likewise v = 1 of patch (i, j) and v = 0 of patch (i, j+1).
   */
  lemma GridSharedEdgesAgree(width: nat, height: nat, rez: nat, i: nat, j: nat, s: real, green: Vec2 -> real)
    requires width > 0 && height > 0 && rez > 0
    ensures IsNormalized(Up, FaceDirection(GridPatch(width, height, rez, i, j)))
    ensures IsNormalized(Up, FaceDirection(GridPatch(width, height, rez, i + 1, j)))
    ensures IsNormalized(Up, FaceDirection(GridPatch(width, height, rez, i, j + 1)))
    ensures EvaluatePoint(GridPatch(width, height, rez, i, j), 1.0, s, green, Up)
         == EvaluatePoint(GridPatch(width, height, rez, i + 1, j), 0.0, s, green, Up)
    ensures EvaluatePoint(GridPatch(width, height, rez, i, j), s, 1.0, green, Up)
         == EvaluatePoint(GridPatch(width, height, rez, i, j + 1), s, 0.0, green, Up)
  {
    GridFaceNormal(width, height, rez, i, j, Up);
    GridFaceNormal(width, height, rez, i + 1, j, Up);
    GridFaceNormal(width, height, rez, i, j + 1, Up);
    AdjacentPatchesShareEdges(width, height, rez, i, j);
  }
}
