/**
 * The tessellation-control shader of src/main.cpp: from the eye-space depth of
 * a patch's four corners it chooses the four outer and two inner
 * tessellation levels. Levels stay real numbers; the hardware's
 * fractional_odd_spacing rounding of them is not part of this model.
 */
module TessControl {
  import opened Geometry
  import opened PatchGrid

  const MinTessLevel: real := 4.0
  const MaxTessLevel: real := 64.0
  const MinDistance: real := 20.0
  const MaxDistance: real := 800.0

  /** gl_TessLevelOuter[0..3] and gl_TessLevelInner[0..1]. */
  datatype TessLevels = TessLevels(
    outer0: real, outer1: real, outer2: real, outer3: real,
    inner0: real, inner1: real)

  predicate InLevelRange(l: real) { MinTessLevel <= l <= MaxTessLevel }

  /**
   * A corner's eye-space depth scaled to [0,1] between MinDistance and
   * MaxDistance: clamp((|z| - 20) / (800 - 20), 0, 1).
   */
  function NormalizedDistance(eyeZ: real): (d: real)
    ensures 0.0 <= d <= 1.0
    ensures Abs(eyeZ) <= MinDistance ==> d == 0.0
    ensures Abs(eyeZ) >= MaxDistance ==> d == 1.0
    ensures MinDistance < Abs(eyeZ) < MaxDistance ==> 0.0 < d < 1.0
    ensures MinDistance <= Abs(eyeZ) <= MaxDistance ==>
              MinDistance + d * (MaxDistance - MinDistance) == Abs(eyeZ)
  {
    Clamp((Abs(eyeZ) - MinDistance) / (MaxDistance - MinDistance), 0.0, 1.0)
  }

  /** A corner further from the eye never gets a smaller normalised distance. */
  lemma NormalizedDistanceMonotone(z1: real, z2: real)
    requires Abs(z1) <= Abs(z2)
    ensures NormalizedDistance(z1) <= NormalizedDistance(z2)
  {
    RealDivMonotone(Abs(z1) - MinDistance, Abs(z2) - MinDistance, MaxDistance - MinDistance);
  }

  /**
   * Level of the edge between two corners: mix(64, 4, min(da, db)), so the
   * nearer corner governs.
   */
  function EdgeLevel(da: real, db: real): (l: real)
    ensures 0.0 <= da <= 1.0 && 0.0 <= db <= 1.0 ==> InLevelRange(l)
    ensures 0.0 <= da <= 1.0 && 0.0 <= db <= 1.0 ==>
              (l == MaxTessLevel <==> da == 0.0 || db == 0.0)
    ensures 0.0 <= da <= 1.0 && 0.0 <= db <= 1.0 ==>
              (l == MinTessLevel <==> da == 1.0 && db == 1.0)
  {
    Mix(MaxTessLevel, MinTessLevel, Min(da, db))
  }

  /** The level of an edge does not depend on the order of its endpoints. */
  lemma EdgeLevelSymmetric(da: real, db: real)
    ensures EdgeLevel(da, db) == EdgeLevel(db, da)
  {
  }

  /** The level is non-increasing in the distance of the nearer endpoint. */
  lemma EdgeLevelAntitone(da: real, db: real, ea: real, eb: real)
    requires Min(da, db) <= Min(ea, eb)
    ensures EdgeLevel(ea, eb) <= EdgeLevel(da, db)
  {
    MixAntitone(MaxTessLevel, MinTessLevel, Min(da, db), Min(ea, eb));
  }

  /**
   * The level computation of the shader, from the four normalised corner
   * distances d00 (gl_in[0]), d01 (gl_in[1]), d10 (gl_in[2]), d11 (gl_in[3]).
   */
  function CornerLevels(d00: real, d01: real, d10: real, d11: real): (t: TessLevels)
    ensures t.outer0 == EdgeLevel(d00, d10) && t.outer1 == EdgeLevel(d00, d01)
    ensures t.outer2 == EdgeLevel(d01, d11) && t.outer3 == EdgeLevel(d10, d11)
    ensures t.inner0 >= t.outer1 && t.inner0 >= t.outer3
    ensures t.inner0 == t.outer1 || t.inner0 == t.outer3
    ensures t.inner1 >= t.outer0 && t.inner1 >= t.outer2
    ensures t.inner1 == t.outer0 || t.inner1 == t.outer2
    ensures 0.0 <= d00 <= 1.0 && 0.0 <= d01 <= 1.0 && 0.0 <= d10 <= 1.0 && 0.0 <= d11 <= 1.0 ==>
              InLevelRange(t.outer0) && InLevelRange(t.outer1) && InLevelRange(t.outer2) &&
              InLevelRange(t.outer3) && InLevelRange(t.inner0) && InLevelRange(t.inner1)
  {
    var tessLevel0 := EdgeLevel(d10, d00);
    var tessLevel1 := EdgeLevel(d00, d01);
    var tessLevel2 := EdgeLevel(d01, d11);
    var tessLevel3 := EdgeLevel(d11, d10);
    EdgeLevelSymmetric(d10, d00);
    EdgeLevelSymmetric(d11, d10);
    TessLevels(tessLevel0, tessLevel1, tessLevel2, tessLevel3,
               Max(tessLevel1, tessLevel3), Max(tessLevel0, tessLevel2))
  }

  /**
   * The shader's levels for one patch. `eyeZ` gives the z of a model-space
   * point after the view * model transform.
   */
  function PatchLevels(p: Patch, eyeZ: Vec3 -> real): (t: TessLevels)
    ensures InLevelRange(t.outer0) && InLevelRange(t.outer1) && InLevelRange(t.outer2)
    ensures InLevelRange(t.outer3) && InLevelRange(t.inner0) && InLevelRange(t.inner1)
    ensures t.inner0 == Max(t.outer1, t.outer3) && t.inner1 == Max(t.outer0, t.outer2)
  {
    CornerLevels(NormalizedDistance(eyeZ(p.p0.pos)), NormalizedDistance(eyeZ(p.p1.pos)),
                 NormalizedDistance(eyeZ(p.p2.pos)), NormalizedDistance(eyeZ(p.p3.pos)))
  }

  /**
   * The level of an edge is a function of that edge's own corners only: two
   * patches whose edges have the same end positions give them the same level.
   */
  lemma SharedEdgeSameLevel(a: Patch, b: Patch, eyeZ: Vec3 -> real)
    ensures a.p1.pos == b.p0.pos && a.p3.pos == b.p2.pos ==>
              PatchLevels(a, eyeZ).outer2 == PatchLevels(b, eyeZ).outer0
    ensures a.p2.pos == b.p0.pos && a.p3.pos == b.p1.pos ==>
              PatchLevels(a, eyeZ).outer3 == PatchLevels(b, eyeZ).outer1
  {
  }

  /**
   * Crack avoidance on the grid: for every view, the right edge of patch (i, j)
   * gets the level the left edge of patch (i+1, j) gets, and its far edge the
   * level of the near edge of patch (i, j+1).
   */
  lemma GridCrackFree(width: nat, height: nat, rez: nat, eyeZ: Vec3 -> real, i: nat, j: nat)
    requires rez > 0
    ensures PatchLevels(GridPatch(width, height, rez, i, j), eyeZ).outer2
         == PatchLevels(GridPatch(width, height, rez, i + 1, j), eyeZ).outer0
    ensures PatchLevels(GridPatch(width, height, rez, i, j), eyeZ).outer3
         == PatchLevels(GridPatch(width, height, rez, i, j + 1), eyeZ).outer1
  {
    AdjacentPatchesShareEdges(width, height, rez, i, j);
    SharedEdgeSameLevel(GridPatch(width, height, rez, i, j), GridPatch(width, height, rez, i + 1, j), eyeZ);
    SharedEdgeSameLevel(GridPatch(width, height, rez, i, j), GridPatch(width, height, rez, i, j + 1), eyeZ);
  }

  /**
   * Crack avoidance on the vertex buffer the builder produces, patches read
   * back the way the draw call groups them.
   */
  lemma BufferCrackFree(buf: seq<real>, width: nat, height: nat, rez: nat, eyeZ: Vec3 -> real, i: nat, j: nat)
    requires rez > 0 && IsPatchGrid(buf, width, height, rez)
    requires i < rez && j < rez
    ensures i + 1 < rez ==>
              PatchLevels(PatchAt(buf, PatchIndex(rez, i, j)), eyeZ).outer2 ==
                PatchLevels(PatchAt(buf, PatchIndex(rez, i + 1, j)), eyeZ).outer0
    ensures j + 1 < rez ==>
              PatchLevels(PatchAt(buf, PatchIndex(rez, i, j)), eyeZ).outer3 ==
                PatchLevels(PatchAt(buf, PatchIndex(rez, i, j + 1)), eyeZ).outer1
  {
    GridCrackFree(width, height, rez, eyeZ, i, j);
  }

  /** The nearer corner governs: one corner within MinDistance gives the edge the maximum level. */
  lemma NearerCornerGoverns(za: real, zb: real)
    requires Abs(za) <= MinDistance
    ensures EdgeLevel(NormalizedDistance(za), NormalizedDistance(zb)) == MaxTessLevel
  {
  }

  /** Corners at depth -20 and -800: the nearer corner governs, so the edge gets the maximum level 64. */
  lemma NearAndFarCornerLevel()
    ensures EdgeLevel(NormalizedDistance(-20.0), NormalizedDistance(-800.0)) == 64.0
  {
    NearerCornerGoverns(-20.0, -800.0);
  }

  /** Both corners at depth -410, half-way between 20 and 800: distance 0.5, level 34. */
  lemma MidwayCornersLevel()
    ensures NormalizedDistance(-410.0) == 0.5
    ensures EdgeLevel(NormalizedDistance(-410.0), NormalizedDistance(-410.0)) == 34.0
  {
  }
}
