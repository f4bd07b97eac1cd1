/**
 * The patch grid built once at start-up in src/main.cpp: `rez * rez` quad
 * patches over a `width * height` terrain centred on the origin, each stored
 * as 4 control points of 5 floats (x, y, z, u, v) in one flat vertex buffer,
 * patch after patch, with the x index `i` in the outer loop.
 */
module PatchGrid {
  import opened Geometry

  /** One vertex of the buffer: model-space position and texture coordinate. */
  datatype ControlPoint = ControlPoint(pos: Vec3, tex: Vec2)

  /**
   * The four control points of one patch, in buffer order: `p0` is corner
   * (i, j), `p1` is (i+1, j), `p2` is (i, j+1) and `p3` is (i+1, j+1).
   */
  datatype Patch = Patch(p0: ControlPoint, p1: ControlPoint, p2: ControlPoint, p3: ControlPoint)

  /** Stride of a control point: 3 position floats then 2 texture floats. */
  const FloatsPerControlPoint: nat := 5
  /** NUM_PATCH_PTS. */
  const ControlPointsPerPatch: nat := 4
  const FloatsPerPatch: nat := 20

  /** x of lattice column `i`: -width/2 + width*i/rez. */
  function LatticeX(width: nat, rez: nat, i: nat): real
    requires rez > 0
  {
    -(width as real) / 2.0 + (width as real) * (i as real) / (rez as real)
  }

  /** z of lattice row `j`: -height/2 + height*j/rez. */
  function LatticeZ(height: nat, rez: nat, j: nat): real
    requires rez > 0
  {
    -(height as real) / 2.0 + (height as real) * (j as real) / (rez as real)
  }

  /** The control point at lattice node (i, j): y = 0, texture coordinate (i/rez, j/rez). */
  function LatticePoint(width: nat, height: nat, rez: nat, i: nat, j: nat): ControlPoint
    requires rez > 0
  {
    ControlPoint(Vec3(LatticeX(width, rez, i), 0.0, LatticeZ(height, rez, j)),
                 Vec2((i as real) / (rez as real), (j as real) / (rez as real)))
  }

  /** Patch (i, j) of the grid, corners in the order the builder pushes them. */
  function GridPatch(width: nat, height: nat, rez: nat, i: nat, j: nat): Patch
    requires rez > 0
  {
    Patch(LatticePoint(width, height, rez, i, j),
          LatticePoint(width, height, rez, i + 1, j),
          LatticePoint(width, height, rez, i, j + 1),
          LatticePoint(width, height, rez, i + 1, j + 1))
  }

  /** Row-major position of patch (i, j) in the buffer; (i, j) is recovered by `/` and `%`. */
  function PatchIndex(rez: nat, i: nat, j: nat): (p: nat)
    requires i < rez && j < rez
    ensures p < rez * rez
    ensures p / rez == i && p % rez == j
  {
    assert i * rez + j < (i + 1) * rez <= rez * rez by {
      assert (i + 1) * rez == i * rez + rez;
      MulLeftMonotone(i + 1, rez, rez);
    }
    DivModUnique(rez, i, j);
    i * rez + j
  }

  lemma MulLeftMonotone(a: nat, b: nat, n: nat)
    requires a <= b
    ensures a * n <= b * n
  {
  }

  lemma DivModUnique(n: nat, q: nat, r: nat)
    requires r < n
    ensures (q * n + r) / n == q && (q * n + r) % n == r
  {
    var x := q * n + r;
    var d := x / n - q;
    assert d * n == r - x % n by {
      assert x == (x / n) * n + x % n;
      assert (x / n) * n == (d + q) * n == d * n + q * n;
    }
    SmallMultipleIsZero(d, n);
  }

  /** The only multiple of n strictly between -n and n is 0 * n. */
  lemma SmallMultipleIsZero(d: int, n: nat)
    requires -(n as int) < d * n < n
    ensures d == 0
  {
    if d != 0 {
      NonzeroMultiple(d, n);
    }
  }

  lemma NonzeroMultiple(d: int, n: nat)
    requires d != 0
    ensures d * n >= n || d * n <= -(n as int)
  {
    if d > 0 {
      MulLeftMonotone(1, d, n);
    } else {
      MulLeftMonotone(1, -d, n);
      assert (-d) * n == -(d * n);
    }
  }

  /** Patches before (i, j) in row-major order occupy the buffer positions before it. */
  lemma PatchIndexOrder(rez: nat, a: nat, b: nat, i: nat, j: nat)
    requires a < rez && b < rez && i < rez && j <= rez
    requires a < i || (a == i && b < j)
    ensures PatchIndex(rez, a, b) < i * rez + j
  {
    if a < i {
      MulLeftMonotone(a + 1, i, rez);
      assert (a + 1) * rez == a * rez + rez;
    }
  }

  /** The vertex shader's view of the buffer: control point `c` is floats 5c .. 5c+4. */
  function ControlPointAt(buf: seq<real>, c: nat): ControlPoint
    requires FloatsPerControlPoint * c + FloatsPerControlPoint <= |buf|
  {
    var b := FloatsPerControlPoint * c;
    ControlPoint(Vec3(buf[b], buf[b + 1], buf[b + 2]), Vec2(buf[b + 3], buf[b + 4]))
  }

  /** Patch `p` of the buffer: control points 4p .. 4p+3, as glDrawArrays(GL_PATCHES) groups them. */
  function PatchAt(buf: seq<real>, p: nat): Patch
    requires FloatsPerPatch * p + FloatsPerPatch <= |buf|
  {
    var c := ControlPointsPerPatch * p;
    Patch(ControlPointAt(buf, c), ControlPointAt(buf, c + 1),
          ControlPointAt(buf, c + 2), ControlPointAt(buf, c + 3))
  }

  /** Appending to the buffer leaves the patches already in it unchanged. */
  lemma PatchAtPrefix(buf: seq<real>, more: seq<real>, p: nat)
    requires FloatsPerPatch * p + FloatsPerPatch <= |buf|
    ensures PatchAt(buf + more, p) == PatchAt(buf, p)
  {
  }

  /**
   * `buf` is the complete grid: exactly rez*rez patches of 4 control points of
   * 5 floats, and patch (i, j) sits at row-major position i*rez + j.
   */
  ghost predicate IsPatchGrid(buf: seq<real>, width: nat, height: nat, rez: nat)
    requires rez > 0
  {
    && |buf| == FloatsPerPatch * (rez * rez)
    && forall i, j :: 0 <= i < rez && 0 <= j < rez ==>
         PatchAt(buf, PatchIndex(rez, i, j)) == GridPatch(width, height, rez, i, j)
  }

  /**
   * The builder loop of main(): for each i, for each j, push the four corners
   * (i, j), (i+1, j), (i, j+1), (i+1, j+1) as x, y, z, u, v.
   */
  method BuildPatchGrid(width: nat, height: nat, rez: nat) returns (vertices: seq<real>)
    requires width > 0 && height > 0 && rez > 0
    ensures |vertices| == FloatsPerPatch * rez * rez
    ensures IsPatchGrid(vertices, width, height, rez)
  {
    vertices := [];
    var i: nat := 0;
    while i <= rez - 1
      invariant i <= rez
      invariant |vertices| == FloatsPerPatch * (i * rez)
      invariant forall a, b :: 0 <= a < i && 0 <= b < rez ==>
                  FloatsPerPatch * PatchIndex(rez, a, b) + FloatsPerPatch <= |vertices| &&
                  PatchAt(vertices, PatchIndex(rez, a, b)) == GridPatch(width, height, rez, a, b)
    {
      var j: nat := 0;
      while j <= rez - 1
        invariant j <= rez
        invariant |vertices| == FloatsPerPatch * (i * rez + j)
        invariant forall a, b :: 0 <= a < rez && 0 <= b < rez && (a < i || (a == i && b < j)) ==>
                    FloatsPerPatch * PatchIndex(rez, a, b) + FloatsPerPatch <= |vertices| &&
                    PatchAt(vertices, PatchIndex(rez, a, b)) == GridPatch(width, height, rez, a, b)
      {
        ghost var before := vertices;
        var xi, xi1 := LatticeX(width, rez, i), LatticeX(width, rez, i + 1);
        var zj, zj1 := LatticeZ(height, rez, j), LatticeZ(height, rez, j + 1);
        var ui, ui1 := (i as real) / (rez as real), ((i + 1) as real) / (rez as real);
        var vj, vj1 := (j as real) / (rez as real), ((j + 1) as real) / (rez as real);
        vertices := vertices + [xi, 0.0, zj, ui, vj];
        vertices := vertices + [xi1, 0.0, zj, ui1, vj];
        vertices := vertices + [xi, 0.0, zj1, ui, vj1];
        vertices := vertices + [xi1, 0.0, zj1, ui1, vj1];

        ghost var p := PatchIndex(rez, i, j);
        assert vertices == before + vertices[|before|..];
        assert PatchAt(vertices, p) == GridPatch(width, height, rez, i, j);
        forall a, b | 0 <= a < rez && 0 <= b < rez && (a < i || (a == i && b < j + 1))
          ensures FloatsPerPatch * PatchIndex(rez, a, b) + FloatsPerPatch <= |vertices|
          ensures PatchAt(vertices, PatchIndex(rez, a, b)) == GridPatch(width, height, rez, a, b)
        {
          if a < i || b < j {
            PatchIndexOrder(rez, a, b, i, j);
            PatchAtPrefix(before, vertices[|before|..], PatchIndex(rez, a, b));
          }
        }
        j := j + 1;
      }
      assert i * rez + rez == (i + 1) * rez;
      i := i + 1;
    }
  }

  /** Corners shared by horizontally and vertically adjacent patches coincide exactly. */
  lemma AdjacentPatchesShareEdges(width: nat, height: nat, rez: nat, i: nat, j: nat)
    requires rez > 0
    ensures GridPatch(width, height, rez, i, j).p1 == GridPatch(width, height, rez, i + 1, j).p0
    ensures GridPatch(width, height, rez, i, j).p3 == GridPatch(width, height, rez, i + 1, j).p2
    ensures GridPatch(width, height, rez, i, j).p2 == GridPatch(width, height, rez, i, j + 1).p0
    ensures GridPatch(width, height, rez, i, j).p3 == GridPatch(width, height, rez, i, j + 1).p1
  {
  }

  lemma RealMulMonotone(c: real, a: real, b: real)
    requires c >= 0.0 && a <= b
    ensures c * a <= c * b
  {
    assert c * b - c * a == c * (b - a);
  }

  /** A lattice coordinate is the left edge plus a fraction k/rez of the extent. */
  lemma LatticeAsFraction(extent: nat, rez: nat, k: nat)
    requires rez > 0
    ensures LatticeX(extent, rez, k) == -(extent as real) / 2.0 + (extent as real) * ((k as real) / (rez as real))
    ensures LatticeZ(extent, rez, k) == LatticeX(extent, rez, k)
  {
  }

  /** Lattice lines are strictly increasing, from -extent/2 at 0 to extent/2 at rez. */
  lemma LatticeMonotone(extent: nat, rez: nat, k: nat, l: nat)
    requires extent > 0 && rez > 0
    ensures LatticeX(extent, rez, 0) == -(extent as real) / 2.0
    ensures LatticeX(extent, rez, rez) == (extent as real) / 2.0
    ensures k < l ==> LatticeX(extent, rez, k) < LatticeX(extent, rez, l)
  {
    LatticeAsFraction(extent, rez, k);
    LatticeAsFraction(extent, rez, l);
    LatticeAsFraction(extent, rez, rez);
    if k < l {
      var w, r := extent as real, rez as real;
      assert (l as real) / r - (k as real) / r == ((l - k) as real) / r > 0.0;
      assert w * ((l as real) / r) - w * ((k as real) / r) == w * ((l as real) / r - (k as real) / r) > 0.0;
    }
  }

  /** Every corner of every grid patch lies in the terrain rectangle at y = 0, its texture coordinate in [0,1]^2. */
  lemma LatticePointBounds(width: nat, height: nat, rez: nat, i: nat, j: nat)
    requires width > 0 && height > 0 && rez > 0 && i <= rez && j <= rez
    ensures var c := LatticePoint(width, height, rez, i, j);
      && -(width as real) / 2.0 <= c.pos.x <= (width as real) / 2.0
      && c.pos.y == 0.0
      && -(height as real) / 2.0 <= c.pos.z <= (height as real) / 2.0
      && 0.0 <= c.tex.x <= 1.0 && 0.0 <= c.tex.y <= 1.0
  {
    LatticeMonotone(width, rez, 0, i);
    LatticeMonotone(width, rez, i, rez);
    LatticeMonotone(height, rez, 0, j);
    LatticeMonotone(height, rez, j, rez);
    FractionAtMostOne(i, rez);
    FractionAtMostOne(j, rez);
  }

  lemma FractionAtMostOne(k: nat, rez: nat)
    requires 0 < rez && k <= rez
    ensures 0.0 <= (k as real) / (rez as real) <= 1.0
  {
    RealDivMonotone(k as real, rez as real, rez as real);
  }

  /** The texture coordinate of a lattice node is its position normalised to the terrain extent. */
  lemma LatticeTexMatchesPosition(width: nat, height: nat, rez: nat, i: nat, j: nat)
    requires width > 0 && height > 0 && rez > 0
    ensures var c := LatticePoint(width, height, rez, i, j);
      && c.tex.x == (c.pos.x + (width as real) / 2.0) / (width as real)
      && c.tex.y == (c.pos.z + (height as real) / 2.0) / (height as real)
  {
    LatticeAsFraction(width, rez, i);
    LatticeAsFraction(height, rez, j);
  }

  /** The closed rectangle a patch spans, from corner p0 to corner p3. */
  predicate Covers(p: Patch, x: real, z: real) {
    p.p0.pos.x <= x <= p.p3.pos.x && p.p0.pos.z <= z <= p.p3.pos.z
  }

  /** The open rectangle a patch spans. */
  predicate CoversInterior(p: Patch, x: real, z: real) {
    p.p0.pos.x < x < p.p3.pos.x && p.p0.pos.z < z < p.p3.pos.z
  }

  lemma RealDivMonotone(a: real, b: real, r: real)
    requires r > 0.0 && a <= b
    ensures a / r <= b / r
  {
    assert b / r - a / r == (b - a) / r;
  }

  /** The integer cell [k, k+1] (k < rez) holding a real in [0, rez]. */
  lemma FloorCell(t: real, rez: nat) returns (k: nat)
    requires rez > 0 && 0.0 <= t <= rez as real
    ensures k < rez && (k as real) <= t <= (k + 1) as real
  {
    var f := t.Floor;
    k := if f >= rez then rez - 1 else f;
  }

  /** The lattice interval [k, k+1] (k < rez) that holds a coordinate of the terrain. */
  lemma LatticeCell(extent: nat, rez: nat, x: real) returns (k: nat)
    requires extent > 0 && rez > 0
    requires -(extent as real) / 2.0 <= x <= (extent as real) / 2.0
    ensures k < rez
    ensures LatticeX(extent, rez, k) <= x <= LatticeX(extent, rez, k + 1)
  {
    var e := extent as real;
    k := CellOf(e, rez, x + e / 2.0);
    LatticeAsFraction(extent, rez, k);
    LatticeAsFraction(extent, rez, k + 1);
  }

  /** An offset s in [0, e] lies between the fractions k/rez and (k+1)/rez of e, for some k < rez. */
  lemma CellOf(e: real, rez: nat, s: real) returns (k: nat)
    requires e > 0.0 && rez > 0 && 0.0 <= s <= e
    ensures k < rez
    ensures e * ((k as real) / (rez as real)) <= s <= e * (((k + 1) as real) / (rez as real))
  {
    var r := rez as real;
    var q := UnitQuotient(s, e);
    ScaledUnit(r, q);
    k := FloorCell(r * q, rez);
    CellBounds(e, r, q, k);
  }

  /** s / e for 0 <= s <= e lies in [0, 1] and scales back to s. */
  lemma UnitQuotient(s: real, e: real) returns (q: real)
    requires 0.0 < e && 0.0 <= s <= e
    ensures q == s / e && 0.0 <= q <= 1.0 && e * q == s
  {
    q := s / e;
    RealDivMonotone(s, e, e);
    RealDivMonotone(0.0, s, e);
  }

  lemma ScaledUnit(r: real, q: real)
    requires 0.0 <= r && 0.0 <= q <= 1.0
    ensures 0.0 <= r * q <= r
  {
    RealMulMonotone(r, q, 1.0);
    RealMulMonotone(r, 0.0, q);
  }

  /** If k <= r*q <= k+1 then e*(k/r) <= e*q <= e*((k+1)/r). */
  lemma CellBounds(e: real, r: real, q: real, k: nat)
    requires e > 0.0 && r > 0.0 && (k as real) <= r * q <= (k + 1) as real
    ensures e * ((k as real) / r) <= e * q <= e * (((k + 1) as real) / r)
  {
    var lo, hi := k as real, (k + 1) as real;
    assert (r * q) / r == q;
    RealDivMonotone(lo, r * q, r);
    RealDivMonotone(r * q, hi, r);
    RealMulMonotone(e, lo / r, q);
    RealMulMonotone(e, q, hi / r);
  }

  /** Coverage: every point of the terrain rectangle lies in some grid patch. */
  lemma GridCoversTerrain(width: nat, height: nat, rez: nat, x: real, z: real) returns (i: nat, j: nat)
    requires width > 0 && height > 0 && rez > 0
    requires -(width as real) / 2.0 <= x <= (width as real) / 2.0
    requires -(height as real) / 2.0 <= z <= (height as real) / 2.0
    ensures i < rez && j < rez
    ensures Covers(GridPatch(width, height, rez, i, j), x, z)
  {
    i := LatticeCell(width, rez, x);
    j := LatticeCell(height, rez, z);
    LatticeAsFraction(height, rez, j);
    LatticeAsFraction(height, rez, j + 1);
  }

  /** Containment: every grid patch lies inside the terrain rectangle. */
  lemma GridPatchInsideTerrain(width: nat, height: nat, rez: nat, i: nat, j: nat, x: real, z: real)
    requires width > 0 && height > 0 && rez > 0 && i < rez && j < rez
    requires Covers(GridPatch(width, height, rez, i, j), x, z)
    ensures -(width as real) / 2.0 <= x <= (width as real) / 2.0
    ensures -(height as real) / 2.0 <= z <= (height as real) / 2.0
  {
    LatticePointBounds(width, height, rez, i, j);
    LatticePointBounds(width, height, rez, i + 1, j + 1);
  }

  /** No overlap: the interiors of two different grid patches are disjoint. */
  lemma GridPatchesDisjoint(width: nat, height: nat, rez: nat, i: nat, j: nat, k: nat, l: nat, x: real, z: real)
    requires width > 0 && height > 0 && rez > 0
    requires i < rez && j < rez && k < rez && l < rez && (i, j) != (k, l)
    ensures !(CoversInterior(GridPatch(width, height, rez, i, j), x, z) &&
              CoversInterior(GridPatch(width, height, rez, k, l), x, z))
  {
    LatticeAsFraction(height, rez, j);
    LatticeAsFraction(height, rez, j + 1);
    LatticeAsFraction(height, rez, l);
    LatticeAsFraction(height, rez, l + 1);
    if i < k {
      LatticeMonotone(width, rez, i + 1, k);
    } else if k < i {
      LatticeMonotone(width, rez, k + 1, i);
    } else if j < l {
      LatticeMonotone(height, rez, j + 1, l);
    } else {
      LatticeMonotone(height, rez, l + 1, j);
    }
  }
}
