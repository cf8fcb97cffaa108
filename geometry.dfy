/** Values shared by the tessellation model: vertex positions, triangles,
    picks into the two sampled grids a builder stitches together, and the
    partial meshes it merges. */
module Geometry {

  datatype Option<+T> = None | Some(value: T)

  /** A vertex position (a three.js Vector3). Coordinates are exact reals. */
  datatype Vec3 = Vec3(x: real, y: real, z: real)

  /** A triangle (a three.js Face3): three indices into its mesh's vertex list. */
  datatype Face3 = Face3(a: int, b: int, c: int)

  /** All three corners of `f` index a vertex list of length `n`. */
  predicate FaceWithin(f: Face3, n: int)
  {
    0 <= f.a < n && 0 <= f.b < n && 0 <= f.c < n
  }

  /** A mesh built by pushing vertices and faces (a three.js Geometry). */
  datatype Mesh = Mesh(vertices: seq<Vec3>, faces: seq<Face3>)

  /** The two sampled surfaces a wall joins: the outer one and the inner one. */
  datatype Grid = Outer | Inner

  /** A vertex copied from a sampled grid: which grid, and at which index. */
  datatype Pick = Pick(grid: Grid, index: int)

  function GridLength(g: Grid, outerLen: nat, innerLen: nat): nat
  {
    if g == Outer then outerLen else innerLen
  }

  /** The pick reads an existing vertex of its grid. */
  predicate PickWithin(p: Pick, outerLen: nat, innerLen: nat)
  {
    0 <= p.index < GridLength(p.grid, outerLen, innerLen)
  }

  /** A stitched partial mesh: its vertices are picks into the two grids,
      its faces index those picks. */
  datatype Strip = Strip(picks: seq<Pick>, faces: seq<Face3>)

  /** Every pick of the strip reads an existing grid vertex. */
  predicate AllPicksWithin(s: Strip, outerLen: nat, innerLen: nat)
  {
    forall p :: 0 <= p < |s.picks| ==> PickWithin(s.picks[p], outerLen, innerLen)
  }
}
