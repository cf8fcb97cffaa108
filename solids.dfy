/** The eight-corner solids: createPara (parallelepiped) and createTrapezoid
    (TGeoArb8, TGeoTrap, TGeoTrd1, TGeoTrd2). Each lists its corners as a
    flat table of 24 coordinates, pushes every corner at half the listed
    coordinates, and pushes twelve triangles from one shared index table. */
module Solids {
  import opened Geometry

  /** The fields of a TGeoPara the builder reads: the half-lengths and the
      three shear factors. */
  datatype ParaShape = ParaShape(fX: real, fY: real, fZ: real, fTxy: real, fTxz: real, fTyz: real)

  /** The corner table of createPara, before halving: four corners at -fZ,
      then four at +fZ, each sheared in x and y. */
  function ParaTable(s: ParaShape): (t: seq<real>)
    ensures |t| == 24
  {
    var x, y, z, txy, txz, tyz := s.fX, s.fY, s.fZ, s.fTxy, s.fTxz, s.fTyz;
    [ -z * txz - txy * y - x, -y - z * tyz, -z,
      -z * txz + txy * y - x,  y - z * tyz, -z,
      -z * txz + txy * y + x,  y - z * tyz, -z,
      -z * txz - txy * y + x, -y - z * tyz, -z,
       z * txz - txy * y - x, -y + z * tyz,  z,
       z * txz + txy * y - x,  y + z * tyz,  z,
       z * txz + txy * y + x,  y + z * tyz,  z,
       z * txz - txy * y + x, -y + z * tyz,  z ]
  }

  /** The triangle table createPara and createTrapezoid share: twelve
      triangles over corners 0..7, three indices each. */
  const FaceTable: seq<int> :=
    [ 4, 5, 6,   4, 7, 6,   0, 3, 7,   7, 4, 0,
      4, 5, 1,   1, 0, 4,   6, 2, 1,   1, 5, 6,
      7, 3, 2,   2, 6, 7,   1, 2, 3,   3, 0, 1 ]

  /** A coordinate table read three at a time, every coordinate halved. */
  function Halved(t: seq<real>): (vs: seq<Vec3>)
    requires |t| % 3 == 0
    ensures |vs| == |t| / 3
  {
    seq(|t| / 3, v requires 0 <= v < |t| / 3 => Vec3(0.5 * t[3 * v], 0.5 * t[3 * v + 1], 0.5 * t[3 * v + 2]))
  }

  /** An index table read three at a time. */
  function Triangles(t: seq<int>): (fs: seq<Face3>)
    requires |t| % 3 == 0
    ensures |fs| == |t| / 3
  {
    seq(|t| / 3, f requires 0 <= f < |t| / 3 => Face3(t[3 * f], t[3 * f + 1], t[3 * f + 2]))
  }

  /** Corner v of a halved table. */
  lemma HalvedAt(t: seq<real>, v: int)
    requires |t| % 3 == 0 && 0 <= v < |t| / 3
    ensures 3 * v + 2 < |t|
    ensures Halved(t)[v] == Vec3(0.5 * t[3 * v], 0.5 * t[3 * v + 1], 0.5 * t[3 * v + 2])
  {
  }

  /** A 24-entry table whose first four corners have z = zLow and last four
      z = zHigh gives halved corners at zLow/2 and zHigh/2. */
  lemma HalvedLayers(t: seq<real>, zLow: real, zHigh: real)
    requires |t| == 24
    requires t[2] == zLow && t[5] == zLow && t[8] == zLow && t[11] == zLow
    requires t[14] == zHigh && t[17] == zHigh && t[20] == zHigh && t[23] == zHigh
    ensures forall v :: 0 <= v < 4 ==> Halved(t)[v].z == zLow / 2.0
    ensures forall v :: 4 <= v < 8 ==> Halved(t)[v].z == zHigh / 2.0
  {
    forall v | 0 <= v < 8
      ensures Halved(t)[v].z == 0.5 * t[3 * v + 2]
    {
      HalvedAt(t, v);
    }
  }

  /** The shared triangle table makes twelve triangles over the eight corners. */
  lemma BoxTriangles()
    ensures |Triangles(FaceTable)| == 12
    ensures forall f :: 0 <= f < 12 ==> FaceWithin(Triangles(FaceTable)[f], 8)
  {
  }

  /** The vertex loop: `for (i = 0; i < length; i += 3) push(0.5*t[i], 0.5*t[i+1], 0.5*t[i+2])`. */
  method PushCorners(table: seq<real>) returns (vs: seq<Vec3>)
    requires |table| % 3 == 0
    ensures vs == Halved(table)
  {
    vs := [];
    var i := 0;
    while i < |table|
      invariant 0 <= i <= |table| && i % 3 == 0
      invariant |vs| == i / 3
      invariant forall v :: 0 <= v < |vs| ==> vs[v] == Vec3(0.5 * table[3 * v], 0.5 * table[3 * v + 1], 0.5 * table[3 * v + 2])
    {
      vs := vs + [Vec3(0.5 * table[i], 0.5 * table[i + 1], 0.5 * table[i + 2])];
      i := i + 3;
    }
  }

  /** The face loop: `for (i = 0; i < length; i += 3) push(Face3(t[i], t[i+1], t[i+2]))`. */
  method PushFaces(table: seq<int>) returns (fs: seq<Face3>)
    requires |table| % 3 == 0
    ensures fs == Triangles(table)
  {
    fs := [];
    var i := 0;
    while i < |table|
      invariant 0 <= i <= |table| && i % 3 == 0
      invariant |fs| == i / 3
      invariant forall f :: 0 <= f < |fs| ==> fs[f] == Face3(table[3 * f], table[3 * f + 1], table[3 * f + 2])
    {
      fs := fs + [Face3(table[i], table[i + 1], table[i + 2])];
      i := i + 3;
    }
  }

  /** createPara: eight corners at half the table's coordinates, the lower
      four at z = -fZ/2 and the upper four at +fZ/2, and twelve triangles
      that index only those corners. */
  method CreatePara(s: ParaShape) returns (m: Mesh)
    ensures m.vertices == Halved(ParaTable(s)) && m.faces == Triangles(FaceTable)
    ensures |m.vertices| == 8 && |m.faces| == 12
    ensures forall f :: 0 <= f < |m.faces| ==> FaceWithin(m.faces[f], |m.vertices|)
    ensures forall v :: 0 <= v < 4 ==> m.vertices[v].z == -s.fZ / 2.0
    ensures forall v :: 4 <= v < 8 ==> m.vertices[v].z == s.fZ / 2.0
  {
    var vs := PushCorners(ParaTable(s));
    var fs := PushFaces(FaceTable);
    BoxTriangles();
    HalvedLayers(ParaTable(s), -s.fZ, s.fZ);
    m := Mesh(vs, fs);
  }

  /** Without shear the parallelepiped is the box of half-extents fX/2,
      fY/2, fZ/2: its corners are the eight sign combinations. */
  lemma ParaWithoutShear(s: ParaShape)
    requires s.fTxy == 0.0 && s.fTxz == 0.0 && s.fTyz == 0.0
    ensures var x, y, z := s.fX / 2.0, s.fY / 2.0, s.fZ / 2.0;
            Halved(ParaTable(s)) ==
              [ Vec3(-x, -y, -z), Vec3(-x, y, -z), Vec3(x, y, -z), Vec3(x, -y, -z),
                Vec3(-x, -y,  z), Vec3(-x, y,  z), Vec3(x, y,  z), Vec3(x, -y,  z) ]
  {
    var X, Y, Z := s.fX, s.fY, s.fZ;
    assert s == ParaShape(X, Y, Z, 0.0, 0.0, 0.0);
    var t := ParaTable(s);
    var h := Halved(t);
    var x, y, z := X / 2.0, Y / 2.0, Z / 2.0;
    HalvedAt(t, 0); HalvedAt(t, 1); HalvedAt(t, 2); HalvedAt(t, 3);
    HalvedAt(t, 4); HalvedAt(t, 5); HalvedAt(t, 6); HalvedAt(t, 7);
    assert h[0] == Vec3(-x, -y, -z) && h[1] == Vec3(-x, y, -z) && h[2] == Vec3(x, y, -z) && h[3] == Vec3(x, -y, -z);
    assert h[4] == Vec3(-x, -y, z) && h[5] == Vec3(-x, y, z) && h[6] == Vec3(x, y, z) && h[7] == Vec3(x, -y, z);
  }

  /** The fields of the trapezoid family the builder reads: the eight (x, y)
      pairs of TGeoArb8/TGeoTrap and the half-widths of TGeoTrd1/TGeoTrd2. */
  datatype TrapShape = TrapShape(typename: string, fXY: seq<(real, real)>, fDZ: real,
                                 fDx1: real, fDx2: real, fDY: real, fDy1: real, fDy2: real)

  predicate IsArb8Layout(s: TrapShape)
  {
    s.typename == "TGeoArb8" || s.typename == "TGeoTrap"
  }

  /** The corner table createTrapezoid selects by type name, before halving.
      None stands for the TypeError the source raises: an unknown type name
      leaves the table undefined, and fewer than eight fXY pairs make
      `fXY[k][0]` read from undefined. */
  function TrapezoidTable(s: TrapShape): (t: Option<seq<real>>)
    ensures t.Some? <==> (IsArb8Layout(s) && |s.fXY| >= 8) || s.typename == "TGeoTrd1" || s.typename == "TGeoTrd2"
    ensures t.Some? ==> |t.value| == 24
  {
    if IsArb8Layout(s) then
      if |s.fXY| < 8 then None
      else
        var xy, dz := s.fXY, s.fDZ;
        Some([ xy[0].0, xy[0].1, -1.0 * dz,
               xy[1].0, xy[1].1, -1.0 * dz,
               xy[2].0, xy[2].1, -1.0 * dz,
               xy[3].0, xy[3].1, -1.0 * dz,
               xy[4].0, xy[4].1,        dz,
               xy[5].0, xy[5].1,        dz,
               xy[6].0, xy[6].1,        dz,
               xy[7].0, xy[7].1,        dz ])
    else if s.typename == "TGeoTrd1" then
      var dx1, dx2, dy, dz := s.fDx1, s.fDx2, s.fDY, s.fDZ;
      Some([ -dx1,  dy, -dz,
              dx1,  dy, -dz,
              dx1, -dy, -dz,
             -dx1, -dy, -dz,
             -dx2,  dy,  dz,
              dx2,  dy,  dz,
              dx2, -dy,  dz,
             -dx2, -dy,  dz ])
    else if s.typename == "TGeoTrd2" then
      var dx1, dx2, dy1, dy2, dz := s.fDx1, s.fDx2, s.fDy1, s.fDy2, s.fDZ;
      Some([ -dx1,  dy1, -dz,
              dx1,  dy1, -dz,
              dx1, -dy1, -dz,
             -dx1, -dy1, -dz,
             -dx2,  dy2,  dz,
              dx2,  dy2,  dz,
              dx2, -dy2,  dz,
             -dx2, -dy2,  dz ])
    else
      None
  }

  /** createTrapezoid: a mesh exactly when the type name selects a table
      (None models the TypeError otherwise); then eight corners at half the
      table's coordinates, the lower four at z = -fDZ/2 and the upper four
      at +fDZ/2, TGeoArb8/TGeoTrap corners at half their fXY pairs, and
      twelve triangles that index only those corners. */
  method CreateTrapezoid(s: TrapShape) returns (m: Option<Mesh>)
    ensures m.Some? <==> TrapezoidTable(s).Some?
    ensures m.Some? ==> m.value.vertices == Halved(TrapezoidTable(s).value) && m.value.faces == Triangles(FaceTable)
    ensures m.Some? ==> |m.value.vertices| == 8 && |m.value.faces| == 12
    ensures m.Some? ==> forall f :: 0 <= f < |m.value.faces| ==> FaceWithin(m.value.faces[f], |m.value.vertices|)
    ensures m.Some? ==> forall v :: 0 <= v < 4 ==> m.value.vertices[v].z == -s.fDZ / 2.0
    ensures m.Some? ==> forall v :: 4 <= v < 8 ==> m.value.vertices[v].z == s.fDZ / 2.0
    ensures m.Some? && IsArb8Layout(s) ==>
              forall v :: 0 <= v < 8 ==> m.value.vertices[v].x == s.fXY[v].0 / 2.0 && m.value.vertices[v].y == s.fXY[v].1 / 2.0
  {
    var table := TrapezoidTable(s);
    if table.None? {
      return None;
    }
    var vs := PushCorners(table.value);
    var fs := PushFaces(FaceTable);
    BoxTriangles();
    TrapezoidCorners(s);
    m := Some(Mesh(vs, fs));
  }

  /** The corner facts CreateTrapezoid promises, about the selected table. */
  lemma TrapezoidCorners(s: TrapShape)
    requires TrapezoidTable(s).Some?
    ensures forall v :: 0 <= v < 4 ==> Halved(TrapezoidTable(s).value)[v].z == -s.fDZ / 2.0
    ensures forall v :: 4 <= v < 8 ==> Halved(TrapezoidTable(s).value)[v].z == s.fDZ / 2.0
    ensures IsArb8Layout(s) ==> forall v :: 0 <= v < 8 ==>
              Halved(TrapezoidTable(s).value)[v].x == s.fXY[v].0 / 2.0 && Halved(TrapezoidTable(s).value)[v].y == s.fXY[v].1 / 2.0
  {
    var t := TrapezoidTable(s).value;
    HalvedLayers(t, -s.fDZ, s.fDZ);
    if IsArb8Layout(s) {
      forall v | 0 <= v < 8
        ensures Halved(t)[v].x == s.fXY[v].0 / 2.0 && Halved(t)[v].y == s.fXY[v].1 / 2.0
      {
        HalvedAt(t, v);
      }
    }
  }

  /** A TGeoTrd1 is laid out as the TGeoTrd2 whose two y half-widths both
      equal its fDY. */
  lemma Trd1IsTrd2WithEqualY(s: TrapShape)
    requires s.typename == "TGeoTrd1"
    ensures TrapezoidTable(s) == TrapezoidTable(s.(typename := "TGeoTrd2", fDy1 := s.fDY, fDy2 := s.fDY))
  {
  }

  /** The TGeoTrd2 layout is symmetric about the axis: each of its two
      layers is the rectangle of half-widths (fDx, fDy)/2 at z = -+fDZ/2. */
  lemma Trd2Symmetric(s: TrapShape)
    requires s.typename == "TGeoTrd2"
    ensures var x1, y1, x2, y2, z := s.fDx1 / 2.0, s.fDy1 / 2.0, s.fDx2 / 2.0, s.fDy2 / 2.0, s.fDZ / 2.0;
            TrapezoidTable(s).Some? &&
            Halved(TrapezoidTable(s).value) ==
              [ Vec3(-x1, y1, -z), Vec3(x1, y1, -z), Vec3(x1, -y1, -z), Vec3(-x1, -y1, -z),
                Vec3(-x2, y2,  z), Vec3(x2, y2,  z), Vec3(x2, -y2,  z), Vec3(-x2, -y2,  z) ]
  {
    var t := TrapezoidTable(s).value;
    HalvedAt(t, 0); HalvedAt(t, 1); HalvedAt(t, 2); HalvedAt(t, 3);
    HalvedAt(t, 4); HalvedAt(t, 5); HalvedAt(t, 6); HalvedAt(t, 7);
  }
}
