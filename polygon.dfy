/** createPolygon (TGeoPcon, TGeoPgon): the sampling parameters, the radius
    arrays it fills, the per-section cylinder arguments, the end caps and
    azimuthal faces it stitches per section, and the order it merges them.
    A JavaScript read past the end of an array yields undefined, and every
    arithmetic result built from it is NaN; both are None here. */
module Polygon {
  import opened Geometry
  import opened Stitch
  import opened Builders

  /** The fields of a TGeoPcon/TGeoPgon the builder reads. */
  datatype PolyShape = PolyShape(typename: string, fNedges: nat, fNz: nat, fPhi1: real, fDphi: real,
                                 fZ: seq<real>, fRmin: seq<real>, fRmax: seq<real>)

  /** `a[k]`: the element, or undefined past the end. */
  function Read(a: seq<real>, k: int): Option<real>
  {
    if 0 <= k < |a| then Some(a[k]) else None
  }

  /** `v / 2`, NaN staying NaN. */
  function Half(v: Option<real>): Option<real>
  {
    if v.Some? then Some(v.value / 2.0) else None
  }

  /** `if (v <= 0) v = 0.0000001`: NaN compares false and stays NaN. */
  function ClampRead(v: Option<real>): (c: Option<real>)
    ensures c.Some? <==> v.Some?
    ensures c.Some? ==> c.value > 0.0
    ensures v.Some? && v.value > 0.0 ==> c == v
  {
    if v.Some? then Some(ClampInner(v.value)) else None
  }

  /** The CylinderGeometry arguments shared by every section, angles in
      degrees: radial and height segment counts, open ends, the sweep, and
      whether the azimuthal faces are drawn. */
  datatype PolySampling = PolySampling(segments: nat, heightSegments: nat, openEnded: bool,
                                       thetaStart: real, thetaLength: real, drawFaces: bool)

  /** createPolygon's sampling: fNedges segments for a TGeoPgon and 60 for
      anything else, one height segment and open ends on every cylinder,
      a sweep from fPhi1+90 for fDphi degrees, and azimuthal
      faces exactly when the sweep is short of a full turn. */
  function PolySamplingOf(s: PolyShape): (p: PolySampling)
    ensures s.typename == "TGeoPgon" ==> p.segments == s.fNedges
    ensures s.typename != "TGeoPgon" ==> p.segments == 60
    ensures p.heightSegments == 1 && p.openEnded
    ensures p.thetaStart == s.fPhi1 + 90.0 && p.thetaLength == s.fDphi
    ensures p.drawFaces <==> s.fDphi < 360.0
  {
    PolySampling(if s.typename == "TGeoPgon" then s.fNedges else 60, 1, true, s.fPhi1 + 90.0, s.fDphi, s.fDphi < 360.0)
  }

  /** outerRadius[i] as the first loop leaves it; undefined from fNz on. */
  function OuterRadius(s: PolyShape, i: int): Option<real>
  {
    if 0 <= i < s.fNz then Half(Read(s.fRmax, i)) else None
  }

  /** innerRadius[i] as the first loop leaves it; undefined from fNz on. */
  function InnerRadius(s: PolyShape, i: int): Option<real>
  {
    if 0 <= i < s.fNz then ClampRead(Half(Read(s.fRmin, i))) else None
  }

  /** The first loop of createPolygon: fills outerRadius and innerRadius for
      i below fNz with the halved radii, clamping the inner ones; every
      inner radius it defines is strictly positive. */
  method FillRadii(s: PolyShape) returns (outer: seq<Option<real>>, inner: seq<Option<real>>)
    ensures |outer| == s.fNz && |inner| == s.fNz
    ensures forall i :: 0 <= i < s.fNz ==> outer[i] == OuterRadius(s, i) && inner[i] == InnerRadius(s, i)
    ensures forall i :: 0 <= i < s.fNz && inner[i].Some? ==> inner[i].value > 0.0
    ensures forall i :: 0 <= i < s.fNz ==> (outer[i].Some? <==> i < |s.fRmax|) && (inner[i].Some? <==> i < |s.fRmin|)
  {
    outer, inner := [], [];
    var i := 0;
    while i < s.fNz
      invariant 0 <= i <= s.fNz
      invariant |outer| == i && |inner| == i
      invariant forall k :: 0 <= k < i ==> outer[k] == OuterRadius(s, k) && inner[k] == InnerRadius(s, k)
    {
      outer := outer + [Half(Read(s.fRmax, i))];
      inner := inner + [ClampRead(Half(Read(s.fRmin, i)))];
      i := i + 1;
    }
  }

  /** The arguments one section hands to its two CylinderGeometry calls and
      to translateZ beyond those in PolySampling: the half-height DZ, the z shift, and the radii at end 1
      (index n+1) and end 2 (index n) of the outer and inner surfaces. */
  datatype Section = Section(height: Option<real>, shift: Option<real>,
                             outerRadius1: Option<real>, outerRadius2: Option<real>,
                             innerRadius1: Option<real>, innerRadius2: Option<real>)

  /** `(a - b) / 2`. */
  function HalfDiff(a: Option<real>, b: Option<real>): Option<real>
  {
    if a.Some? && b.Some? then Some((a.value - b.value) / 2.0) else None
  }

  /** `0.5 * (z + dz)`. */
  function Shift(z: Option<real>, dz: Option<real>): Option<real>
  {
    if z.Some? && dz.Some? then Some(0.5 * (z.value + dz.value)) else None
  }

  /** Section n as the second loop computes it, reading index n+1 of fZ and
      of both radius arrays. */
  function SectionAt(s: PolyShape, n: nat): Section
  {
    var dz := HalfDiff(Read(s.fZ, n + 1), Read(s.fZ, n));
    Section(dz, Shift(Read(s.fZ, n), dz), OuterRadius(s, n + 1), OuterRadius(s, n), InnerRadius(s, n + 1), InnerRadius(s, n))
  }

  /** `arr[k]` on an array the first loop filled. */
  function Entry(arr: seq<Option<real>>, k: nat): Option<real>
  {
    if k < |arr| then arr[k] else None
  }

  /** The loop runs n up to fNz-1, so its last section reads one past the
      end of the radius arrays and, when fZ holds exactly the fNz planes,
      of fZ too: that section's height, shift and end-1 radii are undefined. */
  lemma LastSectionReadsPastEnd(s: PolyShape)
    requires 0 < s.fNz && |s.fZ| == s.fNz
    ensures var last := SectionAt(s, s.fNz - 1);
            last.height == None && last.shift == None && last.outerRadius1 == None && last.innerRadius1 == None
  {
  }

  /** Every earlier section of a shape whose arrays hold fNz entries is
      fully defined: half the z gap as height, halved radii, and strictly
      positive inner radii. */
  lemma EarlierSectionsDefined(s: PolyShape, n: nat)
    requires n + 1 < s.fNz <= |s.fZ| && s.fNz <= |s.fRmin| && s.fNz <= |s.fRmax|
    ensures var sec := SectionAt(s, n);
            && sec.height == Some((s.fZ[n + 1] - s.fZ[n]) / 2.0)
            && sec.outerRadius1 == Some(s.fRmax[n + 1] / 2.0) && sec.outerRadius2 == Some(s.fRmax[n] / 2.0)
            && sec.innerRadius1.Some? && sec.innerRadius1.value > 0.0
            && sec.innerRadius2.Some? && sec.innerRadius2.value > 0.0
  {
  }

  /** The sub-meshes section n merges, in order: its two surfaces, the two
      azimuthal faces when drawn, the "first"-style end cap for the sections
      n >= fNz-2, and the "second"-style end cap for section 0 only. */
  function SectionParts(n: nat, fNz: nat, drawFaces: bool): (parts: seq<Part>)
    ensures 2 <= |parts| && parts[..2] == [OuterShell, InnerShell]
    ensures Face1 in parts <==> drawFaces
    ensures Face2 in parts <==> drawFaces
    ensures FirstWall in parts <==> n + 2 >= fNz
    ensures SecondWall in parts <==> n == 0
    ensures |parts| == 2 + (if drawFaces then 2 else 0) + (if n + 2 >= fNz then 1 else 0) + (if n == 0 then 1 else 0)
    ensures drawFaces ==> parts[2] == Face1 && parts[3] == Face2
    ensures n == 0 ==> parts[|parts| - 1] == SecondWall
    ensures n + 2 >= fNz ==> parts[if n == 0 then |parts| - 2 else |parts| - 1] == FirstWall
  {
    [OuterShell, InnerShell]
    + (if drawFaces then [Face1, Face2] else [])
    + (if n + 2 >= fNz then [FirstWall] else [])
    + (if n == 0 then [SecondWall] else [])
  }

  /** A merged sub-mesh: which section, which part of it. */
  datatype Piece = Piece(section: nat, part: Part)

  function SectionPieces(n: nat, fNz: nat, drawFaces: bool): seq<Piece>
  {
    var parts := SectionParts(n, fNz, drawFaces);
    seq(|parts|, k requires 0 <= k < |parts| => Piece(n, parts[k]))
  }

  /** The merge order of the first `count` sections. */
  function Pieces(count: nat, fNz: nat, drawFaces: bool): seq<Piece>
  {
    if count == 0 then [] else Pieces(count - 1, fNz, drawFaces) + SectionPieces(count - 1, fNz, drawFaces)
  }

  /** A part of section n is merged within the first `count` sections
      exactly when n is one of them and its section plan has that part. */
  lemma {:induction false} PieceIn(count: nat, fNz: nat, drawFaces: bool, n: nat, part: Part)
    ensures Piece(n, part) in Pieces(count, fNz, drawFaces) <==> n < count && part in SectionParts(n, fNz, drawFaces)
  {
    if count > 0 {
      PieceIn(count - 1, fNz, drawFaces, n, part);
      var parts := SectionParts(count - 1, fNz, drawFaces);
      var tail := SectionPieces(count - 1, fNz, drawFaces);
      if n == count - 1 && part in parts {
        var k :| 0 <= k < |parts| && parts[k] == part;
        assert tail[k] == Piece(n, part);
      }
    }
  }

  /** Over the whole shape: the bottom cap is merged once, for section 0;
      the top cap for the last two sections; the azimuthal faces for every
      section exactly when the sweep is short of a full turn. */
  lemma CapSelection(s: PolyShape, n: nat)
    ensures var d := PolySamplingOf(s).drawFaces;
            && (Piece(n, SecondWall) in Pieces(s.fNz, s.fNz, d) <==> n == 0 < s.fNz)
            && (Piece(n, FirstWall) in Pieces(s.fNz, s.fNz, d) <==> s.fNz <= n + 2 && n < s.fNz)
            && (Piece(n, Face1) in Pieces(s.fNz, s.fNz, d) <==> n < s.fNz && s.fDphi < 360.0)
  {
    var d := PolySamplingOf(s).drawFaces;
    PieceIn(s.fNz, s.fNz, d, n, SecondWall);
    PieceIn(s.fNz, s.fNz, d, n, FirstWall);
    PieceIn(s.fNz, s.fNz, d, n, Face1);
  }

  /** The second loop of createPolygon: one section per n below fNz, built
      from the radius arrays the first loop filled (reading one past their
      end for the last section), and the merge order of all sections. */
  method PolygonPlan(s: PolyShape) returns (sections: seq<Section>, pieces: seq<Piece>)
    ensures |sections| == s.fNz
    ensures forall n :: 0 <= n < s.fNz ==> sections[n] == SectionAt(s, n)
    ensures pieces == Pieces(s.fNz, s.fNz, s.fDphi < 360.0)
  {
    var outer, inner := FillRadii(s);
    var drawFaces := PolySamplingOf(s).drawFaces;
    sections, pieces := [], [];
    var n := 0;
    while n < s.fNz
      invariant 0 <= n <= s.fNz
      invariant |sections| == n
      invariant forall m :: 0 <= m < n ==> sections[m] == SectionAt(s, m)
      invariant pieces == Pieces(n, s.fNz, drawFaces)
    {
      var dz := HalfDiff(Read(s.fZ, n + 1), Read(s.fZ, n));
      var section := Section(dz, Shift(Read(s.fZ, n), dz),
                             Entry(outer, n + 1), Entry(outer, n), Entry(inner, n + 1), Entry(inner, n));
      assert section == SectionAt(s, n);
      sections := sections + [section];
      pieces := pieces + SectionPieces(n, s.fNz, drawFaces);
      assert pieces == Pieces(n + 1, s.fNz, drawFaces);
      n := n + 1;
    }
  }

  /** The strips stitched for section n: the "first"-style end cap (end[seg])
      when n >= fNz-2, the two azimuthal faces when drawn, and the
      "second"-style end cap (end[seg+1]) when n == 0. Each requirement on
      the grid lengths is exactly what the strips it guards need. */
  method SectionStrips(n: nat, fNz: nat, segments: nat, drawFaces: bool, outerLen: nat, innerLen: nat)
    returns (top: Option<Strip>, faces: Option<(Strip, Strip)>, bottom: Option<Strip>)
    requires n + 2 >= fNz ==> Fits(Forward, segments, outerLen, innerLen)
    requires n == 0 ==> Fits(Backward, segments, outerLen, innerLen)
    requires drawFaces ==> outerLen % 2 == 0 && segments < outerLen <= innerLen
    ensures top.Some? <==> n + 2 >= fNz
    ensures faces.Some? <==> drawFaces
    ensures bottom.Some? <==> n == 0
    ensures top.Some? ==> IsWall(top.value, Forward, Ring, segments, outerLen) && AllPicksWithin(top.value, outerLen, innerLen)
    ensures bottom.Some? ==> IsWall(bottom.value, Backward, Ring, segments, outerLen) && AllPicksWithin(bottom.value, outerLen, innerLen)
    ensures faces.Some? ==> faces.value.0 == StartCap(outerLen) && faces.value.1 == EndCap(outerLen, segments)
    ensures faces.Some? ==> AllPicksWithin(faces.value.0, outerLen, innerLen) && AllPicksWithin(faces.value.1, outerLen, innerLen)
  {
    top, faces, bottom := None, None, None;
    if n + 2 >= fNz {
      var strip := StitchStrip(Forward, Ring, segments, outerLen, innerLen);
      top := Some(strip);
    }
    if drawFaces {
      CapsFit(outerLen, innerLen, segments);
      faces := Some((StartCap(outerLen), EndCap(outerLen, segments)));
    }
    if n == 0 {
      var strip := StitchStrip(Backward, Ring, segments, outerLen, innerLen);
      bottom := Some(strip);
    }
  }
}
