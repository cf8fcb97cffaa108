/** The parameter and plan logic of createSphere, createTube and
    createTorus: the arguments each passes to the three.js surface
    generators (angles kept in degrees), the wall strips each stitches
    between its outer and inner grids, and the order in which it merges
    its sub-meshes. */
module Builders {
  import opened Geometry
  import opened Stitch

  /** The radius an inner surface is given when the shape's is zero or less. */
  const InnerRadiusFloor: real := 0.0000001

  /** `if (r <= 0) r = 0.0000001`: every inner radius handed to sampling is
      strictly positive, and a positive one is left as it is. */
  function ClampInner(r: real): (c: real)
    ensures c > 0.0
    ensures r > 0.0 ==> c == r
    ensures r <= 0.0 ==> c == InnerRadiusFloor
  {
    if r <= 0.0 then InnerRadiusFloor else r
  }

  /** The sub-meshes a builder merges, named after the source's variables:
      the outer and inner surfaces, the "first" and "second" wall loops and
      the "face1" and "face2" walls or caps. */
  datatype Part = OuterShell | InnerShell | FirstWall | SecondWall | Face1 | Face2

  // ---------------------------------------------------------------- sphere

  /** The fields of a TGeoSphere the builder reads. */
  datatype SphereShape = SphereShape(fRmin: real, fRmax: real, fTheta1: real, fTheta2: real, fPhi1: real, fPhi2: real)

  /** The arguments of the two SphereGeometry calls, angles in degrees. */
  datatype SphereSampling = SphereSampling(outerRadius: real, innerRadius: real, widthSegments: nat, heightSegments: nat,
                                           phiStart: real, phiLength: real, thetaStart: real, thetaLength: real)

  const SphereSegments: nat := 32

  /** createSphere's sampling: both surfaces at half the shape's radius, the
      inner one clamped first so it is strictly positive, 32 by 32 segments,
      an azimuthal sweep that starts 180 degrees past fPhi1 (the tube and
      polycone builders offset by 90), and both sweeps running between the
      shape's two limits. */
  function SphereSamplingOf(s: SphereShape): (p: SphereSampling)
    ensures p.innerRadius > 0.0
    ensures p.outerRadius == s.fRmax / 2.0
    ensures s.fRmin > 0.0 ==> p.innerRadius == s.fRmin / 2.0
    ensures s.fRmin <= 0.0 ==> p.innerRadius == InnerRadiusFloor / 2.0
    ensures p.widthSegments == 32 && p.heightSegments == 32
    ensures p.phiStart == s.fPhi1 + 180.0 && p.phiLength == s.fPhi2 - s.fPhi1
    ensures p.thetaStart == s.fTheta1 && p.thetaLength == s.fTheta2 - s.fTheta1
    ensures p.phiStart + p.phiLength == s.fPhi2 + 180.0 && p.thetaStart + p.thetaLength == s.fTheta2
  {
    SphereSampling(s.fRmax / 2.0, ClampInner(s.fRmin) / 2.0, SphereSegments, SphereSegments,
                   s.fPhi1 + 180.0, s.fPhi2 - s.fPhi1, s.fTheta1, s.fTheta2 - s.fTheta1)
  }

  /** The order createSphere merges its sub-meshes in: the two surfaces,
      the "first" and "second" ring walls, then the face1 and face2 side
      walls; every part exactly once. */
  function SphereParts(): (parts: seq<Part>)
    ensures |parts| == 6
    ensures parts[..2] == [OuterShell, InnerShell]
    ensures parts[2] == FirstWall && parts[3] == SecondWall && parts[4] == Face1 && parts[5] == Face2
  {
    [OuterShell, InnerShell, FirstWall, SecondWall, Face1, Face2]
  }

  /** The four sphere wall loops stay inside grids of these lengths exactly
      when the outer grid has at least 1089 = 33*33 vertices and the inner
      one at least as many as the outer (the "second" loop indexes the inner
      grid with the outer grid's length). */
  lemma SphereWallsFit(outerLen: nat, innerLen: nat)
    ensures && Fits(Forward, SphereSegments, outerLen, innerLen)
            && Fits(Backward, SphereSegments, outerLen, innerLen)
            && Fits(SphereSide(SphereSegments, 0), SphereSegments, outerLen, innerLen)
            && Fits(SphereSide(SphereSegments, 1), SphereSegments, outerLen, innerLen)
            <==> 1089 <= outerLen <= innerLen
  {
  }

  /** createSphere's four wall loops: "first" and "second" join the rings at
      the two ends of the outer and inner grids, "face1" and "face2" their
      side columns; every pick reads an existing vertex. */
  method SphereWalls(outerLen: nat, innerLen: nat) returns (first: Strip, second: Strip, face1: Strip, face2: Strip)
    requires 1089 <= outerLen <= innerLen
    ensures IsWall(first, Forward, Ring, SphereSegments, outerLen)
    ensures IsWall(second, Backward, Ring, SphereSegments, outerLen)
    ensures IsWall(face1, SphereSide(SphereSegments, 0), Side, SphereSegments, outerLen)
    ensures IsWall(face2, SphereSide(SphereSegments, 1), Side, SphereSegments, outerLen)
    ensures AllPicksWithin(first, outerLen, innerLen) && AllPicksWithin(second, outerLen, innerLen)
    ensures AllPicksWithin(face1, outerLen, innerLen) && AllPicksWithin(face2, outerLen, innerLen)
  {
    SphereWallsFit(outerLen, innerLen);
    first := StitchStrip(Forward, Ring, SphereSegments, outerLen, innerLen);
    second := StitchStrip(Backward, Ring, SphereSegments, outerLen, innerLen);
    face1 := StitchStrip(SphereSide(SphereSegments, 0), Side, SphereSegments, outerLen, innerLen);
    face2 := StitchStrip(SphereSide(SphereSegments, 1), Side, SphereSegments, outerLen, innerLen);
  }

  // ------------------------------------------------------------ tube, cone

  /** The fields of the tube family the builder reads: fRmin/fRmax of a
      tube, fRmin1/fRmax1/fRmin2/fRmax2 of a cone, fPhi1/fPhi2 of a segment. */
  datatype TubeShape = TubeShape(typename: string, fRmin: real, fRmax: real,
                                 fRmin1: real, fRmax1: real, fRmin2: real, fRmax2: real,
                                 fDZ: real, fPhi1: real, fPhi2: real)

  predicate IsCone(typename: string)
  {
    typename == "TGeoCone" || typename == "TGeoConeSeg"
  }

  /** The kinds createTube treats as azimuthal segments. */
  predicate IsSegment(typename: string)
  {
    typename == "TGeoConeSeg" || typename == "TGeoTubeSeg" || typename == "TGeoCtub"
  }

  /** The arguments of the two CylinderGeometry calls, angles in degrees:
      radius at end 1 (radiusTop) and end 2 (radiusBottom) of each surface,
      the height, the radial and height segment counts, whether the ends are
      left open, and the sweep. */
  datatype TubeSampling = TubeSampling(outerRadius1: real, outerRadius2: real, innerRadius1: real, innerRadius2: real,
                                       height: real, segments: nat, heightSegments: nat, openEnded: bool,
                                       thetaStart: real, thetaLength: real)

  const TubeSegments: nat := 60

  /** createTube's sampling: a cone puts its fRmax2/fRmin2 at end 1 and its
      fRmax1/fRmin1 at end 2, a tube its single radii at both ends; inner
      radii are clamped, then every radius halved; 60 segments and a single
      height segment over the height fDZ, with open ends (the builder
      stitches its own end walls); a segment sweeps from fPhi1+90 for fPhi2-fPhi1 degrees,
      every other kind the full 360 from 0. */
  function TubeSamplingOf(s: TubeShape): (p: TubeSampling)
    ensures p.innerRadius1 > 0.0 && p.innerRadius2 > 0.0
    ensures IsCone(s.typename) ==> p.outerRadius1 == s.fRmax2 / 2.0 && p.outerRadius2 == s.fRmax1 / 2.0
    ensures IsCone(s.typename) ==> p.innerRadius1 == ClampInner(s.fRmin2) / 2.0 && p.innerRadius2 == ClampInner(s.fRmin1) / 2.0
    ensures !IsCone(s.typename) ==> p.outerRadius1 == p.outerRadius2 == s.fRmax / 2.0
    ensures !IsCone(s.typename) ==> p.innerRadius1 == p.innerRadius2 == ClampInner(s.fRmin) / 2.0
    ensures p.segments == 60 && p.height == s.fDZ
    ensures p.heightSegments == 1 && p.openEnded
    ensures IsSegment(s.typename) ==> p.thetaStart == s.fPhi1 + 90.0 && p.thetaLength == s.fPhi2 - s.fPhi1
    ensures !IsSegment(s.typename) ==> p.thetaStart == 0.0 && p.thetaLength == 360.0
  {
    var (outer1, inner1, outer2, inner2) :=
      if IsCone(s.typename) then (s.fRmax2, s.fRmin2, s.fRmax1, s.fRmin1)
      else (s.fRmax, s.fRmin, s.fRmax, s.fRmin);
    var (start, length) := if IsSegment(s.typename) then (s.fPhi1 + 90.0, s.fPhi2 - s.fPhi1) else (0.0, 360.0);
    TubeSampling(outer1 / 2.0, outer2 / 2.0, ClampInner(inner1) / 2.0, ClampInner(inner2) / 2.0,
                 s.fDZ, TubeSegments, 1, true, start, length)
  }

  /** A TGeoTube samples exactly like the TGeoCone whose two ends both have
      the tube's radii, and a TGeoTubeSeg like the matching TGeoConeSeg. */
  lemma TubeIsUniformCone(s: TubeShape)
    requires s.typename == "TGeoTube" || s.typename == "TGeoTubeSeg"
    ensures var cone := s.(typename := if s.typename == "TGeoTube" then "TGeoCone" else "TGeoConeSeg",
                           fRmin1 := s.fRmin, fRmin2 := s.fRmin, fRmax1 := s.fRmax, fRmax2 := s.fRmax);
            TubeSamplingOf(cone) == TubeSamplingOf(s)
  {
  }

  /** The order createTube merges its sub-meshes in: the two surfaces, the
      two caps only for a segment kind, then the "first" and "second" walls. */
  function TubeParts(typename: string): (parts: seq<Part>)
    ensures |parts| == if IsSegment(typename) then 6 else 4
    ensures parts[..2] == [OuterShell, InnerShell] && parts[|parts| - 2..] == [FirstWall, SecondWall]
    ensures Face1 in parts <==> IsSegment(typename)
    ensures Face2 in parts <==> IsSegment(typename)
    ensures IsSegment(typename) ==> parts[2] == Face1 && parts[3] == Face2
  {
    [OuterShell, InnerShell] + (if IsSegment(typename) then [Face1, Face2] else []) + [FirstWall, SecondWall]
  }

  /** The caps follow the kind, not the sweep: a TGeoTubeSeg from -90 to 270
      degrees samples the same full circle as the TGeoTube with its radii,
      yet it alone merges the two caps. */
  lemma CapsFollowKind(s: TubeShape)
    requires s.typename == "TGeoTubeSeg" && s.fPhi1 == -90.0 && s.fPhi2 == 270.0
    ensures TubeSamplingOf(s) == TubeSamplingOf(s.(typename := "TGeoTube"))
    ensures Face1 in TubeParts(s.typename) && Face1 !in TubeParts("TGeoTube")
  {
  }

  /** The tube's stitched parts stay inside grids of these lengths exactly
      when the outer grid has more than 60 vertices and the inner one at
      least as many as the outer. */
  lemma TubeWallsFit(segment: bool, outerLen: nat, innerLen: nat)
    requires segment ==> outerLen % 2 == 0
    ensures && Fits(Forward, TubeSegments, outerLen, innerLen)
            && Fits(Backward, TubeSegments, outerLen, innerLen)
            && (segment ==> AllPicksWithin(StartCap(outerLen), outerLen, innerLen)
                            && AllPicksWithin(EndCap(outerLen, TubeSegments), outerLen, innerLen))
            <==> TubeSegments < outerLen <= innerLen
  {
    if segment {
      CapsFit(outerLen, innerLen, TubeSegments);
    }
  }

  /** createTube's stitched parts: the "first" and "second" wall loops over
      60 segments and, only for a segment kind, the face1 cap at the start
      of the sweep and the face2 cap at its end; every pick reads an
      existing vertex. */
  method TubeWalls(typename: string, outerLen: nat, innerLen: nat) returns (first: Strip, second: Strip, caps: Option<(Strip, Strip)>)
    requires TubeSegments < outerLen <= innerLen
    requires IsSegment(typename) ==> outerLen % 2 == 0
    ensures IsWall(first, Forward, Ring, TubeSegments, outerLen)
    ensures IsWall(second, Backward, Ring, TubeSegments, outerLen)
    ensures caps.Some? <==> IsSegment(typename)
    ensures caps.Some? ==> caps.value.0 == StartCap(outerLen) && caps.value.1 == EndCap(outerLen, TubeSegments)
    ensures AllPicksWithin(first, outerLen, innerLen) && AllPicksWithin(second, outerLen, innerLen)
    ensures caps.Some? ==> AllPicksWithin(caps.value.0, outerLen, innerLen) && AllPicksWithin(caps.value.1, outerLen, innerLen)
  {
    TubeWallsFit(IsSegment(typename), outerLen, innerLen);
    first := StitchStrip(Forward, Ring, TubeSegments, outerLen, innerLen);
    caps := None;
    if IsSegment(typename) {
      caps := Some((StartCap(outerLen), EndCap(outerLen, TubeSegments)));
    }
    second := StitchStrip(Backward, Ring, TubeSegments, outerLen, innerLen);
  }

  // ----------------------------------------------------------------- torus

  /** The fields of a TGeoTorus the builder reads: axial radius, inner and
      outer tube radii, start angle and angular extent in degrees. */
  datatype TorusShape = TorusShape(fR: real, fRmin: real, fRmax: real, fPhi1: real, fDphi: real)

  /** The arguments of the two TorusGeometry calls and of the rotation
      about z, angles in degrees. */
  datatype TorusSampling = TorusSampling(radius: real, innerTube: real, outerTube: real,
                                         radialSegments: nat, tubularSegments: nat, arc: real, rotation: real)

  const TorusRadialSegments: nat := 30
  const TorusTubularSegments: nat := 60

  /** The arc as createTorus computes it: fDphi - fPhi1. */
  function TorusArcAsWritten(s: TorusShape): real
  {
    s.fDphi - s.fPhi1
  }

  /** A full torus that starts at 90 degrees is drawn as a 270-degree arc
      when the arc is computed as written: the start angle is subtracted
      from the extent although the rotation already applies it. */
  lemma TorusArcAsWrittenLosesSweep()
    ensures var s := TorusShape(20.0, 0.0, 5.0, 90.0, 360.0);
            TorusArcAsWritten(s) == 270.0 && TorusArcAsWritten(s) != s.fDphi
  {
  }

  /** The intended arc: the shape's angular extent. */
  function TorusArc(s: TorusShape): real
  {
    s.fDphi
  }

  /** The arc as written agrees with the intended one exactly for shapes
      that start at angle 0; any other start shortens or lengthens it. */
  lemma TorusArcAgreesOnlyFromZero(s: TorusShape)
    ensures TorusArcAsWritten(s) == TorusArc(s) <==> s.fPhi1 == 0.0
    ensures TorusArcAsWritten(s) == TorusArc(s) - s.fPhi1
  {
  }

  /** createTorus's sampling as written: axial and tube radii halved, the
      inner tube radius NOT clamped (unlike the other builders), 30 radial
      by 60 tubular segments, the arc fDphi - fPhi1, rotated by fPhi1. */
  function TorusSamplingOf(s: TorusShape): (p: TorusSampling)
    ensures p.radius == s.fR / 2.0 && p.innerTube == s.fRmin / 2.0 && p.outerTube == s.fRmax / 2.0
    ensures p.radialSegments == 30 && p.tubularSegments == 60
    ensures p.arc == s.fDphi - s.fPhi1 && p.rotation == s.fPhi1
  {
    TorusSampling(s.fR / 2.0, s.fRmin / 2.0, s.fRmax / 2.0, TorusRadialSegments, TorusTubularSegments, TorusArcAsWritten(s), s.fPhi1)
  }

  /** The sampling createTorus evidently intends: the same, with the
      shape's extent as arc. */
  function TorusSamplingIntended(s: TorusShape): (p: TorusSampling)
    ensures p == TorusSamplingOf(s).(arc := s.fDphi)
  {
    TorusSampling(s.fR / 2.0, s.fRmin / 2.0, s.fRmax / 2.0, TorusRadialSegments, TorusTubularSegments, TorusArc(s), s.fPhi1)
  }

  /** With the intended arc, the drawn arc is the shape's extent wherever
      the shape starts: moving the start angle moves the rotation only.
      As written, moving the start changes the arc too. */
  lemma TorusArcIsSweep(s: TorusShape, start: real)
    ensures TorusSamplingIntended(s).arc == s.fDphi
    ensures TorusSamplingIntended(s.(fPhi1 := start)) == TorusSamplingIntended(s).(rotation := start)
    ensures start != s.fPhi1 ==> TorusSamplingOf(s.(fPhi1 := start)).arc != TorusSamplingOf(s).arc
  {
  }

  /** The order createTorus merges its sub-meshes in: the two surfaces and
      the "first" and "second" walls, no faces. */
  function TorusParts(): (parts: seq<Part>)
    ensures |parts| == 4 && parts[..2] == [OuterShell, InnerShell]
    ensures parts[2] == FirstWall && parts[3] == SecondWall
    ensures Face1 !in parts && Face2 !in parts
  {
    [OuterShell, InnerShell, FirstWall, SecondWall]
  }

  /** The three merge orders compared: a torus merges like a full tube; the
      sphere merges its side walls after its ring walls, while a segment
      tube merges its caps before them. */
  lemma MergeOrders()
    ensures TorusParts() == TubeParts("TGeoTube")
    ensures SphereParts()[2..4] == [FirstWall, SecondWall] && TubeParts("TGeoTubeSeg")[4..] == [FirstWall, SecondWall]
    ensures multiset(SphereParts()) == multiset(TubeParts("TGeoTubeSeg"))
  {
    var sp, tp := SphereParts(), TubeParts("TGeoTubeSeg");
    assert sp == [OuterShell, InnerShell, FirstWall, SecondWall, Face1, Face2];
    assert tp == [OuterShell, InnerShell, Face1, Face2, FirstWall, SecondWall];
  }

  /** The two torus wall loops stay inside grids of these lengths exactly
      when both have at least 1891 = 31*61 vertices. */
  lemma TorusWallsFit(outerLen: nat, innerLen: nat)
    ensures && Fits(TorusFirst(TorusTubularSegments), TorusRadialSegments, outerLen, innerLen)
            && Fits(TorusSecond(TorusTubularSegments), TorusRadialSegments, outerLen, innerLen)
            <==> 1891 <= outerLen && 1891 <= innerLen
  {
  }

  /** createTorus's two wall loops over the 30 radial segments; every pick
      reads an existing vertex. */
  method TorusWalls(outerLen: nat, innerLen: nat) returns (first: Strip, second: Strip)
    requires 1891 <= outerLen && 1891 <= innerLen
    ensures IsWall(first, TorusFirst(TorusTubularSegments), Ring, TorusRadialSegments, outerLen)
    ensures IsWall(second, TorusSecond(TorusTubularSegments), Ring, TorusRadialSegments, outerLen)
    ensures AllPicksWithin(first, outerLen, innerLen) && AllPicksWithin(second, outerLen, innerLen)
  {
    TorusWallsFit(outerLen, innerLen);
    first := StitchStrip(TorusFirst(TorusTubularSegments), Ring, TorusRadialSegments, outerLen, innerLen);
    second := StitchStrip(TorusSecond(TorusTubularSegments), Ring, TorusRadialSegments, outerLen, innerLen);
  }
}
