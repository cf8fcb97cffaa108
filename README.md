# JSROOT geometry tessellator: dispatch and index bookkeeping

`scripts/JSRootGeoBase.js` turns ROOT geometry shape descriptors (`TGeoBBox`,
`TGeoPara`, `TGeoArb8`, `TGeoTrd1`, `TGeoTrd2`, `TGeoTrap`, `TGeoSphere`,
`TGeoCone`, `TGeoConeSeg`, `TGeoTube`, `TGeoTubeSeg`, `TGeoTorus`, `TGeoPcon`,
`TGeoPgon`) into three.js meshes. This project models the part of it that is
exact bookkeeping rather than floating-point sampling:

- **Dispatch** (`dispatch.dfy`): `JSROOT.GEO.isShapeSupported` as a class
  `Registry` whose two lists are created on first use, with a ghost log of
  the warnings printed; `JSROOT.GEO.createGeometry` as a pure map from type
  name to builder (`None` for the source's `null`).
- **Eight-corner solids** (`solids.dfy`): `createPara` and `createTrapezoid`
  build a 24-coordinate corner table, push every corner at half its
  coordinates, and push the twelve triangles of one shared index table.
  Coordinates are `real`, so halving is exact.
- **Wall stitching** (`stitch.dfy`): every "first", "second", "face1",
  "face2" and "end" loop of the sphere, tube, torus and polycone builders
  pushes six vertices picked from the outer and inner sampled grids and two
  triangles per iteration. They differ only in the index arithmetic (the
  `Walk`) and the order of the second triangle (the `Weave`), so one method
  `StitchStrip` models all of them. The grid lengths come from three.js and
  are parameters; `Fits` is the closed-form condition under which every pick
  reads an existing vertex, proved exact (`FitsExactly`). The two-triangle
  caps of the tube and polycone segments are `Cap`.
- **Builders** (`builders.dfy`, `polygon.dfy`): for sphere, tube/cone,
  torus and polycone, the arguments handed to the three.js generators
  (every argument of each SphereGeometry, CylinderGeometry and
  TorusGeometry call: radii, segment counts including the cylinders'
  single height segment, the cylinders' open ends, sweep start and length
  in degrees), the inner
  radius clamp, the strips stitched, and the ordered list of sub-meshes
  merged. The polycone loop reads index `n+1` of `fZ` and of its radius
  arrays for `n = fNz-1`; reads past the end are `None` (JavaScript
  `undefined`, and `NaN` after arithmetic), and the model records where
  they happen rather than repairing them.

`geometry.dfy` holds the shared values: `Option`, `Vec3`, `Face3`, `Mesh`,
grid picks and stitched strips.

## Model

| member | source | states |
|---|---|---|
| Dispatch.CreateGeometry | scripts/JSRootGeoBase.js:575-602 | returns no builder exactly for the names outside the 14-name supported list, so it agrees with isShapeSupported; a builder it returns is one written for that name |
| Dispatch.OneBuilderPerName | scripts/JSRootGeoBase.js:577-601 | every supported name is routed to the one builder written for it: no name goes to two builders |
| Dispatch.CtubNeverBuilt | scripts/JSRootGeoBase.js:590-593 | createTube has branches for TGeoCtub, yet createGeometry returns null for it |
| Dispatch.IndexOf | scripts/JSRootGeoBase.js:564 | Array indexOf: -1 iff the name is absent, otherwise the first position holding it |
| Dispatch.Observe | scripts/JSRootGeoBase.js:566-570 | the unsupported list after one call: grows by exactly the name iff it is unsupported and not yet listed, otherwise unchanged |
| Dispatch.Warnings | scripts/JSRootGeoBase.js:569 | one "Not supported <name>" message per listed name, in list order |
| Dispatch.Registry.constructor | scripts/JSRootGeoBase.js:560-566 | neither list exists yet and nothing was warned; the registry invariant holds |
| Dispatch.Registry.IsShapeSupported | scripts/JSRootGeoBase.js:558-573 | false with no effect for a missing shape; true iff the name is one of the 14, leaving the unsupported list and warnings untouched; an unsupported name is appended and warned about on first sight only; keeps the list free of duplicates and of supported names |
| Dispatch.ObserveAllKeepsInvariant | scripts/JSRootGeoBase.js:566-572 | over any run of calls the unsupported list stays duplicate-free, holds no supported name, and holds exactly the unsupported names seen |
| Dispatch.OneWarningPerKind | scripts/JSRootGeoBase.js:566-572 | a run of calls from scratch warns exactly once per distinct unsupported name |
| Solids.ParaTable | scripts/JSRootGeoBase.js:35-43 | createPara's corner table has 24 coordinates (8 corners) |
| Solids.Halved | scripts/JSRootGeoBase.js:51-52 | a table read three at a time gives a third as many corners |
| Solids.Triangles | scripts/JSRootGeoBase.js:54-55 | an index table read three at a time gives a third as many triangles |
| Solids.BoxTriangles | scripts/JSRootGeoBase.js:45-47 | the shared index table makes 12 triangles, every index in [0,8) |
| Solids.PushCorners | scripts/JSRootGeoBase.js:51-52 | the vertex loop pushes every corner at half the table's coordinates |
| Solids.PushFaces | scripts/JSRootGeoBase.js:54-55 | the face loop pushes the table's triangles in order |
| Solids.CreatePara | scripts/JSRootGeoBase.js:31-60 | 8 vertices at half the table, 12 faces inside [0,8), first four corners at z = -fZ/2 and last four at +fZ/2 |
| Solids.ParaWithoutShear | scripts/JSRootGeoBase.js:33-43 | with all three shears zero the corners are the eight sign combinations of (fX/2, fY/2, fZ/2) |
| Solids.TrapezoidTable | scripts/JSRootGeoBase.js:64-102 | a 24-coordinate table exactly for Arb8/Trap with eight fXY pairs and for Trd1/Trd2; none (the TypeError) otherwise |
| Solids.CreateTrapezoid | scripts/JSRootGeoBase.js:62-117 | a mesh exactly when a table is selected: 8 vertices at half the table, 12 faces inside [0,8), z = -fDZ/2 then +fDZ/2, Arb8/Trap corners at half their fXY pairs |
| Solids.TrapezoidCorners | scripts/JSRootGeoBase.js:66-102 | the selected table's halved corners lie on the two layers z = -+fDZ/2, and Arb8/Trap corners are the halved fXY pairs |
| Solids.Trd1IsTrd2WithEqualY | scripts/JSRootGeoBase.js:78-102 | the Trd1 layout is the Trd2 layout with both y half-widths equal to fDY |
| Solids.Trd2Symmetric | scripts/JSRootGeoBase.js:89-102 | the Trd2 corners are the two axis-centred rectangles of half-widths (fDx1, fDy1)/2 and (fDx2, fDy2)/2 at z = -+fDZ/2 |
| Stitch.FitsExactly | scripts/JSRootGeoBase.js:146-157 | the closed-form grid condition Fits holds iff every iteration of the loop picks existing vertices of both grids |
| Stitch.StitchStrip | scripts/JSRootGeoBase.js:269-280 | a loop of S iterations pushes 6S picks and 2S faces, face 2i = (6i, 6i+1, 6i+2) and 2i+1 = (6i+3, 6i+4, 6i+5), each pick the walk's index into the right grid, all inside the grids |
| Stitch.Cap | scripts/JSRootGeoBase.js:289-310 | a cap (tube face1 and face2, repeated for polycone sections at 487-509) pushes outer a, outer b, inner b, inner a, inner b, outer a with faces (0,1,2) and (3,4,5): both triangles share the outer a -- inner b diagonal, and the picks are exactly the four corners |
| Stitch.CapCoversQuad | scripts/JSRootGeoBase.js:487-509 | for distinct a and b the two triangles together cover the quadrilateral of outer and inner a and b and meet in exactly its outer a -- inner b diagonal |
| Stitch.CapsFit | scripts/JSRootGeoBase.js:289-310 | the face1 and face2 caps read only existing vertices iff the outer grid is longer than the segment count and the inner grid no shorter |
| Builders.ClampInner | scripts/JSRootGeoBase.js:243-244 | an inner radius <= 0 becomes 0.0000001, a positive one is kept, so every clamped radius is strictly positive |
| Builders.SphereSamplingOf | scripts/JSRootGeoBase.js:119-141 | both spheres at half the shape's radius with the inner one clamped first (so strictly positive), 32 by 32 segments, azimuth from fPhi1+180 (not +90 as for tubes) for fPhi2-fPhi1, polar angle from fTheta1 for fTheta2-fTheta1 |
| Builders.SphereParts | scripts/JSRootGeoBase.js:213-224 | merge order outer, inner, first, second, face1, face2 |
| Builders.SphereWallsFit | scripts/JSRootGeoBase.js:145-213 | the four sphere loops stay inside the grids iff the outer grid has at least 1089 vertices and the inner one at least as many |
| Builders.SphereWalls | scripts/JSRootGeoBase.js:145-213 | the first/second ring walls and the face1/face2 side walls as the loops pick them, all picks inside the grids |
| Builders.TubeSamplingOf | scripts/JSRootGeoBase.js:230-267 | cones put fRmax2/fRmin2 at end 1 and fRmax1/fRmin1 at end 2, tubes one radius at both ends; inner radii clamped then halved; 60 radial segments and one height segment with open ends; ConeSeg/TubeSeg/Ctub sweep from fPhi1+90 for fPhi2-fPhi1, others 0 for 360 |
| Builders.TubeIsUniformCone | scripts/JSRootGeoBase.js:231-244 | a tube samples exactly like the cone whose two ends carry the tube's radii, a tube segment like the matching cone segment |
| Builders.TubeParts | scripts/JSRootGeoBase.js:334-348 | merge order outer, inner, [face1, face2], first, second, face1 before face2; the two faces iff the kind is ConeSeg, TubeSeg or Ctub |
| Builders.CapsFollowKind | scripts/JSRootGeoBase.js:245-251 | a TubeSeg spanning -90..270 samples the same full circle as the matching Tube, yet only it merges the two caps |
| Builders.TubeWallsFit | scripts/JSRootGeoBase.js:269-329 | the tube's walls and caps read only existing vertices iff the outer grid has more than 60 vertices and the inner one at least as many |
| Builders.TubeWalls | scripts/JSRootGeoBase.js:269-329 | the first and second ring walls, and the face1/face2 caps exactly for segment kinds, all picks inside the grids |
| Builders.TorusSamplingOf | scripts/JSRootGeoBase.js:354-373 | as written: axial and tube radii halved, inner tube radius not clamped, 30 by 60 segments, arc fDphi - fPhi1, rotation fPhi1 |
| Builders.TorusArcAsWrittenLosesSweep | scripts/JSRootGeoBase.js:360 | with the arc computed as written, a full torus starting at 90 degrees is drawn as a 270-degree arc |
| Builders.TorusArcAgreesOnlyFromZero | scripts/JSRootGeoBase.js:360-361 | the as-written arc equals the extent fDphi iff the start angle is 0; otherwise it is off by fPhi1 |
| Builders.TorusSamplingIntended | scripts/JSRootGeoBase.js:354-373 | the intended sampling: the as-written one with the extent fDphi as arc |
| Builders.TorusArcIsSweep | scripts/JSRootGeoBase.js:360-372 | with the intended arc, the drawn arc is fDphi and moving the start angle changes only the rotation; as written, moving it changes the arc |
| Builders.TorusParts | scripts/JSRootGeoBase.js:412-419 | merge order outer, inner, first, second, with no faces |
| Builders.MergeOrders | scripts/JSRootGeoBase.js:213-419 | the torus merges in the order of a full tube; the sphere merges its side walls after its ring walls, a tube segment its caps before them, over the same six parts |
| Builders.TorusWallsFit | scripts/JSRootGeoBase.js:376-406 | the two torus loops stay inside the grids iff both grids have at least 1891 vertices |
| Builders.TorusWalls | scripts/JSRootGeoBase.js:376-406 | the first and second torus walls as the loops pick them, all picks inside the grids |
| Polygon.ClampRead | scripts/JSRootGeoBase.js:445-446 | the clamp on a possibly undefined radius: undefined stays undefined, a defined result is strictly positive, a positive one is kept |
| Polygon.PolySamplingOf | scripts/JSRootGeoBase.js:426-459 | fNedges radial segments for Pgon and 60 otherwise, one height segment and open ends on every section's cylinders, sweep from fPhi1+90 for fDphi, faces drawn iff fDphi < 360 |
| Polygon.FillRadii | scripts/JSRootGeoBase.js:443-447 | fills both radius arrays for every index below fNz with the halved radii, inner ones clamped to be strictly positive where defined |
| Polygon.LastSectionReadsPastEnd | scripts/JSRootGeoBase.js:448-451 | for fZ of exactly fNz planes, the last section's height, shift and end-1 radii are read past the end of their arrays |
| Polygon.EarlierSectionsDefined | scripts/JSRootGeoBase.js:448-464 | every section but the last is defined: height half the z gap, halved outer radii, strictly positive inner radii |
| Polygon.SectionParts | scripts/JSRootGeoBase.js:535-552 | a section merges its two surfaces, then face1 and face2 iff drawn, then the end[seg] cap iff n >= fNz-2, then the end[seg+1] cap iff n == 0, each at its position |
| Polygon.PieceIn | scripts/JSRootGeoBase.js:448-553 | a part of section n is merged iff n is below the section count and the section's plan has that part |
| Polygon.CapSelection | scripts/JSRootGeoBase.js:466-552 | over the whole shape the bottom cap is merged for section 0 only, the top cap for the last two sections, the faces for every section iff fDphi < 360 |
| Polygon.PolygonPlan | scripts/JSRootGeoBase.js:443-553 | one section per n below fNz computed from the filled radius arrays, and the merge order of all sections |
| Polygon.SectionStrips | scripts/JSRootGeoBase.js:466-531 | end[seg] iff n >= fNz-2, both faces iff drawn, end[seg+1] iff n == 0, each as its loop picks it and inside the grids |

## Left out

- `createCube` only calls three.js `BoxGeometry`; it is the `Cube` builder of the dispatcher and has no logic of its own.
- The three.js generators (`BoxGeometry`, `SphereGeometry`, `CylinderGeometry`, `TorusGeometry`), `Matrix4` rotations, `translateZ`, `merge`, `mergeVertices` and `computeFaceNormals` are foreign code: the builders are modelled up to the arguments they pass and the picks and parts they assemble, and grid lengths are parameters.
- Degree-to-radian conversion with `Math.PI` and every trigonometric vertex position are floating point; angles stay in degrees and no closed-surface or normal-direction property is claimed.
- `console.warn` is modelled only as the ghost warning log of `Registry`.
- The UMD/AMD wrapper (`scripts/JSRootGeoBase.js:8-22`) only installs the module.
- `demo/node/makesvg.js` is network, file and SVG I/O with no logic of its own; it is not part of this model.
- Shape fields are typed values: a field missing from a descriptor (JavaScript `undefined`) is not modelled, except for the polycone array reads past `fNz` and the trapezoid's missing `fXY` pairs or unknown kind. A shape whose `_typename` is missing is not modelled either.
- `createGeometry` reads `shape['_typename']` without a null check, so a null or undefined shape throws a TypeError there, while `isShapeSupported` returns false for it; `Dispatch.CreateGeometry` takes the type name of a present shape, and that error path is not modelled.
- `fNedges` and `fNz` are natural numbers; negative or fractional counts are not modelled.
- createSphere, createTube and createTorus run their wall loops over an undeclared `i` (scripts/JSRootGeoBase.js:146, 269, 376 and the loops after them), so each call also assigns a global `i`; that side effect on the global scope is not modelled, and nothing in the builders reads it back.
- The face1 caps index the middle of the outer grid with `vertices.length/2`; the model requires an even outer grid length (a three.js cylinder with one height segment has 2*(segments+1) vertices), so a fractional index is not modelled.
- `mergeVertices` deduplication is left to three.js: a strip keeps all six picks per iteration.

## Findings

| source | as written | input that shows it | evidently intended | confidence | as-written member | corrected member |
|---|---|---|---|---|---|---|
| scripts/JSRootGeoBase.js:360 | the torus arc is `fDphi - fPhi1`, while the start angle is also applied as a rotation | fR=20, fRmin=0, fRmax=5, fPhi1=90, fDphi=360 draws 270 degrees instead of a full torus | the arc is the extent `fDphi`, and `fPhi1` only rotates it | medium, not executed | Builders.TorusArcAsWrittenLosesSweep | Builders.TorusArcIsSweep |
