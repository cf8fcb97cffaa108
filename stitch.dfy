/** The wall-stitch loops of the builders. Every such loop runs a counter i
    over a number of segments, turns i into two indices `lo` and `hi` of the
    sampled grids, pushes six picked vertices and two triangles, and uses
    k = i*6 as the base of the triangle indices. The loops differ only in
    how i becomes (lo, hi) -- the Walk -- and in the corner order of the
    second triangle -- the Weave. */
module Stitch {
  import opened Geometry

  /** The index arithmetic of one stitch loop. */
  datatype Walk =
    | Forward                           // j = i: picks j and j+1 ("first" loops, polycone end[seg])
    | Backward                          // length-2-j and length-2-j+1, length of the outer grid ("second" loops, polycone end[seg+1])
    | SphereSide(width: nat, row: nat)  // j = width*(i+row): picks j+i and j+width+i+1 (sphere face1: row 0, face2: row 1)
    | TorusFirst(tubular: nat)          // i*(tubular+1) and (i+1)*(tubular+1)
    | TorusSecond(tubular: nat)         // (i+1)*tubular + i and (i+2)*tubular + i+1

  /** The first grid index a loop reads at iteration i. */
  function Lo(walk: Walk, i: int, outerLen: int): int
  {
    match walk
    case Forward => i
    case Backward => outerLen - 2 - i
    case SphereSide(width, row) => width * (i + row) + i
    case TorusFirst(t) => i * (t + 1)
    case TorusSecond(t) => (i + 1) * t + i
  }

  /** The second grid index a loop reads at iteration i. */
  function Hi(walk: Walk, i: int, outerLen: int): int
  {
    match walk
    case Forward => i + 1
    case Backward => outerLen - 2 - i + 1
    case SphereSide(width, row) => width * (i + row) + width + i + 1
    case TorusFirst(t) => (i + 1) * (t + 1)
    case TorusSecond(t) => (i + 2) * t + i + 1
  }

  /** The corner order of the second triangle of each iteration. */
  datatype Weave =
    | Ring  // (outer lo, outer hi, inner lo), (inner lo, inner hi, outer hi)
    | Side  // (outer lo, outer hi, inner lo), (inner lo, outer hi, inner hi): sphere face1/face2

  /** The vertex pushed in slot k (0..5) of an iteration that joins lo and hi. */
  function QuadPick(weave: Weave, k: int, lo: int, hi: int): Pick
  {
    if k == 0 then Pick(Outer, lo)
    else if k == 1 then Pick(Outer, hi)
    else if k == 2 || k == 3 then Pick(Inner, lo)
    else if k == 4 then (if weave == Ring then Pick(Inner, hi) else Pick(Outer, hi))
    else (if weave == Ring then Pick(Outer, hi) else Pick(Inner, hi))
  }

  /** Every grid index read at iteration i exists in both grids (each loop
      reads lo and hi from the outer grid and from the inner grid). */
  predicate StepFits(walk: Walk, i: int, outerLen: nat, innerLen: nat)
  {
    var lo, hi := Lo(walk, i, outerLen), Hi(walk, i, outerLen);
    0 <= lo < outerLen && lo < innerLen && 0 <= hi < outerLen && hi < innerLen
  }

  /** Closed-form lengths the two grids need for a loop of `segments`
      iterations never to read past either of them. */
  predicate Fits(walk: Walk, segments: nat, outerLen: nat, innerLen: nat)
  {
    segments == 0 ||
    match walk
    case Forward => segments < outerLen && segments < innerLen
    case Backward => segments < outerLen <= innerLen
    case SphereSide(w, row) => w * (segments + row) + segments < outerLen && w * (segments + row) + segments < innerLen
    case TorusFirst(t) => segments * (t + 1) < outerLen && segments * (t + 1) < innerLen
    case TorusSecond(t) => (segments + 1) * t + segments < outerLen && (segments + 1) * t + segments < innerLen
  }

  lemma MulMonotone(a: nat, b: int, c: int)
    requires b <= c
    ensures a * b <= a * c
  {
    assert a * c - a * b == a * (c - b);
  }

  lemma SphereSideBounds(w: nat, row: nat, i: nat, segments: nat)
    requires i < segments
    ensures 0 <= w * (i + row)
    ensures w * (i + row) + w + i + 1 <= w * (segments + row) + segments
    ensures w * (segments - 1 + row) + w + (segments - 1) + 1 == w * (segments + row) + segments
  {
    MulMonotone(w, i + row, segments - 1 + row);
    assert w * (segments - 1 + row) + w == w * (segments + row);
  }

  lemma TorusFirstBounds(t: nat, i: nat, segments: nat)
    requires i < segments
    ensures 0 <= i * (t + 1)
    ensures (i + 1) * (t + 1) <= segments * (t + 1)
  {
    MulMonotone(t + 1, i + 1, segments);
  }

  lemma TorusSecondBounds(t: nat, i: nat, segments: nat)
    requires i < segments
    ensures 0 <= (i + 1) * t
    ensures (i + 2) * t + i + 1 <= (segments + 1) * t + segments
  {
    MulMonotone(t, i + 2, segments + 1);
  }

  /** The closed form is sufficient: under it every iteration reads inside both grids. */
  lemma FitsSufficient(walk: Walk, segments: nat, outerLen: nat, innerLen: nat, i: int)
    requires Fits(walk, segments, outerLen, innerLen)
    requires 0 <= i < segments
    ensures StepFits(walk, i, outerLen, innerLen)
  {
    match walk
    case Forward =>
    case Backward =>
    case SphereSide(w, row) => SphereSideBounds(w, row, i, segments);
    case TorusFirst(t) => TorusFirstBounds(t, i, segments);
    case TorusSecond(t) => TorusSecondBounds(t, i, segments);
  }

  /** The closed form is necessary: the first and last iterations alone force it. */
  lemma FitsNecessary(walk: Walk, segments: nat, outerLen: nat, innerLen: nat)
    requires 0 < segments
    requires StepFits(walk, 0, outerLen, innerLen) && StepFits(walk, segments - 1, outerLen, innerLen)
    ensures Fits(walk, segments, outerLen, innerLen)
  {
    match walk
    case Forward =>
    case Backward =>
    case SphereSide(w, row) => SphereSideBounds(w, row, segments - 1, segments);
    case TorusFirst(t) =>
    case TorusSecond(t) =>
  }

  /** The closed form is exact: it holds iff every iteration reads inside both grids. */
  lemma FitsExactly(walk: Walk, segments: nat, outerLen: nat, innerLen: nat)
    ensures Fits(walk, segments, outerLen, innerLen) <==>
            forall i :: 0 <= i < segments ==> StepFits(walk, i, outerLen, innerLen)
  {
    if Fits(walk, segments, outerLen, innerLen) {
      forall i | 0 <= i < segments
        ensures StepFits(walk, i, outerLen, innerLen)
      {
        FitsSufficient(walk, segments, outerLen, innerLen, i);
      }
    }
    if segments > 0 && forall i :: 0 <= i < segments ==> StepFits(walk, i, outerLen, innerLen) {
      FitsNecessary(walk, segments, outerLen, innerLen);
    }
  }

  /** `s` is what a stitch loop of `segments` iterations pushes: six picks
      and two triangles per iteration, triangle f over picks 3f, 3f+1, 3f+2
      (so triangle 2i is (6i, 6i+1, 6i+2) and 2i+1 is (6i+3, 6i+4, 6i+5)). */
  ghost predicate IsWall(s: Strip, walk: Walk, weave: Weave, segments: nat, outerLen: nat)
  {
    && |s.picks| == 6 * segments
    && |s.faces| == 2 * segments
    && (forall f :: 0 <= f < |s.faces| ==> s.faces[f] == Face3(3 * f, 3 * f + 1, 3 * f + 2))
    && (forall i, k :: 0 <= i < segments && 0 <= k < 6 ==>
          s.picks[6 * i + k] == QuadPick(weave, k, Lo(walk, i, outerLen), Hi(walk, i, outerLen)))
  }

  /** One stitch loop (JSRootGeoBase.js "first", "second", "face1", "face2"
      and "end" loops). When the grids fit, every pick reads an existing
      vertex and every triangle indexes the strip's own vertices. */
  method StitchStrip(walk: Walk, weave: Weave, segments: nat, outerLen: nat, innerLen: nat) returns (s: Strip)
    requires Fits(walk, segments, outerLen, innerLen)
    ensures IsWall(s, walk, weave, segments, outerLen)
    ensures |s.picks| == 6 * segments && |s.faces| == 2 * segments
    ensures forall f :: 0 <= f < |s.faces| ==> FaceWithin(s.faces[f], |s.picks|)
    ensures AllPicksWithin(s, outerLen, innerLen)
  {
    var picks: seq<Pick> := [];
    var faces: seq<Face3> := [];
    for i := 0 to segments
      invariant |picks| == 6 * i && |faces| == 2 * i
      invariant forall f :: 0 <= f < |faces| ==> faces[f] == Face3(3 * f, 3 * f + 1, 3 * f + 2)
      invariant forall j, q :: 0 <= j < i && 0 <= q < 6 ==>
                  picks[6 * j + q] == QuadPick(weave, q, Lo(walk, j, outerLen), Hi(walk, j, outerLen))
      invariant forall p :: 0 <= p < |picks| ==> PickWithin(picks[p], outerLen, innerLen)
    {
      var lo, hi := Lo(walk, i, outerLen), Hi(walk, i, outerLen);
      var k := i * 6;
      FitsSufficient(walk, segments, outerLen, innerLen, i);
      picks := picks + [Pick(Outer, lo), Pick(Outer, hi), Pick(Inner, lo)];
      faces := faces + [Face3(k, k + 1, k + 2)];
      if weave == Ring {
        picks := picks + [Pick(Inner, lo), Pick(Inner, hi), Pick(Outer, hi)];
      } else {
        picks := picks + [Pick(Inner, lo), Pick(Outer, hi), Pick(Inner, hi)];
      }
      faces := faces + [Face3(k + 3, k + 4, k + 5)];
    }
    s := Strip(picks, faces);
  }

  /** The two-triangle cap over outer[a], outer[b], inner[b] and inner[a]
      (tube and polycone face1/face2): (outer a, outer b, inner b),
      (inner a, inner b, outer a). */
  function Cap(a: int, b: int): (c: Strip)
    ensures |c.picks| == 6 && |c.faces| == 2
    ensures forall f :: 0 <= f < |c.faces| ==> FaceWithin(c.faces[f], |c.picks|)
    ensures (set p | p in c.picks) == {Pick(Outer, a), Pick(Outer, b), Pick(Inner, a), Pick(Inner, b)}
    ensures c.picks[0] == c.picks[5] == Pick(Outer, a) && c.picks[2] == c.picks[4] == Pick(Inner, b)  // the shared diagonal
    ensures c.picks[1] == Pick(Outer, b) && c.picks[3] == Pick(Inner, a)
    ensures c.faces == [Face3(0, 1, 2), Face3(3, 4, 5)]
  {
    var c := Strip([Pick(Outer, a), Pick(Outer, b), Pick(Inner, b), Pick(Inner, a), Pick(Inner, b), Pick(Outer, a)],
                   [Face3(0, 1, 2), Face3(3, 4, 5)]);
    assert Pick(Inner, a) == c.picks[3];
    c
  }

  /** For distinct a and b the cap's triangles cover the quadrilateral
      outer a, outer b, inner b, inner a and meet in exactly the diagonal
      outer a -- inner b. */
  lemma CapCoversQuad(a: int, b: int)
    requires a != b
    ensures var c := Cap(a, b);
            var first, second := {c.picks[0], c.picks[1], c.picks[2]}, {c.picks[3], c.picks[4], c.picks[5]};
            && first * second == {Pick(Outer, a), Pick(Inner, b)}
            && first + second == {Pick(Outer, a), Pick(Outer, b), Pick(Inner, b), Pick(Inner, a)}
  {
  }

  /** face1: the cap at the start of the sweep, over grid index 0 and the
      middle of the outer grid (`vertices.length/2`, an exact index only
      when that length is even). */
  function StartCap(outerLen: nat): Strip
    requires outerLen % 2 == 0
  {
    Cap(0, outerLen / 2)
  }

  /** face2: the cap at the end of the sweep, over grid index `segments`
      and the last vertex of the outer grid. */
  function EndCap(outerLen: nat, segments: nat): Strip
  {
    Cap(segments, outerLen - 1)
  }

  /** Both caps read only existing vertices exactly when the grids satisfy
      the same bound as the Backward loop of the same sweep. */
  lemma CapsFit(outerLen: nat, innerLen: nat, segments: nat)
    requires outerLen % 2 == 0
    ensures AllPicksWithin(StartCap(outerLen), outerLen, innerLen) && AllPicksWithin(EndCap(outerLen, segments), outerLen, innerLen)
            <==> segments < outerLen <= innerLen
  {
    var s, e := StartCap(outerLen), EndCap(outerLen, segments);
    if AllPicksWithin(s, outerLen, innerLen) && AllPicksWithin(e, outerLen, innerLen) {
      assert PickWithin(e.picks[0], outerLen, innerLen);
      assert PickWithin(e.picks[2], outerLen, innerLen);
    }
  }
}
