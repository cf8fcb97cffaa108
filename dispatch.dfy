/** The shape-kind dispatcher of JSROOT.GEO: the capability query
    isShapeSupported, with its once-per-kind warning cache, and
    createGeometry, which picks the builder for a type name. */
module Dispatch {
  import opened Geometry

  /** The fourteen type names isShapeSupported accepts, in its order. */
  const SupportedShapes: seq<string> :=
    [ "TGeoBBox", "TGeoPara", "TGeoArb8", "TGeoTrd1", "TGeoTrd2", "TGeoTrap", "TGeoSphere",
      "TGeoCone", "TGeoConeSeg", "TGeoTube", "TGeoTubeSeg", "TGeoTorus", "TGeoPcon", "TGeoPgon" ]

  /** A shape descriptor as the dispatcher sees it: only its `_typename`. */
  datatype Shape = Shape(typename: string)

  /** The builders createGeometry can call. */
  datatype Builder = Cube | Para | Trapezoid | Sphere | Tube | Torus | Polygon

  /** The type names each builder is written for, as its own branches and
      comments name them; createTube also branches on TGeoCtub. */
  function Handles(b: Builder): set<string>
  {
    match b
    case Cube => {"TGeoBBox"}
    case Para => {"TGeoPara"}
    case Trapezoid => {"TGeoArb8", "TGeoTrap", "TGeoTrd1", "TGeoTrd2"}
    case Sphere => {"TGeoSphere"}
    case Tube => {"TGeoCone", "TGeoConeSeg", "TGeoTube", "TGeoTubeSeg", "TGeoCtub"}
    case Torus => {"TGeoTorus"}
    case Polygon => {"TGeoPcon", "TGeoPgon"}
  }

  /** createGeometry: the builder for a type name, or None (the source's
      null) for every name outside the supported list. A supported name
      goes to exactly one builder, one written for it. */
  function CreateGeometry(typename: string): (r: Option<Builder>)
    ensures r.None? <==> typename !in SupportedShapes
    ensures r.Some? ==> typename in Handles(r.value)
  {
    if typename == "TGeoBBox" then Some(Cube)
    else if typename == "TGeoPara" then Some(Para)
    else if typename == "TGeoArb8" || typename == "TGeoTrd1" || typename == "TGeoTrd2" || typename == "TGeoTrap" then Some(Trapezoid)
    else if typename == "TGeoSphere" then Some(Sphere)
    else if typename == "TGeoCone" || typename == "TGeoConeSeg" || typename == "TGeoTube" || typename == "TGeoTubeSeg" then Some(Tube)
    else if typename == "TGeoTorus" then Some(Torus)
    else if typename == "TGeoPcon" || typename == "TGeoPgon" then Some(Polygon)
    else None
  }

  /** No supported name is written for two builders, so with
      CreateGeometry's contract each supported name has exactly one builder. */
  lemma OneBuilderPerName(typename: string, b: Builder)
    requires typename in SupportedShapes && typename in Handles(b)
    ensures CreateGeometry(typename) == Some(b)
  {
  }

  /** createTube has branches for TGeoCtub, but the dispatcher never routes
      that name to it: a TGeoCtub shape gets no mesh. */
  lemma CtubNeverBuilt()
    ensures "TGeoCtub" in Handles(Tube)
    ensures CreateGeometry("TGeoCtub") == None
  {
  }

  /** Array.prototype.indexOf: the first position of `name` in `list`, or -1. */
  method IndexOf(list: seq<string>, name: string) returns (k: int)
    ensures -1 <= k < |list|
    ensures k < 0 <==> name !in list
    ensures 0 <= k ==> list[k] == name && name !in list[..k]
  {
    k := 0;
    while k < |list|
      invariant 0 <= k <= |list|
      invariant name !in list[..k]
    {
      if list[k] == name {
        return;
      }
      k := k + 1;
    }
    k := -1;
  }

  predicate Distinct(s: seq<string>)
  {
    forall i, j :: 0 <= i < j < |s| ==> s[i] != s[j]
  }

  /** The unsupported-name list after isShapeSupported has seen a present
      shape named `name`: a supported or already listed name leaves it as
      it was, a new unsupported name is appended. */
  function Observe(seen: seq<string>, name: string): (r: seq<string>)
    ensures name !in SupportedShapes ==> name in r
    ensures r == seen || r == seen + [name]
    ensures |r| == |seen| + 1 <==> name !in SupportedShapes && name !in seen
  {
    if name in SupportedShapes || name in seen then seen else seen + [name]
  }

  /** The text console.warn prints for a newly seen unsupported name. */
  function Warning(name: string): string
  {
    "Not supported " + name
  }

  /** One warning per listed name, in list order. */
  function Warnings(names: seq<string>): (w: seq<string>)
    ensures |w| == |names|
    ensures forall k :: 0 <= k < |names| ==> w[k] == Warning(names[k])
  {
    if names == [] then [] else Warnings(names[..|names| - 1]) + [Warning(names[|names| - 1])]
  }

  /** The JSROOT.GEO object as isShapeSupported uses it: two lists created
      on first use, and (ghost) the warnings printed so far. */
  class Registry {
    var supportedShapes: Option<seq<string>>
    var unsupportedShapes: Option<seq<string>>
    ghost var warnings: seq<string>

    /** The unsupported list, empty while it does not exist yet. */
    function Unsupported(): seq<string>
      reads this
    {
      if unsupportedShapes.Some? then unsupportedShapes.value else []
    }

    /** The supported list is the fixed one; the unsupported list holds no
        supported name and no name twice; one warning was printed per name. */
    ghost predicate Valid()
      reads this
    {
      && (supportedShapes.Some? ==> supportedShapes.value == SupportedShapes)
      && Clean(Unsupported())
      && warnings == Warnings(Unsupported())
    }

    constructor ()
      ensures Valid()
      ensures supportedShapes == None && unsupportedShapes == None && warnings == []
    {
      supportedShapes := None;
      unsupportedShapes := None;
      warnings := [];
    }

    /** isShapeSupported: false for a missing shape, with no effect; true
        exactly for the fourteen supported names, leaving the unsupported
        list and the warnings alone; a new unsupported name is appended and
        warned about once, a repeated one changes nothing. */
    method IsShapeSupported(shape: Option<Shape>) returns (r: bool)
      requires Valid()
      modifies this
      ensures Valid()
      ensures r <==> shape.Some? && shape.value.typename in SupportedShapes
      ensures shape.None? ==> supportedShapes == old(supportedShapes) && unsupportedShapes == old(unsupportedShapes)
      ensures shape.Some? ==> supportedShapes == Some(SupportedShapes)
      ensures r || shape.None? ==> unsupportedShapes == old(unsupportedShapes) && warnings == old(warnings)
      ensures shape.Some? && !r ==> unsupportedShapes == Some(Observe(old(Unsupported()), shape.value.typename))
      ensures shape.Some? ==> Unsupported() == Observe(old(Unsupported()), shape.value.typename)
      ensures shape.Some? && !r && shape.value.typename in old(Unsupported()) ==> warnings == old(warnings)
      ensures shape.Some? && !r && shape.value.typename !in old(Unsupported()) ==>
                warnings == old(warnings) + [Warning(shape.value.typename)]
    {
      if shape.None? {
        return false;
      }
      var name := shape.value.typename;
      if supportedShapes.None? {
        supportedShapes := Some(SupportedShapes);
      }
      var at := IndexOf(supportedShapes.value, name);
      if at >= 0 {
        return true;
      }
      if unsupportedShapes.None? {
        unsupportedShapes := Some([]);
      }
      var seen := IndexOf(unsupportedShapes.value, name);
      if seen < 0 {
        unsupportedShapes := Some(unsupportedShapes.value + [name]);
        warnings := warnings + [Warning(name)];
        assert Unsupported()[..|Unsupported()| - 1] == old(Unsupported());
      }
      return false;
    }
  }

  /** The unsupported list after isShapeSupported has seen `names`, in order. */
  function ObserveAll(seen: seq<string>, names: seq<string>): seq<string>
    decreases |names|
  {
    if names == [] then seen else ObserveAll(Observe(seen, names[0]), names[1..])
  }

  /** What Registry.Valid demands of the unsupported list. */
  predicate Clean(s: seq<string>)
  {
    Distinct(s) && forall k :: 0 <= k < |s| ==> s[k] !in SupportedShapes
  }

  function Elems(s: seq<string>): set<string>
  {
    set x | x in s
  }

  /** The unsupported names among `names`. */
  function UnsupportedIn(names: seq<string>): set<string>
  {
    set x | x in names && x !in SupportedShapes
  }

  lemma ObserveStep(seen: seq<string>, name: string)
    requires Clean(seen)
    ensures Clean(Observe(seen, name))
    ensures Elems(Observe(seen, name)) == Elems(seen) + UnsupportedIn([name])
  {
    if name !in SupportedShapes && name !in seen {
      assert Elems(seen + [name]) == Elems(seen) + {name};
    }
  }

  lemma UnsupportedInCons(names: seq<string>)
    requires names != []
    ensures UnsupportedIn(names) == UnsupportedIn([names[0]]) + UnsupportedIn(names[1..])
  {
    assert names == [names[0]] + names[1..];
  }

  /** Over any run of calls the list stays free of duplicates and of
      supported names, and holds exactly the unsupported names seen. */
  lemma {:induction false} ObserveAllKeepsInvariant(seen: seq<string>, names: seq<string>)
    requires Clean(seen)
    ensures Clean(ObserveAll(seen, names))
    ensures Elems(ObserveAll(seen, names)) == Elems(seen) + UnsupportedIn(names)
    decreases |names|
  {
    if names != [] {
      var next := Observe(seen, names[0]);
      ObserveStep(seen, names[0]);
      ObserveAllKeepsInvariant(next, names[1..]);
      UnsupportedInCons(names);
    }
  }

  lemma {:induction false} DistinctCard(s: seq<string>)
    requires Distinct(s)
    ensures |Elems(s)| == |s|
  {
    if s != [] {
      var init := s[..|s| - 1];
      DistinctCard(init);
      assert Elems(s) == Elems(init) + {s[|s| - 1]} by {
        assert s == init + [s[|s| - 1]];
      }
    }
  }

  /** Starting from no list, a run of calls prints exactly one warning per
      distinct unsupported type name among the shapes it saw. */
  lemma OneWarningPerKind(names: seq<string>)
    ensures var r := ObserveAll([], names);
            |Warnings(r)| == |UnsupportedIn(names)|
  {
    ObserveAllKeepsInvariant([], names);
    DistinctCard(ObserveAll([], names));
  }
}
