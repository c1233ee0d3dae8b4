/** GIS_OpenLayers_Map: the configuration a map collects before it is painted (its size, where it
    opens, its scales, where it is rendered), the controls it holds by class and the layers it
    stacks, and how a spherical-Mercator layer changes the map's projection. The layers and controls
    are built by the caller (the class-name factory is not part of this model) and handed in. */
module OpenLayersMap {
  import opened Wrappers
  import opened Php
  import opened Errors
  import opened OpenLayersObject
  import opened OpenLayersControl
  import opened OpenLayersLayer
  import Mbr

  const DefaultLevels: int := 20
  const DefaultSize: int := 640
  const DisplayProjection: string := "new OpenLayers.Projection(\"EPSG:4326\")"
  const MercatorProjection: string := "new OpenLayers.Projection(\"EPSG:900913\")"
  const MercatorExtent: string := "new OpenLayers.Bounds(-20037508,-20037508,20037508,20037508)"
  const MercatorResolution: real := 156543.0339

  /** The zoom levels, resolutions and unit setScales writes, whatever scales it is given. */
  const ScaleLevels: int := 12
  const ScaleMinResolution: real := 0.14
  const ScaleMaxResolution: real := 115.74
  const ScaleUnit: string := "ft"

  const DimensionsMessage: string := "Width and height must both be positive numbers"
  const LatitudeMessage: string := "First parameter (latitude) must be latitude"
  const LongitudeMessage: string := "Second parameter (longitude) must be longitude"
  const ZoomMessage: string := "Third parameter (zoom) must be whole number less than the number of zoom levels"
  const ScalesMessage: string := "First parameter (scales) must be non-empty array of all numbers greater than 0"
  const ContainerMessage: string := "containerID must be non-empty string"
  const URLMessage: string := "openLayersURL must be non-empty string"
  const StatusMessage: string := "Status <div> ID must be a non-empty scalar"

  /** The units OpenLayers knows. */
  const ValidUnits: seq<string> := ["inches", "in", "ft", "mi", "m", "nmi", "km", "dd", "degrees", "yd"]

  /** The resolutions setScales writes, largest first. */
  function Resolutions(): seq<real>
  {
    [115.74, 57.87, 27.78, 11.11, 6.94, 4.63, 2.78, 1.39, 0.69, 0.56, 0.28, 0.14]
  }

  /** A PHP list of floats. */
  function FloatList(rs: seq<real>): (v: Value)
    ensures v.Arr? && |v.entries| == |rs|
    ensures forall i :: 0 <= i < |rs| ==> v.entries[i] == (IntKey(i), Float(rs[i]))
  {
    Arr(seq(|rs|, i requires 0 <= i < |rs| => (IntKey(i), Float(rs[i]))))
  }

  /** Where the map opens: a point and a zoom level. */
  datatype Location = Location(latitude: Value, longitude: Value, zoom: int)

  /** The map's own fields, read together. */
  datatype Settings = Settings(
    width: int, height: int,
    initialLocation: Option<Location>, zoomToBounds: Option<Mbr.MBR>,
    scales: Option<seq<real>>,
    containerID: Option<string>, openLayersURL: Option<string>, statusDivID: Option<Value>,
    controls: seq<(string, Control)>, layers: seq<Layer>)

  // ---------------------------------------------------------------------------------------------
  // The checks

  /** setDimensions: two positive numbers, truncated to integers. */
  function DimensionsOf(width: Value, height: Value): (r: Option<(int, int)>)
    ensures r.Some? <==> IsNumeric(width) && 0.0 < NumericValue(width) && IsNumeric(height) && 0.0 < NumericValue(height)
    ensures r.Some? ==> 0 <= r.value.0 && r.value.0 as real <= NumericValue(width) < r.value.0 as real + 1.0
    ensures r.Some? ==> 0 <= r.value.1 && r.value.1 as real <= NumericValue(height) < r.value.1 as real + 1.0
  {
    if IsNumeric(width) && 0.0 < NumericValue(width) && IsNumeric(height) && 0.0 < NumericValue(height) then
      Some((IntCast(width), IntCast(height)))
    else None
  }

  /** A positive width below one pixel is accepted and stored as 0. */
  lemma DimensionsMayTruncateToZero()
    ensures DimensionsOf(Float(0.5), Int(300)) == Some((0, 300))
  {
    assert IsNumeric(Float(0.5)) && IsNumeric(Int(300));
  }

  /** The zoom test of setInitialLocation as written: an integer from 0 up to the number of levels,
      that number included. */
  predicate ZoomAccepted(zoom: Value, levels: int)
  {
    zoom.Int? && 0 <= zoom.i && zoom.i <= levels
  }

  /** The zoom levels of a map are numbered from 0 to one less than their number, as the message
      says; this is the test that keeps to them. */
  predicate IsZoomLevel(zoom: Value, levels: int)
  {
    zoom.Int? && 0 <= zoom.i && zoom.i < levels
  }

  /** As written, the zoom one past the last level is accepted; it is the only zoom accepted that is
      not a level. */
  lemma ZoomAcceptsOnePastLastLevel(zoom: Value, levels: int)
    ensures ZoomAccepted(Int(DefaultLevels), DefaultLevels) && !IsZoomLevel(Int(DefaultLevels), DefaultLevels)
    ensures ZoomAccepted(zoom, levels) <==> IsZoomLevel(zoom, levels) || (0 <= levels && zoom == Int(levels))
  {
  }

  /** The checks of setInitialLocation, in order, against a map of `levels` zoom levels. */
  function LocationRejection(latitude: Value, longitude: Value, zoom: Value, levels: int): (r: Option<Error>)
    ensures r.None? <==> IsLatitude(latitude) && IsLongitude(longitude) && ZoomAccepted(zoom, levels)
    ensures !IsLatitude(latitude) ==> r == Some(InvalidArgument(LatitudeMessage))
    ensures IsLatitude(latitude) && !IsLongitude(longitude) ==> r == Some(InvalidArgument(LongitudeMessage))
    ensures IsLatitude(latitude) && IsLongitude(longitude) && !ZoomAccepted(zoom, levels) ==>
      r == Some(InvalidArgument(ZoomMessage))
  {
    if !IsLatitude(latitude) then Some(InvalidArgument(LatitudeMessage))
    else if !IsLongitude(longitude) then Some(InvalidArgument(LongitudeMessage))
    else if !ZoomAccepted(zoom, levels) then Some(InvalidArgument(ZoomMessage))
    else None
  }

  /** The checks of setInitialLocation with the corrected zoom test. */
  function CorrectedLocationRejection(latitude: Value, longitude: Value, zoom: Value, levels: int): (r: Option<Error>)
    ensures r.None? ==> zoom.Int? && 0 <= zoom.i < levels
    ensures r.None? ==> LocationRejection(latitude, longitude, zoom, levels).None?
    ensures LocationRejection(latitude, longitude, zoom, levels).None? && zoom != Int(levels) ==> r.None?
  {
    if !IsLatitude(latitude) then Some(InvalidArgument(LatitudeMessage))
    else if !IsLongitude(longitude) then Some(InvalidArgument(LongitudeMessage))
    else if !IsZoomLevel(zoom, levels) then Some(InvalidArgument(ZoomMessage))
    else None
  }

  /** The unit check of setScales: `in_array(trim($unit), $validUnits)` for a scalar. trim turns a
      number or a boolean into digits, "1" or "", none of which is a unit, so only a string can pass. */
  predicate UnitAccepted(unit: Value)
  {
    unit.Str? && InList(Str(Trim(unit.s)), ValidUnits)
  }

  /** A string unit is accepted exactly when, trimmed, it is one of the ten units. */
  lemma UnitAcceptedIsMembership(unit: Value)
    ensures UnitAccepted(unit) <==> unit.Str? && Trim(unit.s) in ValidUnits
  {
    if unit.Str? {
      var t := Trim(unit.s);
      if t in ValidUnits {
        var i :| 0 <= i < |ValidUnits| && ValidUnits[i] == t;
        assert LooselyEqualsString(Str(t), ValidUnits[i]);
      }
      if InList(Str(t), ValidUnits) {
        var i :| 0 <= i < |ValidUnits| && LooselyEqualsString(Str(t), ValidUnits[i]);
        NoUnitIsNumeric(i);
      }
    }
  }

  lemma NoUnitIsNumeric(i: nat)
    requires i < |ValidUnits|
    ensures !IsNumeric(Str(ValidUnits[i]))
  {
    var u := ValidUnits[i];
    assert forall k :: 0 <= k < |u| ==> !IsDigit(u[k]);
  }

  /** One scale is a positive number. */
  predicate AcceptsScale(v: Value)
  {
    IsNumeric(v) && 0.0 < NumericValue(v)
  }

  /** Every scale given is a positive number. */
  predicate AllScales(entries: seq<(Key, Value)>)
  {
    forall i :: 0 <= i < |entries| ==> AcceptsScale(entries[i].1)
  }

  /** The whole check of setScales. */
  predicate ScalesAccepted(scales: Value, unit: Value)
  {
    scales.Arr? && 0 < |scales.entries| && UnitAccepted(unit) && AllScales(scales.entries)
  }

  /** The scales as floats, in the order given. */
  function ScaleValues(entries: seq<(Key, Value)>): (r: seq<real>)
    ensures |r| == |entries|
    ensures forall i :: 0 <= i < |entries| ==> r[i] == FloatCast(entries[i].1)
  {
    if entries == [] then [] else ScaleValues(entries[..|entries| - 1]) + [FloatCast(entries[|entries| - 1].1)]
  }

  // ---------------------------------------------------------------------------------------------
  // sort

  predicate Ascending(s: seq<real>)
  {
    forall i, j :: 0 <= i < j < |s| ==> s[i] <= s[j]
  }

  function Insert(x: real, s: seq<real>): seq<real>
  {
    if s == [] || x <= s[0] then [x] + s else [s[0]] + Insert(x, s[1..])
  }

  /** `sort($scales)` on floats: ascending order. */
  function Sort(s: seq<real>): seq<real>
  {
    if s == [] then [] else Insert(s[0], Sort(s[1..]))
  }

  /** Insert puts at the front either the value inserted or the sequence's own first value. */
  lemma InsertHead(x: real, s: seq<real>)
    ensures Insert(x, s) != [] && (Insert(x, s)[0] == x || (s != [] && Insert(x, s)[0] == s[0]))
  {
  }

  lemma {:induction false} InsertPermutes(x: real, s: seq<real>)
    ensures multiset(Insert(x, s)) == multiset(s) + multiset{x}
  {
    if s != [] && x > s[0] {
      InsertPermutes(x, s[1..]);
      assert s == [s[0]] + s[1..];
    }
  }

  lemma {:induction false} InsertSorts(x: real, s: seq<real>)
    requires Ascending(s)
    ensures Ascending(Insert(x, s))
  {
    if s != [] && x > s[0] {
      var t := Insert(x, s[1..]);
      InsertSorts(x, s[1..]);
      InsertHead(x, s[1..]);
      assert s[0] <= t[0];
      assert Insert(x, s) == [s[0]] + t;
    }
  }

  /** sort gives its input in ascending order: the same values, as often as they were given. */
  lemma {:induction false} SortSorts(s: seq<real>)
    ensures Ascending(Sort(s))
    ensures multiset(Sort(s)) == multiset(s)
  {
    if s != [] {
      SortSorts(s[1..]);
      InsertSorts(s[0], Sort(s[1..]));
      InsertPermutes(s[0], Sort(s[1..]));
      assert s == [s[0]] + s[1..];
    }
  }

  /** The scales a map keeps: positive, ascending, the values given. */
  lemma StoredScales(entries: seq<(Key, Value)>)
    requires AllScales(entries)
    ensures Ascending(Sort(ScaleValues(entries)))
    ensures multiset(Sort(ScaleValues(entries))) == multiset(ScaleValues(entries))
    ensures forall x :: x in Sort(ScaleValues(entries)) ==> 0.0 < x
    ensures |Sort(ScaleValues(entries))| == |entries|
  {
    var values := ScaleValues(entries);
    SortSorts(values);
    assert |Sort(values)| == |multiset(Sort(values))| == |multiset(values)| == |values|;
    forall x | x in Sort(values) ensures 0.0 < x {
      assert x in multiset(values);
      var i :| 0 <= i < |values| && values[i] == x;
      assert AcceptsScale(entries[i].1);
    }
  }

  /** The scale loop of setScales: each scale must be a positive number and becomes a float; the
      loop stops at the first that is not. */
  method NormaliseScales(entries: seq<(Key, Value)>) returns (valid: bool, values: seq<real>)
    ensures valid <==> AllScales(entries)
    ensures valid ==> values == ScaleValues(entries)
  {
    valid := true;
    values := [];
    var i := 0;
    while i < |entries|
      invariant 0 <= i <= |entries|
      invariant forall k :: 0 <= k < i ==> AcceptsScale(entries[k].1)
      invariant values == ScaleValues(entries[..i])
    {
      var scale := entries[i].1;
      if !AcceptsScale(scale) {
        valid := false;
        return;
      }
      assert entries[..i + 1][..i] == entries[..i];
      values := values + [FloatCast(scale)];
      i := i + 1;
    }
    assert entries[..i] == entries;
  }

  // ---------------------------------------------------------------------------------------------
  // Attributes

  /** The attributes the constructor sets. */
  function MapDefaults(attributes: map<string, Attr>): map<string, Attr>
  {
    attributes["displayProjection" := Literal(DisplayProjection)]["numZoomLevels" := Val(Int(DefaultLevels))]
      ["controls" := Val(Arr([]))]
  }

  /** The attributes setScales writes. */
  function ScaleAttributes(attributes: map<string, Attr>): map<string, Attr>
  {
    attributes["numZoomLevels" := Val(Int(ScaleLevels))]["minResolution" := Val(Float(ScaleMinResolution))]
      ["maxResolution" := Val(Float(ScaleMaxResolution))]["resolutions" := Val(FloatList(Resolutions()))]
      ["units" := Val(Str(ScaleUnit))]
  }

  /** adjustMapForNewLayer: a spherical-Mercator layer switches the map to EPSG:900913, and to
      metres and the Mercator resolution unless scales were set. */
  function Adjusted(attributes: map<string, Attr>, sphericalMercator: bool, scalesSet: bool): map<string, Attr>
  {
    if !sphericalMercator then attributes
    else
      var projected := attributes["projection" := Literal(MercatorProjection)]["maxExtent" := Literal(MercatorExtent)];
      if scalesSet then projected
      else projected["units" := Val(Str("m"))]["maxResolution" := Val(Float(MercatorResolution))]
  }

  /** A new map has 20 zoom levels, no controls of OpenLayers' own, and shows EPSG:4326. */
  lemma MapDefaultsShape(attributes: map<string, Attr>)
    ensures AttrValue(MapDefaults(attributes), "numZoomLevels") == Int(DefaultLevels)
    ensures AttrValue(MapDefaults(attributes), "controls") == Arr([])
    ensures MapDefaults(attributes)["displayProjection"] == Literal(DisplayProjection)
  {
  }

  /** setScales writes twelve levels in feet, whatever scales and unit it was given. */
  lemma ScaleAttributesShape(attributes: map<string, Attr>)
    ensures AttrValue(ScaleAttributes(attributes), "numZoomLevels") == Int(ScaleLevels)
    ensures AttrValue(ScaleAttributes(attributes), "units") == Str(ScaleUnit)
    ensures AttrValue(ScaleAttributes(attributes), "maxResolution") == Float(Resolutions()[0])
    ensures AttrValue(ScaleAttributes(attributes), "minResolution") == Float(Resolutions()[ScaleLevels - 1])
    ensures |Resolutions()| == ScaleLevels
    ensures forall i, j :: 0 <= i < j < |Resolutions()| ==> Resolutions()[i] > Resolutions()[j]
  {
  }

  /** Only a spherical-Mercator layer changes the map; it always sets the projection and extent, and
      the units and resolution only when no scales were set; nothing else changes. */
  lemma AdjustedShape(attributes: map<string, Attr>, sphericalMercator: bool, scalesSet: bool)
    ensures !sphericalMercator ==> Adjusted(attributes, sphericalMercator, scalesSet) == attributes
    ensures sphericalMercator ==> Adjusted(attributes, sphericalMercator, scalesSet)["projection"] == Literal(MercatorProjection)
    ensures sphericalMercator ==> Adjusted(attributes, sphericalMercator, scalesSet)["maxExtent"] == Literal(MercatorExtent)
    ensures sphericalMercator && !scalesSet ==> AttrValue(Adjusted(attributes, sphericalMercator, scalesSet), "units") == Str("m")
    ensures scalesSet ==> AttrValue(Adjusted(attributes, sphericalMercator, scalesSet), "units") == AttrValue(attributes, "units")
    ensures forall k :: k in attributes && k !in {"projection", "maxExtent", "units", "maxResolution"} ==>
      k in Adjusted(attributes, sphericalMercator, scalesSet) && Adjusted(attributes, sphericalMercator, scalesSet)[k] == attributes[k]
  {
  }

  // ---------------------------------------------------------------------------------------------
  // The map

  class Map {
    const obj: OLObject
    var width: int
    var height: int
    var initialLocation: Option<Location>
    /** The rectangle is kept by reference, as PHP keeps the object. */
    var zoomToBounds: Option<Mbr.MBR>
    var scales: Option<seq<real>>
    var containerID: Option<string>
    var openLayersURL: Option<string>
    var statusDivID: Option<Value>
    /** `$controls`: the controls by class, in the order the classes were first used. */
    var controls: seq<(string, Control)>
    var layers: seq<Layer>

    function State(): Settings
      reads this
    {
      Settings(width, height, initialLocation, zoomToBounds, scales, containerID, openLayersURL, statusDivID, controls, layers)
    }

    /** The number of zoom levels, an integer attribute. */
    function Levels(): int
      reads this, obj
      requires Valid()
    {
      AttrValue(obj.attributes, "numZoomLevels").i
    }

    /** At most one of the initial location and the zoom bounds is set, and the number of zoom
        levels is an integer. */
    ghost predicate Valid()
      reads this, obj
    {
      !(initialLocation.Some? && zoomToBounds.Some?) && AttrValue(obj.attributes, "numZoomLevels").Int?
    }

    /** The constructor once the object is built. */
    constructor (obj: OLObject)
      modifies obj
      ensures Valid() && this.obj == obj
      ensures obj.attributes == MapDefaults(old(obj.attributes)) && obj.jsVariable == old(obj.jsVariable)
      ensures State() == Settings(DefaultSize, DefaultSize, None, None, None, None, None, None, [], [])
    {
      this.obj := obj;
      width := DefaultSize;
      height := DefaultSize;
      initialLocation := None;
      zoomToBounds := None;
      scales := None;
      containerID := None;
      openLayersURL := None;
      statusDivID := None;
      controls := [];
      layers := [];
      new;
      obj.SetLiteral("displayProjection", Literal(DisplayProjection));
      obj.Set("numZoomLevels", Int(DefaultLevels));
      obj.Set("controls", Arr([]));
    }

    /** setDimensions */
    method SetDimensions(width: Value, height: Value) returns (r: Status)
      modifies this
      ensures r.Pass? <==> DimensionsOf(width, height).Some?
      ensures r.Fail? ==> r.error == InvalidArgument(DimensionsMessage) && State() == old(State())
      ensures r.Pass? ==> State() == old(State()).(width := DimensionsOf(width, height).value.0,
                                                   height := DimensionsOf(width, height).value.1)
    {
      var d := DimensionsOf(width, height);
      if d.None? {
        return Fail(InvalidArgument(DimensionsMessage));
      }
      this.width := d.value.0;
      this.height := d.value.1;
      r := Pass;
    }

    /** setInitialLocation: the location replaces the zoom bounds. */
    method SetInitialLocation(latitude: Value, longitude: Value, zoom: Value) returns (r: Status)
      requires Valid()
      modifies this
      ensures Valid()
      ensures r.Pass? <==> LocationRejection(latitude, longitude, zoom, Levels()).None?
      ensures r.Fail? ==> Some(r.error) == LocationRejection(latitude, longitude, zoom, Levels()) && State() == old(State())
      ensures r.Pass? ==> State() == old(State()).(initialLocation := Some(Location(latitude, longitude, zoom.i)), zoomToBounds := None)
    {
      var rejection := LocationRejection(latitude, longitude, zoom, Levels());
      if rejection.Some? {
        return Fail(rejection.value);
      }
      initialLocation := Some(Location(latitude, longitude, zoom.i));
      zoomToBounds := None;
      r := Pass;
    }

    /** setZoomToBounds: the bounds replace the initial location. */
    method SetZoomToBounds(bounds: Mbr.MBR)
      requires Valid()
      modifies this
      ensures Valid()
      ensures State() == old(State()).(zoomToBounds := Some(bounds), initialLocation := None)
    {
      zoomToBounds := Some(bounds);
      initialLocation := None;
    }

    /** setScales: the scales are kept as floats in ascending order, and the map is set to twelve
        levels in feet, whatever unit was given. */
    method SetScales(scales: Value, unit: Value) returns (r: Status)
      requires Valid()
      modifies this, obj
      ensures Valid()
      ensures r.Pass? <==> ScalesAccepted(scales, unit)
      ensures r.Fail? ==> r.error == InvalidArgument(ScalesMessage) && State() == old(State()) && obj.attributes == old(obj.attributes)
      ensures r.Pass? ==> State() == old(State()).(scales := Some(Sort(ScaleValues(scales.entries))))
      ensures r.Pass? ==> obj.attributes == ScaleAttributes(old(obj.attributes))
      ensures obj.jsVariable == old(obj.jsVariable)
    {
      if !(scales.Arr? && 0 < |scales.entries| && UnitAccepted(unit)) {
        return Fail(InvalidArgument(ScalesMessage));
      }
      var valid, values := NormaliseScales(scales.entries);
      if !valid {
        return Fail(InvalidArgument(ScalesMessage));
      }
      var sorted := Sort(values);
      WriteScaleAttributes();
      this.scales := Some(sorted);
      r := Pass;
    }

    method WriteScaleAttributes()
      modifies obj
      ensures obj.attributes == ScaleAttributes(old(obj.attributes)) && obj.jsVariable == old(obj.jsVariable)
    {
      obj.Set("numZoomLevels", Int(ScaleLevels));
      obj.Set("minResolution", Float(ScaleMinResolution));
      obj.Set("maxResolution", Float(ScaleMaxResolution));
      obj.Set("resolutions", FloatList(Resolutions()));
      obj.Set("units", Str(ScaleUnit));
    }

    /** setContainerID: a string that is not blank is stored trimmed. */
    method SetContainerID(v: Value) returns (r: Status)
      modifies this
      ensures r.Pass? <==> TrimmedNonEmpty(v).Some?
      ensures r.Fail? ==> r.error == InvalidArgument(ContainerMessage) && State() == old(State())
      ensures r.Pass? ==> State() == old(State()).(containerID := TrimmedNonEmpty(v))
    {
      var t := TrimmedNonEmpty(v);
      if t.None? {
        return Fail(InvalidArgument(ContainerMessage));
      }
      containerID := t;
      r := Pass;
    }

    /** setOpenLayersURL: a string that is not blank is stored trimmed. */
    method SetOpenLayersURL(v: Value) returns (r: Status)
      modifies this
      ensures r.Pass? <==> TrimmedNonEmpty(v).Some?
      ensures r.Fail? ==> r.error == InvalidArgument(URLMessage) && State() == old(State())
      ensures r.Pass? ==> State() == old(State()).(openLayersURL := TrimmedNonEmpty(v))
    {
      var t := TrimmedNonEmpty(v);
      if t.None? {
        return Fail(InvalidArgument(URLMessage));
      }
      openLayersURL := t;
      r := Pass;
    }

    /** renderStatusIn: a non-empty scalar, stored as given. */
    method RenderStatusIn(v: Value) returns (r: Status)
      modifies this
      ensures r.Pass? <==> IsNonEmptyScalar(v)
      ensures r.Fail? ==> r.error == InvalidArgument(StatusMessage) && State() == old(State())
      ensures r.Pass? ==> State() == old(State()).(statusDivID := Some(v))
    {
      if !IsNonEmptyScalar(v) {
        return Fail(InvalidArgument(StatusMessage));
      }
      statusDivID := Some(v);
      r := Pass;
    }

    /** newControl: the control is kept under its class, replacing any control of that class in
        its place. */
    method NewControl(className: string, control: Control) returns (c: Control)
      modifies this
      ensures c == control
      ensures State() == old(State()).(controls := Assign(old(controls), className, control))
    {
      controls := Assign(controls, className, control);
      c := control;
    }

    /** amendControl: with a new class, the new control is kept under the new class and under the old
        one; without, the old class is removed. */
    method AmendControl(oldClass: string, replacement: Option<(string, Control)>)
      modifies this
      ensures replacement.None? ==> State() == old(State()).(controls := Unset(old(controls), oldClass))
      ensures replacement.Some? ==> State() == old(State()).(controls :=
        Assign(Assign(old(controls), replacement.value.0, replacement.value.1), oldClass, replacement.value.1))
    {
      if replacement.Some? {
        var c := NewControl(replacement.value.0, replacement.value.1);
        controls := Assign(controls, oldClass, c);
      } else {
        controls := Unset(controls, oldClass);
      }
    }

    /** newBaseLayer: the layer is made an opaque base layer, the map adjusted to it, and the layer
        stacked last. */
    method NewBaseLayer(layer: Layer) returns (l: Layer)
      requires Valid() && layer.obj != obj
      modifies this, obj, layer.obj
      ensures Valid() && l == layer
      ensures State() == old(State()).(layers := old(layers) + [layer])
      ensures obj.attributes == Adjusted(old(obj.attributes), layer.sphericalMercator, scales.Some?)
      ensures layer.obj.attributes == old(layer.obj.attributes)["isBaseLayer" := Val(Bool(true))]["transparent" := Val(Bool(false))]
      ensures obj.jsVariable == old(obj.jsVariable) && layer.obj.jsVariable == old(layer.obj.jsVariable)
    {
      var _ := layer.SetFlag(BaseLayer, Bool(true));
      var _ := layer.SetFlag(Transparent, Bool(false));
      AdjustMapForNewLayer(layer);
      layers := layers + [layer];
      l := layer;
    }

    /** newOverlay: the layer is made a transparent overlay, the map adjusted to it, and the layer
        stacked last. */
    method NewOverlay(layer: Layer) returns (l: Layer)
      requires Valid() && layer.obj != obj
      modifies this, obj, layer.obj
      ensures Valid() && l == layer
      ensures State() == old(State()).(layers := old(layers) + [layer])
      ensures obj.attributes == Adjusted(old(obj.attributes), layer.sphericalMercator, scales.Some?)
      ensures layer.obj.attributes == old(layer.obj.attributes)["isBaseLayer" := Val(Bool(false))]["transparent" := Val(Bool(true))]
      ensures obj.jsVariable == old(obj.jsVariable) && layer.obj.jsVariable == old(layer.obj.jsVariable)
    {
      var _ := layer.SetFlag(BaseLayer, Bool(false));
      var _ := layer.SetFlag(Transparent, Bool(true));
      AdjustMapForNewLayer(layer);
      layers := layers + [layer];
      l := layer;
    }

    /** adjustMapForNewLayer */
    method AdjustMapForNewLayer(layer: Layer)
      requires Valid()
      modifies obj
      ensures Valid()
      ensures obj.attributes == Adjusted(old(obj.attributes), layer.sphericalMercator, scales.Some?)
      ensures obj.jsVariable == old(obj.jsVariable)
    {
      if layer.sphericalMercator {
        obj.SetLiteral("projection", Literal(MercatorProjection));
        obj.SetLiteral("maxExtent", Literal(MercatorExtent));
        if scales.None? {
          obj.Set("units", Str("m"));
          obj.Set("maxResolution", Float(MercatorResolution));
        }
      }
    }
  }

  /** The constructor: a `Map` object with the defaults; `unique` is the `uniqid` draw. */
  method NewMap(unique: string) returns (m: Map)
    ensures fresh(m) && fresh(m.obj) && m.Valid()
    ensures m.obj.implementation == "Map" && m.obj.jsVariable == "map" + unique
    ensures m.obj.attributes == MapDefaults(map[])
    ensures m.State() == Settings(DefaultSize, DefaultSize, None, None, None, None, None, None, [], [])
  {
    var name := "Map";
    assert !IsTrimmed(name[0]) && !IsTrimmed(name[|name| - 1]);
    TrimKeeps(name);
    var o := NewObject("map", Str(name), map[], unique);
    assert o.Ok?;
    m := new Map(o.value);
  }
}
