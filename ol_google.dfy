/** GIS_OpenLayers_Map_Layer_Google: a spherical-Mercator layer drawn from Google Maps, which needs
    an API key, and the one-time loading of the Google Maps script that the first painted Google
    layer does for all of them. */
module OpenLayersGoogle {
  import opened Wrappers
  import opened Php
  import opened Errors
  import opened OpenLayersObject
  import opened OpenLayersLayer

  const Implementation: string := "Layer.Google"

  const TypecodeMessage: string := "First parameter (typecode) must be non-empty string"
  const APIKeyMessage: string := "API key must be non-empty string"
  const UseSecureMessage: string := "Use secure must be boolean-equivalent"
  const NoKeyMessage: string := "Must call setAPIKey() prior to calling paint()"

  const MaxExtent: string := "new OpenLayers.Bounds(-20037508.34,-20037508.34,20037508.34,20037508.34)"
  const Projection: string := "new OpenLayers.Projection(\"EPSG:900913\")"
  const MaxResolution: real := 156543.0339

  /** The static `$gmapsNeedsInitialization`: one loader is shared by every Google layer. */
  class GoogleLoader {
    var needsInitialization: bool

    constructor ()
      ensures needsInitialization
    {
      needsInitialization := true;
    }
  }

  /** The address of the Google Maps script for a key: https exactly when the layer is secure. */
  function ScriptSource(useSecure: bool, apiKey: string): (src: string)
    ensures |src| >= |apiKey| + 5
    ensures useSecure <==> src[..5] == "https"
    ensures src[|src| - |apiKey|..] == apiKey
  {
    var scheme := if useSecure then "https" else "http";
    var src := scheme + "://www.google.com/jsapi?key=" + apiKey;
    assert src[..5] == (scheme + "://")[..5];
    assert !useSecure ==> src[4] == ':';
    assert src[|src| - |apiKey|..] == apiKey;
    src
  }

  class GoogleLayer {
    const layer: Layer
    var apiKey: Option<string>
    var useSecure: bool

    constructor (layer: Layer)
      ensures this.layer == layer && apiKey.None? && !useSecure
    {
      this.layer := layer;
      apiKey := None;
      useSecure := false;
    }

    /** setAPIKey: a non-empty string, stored as given. */
    method SetAPIKey(v: Value) returns (r: Status)
      modifies this
      ensures r.Pass? <==> IsNonEmptyString(v)
      ensures r.Fail? ==> r.error == InvalidArgument(APIKeyMessage)
      ensures apiKey == if r.Pass? then Some(v.s) else old(apiKey)
      ensures useSecure == old(useSecure)
    {
      if IsNonEmptyString(v) {
        apiKey := Some(v.s);
        r := Pass;
      } else {
        r := Fail(InvalidArgument(APIKeyMessage));
      }
    }

    /** setUseSecure: any scalar, stored as its truth value. */
    method SetUseSecure(v: Value) returns (r: Status)
      modifies this
      ensures r.Pass? <==> IsScalar(v)
      ensures r.Fail? ==> r.error == InvalidArgument(UseSecureMessage)
      ensures useSecure == if r.Pass? then Truthy(v) else old(useSecure)
      ensures apiKey == old(apiKey)
    {
      if IsScalar(v) {
        useSecure := Truthy(v);
        r := Pass;
      } else {
        r := Fail(InvalidArgument(UseSecureMessage));
      }
    }

    /** The decision in paint: while the script is still to be loaded, a layer without a key fails
        and a layer with one loads it (the script's address is returned) and clears the shared flag;
        once it is loaded, every layer paints without looking at its key. */
    method Paint(loader: GoogleLoader) returns (r: Result<Option<string>, Error>)
      modifies loader
      ensures old(loader.needsInitialization) && apiKey.None? ==> r == Err(Logic(NoKeyMessage))
      ensures old(loader.needsInitialization) && apiKey.Some? ==> r == Ok(Some(ScriptSource(useSecure, apiKey.value)))
      ensures !old(loader.needsInitialization) ==> r == Ok(None)
      ensures loader.needsInitialization == (old(loader.needsInitialization) && r.Err?)
    {
      if loader.needsInitialization {
        if apiKey.None? {
          return Err(Logic(NoKeyMessage));
        }
        var src := ScriptSource(useSecure, apiKey.value);
        loader.needsInitialization := false;
        r := Ok(Some(src));
      } else {
        r := Ok(None);
      }
    }
  }

  /** The attributes of a new Google layer of the given type. */
  function GoogleAttributes(typecode: string): map<string, Attr>
  {
    LayerDefaults(map[])["sphericalMercator" := Val(Bool(true))]["maxExtent" := Literal(MaxExtent)]
      ["projection" := Literal(Projection)]["units" := Val(Str("m"))]["maxResolution" := Val(Float(MaxResolution))]
      ["type" := Literal(typecode)]
  }

  /** A new Google layer is a visible, opaque base layer in spherical Mercator (EPSG:900913, metres)
      whose type is the typecode written as Javascript. */
  lemma GoogleAttributesShape(typecode: string)
    ensures Truthy(AttrValue(GoogleAttributes(typecode), "isBaseLayer"))
    ensures AttrValue(GoogleAttributes(typecode), "transparent") == Bool(false)
    ensures AttrValue(GoogleAttributes(typecode), "sphericalMercator") == Bool(true)
    ensures AttrValue(GoogleAttributes(typecode), "units") == Str("m")
    ensures AttrValue(GoogleAttributes(typecode), "maxResolution") == Float(MaxResolution)
    ensures GoogleAttributes(typecode)["projection"] == Literal(Projection)
    ensures GoogleAttributes(typecode)["maxExtent"] == Literal(MaxExtent)
    ensures GoogleAttributes(typecode)["type"] == Literal(typecode)
  {
  }

  /** The attributes every Google layer sets: spherical Mercator, its extent and projection, metres
      and the top-level resolution. */
  method SetProjection(obj: OLObject)
    modifies obj
    ensures obj.attributes == old(obj.attributes)["sphericalMercator" := Val(Bool(true))]["maxExtent" := Literal(MaxExtent)]
      ["projection" := Literal(Projection)]["units" := Val(Str("m"))]["maxResolution" := Val(Float(MaxResolution))]
    ensures obj.jsVariable == old(obj.jsVariable)
  {
    obj.Set("sphericalMercator", Bool(true));
    obj.SetLiteral("maxExtent", Literal(MaxExtent));
    obj.SetLiteral("projection", Literal(Projection));
    obj.Set("units", Str("m"));
    obj.Set("maxResolution", Float(MaxResolution));
  }

  /** The constructor: a `Layer.Google` spherical-Mercator layer; a typecode that is not a non-empty
      string is refused (the layer built so far is then unreachable). */
  method NewGoogleLayer(typecode: Value, unique: string, titleUnique: string) returns (r: Result<GoogleLayer, Error>)
    ensures r.Err? <==> !IsNonEmptyString(typecode)
    ensures r.Err? ==> r.error == InvalidArgument(TypecodeMessage)
    ensures r.Ok? ==> fresh(r.value) && fresh(r.value.layer) && fresh(r.value.layer.obj)
    ensures r.Ok? ==> r.value.apiKey.None? && !r.value.useSecure
    ensures r.Ok? ==> r.value.layer.sphericalMercator && r.value.layer.Valid()
    ensures r.Ok? ==> r.value.layer.obj.implementation == Implementation
    ensures r.Ok? ==> r.value.layer.obj.attributes == GoogleAttributes(typecode.s)
  {
    assert !IsTrimmed(Implementation[0]) && !IsTrimmed(Implementation[|Implementation| - 1]);
    TrimKeeps(Implementation);
    var l := NewLayer(Str(Implementation), map[], true, unique, titleUnique);
    assert l.Ok?;
    var layer := l.value;
    SetProjection(layer.obj);
    if !IsNonEmptyString(typecode) {
      return Err(InvalidArgument(TypecodeMessage));
    }
    layer.obj.SetLiteral("type", Literal(typecode.s));
    var g := new GoogleLayer(layer);
    r := Ok(g);
  }
}
