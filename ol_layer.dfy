/** GIS_OpenLayers_Map_Layer: a map layer, its title, its place in the layer switcher and in the
    layer order, and the guarded setters of its Javascript attributes. Whether the layer class
    implements GIS_OpenLayers_Map_Layer_iSphericalMercator is a constant of the layer. */
module OpenLayersLayer {
  import opened Wrappers
  import opened Php
  import opened Errors
  import opened OpenLayersObject

  /** ORDER_UNDEFINED: the OpenLayers index of a layer that is not on the map. */
  const OrderUndefined: int := -1

  const TitleMessage: string := "First parameter (title) must be non-empty string"
  const NotBaseMessage: string := "Layer not a base layer and cannot, therefore, be the selected base layer"
  const HiddenSelectedMessage: string := "You cannot make a layer, that is not shown in the switcher, the selected base layer"
  const SelectedMessage: string := "First parameter (isSelectedBaseLayer) must be boolean-compatible"
  const RemoveSelectedMessage: string := "You cannot remove the selected base layer from the layer switcher"
  const SwitcherMessage: string := "First parameter (displayInLayerSwitcher) must be boolean-equivalent"
  const OpacityMessage: string := "First parameter (opacity) must be float between 0.0 and 1.0"
  const TileBufferMessage: string := "First parameter (tileBuffer) must be whole number greater than zero"
  const TileSizeMessage: string := "First and second parameters (width, height) must be whole numbers greater than zero"
  const GutterMessage: string := "First parameter (gutterSize) must be whole number greater than or equal to zero"
  const LayerOrderMessage: string :=
    "First parameter (layerOrder) must be whole number greater than or equal to zero or class constant ORDER_UNDEFINED"

  /** The boolean attributes a layer sets from any scalar. */
  datatype Flag = BaseLayer | Transparent | Visibility | Display | SingleTile

  /** The attribute each flag is stored under. */
  function FlagKey(f: Flag): string
  {
    match f
    case BaseLayer => "isBaseLayer"
    case Transparent => "transparent"
    case Visibility => "visibility"
    case Display => "display"
    case SingleTile => "singleTile"
  }

  /** The message each flag's setter throws for a value that is not scalar. */
  function FlagMessage(f: Flag): string
  {
    match f
    case BaseLayer => "First parameter (isBaseLayer) must be boolean-equivalent"
    case Transparent => "First parameter (isTransparent) must be boolean-equivalent"
    case Visibility => "First parameter (visibility) must be boolean-compatible"
    case Display => "First parameter (display) must be boolean-compatible"
    case SingleTile => "First parameter (singleTile) must be boolean-equivalent"
  }

  /** The flags are stored under five different attributes. */
  lemma FlagKeysDistinct(f: Flag, g: Flag)
    ensures FlagKey(f) == FlagKey(g) <==> f == g
  {
  }

  /** setOpacity's test: a number in [0.0, 1.0]. */
  predicate AcceptsOpacity(v: Value)
  {
    IsNumeric(v) && 0.0 <= NumericValue(v) && NumericValue(v) <= 1.0
  }

  /** The test of setTileBuffer and setGutterSize: a number that is not negative. */
  predicate AcceptsNonNegative(v: Value)
  {
    IsNumeric(v) && 0.0 <= NumericValue(v)
  }

  /** setTileSize's test: two positive numbers. */
  predicate AcceptsTileSize(width: Value, height: Value)
  {
    IsNumeric(width) && 0.0 < NumericValue(width) && IsNumeric(height) && 0.0 < NumericValue(height)
  }

  /** The order setLayerOrder stores for a value: the integer -1 itself (compared with `===`), or a
      number that is not negative, truncated to an integer. */
  function LayerOrderOf(v: Value): (r: Option<int>)
    ensures r.Some? ==> r.value == OrderUndefined || 0 <= r.value
  {
    if v == Int(OrderUndefined) then Some(OrderUndefined)
    else if IsNumeric(v) && 0.0 <= NumericValue(v) then Some(IntCast(v))
    else None
  }

  /** The layer order domain: -1 is accepted only as the integer -1, every other accepted value is
      a number that is not negative, and a negative number is refused. */
  lemma LayerOrderDomain(v: Value)
    ensures LayerOrderOf(v) == Some(OrderUndefined) <==> v == Int(OrderUndefined)
    ensures LayerOrderOf(v).Some? <==> v == Int(OrderUndefined) || AcceptsNonNegative(v)
    ensures IsNumeric(v) && NumericValue(v) < 0.0 && v != Int(OrderUndefined) ==> LayerOrderOf(v).None?
    ensures LayerOrderOf(Str("-1")).None? && LayerOrderOf(Float(-1.0)).None?
  {
    assert IsNumeric(Str("-1"));
  }

  /** The attributes the constructor sets over those it is given: a visible base layer that is not
      transparent. */
  function LayerDefaults(attributes: map<string, Attr>): map<string, Attr>
  {
    attributes["isBaseLayer" := Val(Bool(true))]["transparent" := Val(Bool(false))]["visibility" := Val(Bool(true))]
  }

  /** A new layer is a visible base layer that is not transparent, whatever attributes it was given;
      every other attribute is the one given. */
  lemma LayerDefaultsShape(attributes: map<string, Attr>)
    ensures Truthy(AttrValue(LayerDefaults(attributes), "isBaseLayer"))
    ensures AttrValue(LayerDefaults(attributes), "transparent") == Bool(false)
    ensures AttrValue(LayerDefaults(attributes), "visibility") == Bool(true)
    ensures LayerDefaults(attributes).Keys == attributes.Keys + {"isBaseLayer", "transparent", "visibility"}
    ensures forall k :: k in attributes && k !in {"isBaseLayer", "transparent", "visibility"} ==>
      LayerDefaults(attributes)[k] == attributes[k]
  {
  }

  class Layer {
    const obj: OLObject
    const sphericalMercator: bool
    var title: string
    /** `$tileSize`, as given to setTileSize. */
    var tileSize: Option<(Value, Value)>
    var isSelectedBaseLayer: bool
    var displayInLayerSwitcher: bool
    var layerOrder: int

    /** A selected base layer is shown in the layer switcher, and the order is -1 or a position. */
    ghost predicate Valid()
      reads this
    {
      (isSelectedBaseLayer ==> displayInLayerSwitcher) && (layerOrder == OrderUndefined || 0 <= layerOrder)
    }

    /** The constructor once the object is built: a generated title, and a visible base layer that is
        not transparent, not selected, shown in the switcher and without an order. */
    constructor (obj: OLObject, sphericalMercator: bool, titleUnique: string)
      modifies obj
      ensures Valid() && this.obj == obj && this.sphericalMercator == sphericalMercator
      ensures title == Trim("Layer" + titleUnique) && title != ""
      ensures obj.attributes == LayerDefaults(old(obj.attributes))
      ensures obj.jsVariable == old(obj.jsVariable)
      ensures tileSize.None? && !isSelectedBaseLayer && displayInLayerSwitcher && layerOrder == OrderUndefined
    {
      this.obj := obj;
      this.sphericalMercator := sphericalMercator;
      var generated := "Layer" + titleUnique;
      assert !IsTrimmed(generated[0]);
      TrimBlank(generated);
      title := Trim(generated);
      tileSize := None;
      isSelectedBaseLayer := false;
      displayInLayerSwitcher := true;
      layerOrder := OrderUndefined;
      new;
      obj.Set("isBaseLayer", Bool(true));
      obj.Set("transparent", Bool(false));
      obj.Set("visibility", Bool(true));
    }

    /** getIsBaseLayer, read loosely as the setters' callers do. */
    predicate IsBase()
      reads this, obj
    {
      Truthy(AttrValue(obj.attributes, "isBaseLayer"))
    }

    /** setTitle: a string that is not blank is stored trimmed. */
    method SetTitle(v: Value) returns (r: Status)
      modifies this
      ensures r.Pass? <==> TrimmedNonEmpty(v).Some?
      ensures r.Fail? ==> r.error == InvalidArgument(TitleMessage)
      ensures title == if r.Pass? then TrimmedNonEmpty(v).value else old(title)
      ensures isSelectedBaseLayer == old(isSelectedBaseLayer) && displayInLayerSwitcher == old(displayInLayerSwitcher)
      ensures layerOrder == old(layerOrder) && tileSize == old(tileSize)
    {
      var t := TrimmedNonEmpty(v);
      if t.Some? {
        title := t.value;
        r := Pass;
      } else {
        r := Fail(InvalidArgument(TitleMessage));
      }
    }

    /** setIsBaseLayer, setIsTransparent, setVisibility, setDisplay and setSingleTile: any scalar
        is stored as its truth value. */
    method SetFlag(f: Flag, v: Value) returns (r: Status)
      modifies obj
      ensures r.Pass? <==> IsScalar(v)
      ensures r.Fail? ==> r.error == InvalidArgument(FlagMessage(f))
      ensures obj.attributes == if r.Pass? then old(obj.attributes)[FlagKey(f) := Val(Bool(Truthy(v)))] else old(obj.attributes)
      ensures obj.jsVariable == old(obj.jsVariable)
    {
      if IsScalar(v) {
        obj.Set(FlagKey(f), Bool(Truthy(v)));
        r := Pass;
      } else {
        r := Fail(InvalidArgument(FlagMessage(f)));
      }
    }

    /** setIsSelectedBaseLayer: refused for a layer that is not a base layer, whatever is passed;
        then a scalar selects the layer (whatever its value) unless the layer is hidden from the
        switcher. */
    method SetIsSelectedBaseLayer(v: Value) returns (r: Status)
      requires Valid()
      modifies this
      ensures Valid()
      ensures !IsBase() ==> r == Fail(Runtime(NotBaseMessage))
      ensures IsBase() && IsScalar(v) && !displayInLayerSwitcher ==> r == Fail(Runtime(HiddenSelectedMessage))
      ensures IsBase() && !IsScalar(v) ==> r == Fail(InvalidArgument(SelectedMessage))
      ensures r.Pass? <==> IsBase() && IsScalar(v) && displayInLayerSwitcher
      ensures isSelectedBaseLayer == (r.Pass? || old(isSelectedBaseLayer))
      ensures title == old(title) && displayInLayerSwitcher == old(displayInLayerSwitcher)
      ensures layerOrder == old(layerOrder) && tileSize == old(tileSize)
    {
      if !IsBase() {
        return Fail(Runtime(NotBaseMessage));
      }
      if IsScalar(v) {
        if !displayInLayerSwitcher {
          return Fail(Runtime(HiddenSelectedMessage));
        }
        isSelectedBaseLayer := true;
        r := Pass;
      } else {
        r := Fail(InvalidArgument(SelectedMessage));
      }
    }

    /** setDisplayInLayerSwitcher: a scalar is stored as its truth value, except that the selected
        base layer cannot be hidden. */
    method SetDisplayInLayerSwitcher(v: Value) returns (r: Status)
      requires Valid()
      modifies this
      ensures Valid()
      ensures !IsScalar(v) ==> r == Fail(InvalidArgument(SwitcherMessage))
      ensures IsScalar(v) && !Truthy(v) && isSelectedBaseLayer ==> r == Fail(Runtime(RemoveSelectedMessage))
      ensures r.Pass? <==> IsScalar(v) && (Truthy(v) || !isSelectedBaseLayer)
      ensures displayInLayerSwitcher == if r.Pass? then Truthy(v) else old(displayInLayerSwitcher)
      ensures title == old(title) && isSelectedBaseLayer == old(isSelectedBaseLayer)
      ensures layerOrder == old(layerOrder) && tileSize == old(tileSize)
    {
      if IsScalar(v) {
        var show := Truthy(v);
        if !show && isSelectedBaseLayer {
          return Fail(Runtime(RemoveSelectedMessage));
        }
        displayInLayerSwitcher := show;
        r := Pass;
      } else {
        r := Fail(InvalidArgument(SwitcherMessage));
      }
    }

    /** setOpacity: a number in [0.0, 1.0], stored as given. */
    method SetOpacity(v: Value) returns (r: Status)
      modifies obj
      ensures r.Pass? <==> AcceptsOpacity(v)
      ensures r.Fail? ==> r.error == InvalidArgument(OpacityMessage)
      ensures obj.attributes == if r.Pass? then old(obj.attributes)["opacity" := Val(v)] else old(obj.attributes)
      ensures obj.jsVariable == old(obj.jsVariable)
    {
      if AcceptsOpacity(v) {
        obj.Set("opacity", v);
        r := Pass;
      } else {
        r := Fail(InvalidArgument(OpacityMessage));
      }
    }

    /** setTileBuffer: a number that is not negative, stored truncated to an integer. */
    method SetTileBuffer(v: Value) returns (r: Status)
      modifies obj
      ensures r.Pass? <==> AcceptsNonNegative(v)
      ensures r.Fail? ==> r.error == InvalidArgument(TileBufferMessage)
      ensures r.Pass? ==> obj.attributes == old(obj.attributes)["buffer" := Val(Int(IntCast(v)))] && 0 <= IntCast(v)
      ensures r.Fail? ==> obj.attributes == old(obj.attributes)
      ensures obj.jsVariable == old(obj.jsVariable)
    {
      if AcceptsNonNegative(v) {
        obj.Set("buffer", Int(IntCast(v)));
        r := Pass;
      } else {
        r := Fail(InvalidArgument(TileBufferMessage));
      }
    }

    /** setTileSize: two positive numbers, kept as given and written into the `tileSize` literal. */
    method SetTileSize(width: Value, height: Value) returns (r: Status)
      modifies this, obj
      ensures r.Pass? <==> AcceptsTileSize(width, height)
      ensures r.Fail? ==> r.error == InvalidArgument(TileSizeMessage)
      ensures r.Pass? ==> tileSize == Some((width, height)) && obj.attributes == old(obj.attributes)["tileSize" := Size(width, height)]
      ensures r.Fail? ==> tileSize == old(tileSize) && obj.attributes == old(obj.attributes)
      ensures title == old(title) && isSelectedBaseLayer == old(isSelectedBaseLayer)
      ensures displayInLayerSwitcher == old(displayInLayerSwitcher) && layerOrder == old(layerOrder)
      ensures obj.jsVariable == old(obj.jsVariable)
    {
      if AcceptsTileSize(width, height) {
        obj.SetLiteral("tileSize", Size(width, height));
        tileSize := Some((width, height));
        r := Pass;
      } else {
        r := Fail(InvalidArgument(TileSizeMessage));
      }
    }

    /** setGutterSize: a number that is not negative, stored as given. */
    method SetGutterSize(v: Value) returns (r: Status)
      modifies obj
      ensures r.Pass? <==> AcceptsNonNegative(v)
      ensures r.Fail? ==> r.error == InvalidArgument(GutterMessage)
      ensures obj.attributes == if r.Pass? then old(obj.attributes)["gutter" := Val(v)] else old(obj.attributes)
      ensures obj.jsVariable == old(obj.jsVariable)
    {
      if AcceptsNonNegative(v) {
        obj.Set("gutter", v);
        r := Pass;
      } else {
        r := Fail(InvalidArgument(GutterMessage));
      }
    }

    /** setLayerOrder */
    method SetLayerOrder(v: Value) returns (r: Status)
      requires Valid()
      modifies this
      ensures Valid()
      ensures r.Pass? <==> LayerOrderOf(v).Some?
      ensures r.Fail? ==> r.error == InvalidArgument(LayerOrderMessage)
      ensures layerOrder == if r.Pass? then LayerOrderOf(v).value else old(layerOrder)
      ensures title == old(title) && isSelectedBaseLayer == old(isSelectedBaseLayer)
      ensures displayInLayerSwitcher == old(displayInLayerSwitcher) && tileSize == old(tileSize)
    {
      if v == Int(OrderUndefined) {
        layerOrder := OrderUndefined;
        r := Pass;
      } else if IsNumeric(v) && 0.0 <= NumericValue(v) {
        layerOrder := IntCast(v);
        r := Pass;
      } else {
        r := Fail(InvalidArgument(LayerOrderMessage));
      }
    }
  }

  /** The constructor: the object is built first, and can fail on its implementation; `unique`
      and `titleUnique` are the two `uniqid` draws. */
  method NewLayer(implementation: Value, attributes: map<string, Value>, sphericalMercator: bool, unique: string, titleUnique: string)
    returns (r: Result<Layer, Error>)
    ensures r.Err? <==> TrimmedNonEmpty(implementation).None?
    ensures r.Err? ==> r.error == InvalidArgument(ImplementationMessage)
    ensures r.Ok? ==> fresh(r.value) && fresh(r.value.obj) && r.value.Valid()
    ensures r.Ok? ==> r.value.IsBase() && !r.value.isSelectedBaseLayer && r.value.displayInLayerSwitcher
    ensures r.Ok? ==> r.value.layerOrder == OrderUndefined && r.value.obj.jsVariable == "layer" + unique
    ensures r.Ok? ==> r.value.obj.implementation == Trim(implementation.s) && r.value.sphericalMercator == sphericalMercator
    ensures r.Ok? ==> r.value.title == Trim("Layer" + titleUnique) && r.value.tileSize.None?
    ensures r.Ok? ==> r.value.obj.attributes == LayerDefaults(Plain(attributes))
  {
    var o := NewObject("layer", implementation, attributes, unique);
    if o.Err? {
      return Err(o.error);
    }
    var l := new Layer(o.value, sphericalMercator, titleUnique);
    r := Ok(l);
  }
}
