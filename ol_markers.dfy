/** GIS_OpenLayers_Map_Layer_Markers: a transparent layer that holds the markers placed on it, and
    the bookkeeping its paint loop does so that each icon is defined once however many markers use
    it. An icon is modelled by its OpenLayers object part, whose Javascript variable the loop keys
    on; its url and size are not part of this model. */
module OpenLayersMarkers {
  import opened Wrappers
  import opened Php
  import opened Errors
  import opened OpenLayersObject
  import opened OpenLayersLayer

  const Implementation: string := "Layer.Markers"

  const LatitudeMessage: string := "First parameter (latitude) must be latitude"
  const LongitudeMessage: string := "Second parameter (longitude) must be longitude"
  const EventsMessage: string := "Fourth parameter (events) must be an array when given"

  /** One placed marker: where, with which icon, and the event handlers (null or an array). */
  datatype Marker = Marker(latitude: Value, longitude: Value, icon: OLObject, events: Value)

  /** The check placeMarker makes, in its order: latitude, then longitude, then the events. */
  function PlacementRejection(latitude: Value, longitude: Value, events: Value): (r: Option<Error>)
    ensures r.None? <==> IsLatitude(latitude) && IsLongitude(longitude) && (events.Null? || events.Arr?)
    ensures !IsLatitude(latitude) ==> r == Some(InvalidArgument(LatitudeMessage))
    ensures IsLatitude(latitude) && !IsLongitude(longitude) ==> r == Some(InvalidArgument(LongitudeMessage))
    ensures IsLatitude(latitude) && IsLongitude(longitude) && !(events.Null? || events.Arr?) ==>
      r == Some(InvalidArgument(EventsMessage))
  {
    if !IsLatitude(latitude) then Some(InvalidArgument(LatitudeMessage))
    else if !IsLongitude(longitude) then Some(InvalidArgument(LongitudeMessage))
    else if !(events.Null? || events.Arr?) then Some(InvalidArgument(EventsMessage))
    else None
  }

  class MarkersLayer {
    const layer: Layer
    var markers: seq<Marker>

    constructor (layer: Layer)
      ensures this.layer == layer && markers == []
    {
      this.layer := layer;
      markers := [];
    }

    /** placeMarker: a marker that passes the checks is appended; a rejected one changes nothing. */
    method PlaceMarker(latitude: Value, longitude: Value, icon: OLObject, events: Value) returns (r: Status)
      modifies this
      ensures r.Pass? <==> PlacementRejection(latitude, longitude, events).None?
      ensures r.Fail? ==> Some(r.error) == PlacementRejection(latitude, longitude, events)
      ensures markers == if r.Pass? then old(markers) + [Marker(latitude, longitude, icon, events)] else old(markers)
    {
      var rejection := PlacementRejection(latitude, longitude, events);
      if rejection.Some? {
        return Fail(rejection.value);
      }
      markers := markers + [Marker(latitude, longitude, icon, events)];
      r := Pass;
    }

    /** The loop of paint without its output: it walks the markers in order, numbering them from 1,
        and defines a marker's icon unless an icon of the same Javascript variable was defined
        already. The icon variables are read as they are when the layer is painted. */
    method PaintPlan() returns (plan: seq<Step>)
      ensures plan == Plan(IconVariables(markers))
    {
      ghost var vars := IconVariables(markers);
      var painted: set<string> := {};
      var i := 0;
      plan := [];
      while i < |markers|
        invariant 0 <= i <= |markers|
        invariant plan == Plan(vars[..i])
        invariant forall v :: v in painted <==> v in vars[..i]
      {
        var variable := markers[i].icon.jsVariable;
        assert vars[..i + 1][..i] == vars[..i];
        i := i + 1;
        if variable !in painted {
          plan := plan + [IconStep(variable)];
          painted := painted + {variable};
        }
        plan := plan + [MarkerStep(i, variable)];
      }
      assert vars[..i] == vars;
    }
  }

  /** The constructor: a `Layer.Markers` layer with no markers; `unique` and `titleUnique` are the
      two `uniqid` draws. */
  method NewMarkersLayer(unique: string, titleUnique: string) returns (m: MarkersLayer)
    ensures fresh(m) && fresh(m.layer) && fresh(m.layer.obj) && m.markers == []
    ensures m.layer.obj.implementation == Implementation && m.layer.obj.jsVariable == "layer" + unique
    ensures m.layer.Valid() && m.layer.IsBase() && !m.layer.sphericalMercator
    ensures AttrValue(m.layer.obj.attributes, "transparent") == Bool(false)
    ensures AttrValue(m.layer.obj.attributes, "visibility") == Bool(true)
  {
    assert !IsTrimmed(Implementation[0]) && !IsTrimmed(Implementation[|Implementation| - 1]);
    TrimKeeps(Implementation);
    var l := NewLayer(Str(Implementation), map[], false, unique, titleUnique);
    assert l.Ok?;
    m := new MarkersLayer(l.value);
  }

  // ---------------------------------------------------------------------------------------------
  // The paint loop's plan

  /** What the loop does for one marker: define an icon, or add the marker numbered `number`. */
  datatype Step = IconStep(variable: string) | MarkerStep(number: nat, icon: string)

  /** The icon variables of the markers, in order. */
  ghost function IconVariables(markers: seq<Marker>): (vars: seq<string>)
    reads set m | m in markers :: m.icon
    ensures |vars| == |markers|
    ensures forall i :: 0 <= i < |markers| ==> vars[i] == markers[i].icon.jsVariable
  {
    if markers == [] then [] else IconVariables(markers[..|markers| - 1]) + [markers[|markers| - 1].icon.jsVariable]
  }

  /** The steps for markers whose icons have the variables `vars`: an icon is defined just before
      the first marker that uses it. */
  function Plan(vars: seq<string>): seq<Step>
  {
    if vars == [] then []
    else
      var prefix := vars[..|vars| - 1];
      var v := vars[|vars| - 1];
      Plan(prefix) + (if v in prefix then [] else [IconStep(v)]) + [MarkerStep(|vars|, v)]
  }

  /** The icons a plan defines, in order. */
  function IconsOf(plan: seq<Step>): seq<string>
  {
    if plan == [] then []
    else IconsOf(plan[..|plan| - 1]) + (if plan[|plan| - 1].IconStep? then [plan[|plan| - 1].variable] else [])
  }

  /** The markers a plan adds, in order. */
  function MarkersOf(plan: seq<Step>): seq<(nat, string)>
  {
    if plan == [] then []
    else
      var last := plan[|plan| - 1];
      MarkersOf(plan[..|plan| - 1]) + (if last.MarkerStep? then [(last.number, last.icon)] else [])
  }

  /** Each icon variable once, in the order of first use. */
  function Distinct(vars: seq<string>): seq<string>
  {
    if vars == [] then []
    else
      var prefix := vars[..|vars| - 1];
      Distinct(prefix) + (if vars[|vars| - 1] in prefix then [] else [vars[|vars| - 1]])
  }

  lemma {:induction false} IconsOfAppend(a: seq<Step>, b: seq<Step>)
    ensures IconsOf(a + b) == IconsOf(a) + IconsOf(b)
    decreases |b|
  {
    if b == [] {
      assert a + b == a;
    } else {
      assert (a + b)[..|a + b| - 1] == a + b[..|b| - 1];
      IconsOfAppend(a, b[..|b| - 1]);
    }
  }

  lemma {:induction false} MarkersOfAppend(a: seq<Step>, b: seq<Step>)
    ensures MarkersOf(a + b) == MarkersOf(a) + MarkersOf(b)
    decreases |b|
  {
    if b == [] {
      assert a + b == a;
    } else {
      assert (a + b)[..|a + b| - 1] == a + b[..|b| - 1];
      MarkersOfAppend(a, b[..|b| - 1]);
    }
  }

  /** One more marker adds exactly one marker step to the plan, numbered after the others. */
  lemma MarkersOfPlanStep(vars: seq<string>)
    requires vars != []
    ensures MarkersOf(Plan(vars)) == MarkersOf(Plan(vars[..|vars| - 1])) + [(|vars|, vars[|vars| - 1])]
  {
    var prefix := vars[..|vars| - 1];
    var v := vars[|vars| - 1];
    var icon: seq<Step> := if v in prefix then [] else [IconStep(v)];
    var head := Plan(prefix);
    var withIcon := head + icon;
    assert Plan(vars) == withIcon + [MarkerStep(|vars|, v)];
    assert MarkersOf(icon) == [] by {
      if icon != [] {
        assert icon[..0] == [];
      }
    }
    MarkersOfAppend(head, icon);
    assert MarkersOf(withIcon) == MarkersOf(head) + [];
    assert MarkersOf([MarkerStep(|vars|, v)]) == [(|vars|, v)] by {
      assert [MarkerStep(|vars|, v)][..0] == [];
    }
    MarkersOfAppend(withIcon, [MarkerStep(|vars|, v)]);
    assert MarkersOf(head) + [] == MarkersOf(head);
  }

  /** The markers are added in order and numbered 1 to n. */
  lemma {:induction false} PlanNumbersMarkers(vars: seq<string>)
    ensures |MarkersOf(Plan(vars))| == |vars|
    ensures forall i :: 0 <= i < |vars| ==> MarkersOf(Plan(vars))[i] == (i + 1, vars[i])
  {
    if vars != [] {
      var prefix := vars[..|vars| - 1];
      PlanNumbersMarkers(prefix);
      MarkersOfPlanStep(vars);
      var before := MarkersOf(Plan(prefix));
      forall i | 0 <= i < |prefix|
        ensures MarkersOf(Plan(vars))[i] == (i + 1, vars[i])
      {
        assert MarkersOf(Plan(vars))[i] == before[i] == (i + 1, prefix[i]);
      }
    }
  }

  /** The icons are defined in the order of their first use, each once. */
  lemma {:induction false} PlanDefinesIconsAtFirstUse(vars: seq<string>)
    ensures IconsOf(Plan(vars)) == Distinct(vars)
  {
    if vars != [] {
      var prefix := vars[..|vars| - 1];
      var v := vars[|vars| - 1];
      PlanDefinesIconsAtFirstUse(prefix);
      var icon: seq<Step> := if v in prefix then [] else [IconStep(v)];
      IconsOfAppend(Plan(prefix), icon);
      IconsOfAppend(Plan(prefix) + icon, [MarkerStep(|vars|, v)]);
      assert IconsOf([MarkerStep(|vars|, v)]) == [] by {
        assert [MarkerStep(|vars|, v)][..0] == [];
      }
      if icon != [] {
        assert icon[..0] == [];
      }
    }
  }

  /** Every icon variable in use appears once in Distinct, and nothing else does. */
  lemma {:induction false} DistinctIsEachOnce(vars: seq<string>)
    ensures forall v :: v in Distinct(vars) <==> v in vars
    ensures forall i, j :: 0 <= i < j < |Distinct(vars)| ==> Distinct(vars)[i] != Distinct(vars)[j]
  {
    if vars != [] {
      var prefix := vars[..|vars| - 1];
      DistinctIsEachOnce(prefix);
      assert vars == prefix + [vars[|vars| - 1]];
    }
  }

  /** An icon some marker already uses has been defined by the plan. */
  lemma UsedIconIsDefined(vars: seq<string>, v: string)
    requires v in vars
    requires forall p :: 0 <= p < |Plan(vars)| && Plan(vars)[p].MarkerStep? ==>
      exists q :: 0 <= q < p && Plan(vars)[q] == IconStep(Plan(vars)[p].icon)
    ensures exists q :: 0 <= q < |Plan(vars)| && Plan(vars)[q] == IconStep(v)
  {
    var k :| 0 <= k < |vars| && vars[k] == v;
    PlanNumbersMarkers(vars);
    var q := MarkerIndex(Plan(vars), k);
    var q' :| 0 <= q' < q && Plan(vars)[q'] == IconStep(Plan(vars)[q].icon);
  }

  /** Every marker's icon is defined before the marker is added. */
  lemma {:induction false} PlanDefinesBeforeUse(vars: seq<string>)
    ensures forall p :: 0 <= p < |Plan(vars)| && Plan(vars)[p].MarkerStep? ==>
      exists q :: 0 <= q < p && Plan(vars)[q] == IconStep(Plan(vars)[p].icon)
  {
    if vars != [] {
      var prefix := vars[..|vars| - 1];
      var v := vars[|vars| - 1];
      PlanDefinesBeforeUse(prefix);
      var plan := Plan(vars);
      var head := Plan(prefix);
      var icon: seq<Step> := if v in prefix then [] else [IconStep(v)];
      assert plan == head + icon + [MarkerStep(|vars|, v)];
      forall p | 0 <= p < |plan| && plan[p].MarkerStep?
        ensures exists q :: 0 <= q < p && plan[q] == IconStep(plan[p].icon)
      {
        if p < |head| {
          assert plan[p] == head[p];
          var q :| 0 <= q < p && head[q] == IconStep(head[p].icon);
          assert plan[q] == head[q];
        } else if icon == [] {
          assert plan[p] == MarkerStep(|vars|, v);
          UsedIconIsDefined(prefix, v);
          var q :| 0 <= q < |head| && head[q] == IconStep(v);
          assert plan[q] == head[q];
        } else {
          assert plan[|head|] == IconStep(v);
        }
      }
    }
  }

  /** Where the k-th marker of a plan stands. */
  lemma {:induction false} MarkerIndexExists(plan: seq<Step>, k: nat)
    requires k < |MarkersOf(plan)|
    ensures exists q :: 0 <= q < |plan| && plan[q] == MarkerStep(MarkersOf(plan)[k].0, MarkersOf(plan)[k].1)
    decreases |plan|
  {
    var init := plan[..|plan| - 1];
    var last := plan[|plan| - 1];
    assert plan == init + [last];
    if k < |MarkersOf(init)| {
      MarkerIndexExists(init, k);
      var q :| 0 <= q < |init| && init[q] == MarkerStep(MarkersOf(init)[k].0, MarkersOf(init)[k].1);
      assert plan[q] == init[q];
    } else {
      assert plan[|plan| - 1] == last;
    }
  }

  /** The position of the k-th marker of a plan. */
  ghost function MarkerIndex(plan: seq<Step>, k: nat): (q: nat)
    requires k < |MarkersOf(plan)|
    ensures q < |plan| && plan[q] == MarkerStep(MarkersOf(plan)[k].0, MarkersOf(plan)[k].1)
  {
    MarkerIndexExists(plan, k);
    var q :| 0 <= q < |plan| && plan[q] == MarkerStep(MarkersOf(plan)[k].0, MarkersOf(plan)[k].1);
    q
  }
}
