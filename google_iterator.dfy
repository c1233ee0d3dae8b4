/** GIS_Geocode_Iterator_Google: the codings read from a Google geocoding response, one per
    `/GeocodeResponse/result`, in document order. */
module GoogleIterator {
  import opened Wrappers
  import opened Php
  import opened Errors
  import opened Coding

  /** An `address_component`: its `type` children in document order and its two names. */
  datatype Component = Component(types: seq<string>, longName: string, shortName: string)

  /** A `result`: the text of `formatted_address`, the components, and `geometry/location` read as floats. */
  datatype GoogleResult = GoogleResult(formattedAddress: string, components: seq<Component>, lat: real, lng: real)

  /** `$mappings`: the Google address-component types and the part whose setter each names
      (`nodeToMethod` the full setter, `nodeToAbbreviatedMethod` the `Abbreviated` one). */
  const Mappings: seq<(string, Part)> := [
    ("street_number", StreetNumber), ("post_box", PostBox), ("floor", Floor), ("room", Room),
    ("route", Route), ("locality", Locality),
    ("administrative_area_level_1", Level1), ("administrative_area_level_2", Level2),
    ("administrative_area_level_3", Level3), ("country", Country), ("postal_code", PostalCode)
  ]

  /** `haveMethod` and `nodeToMethod` together: the part a type maps to, if it is a key of `$mappings`. */
  function Mapping(t: string): Option<Part>
  {
    MappingFrom(t, 0)
  }

  /** The search of `$mappings` from entry `i` on. */
  function MappingFrom(t: string, i: nat): Option<Part>
    decreases |Mappings| - i
  {
    if i >= |Mappings| then None
    else if Mappings[i].0 == t then Some(Mappings[i].1)
    else MappingFrom(t, i + 1)
  }

  /** The part a component fills: only its first type is consulted, and a component without a type
      fills nothing. */
  function ComponentPart(c: Component): Option<Part>
  {
    if |c.types| == 0 then None else Mapping(c.types[0])
  }

  /** The last component filling a part, if any. */
  function LastFor(cs: seq<Component>, p: Part): Option<Component>
  {
    if |cs| == 0 then None
    else if ComponentPart(cs[|cs| - 1]) == Some(p) then Some(cs[|cs| - 1])
    else LastFor(cs[..|cs| - 1], p)
  }

  /** What the component loop leaves in a field: the long name (full field) or short name
      (abbreviated field) of the last component filling its part, or null. */
  function ComponentField(cs: seq<Component>, f: Field): Value
  {
    match f
    case Full(p) => (match LastFor(cs, p) case Some(c) => Str(c.longName) case None => Null)
    case Abbreviated(p) => (match LastFor(cs, p) case Some(c) => Str(c.shortName) case None => Null)
    case _ => Null
  }

  /** Each field of the coding built from a result. */
  function ResultField(res: GoogleResult, f: Field): Value
  {
    match f
    case FormattedAddress => Str(res.formattedAddress)
    case Latitude => Float(res.lat)
    case Longitude => Float(res.lng)
    case _ => ComponentField(res.components, f)
  }

  /** The exception converting a result throws: only its coordinates can be rejected. */
  function ResultRejection(res: GoogleResult): Option<Error>
  {
    CoordinatesRejection(Float(res.lat), Float(res.lng))
  }

  /** The value a component leaves in a field that held `v`: its long name in the full field of its
      part, its short name in the abbreviated one, and `v` everywhere else. */
  function AfterComponent(c: Component, f: Field, v: Value): Value
  {
    match ComponentPart(c)
    case Some(p) =>
      if f == Full(p) then Str(c.longName)
      else if f == Abbreviated(p) then Str(c.shortName)
      else v
    case None => v
  }

  /** The value the component loop leaves in a field that held `v`, the components taken in order. */
  function AfterComponents(cs: seq<Component>, f: Field, v: Value): Value
  {
    if |cs| == 0 then v else AfterComponent(cs[|cs| - 1], f, AfterComponents(cs[..|cs| - 1], f, v))
  }

  /** convertToCodings: one new coding per result, built through the coding's setters; the first
      rejected coordinate aborts the whole conversion. */
  method ConvertToCodings(rs: seq<GoogleResult>) returns (r: Result<seq<Coding>, Error>)
    ensures r.Err? <==> FirstRejection(rs, ResultRejection).Some?
    ensures r.Err? ==> r.error == FirstRejection(rs, ResultRejection).value
    ensures r.Ok? ==> |r.value| == |rs|
    ensures r.Ok? ==> forall i :: 0 <= i < |rs| ==> fresh(r.value[i]) && r.value[i].provider == GoogleProvider
    ensures r.Ok? ==> forall i, f :: 0 <= i < |rs| ==> r.value[i].Get(f) == ResultField(rs[i], f)
  {
    var codings: seq<Coding> := [];
    var i := 0;
    while i < |rs|
      invariant 0 <= i <= |rs|
      invariant FirstRejection(rs[..i], ResultRejection).None? && |codings| == i
      invariant forall j :: 0 <= j < i ==> fresh(codings[j]) && codings[j].provider == GoogleProvider
      invariant forall j, f :: 0 <= j < i ==> codings[j].Get(f) == ResultField(rs[j], f)
    {
      assert rs[..i + 1][..i] == rs[..i];
      var coding, status := NewCoding(rs[i]);
      if status.Fail? {
        FirstRejectionOfPrefix(rs, ResultRejection, i + 1);
        return Err(status.error);
      }
      codings := codings + [coding];
      i := i + 1;
    }
    assert rs[..i] == rs;
    r := Ok(codings);
  }

  /** The body of the loop over results: a new coding with the formatted address, the components
      and the location of one result. */
  method NewCoding(res: GoogleResult) returns (coding: Coding, status: Status)
    ensures fresh(coding) && coding.provider == GoogleProvider
    ensures status.Fail? <==> ResultRejection(res).Some?
    ensures status.Fail? ==> status.error == ResultRejection(res).value
    ensures status.Pass? ==> forall f :: coding.Get(f) == ResultField(res, f)
  {
    coding := new Coding(GoogleProvider);
    status := Fill(coding, res);
  }

  /** The setters one result calls on an empty coding, in order; a rejected coordinate stops them. */
  method Fill(coding: Coding, res: GoogleResult) returns (status: Status)
    requires coding.table.Arr? && forall f :: coding.Get(f) == Null
    modifies coding
    ensures status.Fail? <==> ResultRejection(res).Some?
    ensures status.Fail? ==> status.error == ResultRejection(res).value
    ensures status.Pass? ==> forall f :: coding.Get(f) == ResultField(res, f)
  {
    var _ := coding.SetText(FormattedAddress, Str(res.formattedAddress));
    label Named:
    FillComponents(coding, res.components);
    status := SetLocation(coding, Float(res.lat), Float(res.lng));
    if status.Fail? {
      return;
    }
    forall f
      ensures coding.Get(f) == ResultField(res, f)
    {
      ComponentsFillLastFor(res.components, f, old@Named(coding.Get(f)));
    }
  }

  /** The loop over `address_component` nodes. */
  method FillComponents(coding: Coding, cs: seq<Component>)
    requires coding.table.Arr?
    modifies coding
    ensures coding.table.Arr?
    ensures forall f :: coding.Get(f) == AfterComponents(cs, f, old(coding.Get(f)))
  {
    var k := 0;
    while k < |cs|
      invariant 0 <= k <= |cs|
      invariant coding.table.Arr?
      invariant forall f :: coding.Get(f) == AfterComponents(cs[..k], f, old(coding.Get(f)))
    {
      assert cs[..k + 1][..k] == cs[..k];
      FillComponent(coding, cs[k]);
      k := k + 1;
    }
    assert cs[..k] == cs;
  }

  /** One `address_component`: a component whose first type is in the table sets the full field of
      its part to the long name and the abbreviated one to the short name. */
  method FillComponent(coding: Coding, node: Component)
    requires coding.table.Arr?
    modifies coding
    ensures coding.table.Arr?
    ensures forall f :: coding.Get(f) == AfterComponent(node, f, old(coding.Get(f)))
  {
    if |node.types| != 0 {
      var part := Mapping(node.types[0]);
      if part.Some? {
        var _ := coding.SetText(Full(part.value), Str(node.longName));
        var _ := coding.SetText(Abbreviated(part.value), Str(node.shortName));
      }
    }
  }

  // ---------------------------------------------------------------------------------------------
  // Properties of the mapping

  /** Only the first type of a component is consulted: a component whose first type is unmapped
      fills nothing, whatever types follow. */
  lemma OnlyFirstTypeCounts(c: Component)
    requires |c.types| > 0 && Mapping(c.types[0]).None?
    ensures ComponentPart(c).None?
  {
  }

  /** When a type repeats, the later component wins: appending a component that fills part p makes
      it the source of both of p's fields, and leaves every other part as it was. */
  lemma LaterComponentOverwrites(cs: seq<Component>, c: Component, f: Field)
    requires f.Full? || f.Abbreviated?
    ensures ComponentPart(c) == Some(f.part) ==>
      ComponentField(cs + [c], f) == Str(if f.Full? then c.longName else c.shortName)
    ensures ComponentPart(c) != Some(f.part) ==> ComponentField(cs + [c], f) == ComponentField(cs, f)
  {
    assert (cs + [c])[..|cs|] == cs;
  }

  /** A type outside the table leaves the coding untouched. */
  lemma UnmappedComponentIgnored(cs: seq<Component>, c: Component, f: Field)
    requires ComponentPart(c).None?
    ensures ComponentField(cs + [c], f) == ComponentField(cs, f)
  {
    assert (cs + [c])[..|cs|] == cs;
  }

  /** The component loop fills the address parts as the declarative reading says: each holds the
      matching name of the last component mapped to its part, or null when there is none; the
      other fields keep their values. */
  lemma {:induction false} ComponentsFillLastFor(cs: seq<Component>, f: Field, v: Value)
    ensures !f.Full? && !f.Abbreviated? ==> AfterComponents(cs, f, v) == v
    ensures (f.Full? || f.Abbreviated?) && v == Null ==> AfterComponents(cs, f, v) == ComponentField(cs, f)
  {
    if |cs| != 0 {
      ComponentsFillLastFor(cs[..|cs| - 1], f, v);
    }
  }

  /** The conversion fails exactly when some result's location is outside the coding's bounds, and
      then with the coding's exception for the first such result. */
  lemma FirstRejectionIsFirstBadResult(rs: seq<GoogleResult>)
    ensures FirstRejection(rs, ResultRejection).None? <==>
      forall i :: 0 <= i < |rs| ==> -LatitudeLimit <= rs[i].lat <= LatitudeLimit && -LongitudeLimit <= rs[i].lng <= LongitudeLimit
    ensures FirstRejection(rs, ResultRejection).Some? ==>
      (exists i :: 0 <= i < |rs| && FirstRejection(rs, ResultRejection) == ResultRejection(rs[i]) &&
        forall j :: 0 <= j < i ==> ResultRejection(rs[j]).None?)
  {
    FirstRejectionIsFirst(rs, ResultRejection);
  }
}
