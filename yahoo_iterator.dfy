/** GIS_Geocode_Iterator_Yahoo: the codings read from a Yahoo geocoding response, one per
    `/ResultSet/Result`, in document order. Yahoo has no formatted address, so one is put together
    from the parts the result filled. */
module YahooIterator {
  import opened Wrappers
  import opened Php
  import opened Errors
  import opened Coding

  /** A child element of a `Result`: its tag and its text. */
  datatype Child = Child(tag: string, text: string)

  /** A `Result`: its child elements in document order. */
  datatype YahooResult = YahooResult(children: seq<Child>)

  /** `$mappings`: the Yahoo tags and the field whose setter each names. */
  const Mappings: seq<(string, Field)> := [
    ("house", Full(StreetNumber)), ("unit", Full(PostBox)), ("street", Full(Route)),
    ("neighborhood", Full(Locality)), ("level1", Full(Level1)), ("level2", Full(Level2)),
    ("level3", Full(Level3)), ("level0", Full(Country)), ("postal", Full(PostalCode)),
    ("level1code", Abbreviated(Level1)), ("level2code", Abbreviated(Level2)),
    ("level3code", Abbreviated(Level3)), ("level0code", Abbreviated(Country))
  ]

  /** `haveMethod` and `nodeToMethod` together: the field a tag maps to, if it is a key of `$mappings`. */
  function Mapping(tag: string): Option<Field>
  {
    MappingFrom(tag, 0)
  }

  /** The search of `$mappings` from entry `i` on. */
  function MappingFrom(tag: string, i: nat): Option<Field>
    decreases |Mappings| - i
  {
    if i >= |Mappings| then None
    else if Mappings[i].0 == tag then Some(Mappings[i].1)
    else MappingFrom(tag, i + 1)
  }

  /** The text of the last child whose tag maps to field `f`, if any. */
  function LastTextFor(cs: seq<Child>, f: Field): Option<string>
  {
    if |cs| == 0 then None
    else if Mapping(cs[|cs| - 1].tag) == Some(f) then Some(cs[|cs| - 1].text)
    else LastTextFor(cs[..|cs| - 1], f)
  }

  /** What the child loop leaves in a field of a new coding: the text of the last child mapped to
      it, or null. */
  function ChildField(cs: seq<Child>, f: Field): Value
  {
    match LastTextFor(cs, f)
    case Some(t) => Str(t)
    case None => Null
  }

  /** `$result->xpath($tag)[0]`: the text of the first child with that tag, if any. */
  function FirstText(cs: seq<Child>, tag: string): Option<string>
  {
    if |cs| == 0 then None
    else if cs[0].tag == tag then Some(cs[0].text)
    else FirstText(cs[1..], tag)
  }

  /** `(float)` of the first child with that tag; a missing child is null, which casts to 0. */
  function Coordinate(cs: seq<Child>, tag: string): real
  {
    match FirstText(cs, tag)
    case Some(t) => FloatCast(Str(t))
    case None => FloatCast(Null)
  }

  /** `$elements`: the parts the formatted address is made of, in order, each with the separator
      that follows it. */
  const AddressElements: seq<(Part, string)> := [
    (StreetNumber, " "), (Route, " "), (Level3, ", "), (Level2, ", "), (Level1, " "),
    (PostalCode, " "), (Country, " ")
  ]

  /** What one element adds to the formatted address: its value and separator, or nothing when the
      value is one `empty()` holds for (null, '' or '0'). */
  function Piece(v: Value, separator: string): string
  {
    match v
    case Str(s) => if Truthy(v) then s + separator else ""
    case _ => ""
  }

  /** The values the getters of the seven elements return on a coding built from children `cs`. */
  function ElementValues(cs: seq<Child>): (vs: seq<Value>)
    ensures |vs| == |AddressElements|
    ensures forall i :: 0 <= i < |vs| ==> vs[i] == ChildField(cs, Full(AddressElements[i].0))
  {
    seq(|AddressElements|, i requires 0 <= i < |AddressElements| => ChildField(cs, Full(AddressElements[i].0)))
  }

  /** The formatted address after the first `n` elements have been visited, `values` being what
      their getters return. */
  function FormattedPrefix(values: seq<Value>, n: nat): string
    requires n <= |values| == |AddressElements|
  {
    if n == 0 then ""
    else FormattedPrefix(values, n - 1) + Piece(values[n - 1], AddressElements[n - 1].1)
  }

  /** The formatted address put together from a result's parts. */
  function Formatted(cs: seq<Child>): string
  {
    FormattedPrefix(ElementValues(cs), |AddressElements|)
  }

  /** Each field of the coding built from a result: the formatted address is set only when the
      concatenation is not empty. */
  function ResultField(res: YahooResult, f: Field): Value
  {
    match f
    case FormattedAddress => if Truthy(Str(Formatted(res.children))) then Str(Formatted(res.children)) else Null
    case Latitude => Float(Coordinate(res.children, "latitude"))
    case Longitude => Float(Coordinate(res.children, "longitude"))
    case _ => ChildField(res.children, f)
  }

  /** The exception converting a result throws: only its coordinates can be rejected. */
  function ResultRejection(res: YahooResult): Option<Error>
  {
    CoordinatesRejection(Float(Coordinate(res.children, "latitude")), Float(Coordinate(res.children, "longitude")))
  }

  /** The value a child leaves in a field that held `v`. */
  function AfterChild(c: Child, f: Field, v: Value): Value
  {
    if Mapping(c.tag) == Some(f) then Str(c.text) else v
  }

  /** The value the child loop leaves in a field that held `v`, the children taken in order. */
  function AfterChildren(cs: seq<Child>, f: Field, v: Value): Value
  {
    if |cs| == 0 then v else AfterChild(cs[|cs| - 1], f, AfterChildren(cs[..|cs| - 1], f, v))
  }

  /** convertToCodings: one new coding per result; the first rejected coordinate aborts the whole
      conversion. */
  method ConvertToCodings(rs: seq<YahooResult>) returns (r: Result<seq<Coding>, Error>)
    ensures r.Err? <==> FirstRejection(rs, ResultRejection).Some?
    ensures r.Err? ==> r.error == FirstRejection(rs, ResultRejection).value
    ensures r.Ok? ==> |r.value| == |rs|
    ensures r.Ok? ==> forall i :: 0 <= i < |rs| ==> fresh(r.value[i]) && r.value[i].provider == YahooProvider
    ensures r.Ok? ==> forall i, f :: 0 <= i < |rs| ==> r.value[i].Get(f) == ResultField(rs[i], f)
  {
    var codings: seq<Coding> := [];
    var i := 0;
    while i < |rs|
      invariant 0 <= i <= |rs|
      invariant FirstRejection(rs[..i], ResultRejection).None? && |codings| == i
      invariant forall j :: 0 <= j < i ==> fresh(codings[j]) && codings[j].provider == YahooProvider
      invariant forall j, f :: 0 <= j < i ==> codings[j].Get(f) == ResultField(rs[j], f)
    {
      assert rs[..i + 1][..i] == rs[..i];
      var coding, status := NewCoding(rs[i]);
      if status.Fail? {
        FirstRejectionOfPrefix(rs, ResultRejection, i + 1);
        return Err(status.error);
      }
      codings := codings + [coding];
      i := i + 1;
    }
    assert rs[..i] == rs;
    r := Ok(codings);
  }

  /** The body of the loop over results. */
  method NewCoding(res: YahooResult) returns (coding: Coding, status: Status)
    ensures fresh(coding) && coding.provider == YahooProvider
    ensures status.Fail? <==> ResultRejection(res).Some?
    ensures status.Fail? ==> status.error == ResultRejection(res).value
    ensures status.Pass? ==> forall f :: coding.Get(f) == ResultField(res, f)
  {
    coding := new Coding(YahooProvider);
    status := Fill(coding, res);
  }

  /** The setters one result calls on an empty coding, in order: the mapped children, the location,
      then the formatted address; a rejected coordinate stops them. */
  method Fill(coding: Coding, res: YahooResult) returns (status: Status)
    requires coding.table.Arr? && forall f :: coding.Get(f) == Null
    modifies coding
    ensures status.Fail? <==> ResultRejection(res).Some?
    ensures status.Fail? ==> status.error == ResultRejection(res).value
    ensures status.Pass? ==> forall f :: coding.Get(f) == ResultField(res, f)
  {
    var cs := res.children;
    FillChildren(coding, cs);
    status := SetLocation(coding, Float(Coordinate(cs, "latitude")), Float(Coordinate(cs, "longitude")));
    if status.Fail? {
      return;
    }
    AddFormattedAddress(coding, cs);
    forall f ensures coding.Get(f) == ResultField(res, f) {
      if f != FormattedAddress && f != Latitude && f != Longitude {
        assert coding.Get(f) == ChildField(cs, f);
      }
    }
  }

  /** The formatted address put together from the coding's getters, set only when it is not empty. */
  method AddFormattedAddress(coding: Coding, ghost cs: seq<Child>)
    requires coding.table.Arr? && coding.Get(FormattedAddress) == Null
    requires forall p :: coding.Get(Full(p)) == ChildField(cs, Full(p))
    modifies coding
    ensures coding.Get(FormattedAddress) == if Truthy(Str(Formatted(cs))) then Str(Formatted(cs)) else Null
    ensures forall f :: f != FormattedAddress ==> coding.Get(f) == old(coding.Get(f))
  {
    var formatted := FormatAddress(coding, ElementValues(cs));
    if Truthy(Str(formatted)) {
      var _ := coding.SetText(FormattedAddress, Str(formatted));
    }
  }

  /** The loop over a result's children: a child whose tag is in the table calls its setter with
      the child's text. */
  method FillChildren(coding: Coding, cs: seq<Child>)
    requires coding.table.Arr? && forall f :: coding.Get(f) == Null
    modifies coding
    ensures coding.table.Arr?
    ensures forall f :: coding.Get(f) == ChildField(cs, f)
    ensures forall f: Field :: !f.Full? && !f.Abbreviated? ==> coding.Get(f) == Null
  {
    var k := 0;
    while k < |cs|
      invariant 0 <= k <= |cs|
      invariant coding.table.Arr?
      invariant forall f :: coding.Get(f) == AfterChildren(cs[..k], f, old(coding.Get(f)))
    {
      assert cs[..k + 1][..k] == cs[..k];
      FillChild(coding, cs[k]);
      k := k + 1;
    }
    assert cs[..k] == cs;
    forall f
      ensures coding.Get(f) == ChildField(cs, f)
      ensures !f.Full? && !f.Abbreviated? ==> coding.Get(f) == Null
    {
      ChildrenFillLastFor(cs, f, Null);
    }
  }

  /** One child of a result. */
  method FillChild(coding: Coding, node: Child)
    requires coding.table.Arr?
    modifies coding
    ensures coding.table.Arr?
    ensures forall f :: coding.Get(f) == AfterChild(node, f, old(coding.Get(f)))
  {
    var field := Mapping(node.tag);
    if field.Some? {
      MappedFieldIsAddressPart(node.tag);
      var _ := coding.SetText(field.value, Str(node.text));
    }
  }

  /** The loop over `$elements`, reading the coding's getters. */
  method FormatAddress(coding: Coding, ghost values: seq<Value>) returns (formatted: string)
    requires |values| == |AddressElements|
    requires forall i :: 0 <= i < |values| ==> values[i].Str? || values[i].Null?
    requires forall i :: 0 <= i < |values| ==> coding.Get(Full(AddressElements[i].0)) == values[i]
    ensures formatted == FormattedPrefix(values, |values|)
  {
    formatted := "";
    var i := 0;
    while i < |AddressElements|
      invariant 0 <= i <= |AddressElements|
      invariant formatted == FormattedPrefix(values, i)
    {
      var (part, separator) := AddressElements[i];
      var value := coding.Get(Full(part));
      assert value == values[i];
      if Truthy(value) {
        formatted := formatted + (value.s + separator);
      }
      i := i + 1;
    }
  }

  // ---------------------------------------------------------------------------------------------
  // Properties of the mapping and of the formatted address

  /** Every tag in the table names a setter of an address part: the coordinates and the formatted
      address are never set by the child loop. */
  lemma {:induction false} MappedFieldIsAddressPart(tag: string)
    ensures Mapping(tag).Some? ==> Mapping(tag).value.Full? || Mapping(tag).value.Abbreviated?
  {
    var i := |Mappings|;
    while i > 0
      invariant 0 <= i <= |Mappings|
      invariant MappingFrom(tag, i).Some? ==> MappingFrom(tag, i).value.Full? || MappingFrom(tag, i).value.Abbreviated?
    {
      i := i - 1;
    }
  }

  /** Only the `level…code` tags fill abbreviated fields; `unit` fills the post box, `neighborhood`
      the locality and `level0` the country. */
  lemma AbbreviationsComeFromCodes(tag: string, p: Part)
    ensures Mapping(tag) == Some(Abbreviated(p)) ==>
      tag in ["level0code", "level1code", "level2code", "level3code"]
    ensures Mapping("unit") == Some(Full(PostBox)) && Mapping("neighborhood") == Some(Full(Locality))
    ensures Mapping("level0") == Some(Full(Country))
  {
    var i := |Mappings|;
    while i > 0
      invariant 0 <= i <= |Mappings|
      invariant MappingFrom(tag, i) == Some(Abbreviated(p)) ==>
        tag in ["level0code", "level1code", "level2code", "level3code"]
    {
      i := i - 1;
    }
  }

  /** The child loop fills the fields as the declarative reading says: a field takes the text of
      the last child mapped to it and otherwise keeps its value. */
  lemma {:induction false} ChildrenFillLastFor(cs: seq<Child>, f: Field, v: Value)
    ensures AfterChildren(cs, f, v) == (match LastTextFor(cs, f) case Some(t) => Str(t) case None => v)
    ensures !f.Full? && !f.Abbreviated? ==> AfterChildren(cs, f, v) == v
  {
    if |cs| != 0 {
      ChildrenFillLastFor(cs[..|cs| - 1], f, v);
      MappedFieldIsAddressPart(cs[|cs| - 1].tag);
    }
  }

  /** Every separator of the formatted address ends with a space. */
  lemma SeparatorEndsInSpace(i: nat)
    requires i < |AddressElements|
    ensures AddressElements[i].1 != "" && AddressElements[i].1[|AddressElements[i].1| - 1] == ' '
  {
  }

  /** An included value brings its separator last. */
  lemma PieceEndsWithSeparator(v: Value, separator: string)
    requires separator != ""
    ensures Piece(v, separator) != "" ==> Piece(v, separator)[|Piece(v, separator)| - 1] == separator[|separator| - 1]
  {
    if Piece(v, separator) != "" {
      var s := v.s;
      assert Piece(v, separator) == s + separator;
    }
  }

  /** A separator follows every value that is included, so a non-empty formatted address ends with
      a separator's space and is never the string '0'. */
  lemma {:induction false} FormattedEndsWithSeparator(values: seq<Value>, n: nat)
    requires n <= |values| == |AddressElements|
    ensures FormattedPrefix(values, n) != "" ==> FormattedPrefix(values, n)[|FormattedPrefix(values, n)| - 1] == ' '
    ensures Truthy(Str(FormattedPrefix(values, n))) <==> FormattedPrefix(values, n) != ""
  {
    if n != 0 {
      FormattedEndsWithSeparator(values, n - 1);
      var before := FormattedPrefix(values, n - 1);
      var separator := AddressElements[n - 1].1;
      var piece := Piece(values[n - 1], separator);
      assert FormattedPrefix(values, n) == before + piece;
      if piece == "" {
        assert before + piece == before;
      } else {
        SeparatorEndsInSpace(n - 1);
        PieceEndsWithSeparator(values[n - 1], separator);
        assert (before + piece)[|before + piece| - 1] == piece[|piece| - 1] == ' ';
      }
    }
  }

  /** The formatted address is left null exactly when the getters of all seven contributing parts
      return values `empty()` holds for. */
  lemma {:induction false} FormattedEmptyExactly(values: seq<Value>, n: nat)
    requires n <= |values| == |AddressElements|
    requires forall i :: 0 <= i < |values| ==> values[i].Str? || values[i].Null?
    ensures FormattedPrefix(values, n) == "" <==> forall i :: 0 <= i < n ==> !Truthy(values[i])
  {
    if n != 0 {
      FormattedEmptyExactly(values, n - 1);
    }
  }
}
