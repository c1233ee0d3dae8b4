/** GIS_OpenLayers_Map_Control: a map control, which may be rendered in a div of the page and may be
    activated once the page has loaded. The map back-reference of GIS_OpenLayers_Map_Element is
    used only when painting and is not part of this model. */
module OpenLayersControl {
  import opened Wrappers
  import opened Php
  import opened Errors
  import opened OpenLayersObject

  const DivAttributeMessage: string := "Call renderIn() instead of passing \"div\" as an attribute"

  const RenderInMessage: string := "Must give scalar, non-empty <div> ID to render control in"

  /** The window-load observer the control is wrapped in when it is rendered in a div. */
  const LoadHeader: string := "OpenLayers.Event.observe(window, \"load\", function () {"

  const LoadFooter: string := "});"

  class Control {
    const obj: OLObject
    /** `$inDivID`: the div the control is rendered in, as given. */
    var inDivID: Option<Value>
    /** `$activate` */
    var activated: bool

    constructor (obj: OLObject)
      ensures this.obj == obj && inDivID == None && !activated
    {
      this.obj := obj;
      inDivID := None;
      activated := false;
    }

    /** renderIn: a non-empty scalar is recorded and becomes the `div` literal `$("id")`, written
        out as ElementCode for a string id; a number or true prints with no quote or backslash to
        escape, and its printed form stays abstract. */
    method RenderIn(divID: Value) returns (r: Status)
      modifies this, obj
      ensures r.Pass? <==> IsNonEmptyScalar(divID)
      ensures r.Fail? ==> r.error == InvalidArgument(RenderInMessage)
      ensures r.Pass? && divID.Str? ==> inDivID == Some(divID) && obj.attributes == old(obj.attributes)["div" := Literal(ElementCode(divID.s))]
      ensures r.Pass? && !divID.Str? ==> inDivID == Some(divID) && obj.attributes == old(obj.attributes)["div" := Element(divID)]
      ensures r.Fail? ==> inDivID == old(inDivID) && obj.attributes == old(obj.attributes)
      ensures activated == old(activated) && obj.jsVariable == old(obj.jsVariable)
    {
      if IsNonEmptyScalar(divID) {
        inDivID := Some(divID);
        if divID.Str? {
          obj.SetLiteral("div", Literal(ElementCode(divID.s)));
        } else {
          obj.SetLiteral("div", Element(divID));
        }
        r := Pass;
      } else {
        r := Fail(InvalidArgument(RenderInMessage));
      }
    }

    /** activate: sets the flag, whatever it was. */
    method Activate()
      modifies this
      ensures activated && inDivID == old(inDivID)
    {
      activated := true;
    }

    /** getOnLoadWrappers: the header and footer around the control's creation. */
    function OnLoadWrappers(): (w: (string, string))
      reads this
      ensures w == ("", "") <==> inDivID.None?
      ensures inDivID.Some? ==> w == (LoadHeader, LoadFooter)
    {
      if inDivID.Some? then (LoadHeader, LoadFooter) else ("", "")
    }

    /** getActivation: the deferred `activate()` call, for an activated control only. */
    function Activation(): (a: string)
      reads this, obj
      ensures a == "" <==> !activated
      ensures activated ==> a == "OpenLayers.Event.observe(window, 'load', function () { " + obj.jsVariable + ".activate(); });"
    {
      if activated then "OpenLayers.Event.observe(window, 'load', function () { " + obj.jsVariable + ".activate(); });"
      else ""
    }
  }

  /** The constructor: a `div` attribute is refused before the object is built. */
  method NewControl(implementation: Value, attributes: map<string, Value>, unique: string)
    returns (r: Result<Control, Error>)
    ensures "div" in attributes ==> r == Err(InvalidArgument(DivAttributeMessage))
    ensures "div" !in attributes ==> (r.Err? <==> TrimmedNonEmpty(implementation).None?)
    ensures "div" !in attributes && r.Err? ==> r.error == InvalidArgument(ImplementationMessage)
    ensures r.Ok? ==> fresh(r.value) && fresh(r.value.obj) && r.value.inDivID.None? && !r.value.activated
    ensures r.Ok? ==> "div" !in r.value.obj.attributes && r.value.obj.jsVariable == "control" + unique
  {
    if "div" in attributes {
      return Err(InvalidArgument(DivAttributeMessage));
    }
    var o := NewObject("control", implementation, attributes, unique);
    if o.Err? {
      return Err(o.error);
    }
    var c := new Control(o.value);
    r := Ok(c);
  }

  // ---------------------------------------------------------------------------------------------
  // The div literal

  /** `addcslashes($id, '"')`: a backslash before every double quote. */
  function EscapeQuotes(s: string): string
  {
    if s == [] then [] else (if s[0] == '"' then ['\\', '"'] else [s[0]]) + EscapeQuotes(s[1..])
  }

  /** `sprintf('$("%s")', addcslashes($id, '"'))` for a string id. */
  function ElementCode(id: string): string
  {
    "$(\"" + EscapeQuotes(id) + "\")"
  }

  /** The text a Javascript double-quoted string body denotes, when the body stands alone and uses
      only the escapes `\\` and `\"`: None when an unescaped quote would end the string early, when
      a backslash is left at the end, or when a backslash starts another escape. */
  function Unescape(t: string): Option<string>
  {
    if t == [] then Some([])
    else if t[0] == '"' then None
    else if t[0] == '\\' then
      if |t| >= 2 && (t[1] == '\\' || t[1] == '"') then
        match Unescape(t[2..])
        case Some(u) => Some([t[1]] + u)
        case None => None
      else None
    else
      match Unescape(t[1..])
      case Some(u) => Some([t[0]] + u)
      case None => None
  }

  /** As written, a div id holding a backslash does not survive: `a\` leaves a backslash that
      escapes the closing quote, and `\"` leaves a quote that ends the string. */
  lemma BackslashBreaksLiteral()
    ensures Unescape(EscapeQuotes("a\\")) == None
    ensures Unescape(EscapeQuotes("\\\"")) == None
  {
    assert EscapeQuotes("a\\") == "a\\";
    assert Unescape("\\") == None;
    assert EscapeQuotes("\\\"") == "\\\\\"";
    assert Unescape("\"") == None;
  }

  /** `addcslashes($id, '"\\')`: a backslash before every double quote and every backslash. */
  function EscapeQuotesAndBackslashes(s: string): string
  {
    if s == [] then []
    else (if s[0] == '"' || s[0] == '\\' then ['\\', s[0]] else [s[0]]) + EscapeQuotesAndBackslashes(s[1..])
  }

  /** `$("id")` with the id escaped so that the Javascript string denotes it. */
  function SafeElementCode(id: string): string
  {
    "$(\"" + EscapeQuotesAndBackslashes(id) + "\")"
  }

  /** With backslashes escaped too, every id comes back from the Javascript string unchanged. */
  lemma {:induction false} EscapedRoundTrip(s: string)
    ensures Unescape(EscapeQuotesAndBackslashes(s)) == Some(s)
  {
    if s != [] {
      EscapedRoundTrip(s[1..]);
      var rest := EscapeQuotesAndBackslashes(s[1..]);
      if s[0] == '"' || s[0] == '\\' {
        var t := ['\\', s[0]] + rest;
        assert t[2..] == rest;
      } else {
        var t := [s[0]] + rest;
        assert t[1..] == rest;
      }
      assert [s[0]] + s[1..] == s;
    }
  }

  /** For ids without a backslash the two escapings agree, so the code as written is right for them. */
  lemma {:induction false} EscapingAgreesWithoutBackslash(s: string)
    requires forall k :: 0 <= k < |s| ==> s[k] != '\\'
    ensures EscapeQuotes(s) == EscapeQuotesAndBackslashes(s)
    ensures ElementCode(s) == SafeElementCode(s)
    ensures Unescape(EscapeQuotes(s)) == Some(s)
  {
    if s != [] {
      EscapingAgreesWithoutBackslash(s[1..]);
    }
    EscapedRoundTrip(s);
  }
}
