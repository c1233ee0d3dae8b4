/** GIS_OpenLayers_Object: what every OpenLayers object has, its implementation class, the attributes
    handed to the Javascript constructor, and the Javascript variable that holds it; and the static
    checks for latitudes, longitudes and console log calls. */
module OpenLayersObject {
  import opened Wrappers
  import opened Php
  import opened Errors
  import Coding

  /** One attribute of the Javascript object: a value to encode as JSON (`set`), Javascript code
      written out as is (`setLiteral`), or one of the two literals the layers and controls build
      from values: `new OpenLayers.Size(w,h)`, and `$("id")` for an id that is a number or true
      (a string id is written out as code). Javascript_Object itself is not part of this model;
      the attributes are the map it holds. */
  datatype Attr =
    | Val(v: Value)
    | Literal(code: string)
    | Size(width: Value, height: Value)
    | Element(id: Value)

  /** `$attributes->get($key)` for a plain value; an attribute never set reads as null. */
  function AttrValue(attributes: map<string, Attr>, key: string): Value
  {
    if key in attributes && attributes[key].Val? then attributes[key].v else Null
  }

  /** The attributes a constructor receives, each a plain value. */
  function Plain(attributes: map<string, Value>): (r: map<string, Attr>)
    ensures r.Keys == attributes.Keys
    ensures forall k :: k in r ==> r[k] == Val(attributes[k])
  {
    map k | k in attributes :: Val(attributes[k])
  }

  /** isLatitude: a number within the Web-Mercator latitude limit, inclusive. */
  predicate IsLatitude(v: Value)
  {
    IsNumeric(v) && -85.0511 <= FloatCast(v) && FloatCast(v) <= 85.0511
  }

  /** isLongitude: a number within [-180, 180]. */
  predicate IsLongitude(v: Value)
  {
    IsNumeric(v) && -180.0 <= FloatCast(v) && FloatCast(v) <= 180.0
  }

  /** A map accepts exactly the latitudes and longitudes a geocoded coding stores. */
  lemma CoordinatesAgreeWithCoding(v: Value)
    ensures IsLatitude(v) <==> Coding.AcceptsLatitude(v)
    ensures IsLongitude(v) <==> Coding.AcceptsLongitude(v)
    ensures IsLatitude(v) ==> IsNumeric(v) && -85.0511 <= NumericValue(v) <= 85.0511
    ensures IsLongitude(v) ==> IsNumeric(v) && -180.0 <= NumericValue(v) <= 180.0
  {
  }

  const ImplementationMessage: string := "Object implementation must be non-empty string"

  class OLObject {
    /** The class under `OpenLayers.` that implements the object, trimmed. */
    const implementation: string
    var attributes: map<string, Attr>
    var jsVariable: string

    /** The constructor once the implementation is checked; `uniqid($prefix)` is the prefix
        followed by `unique`. */
    constructor (prefix: string, implementation: string, attributes: map<string, Value>, unique: string)
      requires TrimmedNonEmpty(Str(implementation)) == Some(implementation)
      ensures this.implementation == implementation && this.attributes == Plain(attributes)
      ensures jsVariable == prefix + unique
    {
      this.implementation := implementation;
      this.attributes := Plain(attributes);
      jsVariable := prefix + unique;
    }

    /** setJavascriptVariable: a string that is not blank is stored trimmed. */
    method SetJavascriptVariable(v: Value) returns (r: Status)
      modifies this
      ensures r.Pass? <==> TrimmedNonEmpty(v).Some?
      ensures r.Fail? ==> r.error == InvalidArgument("First parameter (jsVariable) must be non-empty string")
      ensures jsVariable == if r.Pass? then TrimmedNonEmpty(v).value else old(jsVariable)
      ensures attributes == old(attributes)
    {
      var name := TrimmedNonEmpty(v);
      if name.Some? {
        jsVariable := name.value;
        r := Pass;
      } else {
        r := Fail(InvalidArgument("First parameter (jsVariable) must be non-empty string"));
      }
    }

    /** `$attributes->set($key, $v)` */
    method Set(key: string, v: Value)
      modifies this
      ensures attributes == old(attributes)[key := Val(v)]
      ensures jsVariable == old(jsVariable)
    {
      attributes := attributes[key := Val(v)];
    }

    /** `$attributes->setLiteral($key, $code)` and the built literals. */
    method SetLiteral(key: string, a: Attr)
      requires !a.Val?
      modifies this
      ensures attributes == old(attributes)[key := a]
      ensures jsVariable == old(jsVariable)
    {
      attributes := attributes[key := a];
    }
  }

  /** The constructor: the implementation must be a string that is not blank, and is kept trimmed. */
  method NewObject(prefix: string, implementation: Value, attributes: map<string, Value>, unique: string)
    returns (r: Result<OLObject, Error>)
    ensures r.Err? <==> TrimmedNonEmpty(implementation).None?
    ensures r.Err? ==> r.error == InvalidArgument(ImplementationMessage)
    ensures r.Ok? ==> fresh(r.value) && r.value.implementation == Trim(implementation.s)
    ensures r.Ok? ==> r.value.attributes == Plain(attributes) && r.value.jsVariable == prefix + unique
  {
    var name := TrimmedNonEmpty(implementation);
    if name.None? {
      return Err(InvalidArgument(ImplementationMessage));
    }
    TrimTwice(implementation.s);
    var o := new OLObject(prefix, name.value, attributes, unique);
    r := Ok(o);
  }

  /** trim is idempotent, so a trimmed implementation passes the constructor's check again. */
  lemma TrimTwice(s: string)
    requires TrimmedNonEmpty(Str(s)).Some?
    ensures TrimmedNonEmpty(Str(Trim(s))) == Some(Trim(s))
  {
    var t := Trim(s);
    assert t != [] && !IsTrimmed(t[0]) && !IsTrimmed(t[|t| - 1]);
    TrimKeeps(t);
  }

  /** A name that neither starts nor ends with blank passes the check unchanged. */
  lemma TrimKeeps(s: string)
    requires s != [] && !IsTrimmed(s[0]) && !IsTrimmed(s[|s| - 1])
    ensures TrimmedNonEmpty(Str(s)) == Some(s)
  {
    assert SkipTrimmed(s, 0) == 0;
    assert BackTrimmed(s, 0, |s|) == |s|;
    assert Trim(s) == s;
  }

  // ---------------------------------------------------------------------------------------------
  // log

  /** The console methods `log` may call. */
  const LogMethods: seq<string> := ["log", "debug", "info", "warn", "error"]

  const LogMessage: string :=
    "First parameter (message) must be a string; second parameter must be one of log,debug,info,warn,error"

  /** The check `log($message, $method)` makes before writing the call out: a string message, and a
      method found by `in_array`, which compares loosely. */
  function LogRejection(message: Value, consoleMethod: Value): Option<Error>
  {
    if message.Str? && InList(consoleMethod, LogMethods) then None else Some(InvalidArgument(LogMessage))
  }

  /** Every method name of the list passes with a string message, and nothing passes without one. */
  lemma LogAcceptsNames(message: Value, i: nat)
    requires i < |LogMethods|
    ensures LogRejection(message, Str(LogMethods[i])).None? <==> message.Str?
  {
    assert LooselyEqualsString(Str(LogMethods[i]), LogMethods[i]);
  }

  /** As written, the loose comparison also lets through values that are no method name: the integer
      0 equals any non-numeric string, and true equals any non-empty one. */
  lemma LogAcceptsNonNames()
    ensures LogRejection(Str("m"), Int(0)).None?
    ensures LogRejection(Str("m"), Bool(true)).None?
  {
    assert LooselyEqualsString(Int(0), LogMethods[0]);
    assert LooselyEqualsString(Bool(true), LogMethods[0]);
  }

  /** The check as the message states it: the method must be one of the five names. */
  function StrictLogRejection(message: Value, consoleMethod: Value): (r: Option<Error>)
    ensures r.None? <==> message.Str? && consoleMethod.Str? && consoleMethod.s in LogMethods
  {
    if message.Str? && consoleMethod.Str? && consoleMethod.s in LogMethods then None else Some(InvalidArgument(LogMessage))
  }

  /** The strict check accepts no more than the loose one: it only drops the values that are not
      names. */
  lemma StrictLogRejectionRefinesLoose(message: Value, consoleMethod: Value)
    ensures StrictLogRejection(message, consoleMethod).None? ==> LogRejection(message, consoleMethod).None?
    ensures StrictLogRejection(Str("m"), Int(0)).Some? && StrictLogRejection(Str("m"), Bool(true)).Some?
  {
    if StrictLogRejection(message, consoleMethod).None? {
      var i :| 0 <= i < |LogMethods| && LogMethods[i] == consoleMethod.s;
      assert LooselyEqualsString(consoleMethod, LogMethods[i]);
    }
  }
}
