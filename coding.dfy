/** The normalised geocoding record (GIS_Geocode_Coding_Abstract): a table of 25 optional fields,
    every one null until a guarded setter stores a value in it. */
module Coding {
  import opened Wrappers
  import opened Php
  import opened Errors

  /** The parts of an address; each has a full and an abbreviated field. */
  datatype Part =
    | StreetNumber | PostBox | Floor | Room | Route | Locality
    | Level1 | Level2 | Level3 | Country | PostalCode

  /** The 25 fields of a coding. */
  datatype Field = Full(part: Part) | Abbreviated(part: Part) | FormattedAddress | Latitude | Longitude
  {
    /** The 23 fields whose setter takes a string. */
    predicate IsText()
    {
      !Latitude? && !Longitude?
    }
  }

  function PartName(p: Part): string
  {
    match p
    case StreetNumber => "streetNumber"
    case PostBox => "postBox"
    case Floor => "floor"
    case Room => "room"
    case Route => "route"
    case Locality => "locality"
    case Level1 => "level1"
    case Level2 => "level2"
    case Level3 => "level3"
    case Country => "country"
    case PostalCode => "postalCode"
  }

  /** The key under which the table stores a field; it also names the field in a rejected setter's exception. */
  function KeyName(f: Field): string
  {
    match f
    case Full(p) => PartName(p)
    case Abbreviated(p) => PartName(p) + "Abbreviated"
    case FormattedAddress => "formattedAddress"
    case Latitude => "latitude"
    case Longitude => "longitude"
  }

  /** Every field has a key of its own, so writing one field never touches another. */
  lemma KeyNameInjective(f: Field, g: Field)
    requires KeyName(f) == KeyName(g)
    ensures f == g
  {
    // Keys of equal length already differ in their first, second or sixth character.
    var k := KeyName(f);
    assert |k| == |KeyName(g)| && k[0] == KeyName(g)[0] && k[1] == KeyName(g)[1];
    if |k| > 5 {
      assert k[5] == KeyName(g)[5];
    }
  }

  /** The fields in the order of the default table. */
  const AllFields: seq<Field> := [
    Full(StreetNumber), Full(PostBox), Full(Floor), Full(Room), Full(Route), Full(Locality),
    Full(Level1), Full(Level2), Full(Level3), Full(Country), Full(PostalCode),
    Abbreviated(StreetNumber), Abbreviated(PostBox), Abbreviated(Floor), Abbreviated(Room),
    Abbreviated(Route), Abbreviated(Locality), Abbreviated(Level1), Abbreviated(Level2),
    Abbreviated(Level3), Abbreviated(Country), Abbreviated(PostalCode),
    FormattedAddress, Latitude, Longitude
  ]

  function PartPosition(p: Part): nat
  {
    match p
    case StreetNumber => 0 case PostBox => 1 case Floor => 2 case Room => 3
    case Route => 4 case Locality => 5 case Level1 => 6 case Level2 => 7 case Level3 => 8
    case Country => 9 case PostalCode => 10
  }

  /** Where a field stands in AllFields. */
  function Position(f: Field): (i: nat)
    ensures i < |AllFields| && AllFields[i] == f
  {
    match f
    case Full(p) => PartPosition(p)
    case Abbreviated(p) => 11 + PartPosition(p)
    case FormattedAddress => 22
    case Latitude => 23
    case Longitude => 24
  }

  /** One null entry per field, in order. */
  function NullEntries(fs: seq<Field>): (es: seq<(Key, Value)>)
    ensures |es| == |fs|
    ensures forall i :: 0 <= i < |fs| ==> es[i] == (StrKey(KeyName(fs[i])), Null)
  {
    seq(|fs|, i requires 0 <= i < |fs| => (StrKey(KeyName(fs[i])), Null))
  }

  /** The table a new coding starts with: every key present, every value null. */
  const DefaultTable: Value := Arr(NullEntries(AllFields))

  /** The first character of a non-negative integer's decimal digits. */
  function LeadingDigit(n: nat): (c: char)
    ensures '0' <= c <= '9'
  {
    if n < 10 then "0123456789"[n] else LeadingDigit(n / 10)
  }

  /** The character PHP 5 writes into a string offset: the first character of the value's string
      form, or NUL when that form is empty. Only strings and floats are ever written into a coding;
      a float prints as a minus sign or as the leading digit of its integer part. */
  function OffsetChar(v: Value): char
    requires v.Str? || v.Float?
  {
    if v.Str? then (if v.s == "" then '\0' else v.s[0])
    else if v.r < 0.0 then '-'
    else LeadingDigit(v.r.Floor)
  }

  /** A non-empty string as the table, as a failed unserialize can leave it: PHP 5 reads and writes
      every key of it at offset 0, with an "Illegal string offset" warning. */
  predicate IsStringTable(t: Value)
  {
    t.Str? && t.s != ""
  }

  /** `$this->coding[$key]` read for a field: the stored value, or null when the key is missing; a
      string table gives its first character ("" when it is empty), and any other table null. */
  function Read(t: Value, f: Field): Value
  {
    if t.Arr? then
      match Lookup(t.entries, StrKey(KeyName(f)))
      case Some(v) => v
      case None => Null
    else if t.Str? then Str(FirstCharacter(t.s))
    else Null
  }

  /** Whether `$this->coding[$key] = $v` can store into the table: an array, or one of the empty
      values (null, false, '') that PHP 5 turns into a fresh array. */
  predicate Writable(t: Value)
  {
    t.Arr? || t == Null || t == Bool(false) || t == Str("")
  }

  /** `$this->coding[$key] = $v` for the string or float a setter stores: in an array the one field
      takes the value and every other field keeps its own; in a non-empty string the first
      character is overwritten, so every field then reads that character; any other table (true, a
      number, an object) is left as it is. */
  function Write(t: Value, f: Field, v: Value): (r: Value)
    requires v.Str? || v.Float?
    ensures Writable(t) ==> r.Arr? && Read(r, f) == v
    ensures t.Arr? ==> forall g :: g != f ==> Read(r, g) == Read(t, g)
    ensures Writable(t) && !t.Arr? ==> forall g :: g != f ==> Read(r, g) == Null
    ensures IsStringTable(t) ==> r.Str? && |r.s| == |t.s| && r.s[1..] == t.s[1..]
    ensures IsStringTable(t) ==> forall g :: Read(r, g) == Str([OffsetChar(v)])
    ensures !Writable(t) && !IsStringTable(t) ==> r == t
  {
    var k := StrKey(KeyName(f));
    if t.Arr? then
      var r := Arr(Assign(t.entries, k, v));
      assert forall g :: g != f ==> Read(r, g) == Read(t, g) by {
        forall g | g != f ensures Read(r, g) == Read(t, g) {
          if KeyName(g) == KeyName(f) { KeyNameInjective(g, f); }
        }
      }
      r
    else if Writable(t) then
      var r := Arr([(k, v)]);
      assert forall g :: g != f ==> Read(r, g) == Null by {
        forall g | g != f ensures Read(r, g) == Null {
          if KeyName(g) == KeyName(f) { KeyNameInjective(g, f); }
        }
      }
      r
    else if IsStringTable(t) then
      Str([OffsetChar(v)] + t.s[1..])
    else t
  }

  /** After a failed unserialize left "abc" as the table, setStreetNumber("x") makes it "xbc", and
      the street number and the country alike then read "x". */
  lemma StringTableSharesOffsetZero()
    ensures Write(Str("abc"), Full(StreetNumber), Str("x")) == Str("xbc")
    ensures Read(Str("xbc"), Full(StreetNumber)) == Str("x") && Read(Str("xbc"), Full(Country)) == Str("x")
  {
    assert [OffsetChar(Str("x"))] + "abc"[1..] == "xbc";
  }

  /** The test of every text setter: a string is stored, anything else is rejected with the field's
      name and the rejected value. */
  function WithText(t: Value, f: Field, v: Value): Attempt<Value>
    requires f.IsText()
  {
    if v.Str? then Ok(Write(t, f, v)) else Err(CodingInvalidArgument(KeyName(f), v))
  }

  /** The Web-Mercator latitude limit. */
  const LatitudeLimit: real := 85.0511

  const LongitudeLimit: real := 180.0

  /** The test of setLatitude. */
  predicate AcceptsLatitude(v: Value)
  {
    IsNumeric(v) && -LatitudeLimit <= FloatCast(v) && FloatCast(v) <= LatitudeLimit
  }

  /** The test of setLongitude. */
  predicate AcceptsLongitude(v: Value)
  {
    IsNumeric(v) && -LongitudeLimit <= FloatCast(v) && FloatCast(v) <= LongitudeLimit
  }

  /** setLatitude: a number within the limit is stored as a float. */
  function WithLatitude(t: Value, v: Value): Attempt<Value>
  {
    if AcceptsLatitude(v) then Ok(Write(t, Latitude, Float(FloatCast(v))))
    else Err(CodingInvalidArgument("latitude", v))
  }

  /** setLongitude: a number within the limit is stored as a float. */
  function WithLongitude(t: Value, v: Value): Attempt<Value>
  {
    if AcceptsLongitude(v) then Ok(Write(t, Longitude, Float(FloatCast(v))))
    else Err(CodingInvalidArgument("longitude", v))
  }

  /** The exception `setLatitude($lat)` followed by `setLongitude($lng)` throws, if any: the latitude
      is checked first. */
  function CoordinatesRejection(lat: Value, lng: Value): (r: Option<Error>)
    ensures r.None? <==> AcceptsLatitude(lat) && AcceptsLongitude(lng)
  {
    if !AcceptsLatitude(lat) then Some(CodingInvalidArgument("latitude", lat))
    else if !AcceptsLongitude(lng) then Some(CodingInvalidArgument("longitude", lng))
    else None
  }

  /** What PHP's serialize produces, as far as the model needs it: a payload that unserialize turns
      back into the value it came from, or text that does not decode. */
  datatype Blob = Encoded(payload: Value) | Corrupt(text: string)

  /** unserialize: the encoded value, or false for text that does not decode. */
  function Decode(b: Blob): Value
  {
    match b
    case Encoded(v) => v
    case Corrupt(_) => Bool(false)
  }

  /** The concrete class that built the coding (GIS_Geocode_Coding_Google, _Yahoo, _Caching). */
  datatype Provider = GoogleProvider | YahooProvider | CachingProvider

  class Coding {
    const provider: Provider

    /** `$coding`: the field table. */
    var table: Value

    constructor (provider: Provider)
      ensures this.provider == provider
      ensures table == DefaultTable
      ensures forall f :: Get(f) == Null
    {
      this.provider := provider;
      table := DefaultTable;
      forall f {
        DefaultTableIsEmpty(f);
      }
    }

    /** The getters: `getStreetNumber()` is `Get(Full(StreetNumber))`, and so on. */
    function Get(f: Field): Value
      reads this
    {
      Read(table, f)
    }

    /** The 23 text setters (`setStreetNumber` … `setPostalCodeAbbreviated`, `setFormattedAddress`). */
    method SetText(f: Field, v: Value) returns (r: Status)
      requires f.IsText()
      modifies this
      ensures r == if v.Str? then Pass else Fail(CodingInvalidArgument(KeyName(f), v))
      ensures table == if v.Str? then Write(old(table), f, v) else old(table)
      ensures Writable(old(table)) && v.Str? ==> table.Arr? && Get(f) == v
      ensures old(table).Arr? ==> forall g :: g != f ==> Get(g) == old(Get(g))
      ensures Writable(old(table)) && !old(table).Arr? && v.Str? ==> forall g :: g != f ==> Get(g) == Null
      ensures IsStringTable(old(table)) && v.Str? ==> forall g :: Get(g) == Str([OffsetChar(v)])
    {
      if v.Str? {
        table := Write(table, f, v);
        r := Pass;
      } else {
        r := Fail(CodingInvalidArgument(KeyName(f), v));
      }
    }

    method SetLatitude(v: Value) returns (r: Status)
      modifies this
      ensures r == if AcceptsLatitude(v) then Pass else Fail(CodingInvalidArgument("latitude", v))
      ensures table == if AcceptsLatitude(v) then Write(old(table), Latitude, Float(FloatCast(v))) else old(table)
      ensures Writable(old(table)) && AcceptsLatitude(v) ==> table.Arr? && Get(Latitude) == Float(FloatCast(v))
      ensures old(table).Arr? ==> forall g :: g != Latitude ==> Get(g) == old(Get(g))
      ensures Writable(old(table)) && !old(table).Arr? && AcceptsLatitude(v) ==> forall g :: g != Latitude ==> Get(g) == Null
      ensures IsStringTable(old(table)) && AcceptsLatitude(v) ==> forall g :: Get(g) == Str([OffsetChar(Float(FloatCast(v)))])
    {
      if AcceptsLatitude(v) {
        table := Write(table, Latitude, Float(FloatCast(v)));
        r := Pass;
      } else {
        r := Fail(CodingInvalidArgument("latitude", v));
      }
    }

    method SetLongitude(v: Value) returns (r: Status)
      modifies this
      ensures r == if AcceptsLongitude(v) then Pass else Fail(CodingInvalidArgument("longitude", v))
      ensures table == if AcceptsLongitude(v) then Write(old(table), Longitude, Float(FloatCast(v))) else old(table)
      ensures Writable(old(table)) && AcceptsLongitude(v) ==> table.Arr? && Get(Longitude) == Float(FloatCast(v))
      ensures old(table).Arr? ==> forall g :: g != Longitude ==> Get(g) == old(Get(g))
      ensures Writable(old(table)) && !old(table).Arr? && AcceptsLongitude(v) ==> forall g :: g != Longitude ==> Get(g) == Null
      ensures IsStringTable(old(table)) && AcceptsLongitude(v) ==> forall g :: Get(g) == Str([OffsetChar(Float(FloatCast(v)))])
    {
      if AcceptsLongitude(v) {
        table := Write(table, Longitude, Float(FloatCast(v)));
        r := Pass;
      } else {
        r := Fail(CodingInvalidArgument("longitude", v));
      }
    }

    /** serialize: the whole table, null fields included, in a form unserialize restores. */
    function Serialize(): (b: Blob)
      reads this
      ensures Decode(b) == table
    {
      Encoded(table)
    }

    /** unserialize: the decoded value replaces the table first, and only then is it checked to be an array. */
    method Unserialize(b: Blob) returns (r: Status)
      modifies this
      ensures table == Decode(b)
      ensures r == if Decode(b).Arr? then Pass else Fail(UnserializeFailed)
    {
      table := Decode(b);
      if table.Arr? {
        r := Pass;
      } else {
        r := Fail(UnserializeFailed);
      }
    }
  }

  // ---------------------------------------------------------------------------------------------
  // Properties of the record

  /** Every getter of a new coding returns null, and the table holds exactly the 25 keys. */
  lemma DefaultTableIsEmpty(f: Field)
    ensures Read(DefaultTable, f) == Null
    ensures Lookup(DefaultTable.entries, StrKey(KeyName(f))) == Some(Null)
  {
    var es := DefaultTable.entries;
    var k := StrKey(KeyName(f));
    assert es[Position(f)].0 == k;
    var r := Lookup(es, k);
    assert r.Some?;
    var j :| 0 <= j < |es| && es[j] == (k, r.value);
  }

  /** A text setter given a string stores exactly that string under its own key and leaves the other
      24 fields as they were; given anything else it changes nothing and names the field and value. */
  lemma TextSetterWritesOnlyItsField(t: Value, f: Field, v: Value, g: Field)
    requires t.Arr? && f.IsText()
    ensures v.Str? ==> WithText(t, f, v).Ok? && Read(WithText(t, f, v).value, f) == v
    ensures v.Str? && g != f ==> Read(WithText(t, f, v).value, g) == Read(t, g)
    ensures !v.Str? ==> WithText(t, f, v) == Err(CodingInvalidArgument(KeyName(f), v))
  {
  }

  /** setLatitude accepts a number exactly when it lies in [-85.0511, 85.0511], and stores it as a float. */
  lemma LatitudeAcceptedExactly(t: Value, v: Value)
    requires t.Arr? && IsNumeric(v)
    ensures WithLatitude(t, v).Ok? <==> -85.0511 <= NumericValue(v) <= 85.0511
    ensures WithLatitude(t, v).Ok? ==> Read(WithLatitude(t, v).value, Latitude) == Float(NumericValue(v))
    ensures WithLatitude(t, v).Err? ==> WithLatitude(t, v).error == CodingInvalidArgument("latitude", v)
  {
  }

  /** setLongitude accepts a number exactly when it lies in [-180, 180], and stores it as a float. */
  lemma LongitudeAcceptedExactly(t: Value, v: Value)
    requires t.Arr? && IsNumeric(v)
    ensures WithLongitude(t, v).Ok? <==> -180.0 <= NumericValue(v) <= 180.0
    ensures WithLongitude(t, v).Ok? ==> Read(WithLongitude(t, v).value, Longitude) == Float(NumericValue(v))
    ensures WithLongitude(t, v).Err? ==> WithLongitude(t, v).error == CodingInvalidArgument("longitude", v)
  {
  }

  /** unserialize(serialize()) brings back the whole table: a coding rebuilt from another's payload
      reads the same in every field. */
  lemma SerializeRoundTrip(t: Value, f: Field)
    ensures Decode(Encoded(t)) == t
    ensures Read(Decode(Encoded(t)), f) == Read(t, f)
  {
  }

  /** `setLatitude($lat)` then `setLongitude($lng)`, as every iterator calls them: the first rejected
      coordinate throws, and otherwise both are stored as floats and nothing else changes. */
  method SetLocation(coding: Coding, lat: Value, lng: Value) returns (r: Status)
    requires coding.table.Arr?
    modifies coding
    ensures r.Fail? <==> CoordinatesRejection(lat, lng).Some?
    ensures r.Fail? ==> r.error == CoordinatesRejection(lat, lng).value
    ensures coding.table.Arr?
    ensures r.Pass? ==> coding.Get(Latitude) == Float(FloatCast(lat)) && coding.Get(Longitude) == Float(FloatCast(lng))
    ensures r.Pass? ==> forall f :: f != Latitude && f != Longitude ==> coding.Get(f) == old(coding.Get(f))
  {
    r := coding.SetLatitude(lat);
    if r.Fail? {
      return;
    }
    r := coding.SetLongitude(lng);
  }

  // ---------------------------------------------------------------------------------------------
  // Conversions that a setter's exception aborts

  /** The exception that ends a loop building one coding per result, where `reject` gives the
      exception building a result's coding throws: the first result's that has one. */
  function FirstRejection<R>(rs: seq<R>, reject: R -> Option<Error>): Option<Error>
  {
    if |rs| == 0 then None
    else if FirstRejection(rs[..|rs| - 1], reject).Some? then FirstRejection(rs[..|rs| - 1], reject)
    else reject(rs[|rs| - 1])
  }

  /** The conversion fails exactly when some result is rejected, and then with the exception of the
      first such result. */
  lemma {:induction false} FirstRejectionIsFirst<R>(rs: seq<R>, reject: R -> Option<Error>)
    ensures FirstRejection(rs, reject).None? <==> forall i :: 0 <= i < |rs| ==> reject(rs[i]).None?
    ensures FirstRejection(rs, reject).Some? ==>
      (exists i :: 0 <= i < |rs| && FirstRejection(rs, reject) == reject(rs[i]) &&
        forall j :: 0 <= j < i ==> reject(rs[j]).None?)
  {
    if |rs| != 0 {
      var prefix := rs[..|rs| - 1];
      FirstRejectionIsFirst(prefix, reject);
      assert forall i :: 0 <= i < |prefix| ==> prefix[i] == rs[i];
      if FirstRejection(prefix, reject).Some? {
        var i :| 0 <= i < |prefix| && FirstRejection(prefix, reject) == reject(prefix[i]) &&
          forall j :: 0 <= j < i ==> reject(prefix[j]).None?;
        assert FirstRejection(rs, reject) == reject(rs[i]);
      } else if FirstRejection(rs, reject).Some? {
        assert FirstRejection(rs, reject) == reject(rs[|rs| - 1]);
      }
    }
  }

  /** A rejection within a prefix of the results is the rejection of the whole sequence: the loop
      may stop at the first rejected result. */
  lemma {:induction false} FirstRejectionOfPrefix<R>(rs: seq<R>, reject: R -> Option<Error>, n: nat)
    requires n <= |rs| && FirstRejection(rs[..n], reject).Some?
    ensures FirstRejection(rs, reject) == FirstRejection(rs[..n], reject)
    decreases |rs| - n
  {
    if n < |rs| {
      var prefix := rs[..|rs| - 1];
      assert prefix[..n] == rs[..n];
      FirstRejectionOfPrefix(prefix, reject, n);
    } else {
      assert rs[..n] == rs;
    }
  }
}
