/** GIS_Geocode_Driver_Mock: a geocoder that answers every valid address with one made-up coding,
    given as the raw field array. The random draws (`mt_rand`) are parameters. */
module MockDriver {
  import opened Wrappers
  import opened Php
  import opened Errors
  import opened Coding

  /** The six draws of one `getCodings` call, in the order the array expression makes them. */
  datatype Draws = Draws(sign: int, postalCode: int, latitudeDegrees: int, latitudeFraction: int,
                         longitudeDegrees: int, longitudeFraction: int)

  /** The ranges `mt_rand` draws from. */
  predicate InRange(d: Draws)
  {
    0 <= d.sign <= 1 && 20000 <= d.postalCode <= 99999 &&
    0 <= d.latitudeDegrees <= 85 && 0 <= d.latitudeFraction <= 10000 &&
    0 <= d.longitudeDegrees <= 180 && 0 <= d.longitudeFraction <= 10000
  }

  /** `$mult`: 1 for an even first draw, -1 for an odd one. */
  function Multiplier(d: Draws): int
  {
    if d.sign % 2 == 0 then 1 else -1
  }

  /** `$mult * (degrees + fraction / 10000)`: PHP's `/` yields an integer when the division is exact
      and a float otherwise, and the sum and product keep that type. */
  function Coordinate(multiplier: int, degrees: int, fraction: int): Value
  {
    if fraction % 10000 == 0 then Int(multiplier * (degrees + fraction / 10000))
    else Float(multiplier as real * (degrees as real + fraction as real / 10000.0))
  }

  /** The value `getCodings($address)` gives each field. */
  function MockValue(address: Value, d: Draws, f: Field): Value
  {
    match f
    case Full(StreetNumber) => Str("123")
    case Full(Route) => Str("Main St.")
    case Full(Level2) => Str("Anywhere")
    case Full(Level3) => Str("NC")
    case Full(Country) => Str("US")
    case Full(PostalCode) => Int(d.postalCode)
    case FormattedAddress => address
    case Latitude => Coordinate(Multiplier(d), d.latitudeDegrees, d.latitudeFraction)
    case Longitude => Coordinate(Multiplier(d), d.longitudeDegrees, d.longitudeFraction)
    case _ => Null
  }

  /** getCodings: one array with the 25 coding keys, in the coding's own key order. */
  function GetCodings(address: Value, d: Draws): (r: seq<Value>)
    ensures |r| == 1 && r[0].Arr? && |r[0].entries| == |AllFields|
    ensures forall i :: 0 <= i < |AllFields| ==> r[0].entries[i].0 == StrKey(KeyName(AllFields[i]))
    ensures forall i :: 0 <= i < |AllFields| ==> r[0].entries[i].1 == MockValue(address, d, AllFields[i])
  {
    [Arr(seq(|AllFields|, i requires 0 <= i < |AllFields| => (StrKey(KeyName(AllFields[i])), MockValue(address, d, AllFields[i]))))]
  }

  class Driver {
    constructor ()
    {
    }

    /** geocode: an address that is not a non-empty string is rejected; otherwise `getCodings` is
        called without an argument, so the address it builds into the array is null. */
    function Geocode(address: Value, d: Draws): (r: Result<seq<Value>, Error>)
      ensures !IsAddress(address) ==> r == Err(InvalidArgument(BadAddressMessage))
      ensures IsAddress(address) ==> r.Ok? && |r.value| == 1
    {
      if IsAddress(address) then Ok(GetCodings(Null, d)) else Err(InvalidArgument(BadAddressMessage))
    }

    /** geocode as its declared parameter shows it was meant: the address is passed on to
        `getCodings`. */
    function GeocodeAddress(address: Value, d: Draws): (r: Result<seq<Value>, Error>)
      ensures !IsAddress(address) ==> r == Err(InvalidArgument(BadAddressMessage))
      ensures IsAddress(address) ==> r.Ok? && |r.value| == 1
    {
      if IsAddress(address) then Ok(GetCodings(address, d)) else Err(InvalidArgument(BadAddressMessage))
    }
  }

  /** The value of the array returned for field `f`. */
  function ValueOf(r: seq<Value>, f: Field): Value
    requires |r| == 1 && r[0].Arr? && |r[0].entries| == |AllFields|
  {
    r[0].entries[Position(f)].1
  }

  // ---------------------------------------------------------------------------------------------
  // Properties of the mock answer

  /** The fixed fields: five strings, and a postal code that is an integer, not a string. */
  lemma FixedFields(address: Value, d: Draws)
    requires InRange(d)
    ensures var r := GetCodings(address, d);
      ValueOf(r, Full(StreetNumber)) == Str("123") && ValueOf(r, Full(Route)) == Str("Main St.") &&
      ValueOf(r, Full(Level2)) == Str("Anywhere") && ValueOf(r, Full(Level3)) == Str("NC") &&
      ValueOf(r, Full(Country)) == Str("US") &&
      ValueOf(r, Full(PostalCode)).Int? && 20000 <= ValueOf(r, Full(PostalCode)).i <= 99999
  {
  }

  /** Null in every abbreviated field and in the post box, floor, room, locality and first-level area. */
  lemma NullFields(address: Value, d: Draws, p: Part)
    ensures var r := GetCodings(address, d);
      ValueOf(r, Abbreviated(p)) == Null &&
      (p in {PostBox, Floor, Room, Locality, Level1} ==> ValueOf(r, Full(p)) == Null)
  {
  }

  /** Latitude and longitude share the one sign drawn, and their magnitudes lie in [0, 86] and
      [0, 181]. */
  lemma CoordinateRanges(d: Draws)
    requires InRange(d)
    ensures var lat := NumericValue(MockValue(Null, d, Latitude));
      var lng := NumericValue(MockValue(Null, d, Longitude));
      (Multiplier(d) == 1 ==> 0.0 <= lat <= 86.0 && 0.0 <= lng <= 181.0) &&
      (Multiplier(d) == -1 ==> -86.0 <= lat <= 0.0 && -181.0 <= lng <= 0.0)
  {
    CoordinateRange(Multiplier(d), d.latitudeDegrees, d.latitudeFraction);
    CoordinateRange(Multiplier(d), d.longitudeDegrees, d.longitudeFraction);
  }

  /** A drawn coordinate is the signed degrees plus the fraction in ten-thousandths. */
  lemma CoordinateRange(multiplier: int, degrees: int, fraction: int)
    requires multiplier == 1 || multiplier == -1
    requires 0 <= degrees && 0 <= fraction <= 10000
    ensures NumericValue(Coordinate(multiplier, degrees, fraction)) == multiplier as real * (degrees as real + fraction as real / 10000.0)
  {
    if fraction % 10000 == 0 {
      assert fraction == 0 || fraction == 10000;
    }
  }

  /** The draws can leave the coding's bounds: a latitude of 86 is out of range for setLatitude. */
  lemma LatitudeCanLeaveBounds()
    ensures var d := Draws(0, 20000, 85, 10000, 0, 0);
      InRange(d) && MockValue(Null, d, Latitude) == Int(86) && !AcceptsLatitude(MockValue(Null, d, Latitude))
  {
  }

  /** As written, the caller's address never reaches the answer: its formatted address is null
      whatever address is asked for. */
  lemma AddressIsDropped(driver: Driver, address: Value, d: Draws)
    requires IsAddress(address)
    ensures driver.Geocode(address, d).Ok?
    ensures ValueOf(driver.Geocode(address, d).value, FormattedAddress) == Null
  {
  }

  /** With the address passed on, the answer's formatted address is the address asked for. */
  lemma AddressIsPassedOn(driver: Driver, address: Value, d: Draws)
    requires IsAddress(address)
    ensures driver.GeocodeAddress(address, d).Ok?
    ensures ValueOf(driver.GeocodeAddress(address, d).value, FormattedAddress) == address
  {
  }
}
