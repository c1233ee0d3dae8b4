/** GIS_Geocode_Iterator_Caching: the codings read from a cache hit, none for a miss and one for
    anything else. */
module CachingIterator {
  import opened Wrappers
  import opened Php
  import opened Errors
  import opened Coding

  /** `$hit[$key]`: the entry stored under the key, or null when the key is missing; a string hit
      gives its first character ("" when it is empty), and a hit of any other type null. */
  function HitEntry(hit: Value, key: string): Value
  {
    if hit.Arr? then
      match Lookup(hit.entries, StrKey(key))
      case Some(v) => v
      case None => Null
    else if hit.Str? then Str(FirstCharacter(hit.s))
    else Null
  }

  /** The exception building the coding of a hit throws: a non-string address first, then the
      coordinates in the order they are set. */
  function HitRejection(hit: Value): Option<Error>
  {
    var address := HitEntry(hit, "address");
    if !address.Str? then Some(CodingInvalidArgument(KeyName(FormattedAddress), address))
    else CoordinatesRejection(HitEntry(hit, "latitude"), HitEntry(hit, "longitude"))
  }

  /** Each field of the coding built from a hit: the address and the location, every other field null. */
  function HitField(hit: Value, f: Field): Value
  {
    match f
    case FormattedAddress => HitEntry(hit, "address")
    case Latitude => Float(FloatCast(HitEntry(hit, "latitude")))
    case Longitude => Float(FloatCast(HitEntry(hit, "longitude")))
    case _ => Null
  }

  /** convertToCodings: no coding for a miss (`false`); otherwise one coding, built by three setters,
      whose first exception aborts the conversion. */
  method ConvertToCodings(hit: Value) returns (r: Result<seq<Coding>, Error>)
    ensures hit == Bool(false) ==> r == Ok([])
    ensures hit != Bool(false) ==> (r.Err? <==> HitRejection(hit).Some?)
    ensures hit != Bool(false) && r.Err? ==> r.error == HitRejection(hit).value
    ensures hit != Bool(false) && r.Ok? ==>
      |r.value| == 1 && fresh(r.value[0]) && r.value[0].provider == CachingProvider &&
      forall f :: r.value[0].Get(f) == HitField(hit, f)
  {
    if hit == Bool(false) {
      return Ok([]);
    }
    var coding := new Coding(CachingProvider);
    var status := Fill(coding, hit);
    if status.Fail? {
      return Err(status.error);
    }
    r := Ok([coding]);
  }

  /** The three setters on an empty coding. */
  method Fill(coding: Coding, hit: Value) returns (status: Status)
    requires coding.table.Arr? && forall f :: coding.Get(f) == Null
    modifies coding
    ensures status.Fail? <==> HitRejection(hit).Some?
    ensures status.Fail? ==> status.error == HitRejection(hit).value
    ensures status.Pass? ==> forall f :: coding.Get(f) == HitField(hit, f)
  {
    status := coding.SetText(FormattedAddress, HitEntry(hit, "address"));
    if status.Fail? {
      return;
    }
    status := SetLocation(coding, HitEntry(hit, "latitude"), HitEntry(hit, "longitude"));
    if status.Pass? {
      forall f ensures coding.Get(f) == HitField(hit, f) {
        if f != FormattedAddress && f != Latitude && f != Longitude {
          assert coding.Get(f) == Null;
        }
      }
    }
  }

  /** A hit the cache driver itself stored (a string address, numeric coordinates within the
      coding's bounds) is read back as exactly that address and location. */
  lemma StoredHitReadsBack(address: string, lat: real, lng: real, f: Field)
    requires -LatitudeLimit <= lat <= LatitudeLimit && -LongitudeLimit <= lng <= LongitudeLimit
    ensures var hit := Arr([(StrKey("address"), Str(address)), (StrKey("longitude"), Float(lng)), (StrKey("latitude"), Float(lat))]);
      HitRejection(hit).None? &&
      HitField(hit, f) == match f
        case FormattedAddress => Str(address)
        case Latitude => Float(lat)
        case Longitude => Float(lng)
        case _ => Null
  {
    var es := [(StrKey("address"), Str(address)), (StrKey("longitude"), Float(lng)), (StrKey("latitude"), Float(lat))];
    assert Lookup(es, StrKey("address")) == Some(Str(address));
    assert es[1..][1..] == [(StrKey("latitude"), Float(lat))];
    assert Lookup(es[1..][1..], StrKey("latitude")) == Some(Float(lat));
    assert Lookup(es, StrKey("latitude")) == Some(Float(lat));
    assert Lookup(es[1..], StrKey("longitude")) == Some(Float(lng));
    assert Lookup(es, StrKey("longitude")) == Some(Float(lng));
  }

  /** A hit that is a string rather than an array is read at offset 0 for every key. One that
      starts with a digit gives that digit as the address and as both coordinates ("5abc" gives the
      address "5" and the location (5, 5)); the empty string gives "" for each, which is then
      rejected as a latitude. */
  lemma StringHitReadsFirstCharacter(s: string)
    requires s != "" && IsDigit(s[0])
    ensures var digit := Float((s[0] as int - '0' as int) as real);
      HitRejection(Str(s)).None? &&
      HitField(Str(s), FormattedAddress) == Str([s[0]]) &&
      HitField(Str(s), Latitude) == digit && HitField(Str(s), Longitude) == digit
    ensures HitRejection(Str("")) == Some(CodingInvalidArgument("latitude", Str("")))
  {
  }
}
