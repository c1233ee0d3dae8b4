/** GIS_Geocode_Driver_Caching: a geocoder that answers from a cache it is also used to fill. The
    cache is a store from ids to values; md5 is the injected digest function. */
module CachingDriver {
  import opened Wrappers
  import opened Php
  import opened Errors
  import opened Coding
  import opened CachingIterator

  /** addressToId: the cache id of an address, a function of the address alone. */
  function AddressToId(digest: Value -> string, address: Value): string
  {
    "gcaddr" + digest(address)
  }

  /** The entry `cache` saves: the address as given and both coordinates cast to float. */
  function Entry(address: Value, longitude: Value, latitude: Value): Value
  {
    Arr([(StrKey("address"), address), (StrKey("longitude"), Float(FloatCast(longitude))),
         (StrKey("latitude"), Float(FloatCast(latitude)))])
  }

  /** `$cache->load($id, true)`: the stored value, whatever its age, or false for an id never saved. */
  function Load(store: map<string, Value>, id: string): Value
  {
    if id in store then store[id] else Bool(false)
  }

  /** The hit `geocode` hands to the iterator for a loaded value: the queried address with the
      stored coordinates, or nothing when the loaded value is loosely equal to false. */
  function HitOf(store: map<string, Value>, digest: Value -> string, address: Value): Option<Value>
  {
    var result := Load(store, AddressToId(digest, address));
    if !Truthy(result) then None
    else Some(Arr([(StrKey("address"), address), (StrKey("longitude"), HitEntry(result, "longitude")),
                   (StrKey("latitude"), HitEntry(result, "latitude"))]))
  }

  class Driver {
    /** The cache's contents, by id. */
    var store: map<string, Value>

    /** md5 */
    const digest: Value -> string

    /** A driver over a cache holding `store`. */
    constructor (store: map<string, Value>, digest: Value -> string)
      ensures this.store == store && this.digest == digest
    {
      this.store := store;
      this.digest := digest;
    }

    /** cache: saves the entry under the address's id, replacing whatever was there; nothing is
        checked. */
    method Cache(address: Value, longitude: Value, latitude: Value)
      modifies this
      ensures store == old(store)[AddressToId(digest, address) := Entry(address, longitude, latitude)]
    {
      store := store[AddressToId(digest, address) := Entry(address, longitude, latitude)];
    }

    /** geocode: an address that is not a non-empty string is rejected before the cache is read; a
        miss throws NoResults; a hit becomes one coding through the caching iterator. */
    method Geocode(address: Value) returns (r: Result<seq<Coding>, Error>)
      ensures !IsAddress(address) ==> r == Err(InvalidArgument(BadAddressMessage))
      ensures IsAddress(address) && HitOf(store, digest, address).None? ==> r == Err(NoResults(NoResultsMessage))
      ensures IsAddress(address) && HitOf(store, digest, address).Some? ==>
        var hit := HitOf(store, digest, address).value;
        (r.Err? <==> HitRejection(hit).Some?) &&
        (r.Err? ==> r.error == HitRejection(hit).value) &&
        (r.Ok? ==> |r.value| == 1 && forall f :: r.value[0].Get(f) == HitField(hit, f))
    {
      if !IsAddress(address) {
        return Err(InvalidArgument(BadAddressMessage));
      }
      var result := Load(store, AddressToId(digest, address));
      if !Truthy(result) {
        return Err(NoResults(NoResultsMessage));
      }
      var hit := Arr([(StrKey("address"), address), (StrKey("longitude"), HitEntry(result, "longitude")),
                      (StrKey("latitude"), HitEntry(result, "latitude"))]);
      r := ConvertToCodings(hit);
    }
  }

  // ---------------------------------------------------------------------------------------------
  // Properties of the store

  /** A hit carries the queried address, never the one stored with the coordinates. */
  lemma HitCarriesQueriedAddress(store: map<string, Value>, digest: Value -> string, address: Value)
    requires HitOf(store, digest, address).Some?
    ensures HitEntry(HitOf(store, digest, address).value, "address") == address
  {
  }

  /** Saving an address and then geocoding it answers with exactly the saved location: the
      coordinates as `(float)` made them, from any value the caller passed (a float, an integer, a
      numeric string), when the casts are within the coding's bounds. */
  lemma CacheThenGeocode(store: map<string, Value>, digest: Value -> string, address: string, longitude: Value, latitude: Value, f: Field)
    requires address != ""
    requires -LatitudeLimit <= FloatCast(latitude) <= LatitudeLimit && -LongitudeLimit <= FloatCast(longitude) <= LongitudeLimit
    ensures var saved := store[AddressToId(digest, Str(address)) := Entry(Str(address), longitude, latitude)];
      HitOf(saved, digest, Str(address)).Some? &&
      HitRejection(HitOf(saved, digest, Str(address)).value).None? &&
      HitField(HitOf(saved, digest, Str(address)).value, f) == match f
        case FormattedAddress => Str(address)
        case Latitude => Float(FloatCast(latitude))
        case Longitude => Float(FloatCast(longitude))
        case _ => Null
  {
    var lng, lat := FloatCast(longitude), FloatCast(latitude);
    var entry := Entry(Str(address), longitude, latitude);
    var es := entry.entries;
    assert es[1..][1..] == [(StrKey("latitude"), Float(lat))];
    assert Lookup(es[1..][1..], StrKey("latitude")) == Some(Float(lat));
    assert Lookup(es, StrKey("latitude")) == Some(Float(lat));
    assert Lookup(es[1..], StrKey("longitude")) == Some(Float(lng));
    assert Lookup(es, StrKey("longitude")) == Some(Float(lng));
    StoredHitReadsBack(address, lat, lng, f);
  }

  /** A stored value that is a string rather than an array is read at offset 0: one that starts
      with a digit (other than "0" alone, which reads as a miss) answers with the queried address
      at that digit for both coordinates. */
  lemma StoredStringReadsFirstCharacter(store: map<string, Value>, digest: Value -> string, address: string, s: string, f: Field)
    requires address != "" && s != "" && s != "0" && IsDigit(s[0])
    requires Load(store, AddressToId(digest, Str(address))) == Str(s)
    ensures var digit := Float((s[0] as int - '0' as int) as real);
      HitOf(store, digest, Str(address)).Some? &&
      HitRejection(HitOf(store, digest, Str(address)).value).None? &&
      HitField(HitOf(store, digest, Str(address)).value, f) == match f
        case FormattedAddress => Str(address)
        case Latitude => digit
        case Longitude => digit
        case _ => Null
  {
    StringHitReadsFirstCharacter(s);
    var c := Str([s[0]]);
    assert HitEntry(Str(s), "latitude") == c && HitEntry(Str(s), "longitude") == c;
    var es := HitOf(store, digest, Str(address)).value.entries;
    assert es[1..][1..] == [(StrKey("latitude"), c)];
    assert Lookup(es[1..][1..], StrKey("latitude")) == Some(c);
    assert Lookup(es, StrKey("latitude")) == Some(c);
    assert Lookup(es[1..], StrKey("longitude")) == Some(c);
    assert Lookup(es, StrKey("longitude")) == Some(c);
  }

  /** Saving one address leaves every other address's answer as it was, as long as their ids differ. */
  lemma CacheKeepsOtherAddresses(store: map<string, Value>, digest: Value -> string, a: Value, b: Value, longitude: Value, latitude: Value)
    requires AddressToId(digest, a) != AddressToId(digest, b)
    ensures HitOf(store[AddressToId(digest, a) := Entry(a, longitude, latitude)], digest, b) == HitOf(store, digest, b)
  {
  }
}
