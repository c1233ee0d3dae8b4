/** GIS_Geocode_Factory: one driver per kind, built on the first call and returned by every later
    one. The function-level `static $driver` variables are the fields of one factory object. */
module Factory {
  import opened Wrappers
  import opened Php
  import opened Errors
  import MockDriver
  import GoogleDriver
  import YahooDriver
  import CachingDriver

  /** The options `getCachingGeocoder` builds its cache from: what the store holds when the cache
      is opened, and md5. */
  datatype CacheOptions = CacheOptions(store: map<string, Value>, digest: Value -> string)

  /** The message the Yahoo getter throws for an unusable application id. */
  const BadAppidMessage: string := "$appid must be non-empty string"

  /** The test getYahooGeocoder applies to `$options->appid`: a non-empty string. */
  predicate IsAppid(appid: Value)
  {
    IsNonEmptyString(appid)
  }

  class Factory {
    var mock: MockDriver.Driver?
    var google: GoogleDriver.Driver?
    var caching: CachingDriver.Driver?
    var yahoo: YahooDriver.Driver?

    constructor ()
      ensures mock == null && google == null && caching == null && yahoo == null
    {
      mock := null;
      google := null;
      caching := null;
      yahoo := null;
    }

    /** getMockGeocoder */
    method GetMockGeocoder() returns (driver: MockDriver.Driver)
      modifies this
      ensures old(mock) != null ==> driver == old(mock)
      ensures old(mock) == null ==> fresh(driver)
      ensures mock == driver
      ensures google == old(google) && caching == old(caching) && yahoo == old(yahoo)
    {
      if mock == null {
        mock := new MockDriver.Driver();
      }
      driver := mock;
    }

    /** getGoogleGeocoder: a new driver starts with the sensor off. */
    method GetGoogleGeocoder() returns (driver: GoogleDriver.Driver)
      modifies this
      ensures old(google) != null ==> driver == old(google)
      ensures old(google) == null ==> fresh(driver) && !driver.sensor
      ensures google == driver
      ensures mock == old(mock) && caching == old(caching) && yahoo == old(yahoo)
    {
      if google == null {
        google := new GoogleDriver.Driver();
      }
      driver := google;
    }

    /** getCachingGeocoder: the options are used only by the first call. */
    method GetCachingGeocoder(options: CacheOptions) returns (driver: CachingDriver.Driver)
      modifies this
      ensures old(caching) != null ==> driver == old(caching)
      ensures old(caching) == null ==> fresh(driver) && driver.store == options.store && driver.digest == options.digest
      ensures caching == driver
      ensures mock == old(mock) && google == old(google) && yahoo == old(yahoo)
    {
      if caching == null {
        caching := new CachingDriver.Driver(options.store, options.digest);
      }
      driver := caching;
    }

    /** getYahooGeocoder: the application id is checked on every call, but only the first accepted
        one builds the driver. */
    method GetYahooGeocoder(appid: Value) returns (r: Result<YahooDriver.Driver, Error>)
      modifies this
      ensures !IsAppid(appid) ==> r == Err(InvalidArgument(BadAppidMessage)) && yahoo == old(yahoo)
      ensures IsAppid(appid) && old(yahoo) != null ==> r == Ok(old(yahoo)) && yahoo == old(yahoo)
      ensures IsAppid(appid) && old(yahoo) == null ==>
        r.Ok? && fresh(r.value) && r.value.appid == appid && yahoo == r.value
      ensures mock == old(mock) && google == old(google) && caching == old(caching)
    {
      if !IsAppid(appid) {
        return Err(InvalidArgument(BadAppidMessage));
      }
      if yahoo == null {
        yahoo := new YahooDriver.Driver(appid);
      }
      r := Ok(yahoo);
    }
  }
}
