# Geocoding, map-builder and duration models in Dafny

This project models three parts of a PHP code collection and proves properties of them.

- **Geocoding normalisation** (`GIS/Geocode`):
  - the coding record, a table of 25 nullable fields behind guarded setters (module `Coding`);
  - the Google, Yahoo and cache-hit response mappers that turn a parsed response into codings (`GoogleIterator`, `YahooIterator`, `CachingIterator`);
  - the status checks of the Google and Yahoo drivers (`GoogleDriver`, `YahooDriver`);
  - the caching driver's key/entry store (`CachingDriver`);
  - the mock driver as a function of its random draws (`MockDriver`);
  - the factory that memoises one driver per kind (`Factory`).
- **Map builder state** (`GIS/MBR.php`, `GIS/OpenLayers`):
  - the minimum bounding rectangle that grows by points and rectangles (`Mbr`);
  - the guarded configuration of the OpenLayers objects: the base object (`OpenLayersObject`), controls (`OpenLayersControl`), layers (`OpenLayersLayer`), the markers layer (`OpenLayersMarkers`), the Google layer with its one-time loader (`OpenLayersGoogle`) and the map (`OpenLayersMap`).
- **Duration decomposition** (`Zend_View_Helper_Duration.php`): the loose resolution lookup and the mixed-radix split of a duration into years, weeks, days, hours, minutes and seconds, with rounding at the chosen unit (`Duration`).

Shared modules:
- `Php` models the PHP 5 behaviour the code relies on: values, ordered arrays, `is_numeric`, `(int)` and `(float)` casts, `trim`, truthiness, loose `==` and loose `<` on scalars.
- `Errors` names the exceptions the code throws, with their messages.
- `Wrappers` holds `Option` and `Result`.

Modelling choices:
- Objects whose fields the code updates are Dafny classes with `modifies` frames. Each setter's postcondition states the whole new state, including the unchanged state on a thrown exception.
- A thrown exception is a `Status`/`Result` error value that carries the exception kind and message.
- PHP inheritance (object, element, layer, markers/Google layer) is composition: each subclass holds a `const` reference to its parent part.
- Loops in the code are `while` loops with invariants, proved against a specification function. Examples are the result walks of the mappers, the scale normalisation in `setScales` and the unit loop of `chunk`.
- Parsed XML is an input datatype. `md5`, `uniqid`, `mt_rand`, the cache back end and the HTTP reply are parameters.

## Where the code and its description differ

The model follows the code in each case below.

- `setScales` sorts the scales ascending, although its comment says biggest first. It then fixes 12 zoom levels, the unit 'ft' and a fixed resolution list, whatever unit was passed.
- `setScales` does not re-check a zoom stored earlier by `setInitialLocation` against the new level count.
- `setIsSelectedBaseLayer(false)` still selects the layer.
- `setIsBaseLayer(false)` is not checked against selection. The invariant kept is only "a selected base layer is shown in the layer switcher".
- `setTileBuffer`'s message says "greater than zero", but 0 is accepted.
- `setDimensions(0.5, …)` passes the positivity check and stores a width of 0.
- The Google layer's constructor writes its projection attributes before it checks the typecode.
- The map's Mercator extent (±20037508) is not the Google layer's (±20037508.34).
- The Yahoo driver's constructor stores the appid without checking it. Only the factory checks it.
- `unserialize` overwrites the field table before it throws on a payload that is not an array.
- The mock driver's coordinates can fall outside the coding's latitude and longitude bounds.
- In `chunk`, the guard on line 156 compares an undefined variable, so it always holds. Every visited unit therefore takes its floored quotient.
- `setResolution` searches loosely, so the integer 0 and the boolean `true` both select the year.

## Model

| member | source | states |
|---|---|---|
| Coding.KeyNameInjective | GIS/Geocode/Coding/Abstract.php:530-556 | the 25 keys of the field table are pairwise distinct, so a key names exactly one field |
| Coding.Position | GIS/Geocode/Coding/Abstract.php:530-556 | every field has its place in the table's declared key order |
| Coding.NullEntries | GIS/Geocode/Coding/Abstract.php:530-556 | the default table has one null entry per field, keyed by the field's name, in declared order |
| Coding.Write | GIS/Geocode/Coding/Abstract.php:27-34 | an array table (or null, false or '', which become one) gets the value under the field's key, and every other field reads as before (null after ''); a non-empty string table has its first character overwritten, so every field then reads that character; true, a number or an object is left unchanged |
| Coding.StringTableSharesOffsetZero | GIS/Geocode/Coding/Abstract.php:27-34 | with the table "abc" left by a failed unserialize, setStreetNumber("x") makes it "xbc", and both the street number and the country then read "x" |
| Coding.CoordinatesRejection | GIS/Geocode/Coding/Abstract.php:468-494 | storing a latitude and then a longitude throws nothing exactly when both are accepted |
| Coding.Coding.constructor | GIS/Geocode/Coding/Abstract.php:530-556 | a new coding holds the 25-key default table, and every getter returns null |
| Coding.Coding.SetText | GIS/Geocode/Coding/Abstract.php:27-34 | a string is stored under the field's own key and no other field of an array table changes (in a non-empty string table every field reads the string's first character); anything else throws InvalidArgument naming the field and the value, and the table is unchanged |
| Coding.Coding.SetLatitude | GIS/Geocode/Coding/Abstract.php:468-475 | a numeric value in [-85.0511, 85.0511] is stored as a float and no other field changes; otherwise InvalidArgument('latitude', value) and the table is unchanged |
| Coding.Coding.SetLongitude | GIS/Geocode/Coding/Abstract.php:487-494 | a numeric value in [-180, 180] is stored as a float and no other field changes; otherwise InvalidArgument('longitude', value) and the table is unchanged |
| Coding.Coding.Serialize | GIS/Geocode/Coding/Abstract.php:508-510 | the payload decodes back to the whole table |
| Coding.Coding.Unserialize | GIS/Geocode/Coding/Abstract.php:515-520 | the decoded value replaces the table first; the call fails with UnserializeFailed exactly when that value is not an array |
| Coding.DefaultTableIsEmpty | GIS/Geocode/Coding/Abstract.php:530-556 | every field of the default table is present and null |
| Coding.TextSetterWritesOnlyItsField | GIS/Geocode/Coding/Abstract.php:27-34 | a text setter given a string makes that field read back the string and leaves the other 24; given a non-string it rejects with the field name and value |
| Coding.LatitudeAcceptedExactly | GIS/Geocode/Coding/Abstract.php:468-475 | a numeric latitude is accepted exactly when it lies in [-85.0511, 85.0511], inclusive, and then reads back as its float value |
| Coding.LongitudeAcceptedExactly | GIS/Geocode/Coding/Abstract.php:487-494 | a numeric longitude is accepted exactly when it lies in [-180, 180], inclusive, and then reads back as its float value |
| Coding.SerializeRoundTrip | GIS/Geocode/Coding/Abstract.php:508-520 | unserialize(serialize()) restores the table, field by field |
| Coding.SetLocation | GIS/Geocode/Iterator/Google.php:46-47 | setLatitude then setLongitude: fails exactly when a coordinate is rejected, with the first rejection; on success both coordinates are stored as floats and nothing else changes |
| Coding.FirstRejectionIsFirst | GIS/Geocode/Iterator/Google.php:24-52 | a conversion that throws inside its loop fails exactly when some result is rejected, and with the first rejected result's exception |
| Coding.FirstRejectionOfPrefix | GIS/Geocode/Iterator/Google.php:24-52 | a rejection within the results seen so far is the rejection of the whole conversion |
| GoogleIterator.ConvertToCodings | GIS/Geocode/Iterator/Google.php:22-53 | one fresh Google coding per result, in document order, each field as the result dictates; fails exactly when a result's coordinates are out of range, with the first such exception |
| GoogleIterator.NewCoding | GIS/Geocode/Iterator/Google.php:25-47 | the coding built for one result has every field as the result dictates, or the result's coordinate exception |
| GoogleIterator.Fill | GIS/Geocode/Iterator/Google.php:26-47 | on a blank coding: the formatted address, the mapped components and the coordinates are stored; fails exactly when a coordinate is out of range |
| GoogleIterator.FillComponents | GIS/Geocode/Iterator/Google.php:27-42 | each field ends as the components, applied in order, leave it |
| GoogleIterator.FillComponent | GIS/Geocode/Iterator/Google.php:28-40 | a component whose first type is in the table sets the full field to long_name and the abbreviated field to short_name; any other component changes nothing |
| GoogleIterator.OnlyFirstTypeCounts | GIS/Geocode/Iterator/Google.php:28-34 | a component whose first type is not in the table is ignored, whatever its later types |
| GoogleIterator.LaterComponentOverwrites | GIS/Geocode/Iterator/Google.php:34-39 | a later component of the same type overwrites the field; a component of another type leaves it |
| GoogleIterator.UnmappedComponentIgnored | GIS/Geocode/Iterator/Google.php:34-39 | a component outside the 11-entry table leaves every field as it was |
| GoogleIterator.ComponentsFillLastFor | GIS/Geocode/Iterator/Google.php:27-42 | the components touch only the full and abbreviated address parts, and on a blank coding each ends as the last component of its type gives it |
| GoogleIterator.FirstRejectionIsFirstBadResult | GIS/Geocode/Iterator/Google.php:43-49 | the conversion fails exactly when some result's latitude or longitude is out of range, and with the first such result's exception |
| YahooIterator.ElementValues | GIS/Geocode/Iterator/Yahoo.php:40-47 | the seven values the formatted address is built from are the coding's StreetNumber, Route, Level3, Level2, Level1, PostalCode and Country, in that order |
| YahooIterator.ConvertToCodings | GIS/Geocode/Iterator/Yahoo.php:18-60 | one fresh Yahoo coding per result, in order, each field as the result dictates; fails exactly when a result's coordinates are out of range, with the first such exception |
| YahooIterator.NewCoding | GIS/Geocode/Iterator/Yahoo.php:21-54 | the coding built for one result has every field as the result dictates, or the result's coordinate exception |
| YahooIterator.Fill | GIS/Geocode/Iterator/Yahoo.php:22-54 | on a blank coding: the mapped children, the coordinates and the synthesised formatted address are stored; fails exactly when a coordinate is out of range |
| YahooIterator.AddFormattedAddress | GIS/Geocode/Iterator/Yahoo.php:39-54 | the formatted address is set to the concatenation when that is non-empty and stays null otherwise; no other field changes |
| YahooIterator.FillChildren | GIS/Geocode/Iterator/Yahoo.php:22-28 | each mapped field takes the text of the last child with its tag; coordinates and the formatted address stay null |
| YahooIterator.FillChild | GIS/Geocode/Iterator/Yahoo.php:23-26 | a child whose tag is in the 13-entry table sets its mapped field to the child's text; any other child changes nothing |
| YahooIterator.FormatAddress | GIS/Geocode/Iterator/Yahoo.php:39-51 | the loop concatenates value and separator for each non-empty value, in the table's order |
| YahooIterator.MappedFieldIsAddressPart | GIS/Geocode/Iterator/Yahoo.php:67-81 | the table maps tags only to address parts, never to coordinates or the formatted address |
| YahooIterator.AbbreviationsComeFromCodes | GIS/Geocode/Iterator/Yahoo.php:67-81 | only level0code to level3code fill abbreviated fields; unit fills PostBox, neighborhood Locality and level0 Country |
| YahooIterator.ChildrenFillLastFor | GIS/Geocode/Iterator/Yahoo.php:22-28 | after the children a field holds the text of the last child mapped to it, or what it held before; non-address fields are untouched |
| YahooIterator.FormattedEndsWithSeparator | GIS/Geocode/Iterator/Yahoo.php:45-52 | a non-empty formatted address ends with a separator, so it is never PHP-empty exactly when it is non-empty |
| YahooIterator.FormattedEmptyExactly | GIS/Geocode/Iterator/Yahoo.php:45-54 | the formatted address is empty exactly when all seven contributing values are PHP-empty |
| CachingIterator.ConvertToCodings | GIS/Geocode/Iterator/Caching.php:16-29 | a hit identical to false yields no coding; any other hit yields exactly one caching coding with the hit's address and coordinates (for a string hit, its first character each time), or the coding's exception for a bad address or coordinate |
| CachingIterator.Fill | GIS/Geocode/Iterator/Caching.php:23-26 | on a blank coding: formatted address, latitude and longitude come from `$hit['address']`, `$hit['latitude']` and `$hit['longitude']` as PHP 5 reads them (an array entry or null, a string hit's first character or "", null for any other hit), and every other field stays null; fails exactly when one of the three setters rejects |
| CachingIterator.StringHitReadsFirstCharacter | GIS/Geocode/Iterator/Caching.php:23-26 | a string hit that starts with a digit gives that digit as the address and as both coordinates, with no exception; the empty string is rejected as a latitude |
| CachingIterator.StoredHitReadsBack | GIS/Geocode/Iterator/Caching.php:23-28 | a hit holding a string address and in-range coordinates gives a coding with exactly those three fields and all others null |
| CachingDriver.Driver.constructor | GIS/Geocode/Driver/Caching.php:7-9 | the driver keeps the store it is given |
| CachingDriver.Driver.Cache | GIS/Geocode/Driver/Caching.php:11-14 | the entry {address, (float) longitude, (float) latitude} is saved under the address's key, overwriting any earlier one, with no validation; nothing else in the store changes |
| CachingDriver.Driver.Geocode | GIS/Geocode/Driver/Caching.php:16-32 | a non-string or empty address is rejected before the store is read; a falsy load throws NoResults; a hit yields the one coding of the hit built from the queried address and the stored coordinates, read as `$result['longitude']` and `$result['latitude']` (a stored string gives its first character) |
| CachingDriver.HitCarriesQueriedAddress | GIS/Geocode/Driver/Caching.php:22-26 | the hit's address is the address queried, not the one stored |
| CachingDriver.CacheThenGeocode | GIS/Geocode/Driver/Caching.php:11-28 | caching an address with coordinates of any type whose `(float)` casts are in range, and then geocoding it, yields exactly that address and the two cast coordinates, and nothing else |
| CachingDriver.StoredStringReadsFirstCharacter | GIS/Geocode/Driver/Caching.php:18-28 | a stored string other than "0" that starts with a digit answers with the queried address at that digit for both coordinates, and every other field null |
| CachingDriver.CacheKeepsOtherAddresses | GIS/Geocode/Driver/Caching.php:36-38 | caching one address leaves the lookup of an address with another key unchanged |
| GoogleDriver.Driver.constructor | GIS/Geocode/Driver/Google.php:48 | the sensor starts false |
| GoogleDriver.Driver.SetSensor | GIS/Geocode/Driver/Google.php:16-23 | a scalar is stored as its truth value; a non-scalar throws InvalidArgumentException('$sensor') and the sensor is unchanged |
| GoogleDriver.Driver.Query | GIS/Geocode/Driver/Google.php:62-65 | the request carries the address and sensor 'true' exactly when the sensor is set, 'false' otherwise |
| GoogleDriver.Driver.Geocode | GIS/Geocode/Driver/Google.php:35-41 | a non-string or empty address is rejected before any request; otherwise the reply's status decides between its codings and the status exception |
| GoogleDriver.StatusClassification | GIS/Geocode/Driver/Google.php:108-126 | the reply passes exactly when it holds the one status 'OK'; not exactly one status is 'Google response not understood'; OVER_QUERY_LIMIT and ZERO_RESULTS throw their exceptions with default messages; any other status throws the Google exception carrying it |
| GoogleDriver.StatusErrorsAreGoogleErrors | GIS/Geocode/Driver/Google.php:115-122 | every single status other than OK and ZERO_RESULTS throws an exception of the Google family |
| YahooDriver.Driver.constructor | GIS/Geocode/Driver/Yahoo.php:9-11 | the appid is stored as given, without validation |
| YahooDriver.Driver.Query | GIS/Geocode/Driver/Yahoo.php:38-42 | the request carries q = address, flags = 'G' and the appid (which the query builder drops when null) |
| YahooDriver.Driver.Geocode | GIS/Geocode/Driver/Yahoo.php:16-22 | a non-string or empty address is rejected before any request; otherwise the reply's error code decides between its codings and the Yahoo error |
| YahooDriver.ErrorCheckPassesExactly | GIS/Geocode/Driver/Yahoo.php:79-85 | the reply passes exactly when its Error, cast to int, is 0; otherwise a RuntimeException whose message starts 'Error from Yahoo:' |
| MockDriver.GetCodings | GIS/Geocode/Driver/Mock.php:16-45 | exactly one entry, holding the 25 coding keys in order with the mock value of each |
| MockDriver.Driver.Geocode | GIS/Geocode/Driver/Mock.php:7-13 | a non-string or empty address is rejected; otherwise exactly one entry |
| MockDriver.Driver.GeocodeAddress | GIS/Geocode/Driver/Mock.php:7-13 | corrected geocode that passes the address on: same checks, exactly one entry |
| MockDriver.FixedFields | GIS/Geocode/Driver/Mock.php:19-29 | streetNumber '123', route 'Main St.', level2 'Anywhere', level3 'NC', country 'US', and an integer postal code in [20000, 99999] |
| MockDriver.NullFields | GIS/Geocode/Driver/Mock.php:20-40 | every abbreviated field, postBox, floor, room, locality and level1 are null |
| MockDriver.CoordinateRanges | GIS/Geocode/Driver/Mock.php:17-43 | latitude and longitude share the one sign drawn; their magnitudes lie in [0, 86] and [0, 181] |
| MockDriver.CoordinateRange | GIS/Geocode/Driver/Mock.php:42-43 | a coordinate is the sign times the degrees plus the fraction in ten-thousandths |
| MockDriver.LatitudeCanLeaveBounds | GIS/Geocode/Driver/Mock.php:42 | a possible draw gives latitude 86, which the coding's latitude setter rejects |
| MockDriver.AddressIsDropped | GIS/Geocode/Driver/Mock.php:9 | as written, the answer's formatted address is null whatever address was asked for |
| MockDriver.AddressIsPassedOn | GIS/Geocode/Driver/Mock.php:16-41 | with the address passed on, the answer's formatted address is the address asked for |
| Factory.Factory.constructor | GIS/Geocode/Factory.php:8-45 | no driver has been built yet |
| Factory.Factory.GetMockGeocoder | GIS/Geocode/Factory.php:7-13 | the first call builds the mock driver and every later call returns that same one; other drivers untouched |
| Factory.Factory.GetGoogleGeocoder | GIS/Geocode/Factory.php:15-21 | the first call builds a Google driver with the sensor off and every later call returns that same one |
| Factory.Factory.GetCachingGeocoder | GIS/Geocode/Factory.php:26-38 | the first call builds a caching driver from the options; later calls return it and ignore their options |
| Factory.Factory.GetYahooGeocoder | GIS/Geocode/Factory.php:44-54 | an appid that is not a non-empty string throws, even once a driver exists; otherwise the first call builds a driver with that appid and later calls return it, whatever appid they pass |
| Mbr.AddedPoint | GIS/MBR.php:61-85 | adding a point with null or scalar coordinates leaves each bound either as it was or equal to the new coordinate, and keeps the bounds null-or-numeric when the point is |
| Mbr.NonNumericPointFollowsBoundType | GIS/MBR.php:61-85 | PHP's loose `<` decides which bound a non-numeric string moves: against numbers "abc" counts as 0 and becomes the minimum, against numeric strings it compares byte by byte and becomes the maximum |
| Mbr.AddedRect | GIS/MBR.php:48-53 | addMBR is adding the other rectangle's min corner and then its max corner; the bounds stay null-or-numeric |
| Mbr.Union | GIS/MBR.php:44-53 | corrected addMBR: the union of the two rectangles, and adding a dimensionless rectangle changes nothing |
| Mbr.MBR.constructor | GIS/MBR.php:10-39 | with no arguments, all four bounds are null |
| Mbr.MBR.WithBounds | GIS/MBR.php:14-32 | with four numerics, the bounds are stored as given |
| Mbr.MBR.AddPoint | GIS/MBR.php:61-85 | any null or scalar point is taken; the new bounds are those of adding the point to the old ones, and they stay null-or-numeric when the old bounds and the point are |
| Mbr.StretchAxis | GIS/MBR.php:69-81 | the if/else-if on one axis leaves the pair Stretch gives: the coordinate replaces the minimum when loosely below it, or else the maximum when loosely above it |
| Mbr.AddToBounds | GIS/MBR.php:61-85 | the branches of addPoint, a dimensionless rectangle first and then x and y in turn, leave exactly AddedPoint of the bounds |
| Mbr.StretchNumeric | GIS/MBR.php:69-81 | on numbers in order, one axis ends as the minimum of the old minimum and the coordinate and the maximum of the old maximum and the coordinate |
| Mbr.MBR.AddMBR | GIS/MBR.php:48-53 | the new bounds are the old ones with the other's min corner and then its max corner added, also when the other rectangle is this one |
| Mbr.MBR.AddBoundedMBR | GIS/MBR.php:44-53 | corrected addMBR: the new bounds are the union of the two rectangles |
| Mbr.NewMBR | GIS/MBR.php:10-39 | construction succeeds exactly when the arguments are accepted, with their bounds; otherwise it throws the first complaint |
| Mbr.ConstructionAccepts | GIS/MBR.php:13-37 | no arguments give a dimensionless rectangle; four numerics are stored as given; any other count or a non-numeric argument throws |
| Mbr.ConstructionKeepsUnordered | GIS/MBR.php:29-32 | the constructor does not check min <= max: (5, 5, 1, 1) is accepted though it encloses nothing |
| Mbr.AddPointToDimensionless | GIS/MBR.php:63-65 | a point added to a dimensionless rectangle becomes both corners |
| Mbr.AddPointIsSmallestCover | GIS/MBR.php:61-85 | from min <= max, adding a point gives the smallest rectangle holding both the old one and the point |
| Mbr.AddPointInside | GIS/MBR.php:69-81 | a point already inside leaves all four bounds unchanged |
| Mbr.UnionIsSmallestCover | GIS/MBR.php:44-53 | the corrected union is the smallest rectangle holding both rectangles |
| Mbr.UnionIntoDimensionless | GIS/MBR.php:44-53 | the union of a dimensionless rectangle with another is that other |
| Mbr.AddMBRErasesBounds | GIS/MBR.php:48-53 | as written, adding a dimensionless rectangle to one with a non-zero min x makes it dimensionless |
| Mbr.AddMBRErasesExample | GIS/MBR.php:48-53 | as written (1, 1, 2, 2) plus a dimensionless rectangle loses its bounds; the union keeps them |
| OpenLayersObject.Plain | GIS/OpenLayers/Object.php:36 | the attributes passed in become plain attribute values under the same keys |
| OpenLayersObject.CoordinatesAgreeWithCoding | GIS/OpenLayers/Object.php:73-85 | isLatitude and isLongitude hold exactly when the value is numeric and within [-85.0511, 85.0511] and [-180, 180], the coding's own limits |
| OpenLayersObject.OLObject.constructor | GIS/OpenLayers/Object.php:29-40 | an object keeps its trimmed implementation and its attributes, and its variable is the prefix plus a unique suffix |
| OpenLayersObject.OLObject.SetJavascriptVariable | GIS/OpenLayers/Object.php:48-55 | a string that is not blank once trimmed is stored trimmed; anything else throws and the variable is unchanged |
| OpenLayersObject.OLObject.Set | GIS/OpenLayers/Object.php:36 | one attribute takes the value, the others and the variable are unchanged |
| OpenLayersObject.OLObject.SetLiteral | GIS/OpenLayers/Map/Control.php:28 | one attribute takes the literal, the others and the variable are unchanged |
| OpenLayersObject.NewObject | GIS/OpenLayers/Object.php:29-40 | construction throws exactly when the implementation is not a string that is non-empty once trimmed; otherwise the trimmed name is stored |
| OpenLayersObject.TrimTwice | GIS/OpenLayers/Object.php:31 | a name that survived trimming is unchanged by trimming again |
| OpenLayersObject.TrimKeeps | GIS/OpenLayers/Object.php:31 | a name with no blank at either end is accepted as it is |
| OpenLayersObject.LogAcceptsNames | GIS/OpenLayers/Object.php:93-111 | with one of log, debug, info, warn or error as the method, log throws exactly when the message is not a string |
| OpenLayersObject.LogAcceptsNonNames | GIS/OpenLayers/Object.php:94-95 | as written, the loose in_array also accepts the integer 0 and true as the method |
| OpenLayersObject.StrictLogRejection | GIS/OpenLayers/Object.php:93-111 | corrected check: log accepts exactly a string message and a string method among the five names |
| OpenLayersObject.StrictLogRejectionRefinesLoose | GIS/OpenLayers/Object.php:94-95 | whatever the strict check accepts, the loose one accepts too, and the strict one refuses 0 and true |
| OpenLayersControl.Control.constructor | GIS/OpenLayers/Map/Control.php:80-85 | a control starts not rendered in a div and not activated |
| OpenLayersControl.Control.RenderIn | GIS/OpenLayers/Map/Control.php:25-33 | a non-empty scalar is recorded and the div attribute becomes the element literal, which for a string id is the text ElementCode(id) that the escaping lemmas are about; anything else throws and nothing changes |
| OpenLayersControl.Control.Activate | GIS/OpenLayers/Map/Control.php:38-41 | the control is activated, and activating twice is the same as once |
| OpenLayersControl.Control.OnLoadWrappers | GIS/OpenLayers/Map/Control.php:93-100 | the header and footer are empty exactly when no div was set, and the window-load observer pair otherwise |
| OpenLayersControl.Control.Activation | GIS/OpenLayers/Map/Control.php:108-115 | the activation code is empty exactly when the control was not activated, and otherwise activates the control's own variable on load |
| OpenLayersControl.NewControl | GIS/OpenLayers/Map/Control.php:9-17 | attributes holding 'div' are refused; otherwise construction follows the object's, with the 'control' prefix |
| OpenLayersControl.BackslashBreaksLiteral | GIS/OpenLayers/Map/Control.php:28 | as written, escaping only double quotes lets a div ID ending in a backslash, or holding one before a quote, break out of the string literal |
| OpenLayersControl.EscapedRoundTrip | GIS/OpenLayers/Map/Control.php:28 | with backslashes escaped as well, the literal always reads back as the div ID |
| OpenLayersControl.EscapingAgreesWithoutBackslash | GIS/OpenLayers/Map/Control.php:28 | for IDs without a backslash the two escapings agree and the literal reads back as the ID |
| OpenLayersLayer.FlagKeysDistinct | GIS/OpenLayers/Map/Layer.php:46-313 | the five boolean settings (isBaseLayer, transparent, visibility, display, singleTile) write five different attributes |
| OpenLayersLayer.LayerOrderOf | GIS/OpenLayers/Map/Layer.php:360-372 | an accepted layer order is ORDER_UNDEFINED (-1) or non-negative |
| OpenLayersLayer.LayerOrderDomain | GIS/OpenLayers/Map/Layer.php:360-372 | setLayerOrder accepts exactly the integer -1 (kept as ORDER_UNDEFINED) or a non-negative numeric; any other negative, the string "-1" and the float -1.0 included, is refused |
| OpenLayersLayer.LayerDefaultsShape | GIS/OpenLayers/Map/Layer.php:389-400 | a new layer is a base layer, not transparent and visible; every other attribute passed in is kept |
| OpenLayersLayer.Layer.constructor | GIS/OpenLayers/Map/Layer.php:389-400 | defaults: a generated non-empty title, base, opaque and visible, not selected, shown in the switcher, layer order -1, no tile size |
| OpenLayersLayer.Layer.SetTitle | GIS/OpenLayers/Map/Layer.php:21-28 | a string non-empty once trimmed is stored trimmed; anything else throws and the title is unchanged; nothing else changes |
| OpenLayersLayer.Layer.SetFlag | GIS/OpenLayers/Map/Layer.php:46-54 | setIsBaseLayer and the four setters like it store a scalar's truth value under their own attribute; a non-scalar throws and nothing changes |
| OpenLayersLayer.Layer.SetIsSelectedBaseLayer | GIS/OpenLayers/Map/Layer.php:71-88 | a non-base layer throws; a non-scalar throws; a layer hidden from the switcher throws; otherwise the layer becomes selected, whatever scalar was passed; "selected implies shown in the switcher" is kept |
| OpenLayersLayer.Layer.SetDisplayInLayerSwitcher | GIS/OpenLayers/Map/Layer.php:326-342 | a scalar's truth value is stored unless it would hide the selected base layer, which throws; a non-scalar throws; "selected implies shown" is kept |
| OpenLayersLayer.Layer.SetOpacity | GIS/OpenLayers/Map/Layer.php:132-139 | exactly the numerics in [0.0, 1.0] are stored as given; anything else throws and nothing changes |
| OpenLayersLayer.Layer.SetTileBuffer | GIS/OpenLayers/Map/Layer.php:216-223 | exactly the non-negative numerics are stored, cast to int; anything else throws and nothing changes |
| OpenLayersLayer.Layer.SetTileSize | GIS/OpenLayers/Map/Layer.php:245-254 | two positive numerics become the size literal and the remembered pair; anything else throws and nothing changes |
| OpenLayersLayer.Layer.SetGutterSize | GIS/OpenLayers/Map/Layer.php:271-278 | exactly the non-negative numerics are stored as given; anything else throws and nothing changes |
| OpenLayersLayer.Layer.SetLayerOrder | GIS/OpenLayers/Map/Layer.php:360-372 | the order becomes the accepted value, or the call throws and nothing changes; the order stays -1 or non-negative |
| OpenLayersLayer.NewLayer | GIS/OpenLayers/Map/Layer.php:389-400 | construction throws exactly when the implementation is blank; otherwise a valid layer with the defaults, the 'layer' variable prefix and the attributes passed in |
| OpenLayersMarkers.PlacementRejection | GIS/OpenLayers/Map/Layer/Markers.php:27-33 | placement is refused exactly when the latitude is not a latitude, the longitude not a longitude, or the events neither null nor an array, with the message of the first failing check |
| OpenLayersMarkers.MarkersLayer.constructor | GIS/OpenLayers/Map/Layer/Markers.php:10-13 | a markers layer starts with no markers over its parent layer |
| OpenLayersMarkers.MarkersLayer.PlaceMarker | GIS/OpenLayers/Map/Layer/Markers.php:25-37 | the call succeeds exactly when the arguments are valid, and then appends one marker holding them; a refused call leaves the markers unchanged |
| OpenLayersMarkers.MarkersLayer.PaintPlan | GIS/OpenLayers/Map/Layer/Markers.php:45-92 | the paint order is the plan of the markers' icon variables, in marker order |
| OpenLayersMarkers.NewMarkersLayer | GIS/OpenLayers/Map/Layer/Markers.php:10-13 | a markers layer is a valid 'Layer.Markers' base layer, not transparent, visible, with no markers |
| OpenLayersMarkers.IconVariables | GIS/OpenLayers/Map/Layer/Markers.php:53-58 | one icon variable per marker, in marker order |
| OpenLayersMarkers.IconsOfAppend | GIS/OpenLayers/Map/Layer/Markers.php:53-61 | the icons painted by two plans in a row are the first plan's followed by the second's |
| OpenLayersMarkers.MarkersOfAppend | GIS/OpenLayers/Map/Layer/Markers.php:53-86 | the markers added by two plans in a row are the first plan's followed by the second's |
| OpenLayersMarkers.MarkersOfPlanStep | GIS/OpenLayers/Map/Layer/Markers.php:53-86 | each further marker adds exactly one marker step to the plan, numbered after the earlier ones |
| OpenLayersMarkers.PlanNumbersMarkers | GIS/OpenLayers/Map/Layer/Markers.php:52-55 | the i-th marker painted is numbered i + 1 and uses the i-th marker's icon |
| OpenLayersMarkers.PlanDefinesIconsAtFirstUse | GIS/OpenLayers/Map/Layer/Markers.php:51-61 | the icons are painted in order of first use, each once |
| OpenLayersMarkers.DistinctIsEachOnce | GIS/OpenLayers/Map/Layer/Markers.php:51-61 | the painted icons are exactly the icons used, without repetition |
| OpenLayersMarkers.UsedIconIsDefined | GIS/OpenLayers/Map/Layer/Markers.php:57-61 | an icon an earlier marker used has already been painted by the plan |
| OpenLayersMarkers.PlanDefinesBeforeUse | GIS/OpenLayers/Map/Layer/Markers.php:57-86 | every marker is added after its icon was painted |
| OpenLayersMarkers.MarkerIndexExists | GIS/OpenLayers/Map/Layer/Markers.php:53-86 | every marker the plan lists is one step of the plan |
| OpenLayersMarkers.MarkerIndex | GIS/OpenLayers/Map/Layer/Markers.php:53-86 | the position in the plan of the k-th marker step |
| OpenLayersGoogle.GoogleLoader.constructor | GIS/OpenLayers/Map/Layer/Google.php:129 | the Google loader starts out needing initialisation |
| OpenLayersGoogle.ScriptSource | GIS/OpenLayers/Map/Layer/Google.php:67-69 | the loader URL uses the https scheme exactly when the secure flag is set, and ends with the API key |
| OpenLayersGoogle.GoogleLayer.constructor | GIS/OpenLayers/Map/Layer/Google.php:114-119 | a Google layer starts with no API key and the secure flag off |
| OpenLayersGoogle.GoogleLayer.SetAPIKey | GIS/OpenLayers/Map/Layer/Google.php:17-24 | exactly a non-empty string is stored as the key; anything else throws and the key is unchanged; the secure flag never changes |
| OpenLayersGoogle.GoogleLayer.SetUseSecure | GIS/OpenLayers/Map/Layer/Google.php:36-43 | exactly a scalar is accepted and its truth value stored; anything else throws and the flag is unchanged; the key never changes |
| OpenLayersGoogle.GoogleLayer.Paint | GIS/OpenLayers/Map/Layer/Google.php:58-83 | the first paint without a key throws a logic error and leaves the loader uninitialised; the first paint with a key emits the loader URL once; later paints emit nothing |
| OpenLayersGoogle.GoogleAttributesShape | GIS/OpenLayers/Map/Layer/Google.php:90-107 | a Google layer is an opaque base layer in spherical Mercator: metres, maximum resolution 156543.0339, the EPSG:900913 projection, the world extent and the given type |
| OpenLayersGoogle.SetProjection | GIS/OpenLayers/Map/Layer/Google.php:95-99 | the five projection attributes are set and every other attribute is kept |
| OpenLayersGoogle.NewGoogleLayer | GIS/OpenLayers/Map/Layer/Google.php:90-107 | construction throws exactly when the typecode is not a non-empty string; otherwise a valid spherical-Mercator 'Layer.Google' layer with no key, not secure |
| OpenLayersMap.FloatList | GIS/OpenLayers/Map.php:270-273 | a list of reals becomes a PHP list of floats keyed 0, 1, … in the same order |
| OpenLayersMap.DimensionsOf | GIS/OpenLayers/Map.php:148-156 | dimensions are accepted exactly when both are positive numerics, and each is stored truncated toward zero |
| OpenLayersMap.DimensionsMayTruncateToZero | GIS/OpenLayers/Map.php:148-151 | a width of 0.5 passes the positivity check and is stored as 0 |
| OpenLayersMap.ZoomAcceptsOnePastLastLevel | GIS/OpenLayers/Map.php:181 | the zoom check accepts exactly the zoom levels plus the one equal to the number of levels (20 with the default 20 levels) |
| OpenLayersMap.LocationRejection | GIS/OpenLayers/Map.php:176-184 | the location is refused exactly when the latitude, the longitude or the zoom check fails, with the message of the first failing check |
| OpenLayersMap.CorrectedLocationRejection | GIS/OpenLayers/Map.php:176-184 | with the zoom bound made strict, an accepted zoom is an integer in [0, levels); it refuses only what the written check refuses plus a zoom equal to the level count |
| OpenLayersMap.UnitAcceptedIsMembership | GIS/OpenLayers/Map.php:234 | a unit is accepted exactly when it is a string whose trimmed form is one of the ten valid units |
| OpenLayersMap.NoUnitIsNumeric | GIS/OpenLayers/Map.php:734 | no valid unit name is numeric, so the loose membership test behaves as a string comparison on them |
| OpenLayersMap.ScaleValues | GIS/OpenLayers/Map.php:239-241 | each scale is normalised to a float, in key order |
| OpenLayersMap.InsertHead | GIS/OpenLayers/Map.php:251 | inserting into a list puts either the new value or the old first value first |
| OpenLayersMap.InsertPermutes | GIS/OpenLayers/Map.php:251 | inserting adds exactly one occurrence of the value |
| OpenLayersMap.InsertSorts | GIS/OpenLayers/Map.php:251 | inserting into an ascending list keeps it ascending |
| OpenLayersMap.SortSorts | GIS/OpenLayers/Map.php:251 | the sort yields an ascending permutation of its input |
| OpenLayersMap.StoredScales | GIS/OpenLayers/Map.php:239-278 | the stored scales are the given ones ascending, as a permutation, all positive, one per given scale |
| OpenLayersMap.NormaliseScales | GIS/OpenLayers/Map.php:239-247 | the loop reports valid exactly when every scale is a positive numeric, and then yields each scale as a float |
| OpenLayersMap.MapDefaultsShape | GIS/OpenLayers/Map.php:130-138 | a new map has 20 zoom levels, no default controls and the EPSG:4326 display projection |
| OpenLayersMap.ScaleAttributesShape | GIS/OpenLayers/Map.php:267-274 | accepted scales fix 12 zoom levels in feet, with maximum and minimum resolution the first and last of twelve strictly decreasing resolutions |
| OpenLayersMap.AdjustedShape | GIS/OpenLayers/Map.php:871-885 | a spherical-Mercator layer sets the map's projection and extent, and metres unless scales were set; other layers change nothing; other attributes are kept |
| OpenLayersMap.Map.constructor | GIS/OpenLayers/Map.php:130-138 | a new map is 640 by 640 with no location, bounds, scales, container, URL, status, controls or layers, over the default attributes |
| OpenLayersMap.Map.SetDimensions | GIS/OpenLayers/Map.php:148-156 | the dimensions change exactly when both are positive numerics, to their truncations; otherwise the call throws and nothing changes |
| OpenLayersMap.Map.SetInitialLocation | GIS/OpenLayers/Map.php:176-188 | an accepted location is stored and clears the zoom bounds; a refused one throws with its message and nothing changes |
| OpenLayersMap.Map.SetZoomToBounds | GIS/OpenLayers/Map.php:210-214 | the bounds are stored and the initial location is cleared |
| OpenLayersMap.Map.SetScales | GIS/OpenLayers/Map.php:232-289 | valid scales and unit store the sorted scales and the fixed 12-level feet attributes; anything else throws and changes nothing |
| OpenLayersMap.Map.WriteScaleAttributes | GIS/OpenLayers/Map.php:267-274 | the five fixed scale attributes are written and every other attribute is kept |
| OpenLayersMap.Map.SetContainerID | GIS/OpenLayers/Map.php:304-311 | a string non-empty once trimmed is stored trimmed; anything else throws and nothing changes |
| OpenLayersMap.Map.SetOpenLayersURL | GIS/OpenLayers/Map.php:323-330 | a string non-empty once trimmed is stored trimmed; anything else throws and nothing changes |
| OpenLayersMap.Map.RenderStatusIn | GIS/OpenLayers/Map.php:349-356 | a non-empty scalar is stored as the status element; anything else throws and nothing changes |
| OpenLayersMap.Map.NewControl | GIS/OpenLayers/Map.php:367-377 | the control is stored under its class, replacing any earlier one, and returned |
| OpenLayersMap.Map.AmendControl | GIS/OpenLayers/Map.php:385-395 | with a new class the old entry becomes the new control, which is also stored under its own class; with none the old entry is removed |
| OpenLayersMap.Map.NewBaseLayer | GIS/OpenLayers/Map.php:415-432 | the layer becomes an opaque base layer, the map is adjusted for it and it is appended to the layers |
| OpenLayersMap.Map.NewOverlay | GIS/OpenLayers/Map.php:444-461 | the layer becomes a transparent overlay, the map is adjusted for it and it is appended to the layers |
| OpenLayersMap.Map.AdjustMapForNewLayer | GIS/OpenLayers/Map.php:871-885 | the map attributes become the spherical-Mercator adjustment for the layer |
| OpenLayersMap.NewMap | GIS/OpenLayers/Map.php:130-138 | a new 'Map' object with the default attributes and settings |
| Duration.SearchFrom | Zend_View_Helper_Duration.php:71-74 | the search from any position yields one of the six unit sizes |
| Duration.SizeFor | Zend_View_Helper_Duration.php:69-76 | setResolution always selects one of the six unit sizes |
| Duration.NoNameIsNumeric | Zend_View_Helper_Duration.php:139-146 | no unit name is numeric, so the loose search compares the names as strings |
| Duration.NamesDistinct | Zend_View_Helper_Duration.php:139-146 | the six unit names differ from each other |
| Duration.SizeForNames | Zend_View_Helper_Duration.php:69-76 | each unit name selects its own size (YEAR 31449600 down to SECOND 1) |
| Duration.SearchSkips | Zend_View_Helper_Duration.php:71 | the search passes over the names the resolution does not loosely equal |
| Duration.SizeForOthers | Zend_View_Helper_Duration.php:69-76 | a string that is no unit name falls back to the size 1 (seconds) |
| Duration.LooseValuesSelectYears | Zend_View_Helper_Duration.php:71 | the loose search lets the integer 0 and the boolean true select the year |
| Duration.DivFloor | Zend_View_Helper_Duration.php:157-158 | the floored quotient and the remainder recompose the dividend, with the remainder below the divisor |
| Duration.SplitFrom | Zend_View_Helper_Duration.php:155-167 | the split stops with at least one and at most the remaining units' parts |
| Duration.Fraction | Zend_View_Helper_Duration.php:165 | the leftover fraction of a unit is non-negative, below one for a leftover below the unit, and times the unit gives the leftover |
| Duration.ChunksOf | Zend_View_Helper_Duration.php:151-171 | there is one chunk per unit |
| Duration.RatiosLink | Zend_View_Helper_Duration.php:139-146 | each unit is a whole number of the next smaller one (52 weeks, 7 days, 24 hours, 60 minutes, 60 seconds) |
| Duration.SplitRestBounds | Zend_View_Helper_Duration.php:155-167 | the leftover lies below the unit at which the split stopped |
| Duration.QuotientBelow | Zend_View_Helper_Duration.php:157 | a value below ratio units has fewer than ratio whole units |
| Duration.SplitUnfolds | Zend_View_Helper_Duration.php:155-167 | one step of the loop: take the whole units, then stop at the chosen unit or at seconds, or go on with the leftover |
| Duration.SplitAdvances | Zend_View_Helper_Duration.php:155-167 | a loop step keeps the split so far consistent with the whole split, and the last step completes it |
| Duration.SplitIsExact | Zend_View_Helper_Duration.php:155-167 | the parts weighted by their unit sizes plus the leftover give back the seconds, and each part below the first is under its ratio to the next larger unit |
| Duration.SplitStops | Zend_View_Helper_Duration.php:164-166 | with resolution Sizes[i] the split has exactly the parts up to unit i |
| Duration.CoarserIsPrefix | Zend_View_Helper_Duration.php:155-167 | the parts for a coarse resolution are the leading parts of the seconds-resolution split |
| Duration.SecondsResolutionIsExact | Zend_View_Helper_Duration.php:151-171 | at seconds resolution the chunks are the six whole parts, with nothing left over, weighing back to the duration |
| Duration.RoundZero | Zend_View_Helper_Duration.php:165 | rounding zero at any precision gives zero |
| Duration.CoarserRoundsHalfUp | Zend_View_Helper_Duration.php:164-167 | at a coarser resolution with precision 0 the chunk at that unit is the whole part plus one when the leftover is at least half a unit, and every finer chunk is zero |
| Duration.RoundWhole | Zend_View_Helper_Duration.php:165 | rounding to precision 0 is half-up rounding |
| Duration.HalfOrMore | Zend_View_Helper_Duration.php:165 | the leftover fraction is at least one half exactly when twice the leftover reaches the unit |
| Duration.RoundFraction | Zend_View_Helper_Duration.php:165 | the leftover fraction rounds to one exactly when it is at least one half, else to zero |
| Duration.SplitSeconds | Zend_View_Helper_Duration.php:153-170 | the loop over the units, largest first, yields exactly the chunks of the given whole seconds at the given size and precision |
| Duration.DurationHelper.constructor | Zend_View_Helper_Duration.php:135-138 | a new helper has no duration, the format "%D", size 1 and precision 0 |
| Duration.DurationHelper.Duration | Zend_View_Helper_Duration.php:34-38 | the duration is stored and a fresh copy of the helper is returned; the other settings are kept |
| Duration.DurationHelper.SetFormat | Zend_View_Helper_Duration.php:55-59 | only the format changes |
| Duration.DurationHelper.SetResolution | Zend_View_Helper_Duration.php:69-76 | only the size changes, to the size the loose search selects |
| Duration.DurationHelper.SetPrecision | Zend_View_Helper_Duration.php:85-89 | only the precision changes |
| Duration.DurationHelper.Chunk | Zend_View_Helper_Duration.php:151-171 | the chunks of the duration truncated to whole seconds, at the current size and precision |

## Left out

- HTTP transport (cURL in the Google and Yahoo drivers) is network I/O. The parsed reply is an input datatype.
- XML parsing (SimpleXMLElement, xpath) is a foreign library. Results are sequences of tagged values.
- All `paint()`/`render()` output, and the echo in `log()`, is browser-side output. Only the decisions inside it are modelled: icon de-duplication, marker numbering and the Google loader flag.
- GIS_OpenLayers_Map_Icon, the Scale control, the Element back-reference to the map and the spherical-Mercator marker interface are not modelled as classes. The interface is a boolean on layers.
- `newIcon`, `newStyle`, `newButton` and `newPanel` on the map build objects that are not part of this model.
- The Klass reflection factory is left out: `newControl`, `newBaseLayer` and `newOverlay` take the already constructed object.
- GIS_Geocode_Iterator_Mock is not part of this model. The mock driver's result is the entry its iterator would read.
- `md5`, PHP `serialize`, `uniqid` and `mt_rand` are foreign primitives. They appear as an injected fingerprint, a tagged blob, a parameter and the draws.
- Zend_Cache, Zend_Config and Zend_Measure_Time are outside libraries. The cache is a `map`, and its lifetime is not modelled because every load ignores it. The duration is a real number of seconds.
- `is_numeric`: exponent notation ("1e3") and hexadecimal strings are not modelled. The accepted forms are optional leading whitespace, a sign, digits and an optional fraction.
- Floating point is modelled as exact reals. Rounding error and PHP's pre-rounding in `round()` are not modelled.
- Duration.DurationHelper.Chunk: requires that a duration was set. The source would fail on a null duration.
- Mbr.MBR.AddPoint: array and object coordinates are not modelled. PHP 5 compares arrays by size and then key by key, and objects by class and properties; the model takes null and scalar coordinates only.
- Coding.Write: the character a float leaves in a string table is its sign or the leading digit of its integer part. PHP's `%.14G` exponent form below 0.0001 and its rounding to 14 significant digits are not modelled.
- Coding.Read: an object left as the table by `unserialize` reads as null and is left unchanged by a setter. PHP stops with a fatal error there unless the object implements ArrayAccess.
- CachingIterator.Fill: an object hit reads as null for every key. PHP stops with a fatal error there unless the object implements ArrayAccess.
- CachingDriver.Driver.Geocode: an object stored in the cache reads as null for both coordinates, where PHP stops with the same fatal error.
- The static Google loader flag is an object passed to `Paint`. It is not a global.
- Concurrency and the process-wide lifetime of the factory's static drivers are out of scope. Each factory is an object.

## Findings

| source | as written | input that shows it | evidently intended | confidence | as-written member | corrected member |
|---|---|---|---|---|---|---|
| GIS/Geocode/Driver/Mock.php:9 | `geocode` calls `getCodings()` without the address, so the answer's formatted address is always null | any address, e.g. "1 Main St" | the formatted address is the address asked for | not executed | MockDriver.AddressIsDropped | MockDriver.AddressIsPassedOn |
| GIS/MBR.php:48-53 | `addMBR` adds the other rectangle's corners one at a time, so adding a dimensionless rectangle first adds a null point and erases this rectangle's bounds | (1, 1, 2, 2) plus a dimensionless MBR | the union of the two rectangles, which leaves (1, 1, 2, 2) unchanged | not executed | Mbr.AddMBRErasesExample | Mbr.UnionIsSmallestCover |
| GIS/OpenLayers/Object.php:95 | `log` checks the method with a loose `in_array`, so 0 and `true` pass as method names | method 0 or true | only the five method names pass | not executed | OpenLayersObject.LogAcceptsNonNames | OpenLayersObject.StrictLogRejectionRefinesLoose |
| GIS/OpenLayers/Map/Control.php:28 | `renderIn` escapes double quotes but not backslashes, so an id ending in a backslash breaks the Javascript string | "a\\" | every id reads back unchanged from the Javascript string | not executed | OpenLayersControl.BackslashBreaksLiteral | OpenLayersControl.EscapedRoundTrip |
| GIS/OpenLayers/Map.php:181 | the zoom check uses `<=`, so a zoom equal to the number of levels is accepted | zoom 20 with the default 20 levels | zoom levels 0 to levels - 1 only | not executed | OpenLayersMap.ZoomAcceptsOnePastLastLevel | OpenLayersMap.CorrectedLocationRejection |
