# coordinates-resolver, modelled in Dafny

A model of the resolution core of coordinates-resolver, a service that turns a
postal address (country code, city, street, postcode) into a latitude and
longitude pair.

`GeocoderBuilder` drives one resolution:

- It checks its configuration. The provider list must be non-empty and the address must be set.
- It optionally reads a database-backed cache.
- It asks the configured providers in order: the Google Maps and HERE HTTP adapters, the dummy geocoder, or any other implementation.
- It saves the first hit in the cache, or records a known miss when every provider comes up empty.

The cache is `GeocoderDBCache` over `ResolvedAddressRepository`. The repository holds
at most one row per address identity, enforced by the unique index over the four fields. A row holds
either coordinates or a null pair, the "known miss".

Files, one module each:

| file | module | models |
|---|---|---|
| wrappers.dfy | Wrappers | Option, Result, and Outcome (a void call that may throw) |
| errors.dfy | Errors | the exception kinds: GeocoderException, storage, transport and JSON errors |
| value_objects.dfy | ValueObjects | `Address` (fields, `fromArray`, the `@Assert` validity) and `Coordinates` |
| repository.dfy | Repository | the `resolved_address` table as a map keyed by the unique index; `getByAddress`, `saveResolvedAddress`, `saveIfNotExist` |
| db_cache.dfy | DbCache | `GeocoderDBCache.getLocation` / `saveLocation` |
| http.dfy | Http | the HTTP client (a fixed answer function plus a log of requests), decoded bodies, `implode` |
| google_maps.dfy | GoogleMaps | `getRequestParams` and `processResponse` of `GoogleMapsGeocoder` |
| here_maps.dfy | HereMaps | the same for `HereMapsGeocoder` |
| geocoder.dfy | Geocoding | the `Geocoder` template method, and providers as the builder sees them |
| builder.dfy | Builder | `GeocoderBuilder`: setters, `getLocation`, `findAndCacheLocationFromProvider` |

Each operation that changes state appears twice:

- as a function on values (`Persist`, `PersistIfAbsent`, `Attempt`, `Chain`, `Resolve`), whose properties are proved as lemmas;
- as a method of a class with the source's fields (`ResolvedAddressRepository.rows`, `GeocoderBuilder.providers` / `address` / `useCache`). Its `ensures` states that the new state and the result are what the function says.

`GeocoderBuilder.trace` is a ghost log of every call the builder makes on its collaborators, in order:

- cache reads;
- provider calls, with the provider's position in the list;
- cache writes;
- logger errors, as (message, exception).

`Filter` gives the part of the log one collaborator sees.

Database availability is an input, not something the application controls. Each
repository carries `Faults`: whether every SELECT throws and whether every flush
throws. This makes two details of `getLocation` visible:

- The hit-save sits inside the `try` (GeocoderBuilder.php:122-130). A storage exception there is logged, and the loop goes on to the next provider.
- The cache read (line 100) and the final miss-write (line 111) are outside the `try`. Their exceptions leave `getLocation`.

A stored known miss reads back through `(float) null` as `Coordinates(0.0, 0.0)`.
That object is truthy, so with the cache enabled a known miss short-circuits the
providers and `getLocation` returns (0.0, 0.0) (`KnownMissReturnsOrigin`).
A cached miss might be expected not to short-circuit the chain; the code as
written does (GeocoderBuilder.php:101, GeocoderDBCache.php:40), and the model
follows the code.

## Model

| member | source | states |
|---|---|---|
| ValueObjects.IsValid | src/ValueObject/Address.php:10-29 | an address is valid when country is non-empty with 2 to 3 characters, city and street non-empty with at most 255, and postcode non-empty with at most 16 |
| ValueObjects.FromArray | src/ValueObject/Address.php:49-57 | each field is the value under its request key (`country_code`, `city`, `street`, `postcode`), or `''` when that key is missing |
| ValueObjects.FromArrayToArray | src/ValueObject/Address.php:49-57 | reading an address from its own four-key request array gives that address back |
| ValueObjects.FromArrayIgnoresOtherKeys | src/ValueObject/Address.php:49-57 | adding keys other than the four to the request never changes the address |
| ValueObjects.FromArrayValidity | src/ValueObject/Address.php:10-57 | an address read from a request is valid exactly when all four keys are present and their values meet the NotBlank and Length annotations; a request missing a key gives an invalid address |
| Repository.FindOneBy | src/Repository/ResolvedAddressRepository.php:33-38 | findOneBy with the four criteria, as a lookup of the address's identity in the table: the stored row, or null |
| Repository.FindOneByIsScan | src/Repository/ResolvedAddressRepository.php:31-39 | on a well-formed table a row is found exactly when some stored row equals the address on all four columns, and the row found is such a row |
| Repository.Find | src/Repository/ResolvedAddressRepository.php:31-39 | the lookup throws exactly when the database rejects queries; otherwise it returns a row exactly when the identity is stored, and that row |
| Repository.NewRecord | src/Repository/ResolvedAddressRepository.php:50-61 | the new row copies the four address fields; lat and lng are both set from the coordinates, or both stay null when there are none |
| Repository.Persist | src/Repository/ResolvedAddressRepository.php:48-67 | the flush fails exactly when writes are rejected or the unique index already holds the identity, and then nothing changes; otherwise exactly the new row is added under its key |
| Repository.PersistIfAbsent | src/Repository/ResolvedAddressRepository.php:76-82 | a stored identity is left as it is; after a successful call the identity is stored, and a new row is the one built from the address and coordinates |
| Repository.PersistIfAbsentKeepsOtherKeys | src/Repository/ResolvedAddressRepository.php:76-82 | no other identity is added, removed or changed by the save |
| Repository.SavesKeepWellFormed | src/Repository/ResolvedAddressRepository.php:48-82 | both saves keep every row under its own identity, with lat and lng set or null together |
| Repository.PersistIfAbsentOutcome | src/Repository/ResolvedAddressRepository.php:76-82 | whether the save throws, and what, does not depend on the coordinates; it throws exactly when the query fails or the flush fails on an absent identity |
| Repository.FirstWriterWins | src/Repository/ResolvedAddressRepository.php:76-82 | after a successful save, a second save of the same identity with any coordinates succeeds and leaves the table as the first left it |
| Repository.PersistIfAbsentOnHealthyStore | src/Repository/ResolvedAddressRepository.php:76-82 | with a working database the save succeeds and the identity ends with its old row, or the new one if it had none |
| Repository.ResolvedAddressRepository.GetByAddress | src/Repository/ResolvedAddressRepository.php:31-39 | a row returned matches the address on all four columns |
| Repository.ResolvedAddressRepository.SaveResolvedAddress | src/Repository/ResolvedAddressRepository.php:48-67 | the outcome and the new rows are those of `Persist` on the old table |
| Repository.ResolvedAddressRepository.SaveIfNotExist | src/Repository/ResolvedAddressRepository.php:76-82 | the outcome and the new rows are those of `PersistIfAbsent` on the old table |
| DbCache.FloatCast | src/Service/Geocoder/Cache/GeocoderDBCache.php:40 | a stored value is kept and null becomes 0.0 |
| DbCache.RowCoordinates | src/Service/Geocoder/Cache/GeocoderDBCache.php:40 | a row with coordinates reads back as them; a known miss reads back as (0.0, 0.0), not as null |
| DbCache.CachedLocation | src/Service/Geocoder/Cache/GeocoderDBCache.php:33-41 | the read throws exactly when the query fails; otherwise it is null exactly when the identity has no row, and else that row's coordinates |
| DbCache.SaveThenRead | src/Service/Geocoder/Cache/GeocoderDBCache.php:33-53 | on a working database, saving for an unstored identity and reading back gives the saved coordinates, or (0.0, 0.0) for a miss |
| DbCache.SavedEntryIsStable | src/Service/Geocoder/Cache/GeocoderDBCache.php:50-53 | once an identity has a row, no later save changes what a read returns |
| DbCache.GeocoderDBCache.GetLocation | src/Service/Geocoder/Cache/GeocoderDBCache.php:33-41 | a read changes nothing (it is a function of the repository); a non-null result means the identity is stored |
| DbCache.GeocoderDBCache.SaveLocation | src/Service/Geocoder/Cache/GeocoderDBCache.php:50-53 | the coordinates default to null (a miss); the call does exactly what `saveIfNotExist` does |
| Http.HttpClient.Get | src/Service/Geocoder/Geocoder.php:56 | exactly one request, with the given URI and query, is added to the client's log, and the reply is the transport's answer to it |
| Http.Implode | src/Service/Geocoder/Providers/GoogleMapsGeocoder.php:31-35 | PHP `implode` with a one-character glue: the pieces in order, the glue between neighbours, `""` for no pieces |
| Http.ExplodeImplode | src/Service/Geocoder/Providers/GoogleMapsGeocoder.php:31-35 | when no piece contains the glue, cutting the imploded string at the glue gives the pieces back |
| GoogleMaps.Components | src/Service/Geocoder/Providers/GoogleMapsGeocoder.php:31-35 | `components` is the implode with a vertical bar of `country:C`, `locality:City` and `postal_code:P` |
| GoogleMaps.RequestParams | src/Service/Geocoder/Providers/GoogleMapsGeocoder.php:26-39 | the query is `address` = street, then `components`, then `key` = the API key, and nothing else |
| GoogleMaps.ComponentsLayout | src/Service/Geocoder/Providers/GoogleMapsGeocoder.php:31-35 | `components` is `country:C`, `locality:City` and `postal_code:P`, in that order, joined by a vertical bar |
| GoogleMaps.ComponentsRoundTrip | src/Service/Geocoder/Providers/GoogleMapsGeocoder.php:31-35 | when no field contains the vertical bar, the three components can be read back from the string |
| GoogleMaps.ProcessResponse | src/Service/Geocoder/Providers/GoogleMapsGeocoder.php:45-57 | the result is non-null exactly when there is a first result and it is ROOFTOP, and then it is that result's location |
| GoogleMaps.OnlyFirstResultCounts | src/Service/Geocoder/Providers/GoogleMapsGeocoder.php:47-53 | results after the first never change the answer |
| HereMaps.QualifiedQuery | src/Service/Geocoder/Providers/HereMapsGeocoder.php:30-35 | `qq` is the implode with `;` of `country=C`, `city=City`, `street=S` and `postalCode=P` |
| HereMaps.RequestParams | src/Service/Geocoder/Providers/HereMapsGeocoder.php:26-39 | the query is `qq` then `apiKey` = the API key, and nothing else |
| HereMaps.QualifiedQueryLayout | src/Service/Geocoder/Providers/HereMapsGeocoder.php:30-35 | `qq` is `country=C;city=City;street=S;postalCode=P` in that order |
| HereMaps.QualifiedQueryRoundTrip | src/Service/Geocoder/Providers/HereMapsGeocoder.php:30-35 | when no field contains `;`, the four pairs can be read back from `qq` |
| HereMaps.ProcessResponse | src/Service/Geocoder/Providers/HereMapsGeocoder.php:45-57 | the result is non-null exactly when there is a first item and it is a houseNumber, and then it is that item's position |
| HereMaps.OnlyFirstItemCounts | src/Service/Geocoder/Providers/HereMapsGeocoder.php:47-53 | items after the first never change the answer |
| Geocoding.EmptyString | src/Service/Geocoder/Geocoder.php:53 | PHP `empty()` on a string: `""` and `"0"` are empty, every other string is not |
| Geocoding.PrecisionTag | src/Service/Geocoder/Providers/GoogleMapsGeocoder.php:51 | the tag the first result must carry: `ROOFTOP` for Google, `houseNumber` for HERE |
| Geocoding.Geocoder.ApiUri | src/Service/Geocoder/Providers/GoogleMapsGeocoder.php:20 | the subclass's `$apiUri`: Google's geocode JSON endpoint, or HERE's geocode endpoint (HereMapsGeocoder.php:20) |
| Geocoding.Interpret | src/Service/Geocoder/Geocoder.php:56-59 | a transport failure or an undecodable body throws, and only those do; a decoded body gives the adapter's processResponse of its results, which is non-null exactly when the first result carries the adapter's precision tag, and is then that result's position |
| Geocoding.Geocoder.Locate | src/Service/Geocoder/Geocoder.php:51-60 | getLocation as a value: an empty key (`""` or `"0"`) throws "Api key is not provided"; otherwise the transport's reply to the adapter's request, interpreted |
| Geocoding.Geocoder.GetLocation | src/Service/Geocoder/Geocoder.php:51-60 | an empty key (`""` or `"0"`) throws before any request; otherwise exactly one GET to the adapter's URI with its request parameters is sent, and the result is its reply interpreted |
| Geocoding.EmptyKeyFailsFirst | src/Service/Geocoder/Geocoder.php:53-55 | an adapter with an empty key answers with "Api key is not provided", whatever the network would say |
| Geocoding.FoundExactlyThroughGate | src/Service/Geocoder/Geocoder.php:51-60 | an adapter answers with coordinates exactly when its key is non-empty, the reply decodes, and the first result carries the precision tag; the coordinates are then that result's |
| Geocoding.AnswerOf | src/Service/Geocoder/GeocoderBuilder.php:123 | a provider's answer: an HTTP adapter's result or exception, DummyGeocoder's fixed (1.0, 2.0), or a stub's given answer |
| Geocoding.Call | src/Service/Geocoder/GeocoderBuilder.php:123 | calling a provider gives its answer, touching at most that provider's HTTP client |
| Builder.Attempt | src/Service/Geocoder/GeocoderBuilder.php:120-133 | findAndCacheLocationFromProvider as a value: the call, then on a hit the save inside the try; a provider or save exception is logged and gives null; the table is that save's |
| Builder.Chain | src/Service/Geocoder/GeocoderBuilder.php:105-113 | the foreach as a value: the first turn with a result ends it; turns without one are followed by the next provider on the table they left; past the last provider the miss is saved outside the try, so its exception is the result |
| Builder.Resolve | src/Service/Geocoder/GeocoderBuilder.php:91-114 | getLocation as a value: the provider check, then the address check, then the optional cache read (its exception propagates; a non-null value is returned), then `Chain` from the first provider |
| Builder.AttemptCalls | src/Service/Geocoder/GeocoderBuilder.php:120-133 | one provider turn calls that provider once with the address and reads no cache |
| Builder.FailedTurn | src/Service/Geocoder/GeocoderBuilder.php:122-131 | a provider that throws has its exception logged once, and nothing is saved |
| Builder.FoundTurn | src/Service/Geocoder/GeocoderBuilder.php:122-131 | a provider with coordinates has them saved once, inside the try; the exception of that save, if any, is logged |
| Builder.AttemptEffects | src/Service/Geocoder/GeocoderBuilder.php:120-133 | one provider turn saves to the cache exactly when the provider found coordinates, and logs exactly the exception it met: the provider's, or that of the hit-save inside the try |
| Builder.ChainResultOnWritableStore | src/Service/Geocoder/GeocoderBuilder.php:105-113 | when a save for the address can pass (the query works, and the identity is stored or the flush works), the loop returns the first hit among the providers' answers (null if none), and the table ends as a save of that result leaves it |
| Builder.ChainReadsNothing | src/Service/Geocoder/GeocoderBuilder.php:105-111 | the provider loop and its miss-write never read the cache |
| Builder.CallsUpToHitIsRange | src/Service/Geocoder/GeocoderBuilder.php:105-110 | the calls read off the answers are those of the providers from the first one up to and including the first hit (all of them without a hit), in list order |
| Builder.ChainCallsOnWritableStore | src/Service/Geocoder/GeocoderBuilder.php:105-110 | when a save for the address can pass (the query works, and the identity is stored or the flush works), the providers up to and including the first hit are called in list order, with the address, and no later one |
| Builder.ChainEffectsOnWritableStore | src/Service/Geocoder/GeocoderBuilder.php:105-133 | when a save for the address can pass (the query works, and the identity is stored or the flush works) exactly one cache write is made, of the result or of the miss, and each provider exception before the hit is logged once, in order |
| Builder.ChainResultOnFailingStore | src/Service/Geocoder/GeocoderBuilder.php:105-133 | when the table cannot take a save for the address, no hit is returned, the final miss-write throws out of the loop, and the table is unchanged |
| Builder.ChainCallsOnFailingStore | src/Service/Geocoder/GeocoderBuilder.php:105-133 | when no save can succeed, every provider is called, in order |
| Builder.ChainEffectsOnFailingStore | src/Service/Geocoder/GeocoderBuilder.php:105-133 | when no save can succeed, each hit is attempted as a save and logged with the storage exception, each provider exception is logged, and the miss-write comes last |
| Builder.ConfigurationChecksFirst | src/Service/Geocoder/GeocoderBuilder.php:93-98 | an empty provider list fails with "Providers are not found" before the address is checked; a missing address fails with "Address is not found"; neither makes any call or changes the table |
| Builder.CacheHitShortCircuits | src/Service/Geocoder/GeocoderBuilder.php:99-103 | with the cache enabled, a non-null cache result is returned unchanged after one read, with no provider call and no write |
| Builder.KnownMissReturnsOrigin | src/Service/Geocoder/GeocoderBuilder.php:99-103 | with the cache enabled, a stored miss is returned as (0.0, 0.0) after one read, with no provider call |
| Builder.CacheReadFailurePropagates | src/Service/Geocoder/GeocoderBuilder.php:99-103 | a failing cache read throws out of getLocation after that read, with nothing else done |
| Builder.ResolveOnWritableStore | src/Service/Geocoder/GeocoderBuilder.php:91-133 | when a save for the address can pass (the query works, and the identity is stored or the flush works): the cache is read exactly when enabled; the result is the first provider hit; providers are called in order up to it; exactly one save, of the result, happens whatever the flag; every provider exception met is logged once; the table ends as that save leaves it |
| Builder.ResolveOnFailingStore | src/Service/Geocoder/GeocoderBuilder.php:91-133 | when the table cannot take a save, every provider is called, every hit's save is attempted and swallowed, and getLocation throws the storage exception from its miss-write, leaving the table unchanged |
| Builder.SecondCallIsServedByCache | src/Service/Geocoder/GeocoderBuilder.php:91-114 | after a resolution on a working database, the next cache-enabled call for the address calls no provider and returns the stored hit, or (0.0, 0.0) for a stored miss |
| Builder.MountainView | src/Service/Geocoder/GeocoderBuilder.php:91-114 | one stub provider finding (37.4220, -122.0841), cache disabled, empty table: that pair is returned, the trace is the call and the save, and the table holds the row |
| Builder.GeocoderBuilder.SetAddress | src/Service/Geocoder/GeocoderBuilder.php:58-63 | only the address changes, and the same builder is returned |
| Builder.GeocoderBuilder.SetProviders | src/Service/Geocoder/GeocoderBuilder.php:69-74 | only the provider list changes, and the same builder is returned |
| Builder.GeocoderBuilder.UseCache | src/Service/Geocoder/GeocoderBuilder.php:80-85 | only the cache flag changes, and the same builder is returned |
| Builder.GeocoderBuilder.FindAndCacheLocationFromProvider | src/Service/Geocoder/GeocoderBuilder.php:120-133 | the result, the calls appended to the trace and the new table are those of `Attempt` |
| Builder.GeocoderBuilder.WalkProviders | src/Service/Geocoder/GeocoderBuilder.php:105-113 | the loop and the miss-write return, log and store what `Chain` says |
| Builder.GeocoderBuilder.GetLocation | src/Service/Geocoder/GeocoderBuilder.php:91-114 | the result or exception, the calls in order, and the new table are those of `Resolve` on the builder's old fields |

## Left out

- Floating point: coordinates are exact reals. The float-to-string-to-float trip through the `lat` and `lng` columns (ResolvedAddressRepository.php:59-60, GeocoderDBCache.php:40) is modelled as the identity, apart from null reading back as 0.0.
- Guzzle and `json_decode` are not modelled. A client answers each request through a fixed function given at construction. A body is either decoded results or a decode error.
- The JSON field paths (`results[0].geometry.location_type`, `items[0].resultType`, `position`, and so on) are not modelled. Each decoded result is a precision tag plus a position. A body missing those fields is not modelled.
- Doctrine's entity manager, the generated row id, and concurrent writers racing on the unique index are not modelled. The table is a map keyed by the index. Database availability is a fixed `Faults` value per repository. The exception text of a unique-index violation is a placeholder, not the driver's wording.
- Doctrine closes its entity manager after a failed flush, and every later persist then throws "The EntityManager is closed". The model does not capture this: after a first failed flush, later hit-saves and the final miss-write log and throw the database's own message again (`ChainEffectsOnFailingStore`, `ResolveOnFailingStore`).
- The logger's formatting is not modelled. A log entry is the (message, exception) pair in the trace.
- The interfaces (GeocoderInterface, GeocoderCacheInterface, GeoBuilderInterface) are not modelled as types:
  - a provider is the `Provider` datatype: an HTTP adapter, the dummy geocoder, or a stub described by its answer;
  - the builder is bound to the database cache, the only cache implementation.
- The `Address` constructor and getters are not separate members. They are the datatype's constructor and fields, which cannot change after construction.
- The controller, the request object, the validator runtime and environment parsing are not modelled. `IsValid` states the annotations; it does not run Symfony's validator.
- The generic PHP `Exception` hierarchy is not modelled. Every exception a provider or a save can throw is one of the `Error` kinds, and all of them are caught by the `catch (Exception $e)` in findAndCacheLocationFromProvider.
