/** GoogleMapsGeocoder: the Google Geocoding API adapter's two pure parts,
    the query it sends and the precision gate it applies to the answer. */
module GoogleMaps {
  import opened Wrappers
  import opened ValueObjects
  import opened Http

  const API_URI := "https://maps.googleapis.com/maps/api/geocode/json"

  /** The only location_type accepted: an exact street-address match. */
  const ROOFTOP := "ROOFTOP"

  /** The `components` filter: country, locality and postal code joined by '|'. */
  function Components(a: Address): string
  {
    Implode('|', ["country:" + a.country, "locality:" + a.city, "postal_code:" + a.postcode])
  }

  /** getRequestParams: the street goes in `address`, the rest in
      `components`, the credential in `key`. */
  function RequestParams(a: Address, apiKey: string): (query: seq<(string, string)>)
    ensures |query| == 3
    ensures query[0] == ("address", a.street) && query[2] == ("key", apiKey)
    ensures query[1].0 == "components"
    ensures query[1].1 == "country:" + a.country + "|locality:" + a.city + "|postal_code:" + a.postcode
  {
    ComponentsLayout(a);
    [("address", a.street), ("components", Components(a)), ("key", apiKey)]
  }

  /** The components string spelled out, in its fixed order. */
  lemma ComponentsLayout(a: Address)
    ensures Components(a) == "country:" + a.country + "|locality:" + a.city + "|postal_code:" + a.postcode
  {
    var p := ["country:" + a.country, "locality:" + a.city, "postal_code:" + a.postcode];
    assert Implode('|', p[2..]) == p[2];
    assert Implode('|', p[1..]) == p[1] + "|" + p[2];
  }

  /** When no field contains '|', the three components can be read back
      from the string, so the filter is unambiguous. */
  lemma ComponentsRoundTrip(a: Address)
    requires '|' !in a.country && '|' !in a.city && '|' !in a.postcode
    ensures Explode('|', Components(a)) ==
      ["country:" + a.country, "locality:" + a.city, "postal_code:" + a.postcode]
  {
    var p := ["country:" + a.country, "locality:" + a.city, "postal_code:" + a.postcode];
    assert "country:"[..] + a.country == p[0];
    assert forall i :: 0 <= i < |p| ==> '|' !in p[i];
    ExplodeImplode('|', p);
  }

  /** processResponse: no results, or a first result that is not ROOFTOP,
      gives null; otherwise the first result's location. */
  function ProcessResponse(results: seq<Candidate>): (r: Option<Coordinates>)
    ensures r.Some? <==> |results| > 0 && results[0].kind == ROOFTOP
    ensures r.Some? ==> r.value == Coordinates(results[0].lat, results[0].lng)
  {
    if |results| == 0 then None
    else if results[0].kind != ROOFTOP then None
    else Some(Coordinates(results[0].lat, results[0].lng))
  }

  /** Only the first result is inspected: whatever follows it does not
      change the answer. */
  lemma OnlyFirstResultCounts(first: Candidate, rest1: seq<Candidate>, rest2: seq<Candidate>)
    ensures ProcessResponse([first] + rest1) == ProcessResponse([first] + rest2)
  {
  }
}
