/** HereMapsGeocoder: the HERE Geocoding and Search API adapter's two pure
    parts, the qualified query it sends and the precision gate it applies. */
module HereMaps {
  import opened Wrappers
  import opened ValueObjects
  import opened Http

  const API_URI := "https://geocode.search.hereapi.com/v1/geocode"

  /** The only resultType accepted: a house-number-level match. */
  const HOUSE_NUMBER := "houseNumber"

  /** The qualified query `qq`: four name=value pairs joined by ';'. */
  function QualifiedQuery(a: Address): string
  {
    Implode(';', ["country=" + a.country, "city=" + a.city, "street=" + a.street, "postalCode=" + a.postcode])
  }

  /** getRequestParams: the qualified query in `qq`, the credential in `apiKey`. */
  function RequestParams(a: Address, apiKey: string): (query: seq<(string, string)>)
    ensures |query| == 2
    ensures query[0].0 == "qq"
    ensures query[0].1 ==
      "country=" + a.country + ";" + "city=" + a.city + ";" + "street=" + a.street + ";" + "postalCode=" + a.postcode
    ensures query[1] == ("apiKey", apiKey)
  {
    QualifiedQueryLayout(a);
    [("qq", QualifiedQuery(a)), ("apiKey", apiKey)]
  }

  /** The qualified query spelled out, in its fixed order. */
  lemma QualifiedQueryLayout(a: Address)
    ensures QualifiedQuery(a) ==
      "country=" + a.country + ";" + "city=" + a.city + ";" + "street=" + a.street + ";" + "postalCode=" + a.postcode
  {
    var c, ci, st, pc := "country=" + a.country, "city=" + a.city, "street=" + a.street, "postalCode=" + a.postcode;
    var p := [c, ci, st, pc];
    assert Implode(';', p[3..]) == pc;
    assert Implode(';', p[2..]) == st + ";" + pc;
    assert Implode(';', p[1..]) == ci + ";" + (st + ";" + pc);
    assert QualifiedQuery(a) == c + ";" + (ci + ";" + (st + ";" + pc));
  }

  /** When no field contains ';', the four pairs can be read back from the
      query, so it is unambiguous. */
  lemma QualifiedQueryRoundTrip(a: Address)
    requires ';' !in a.country && ';' !in a.city && ';' !in a.street && ';' !in a.postcode
    ensures Explode(';', QualifiedQuery(a)) ==
      ["country=" + a.country, "city=" + a.city, "street=" + a.street, "postalCode=" + a.postcode]
  {
    var p := ["country=" + a.country, "city=" + a.city, "street=" + a.street, "postalCode=" + a.postcode];
    assert forall i :: 0 <= i < |p| ==> ';' !in p[i];
    ExplodeImplode(';', p);
  }

  /** processResponse: no items, or a first item that is not a house number,
      gives null; otherwise the first item's position. */
  function ProcessResponse(items: seq<Candidate>): (r: Option<Coordinates>)
    ensures r.Some? <==> |items| > 0 && items[0].kind == HOUSE_NUMBER
    ensures r.Some? ==> r.value == Coordinates(items[0].lat, items[0].lng)
  {
    if |items| == 0 then None
    else if items[0].kind != HOUSE_NUMBER then None
    else Some(Coordinates(items[0].lat, items[0].lng))
  }

  /** Only the first item is inspected. */
  lemma OnlyFirstItemCounts(first: Candidate, rest1: seq<Candidate>, rest2: seq<Candidate>)
    ensures ProcessResponse([first] + rest1) == ProcessResponse([first] + rest2)
  {
  }
}
