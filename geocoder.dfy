/** The provider side of the resolution chain. Geocoder is the template both
    HTTP adapters share (credential guard, one GET, decode, the adapter's
    processResponse); Provider is anything the builder can be given as a
    GeocoderInterface. */
module Geocoding {
  import opened Wrappers
  import opened Errors
  import opened ValueObjects
  import opened Http
  import GoogleMaps
  import HereMaps

  /** Which concrete subclass of Geocoder. */
  datatype Variant = GoogleMapsGeocoder | HereMapsGeocoder

  const API_KEY_NOT_PROVIDED := "Api key is not provided"

  /** PHP's empty() on a string: "" and "0" are both empty. */
  predicate EmptyString(s: string)
  {
    s == "" || s == "0"
  }

  /** The precision tag a variant's processResponse accepts on the first
      result: Google's ROOFTOP, HERE's houseNumber. */
  function PrecisionTag(variant: Variant): string
  {
    match variant
    case GoogleMapsGeocoder => GoogleMaps.ROOFTOP
    case HereMapsGeocoder => HereMaps.HOUSE_NUMBER
  }

  /** json_decode followed by the adapter's processResponse: a transport
      failure or an undecodable body throws; a decoded body is passed to the
      precision gate. */
  function Interpret(variant: Variant, reply: Reply): (r: Result<Option<Coordinates>, Error>)
    ensures reply.TransportError? ==> r == Failure(TransportException(reply.message))
    ensures reply.Response? && reply.body.Malformed? ==> r == Failure(JsonException(reply.body.message))
    ensures r.Success? <==> reply.Response? && reply.body.Json?
    ensures reply.Response? && reply.body.Json? ==>
      r == Success(if variant.GoogleMapsGeocoder? then GoogleMaps.ProcessResponse(reply.body.results)
                   else HereMaps.ProcessResponse(reply.body.results))
    ensures r.Success? ==>
      (r.value.Some? <==> |reply.body.results| > 0 && reply.body.results[0].kind == PrecisionTag(variant))
    ensures r.Success? && r.value.Some? ==>
      r.value.value == Coordinates(reply.body.results[0].lat, reply.body.results[0].lng)
  {
    match reply
    case TransportError(m) => Failure(TransportException(m))
    case Response(Malformed(m)) => Failure(JsonException(m))
    case Response(Json(results)) =>
      match variant
      case GoogleMapsGeocoder => Success(GoogleMaps.ProcessResponse(results))
      case HereMapsGeocoder => Success(HereMaps.ProcessResponse(results))
  }

  /** App\Service\Geocoder\Geocoder with its subclass chosen by `variant`. */
  class Geocoder {
    const variant: Variant
    const apiKey: string
    const client: HttpClient

    constructor (variant: Variant, client: HttpClient, apiKey: string)
      ensures this.variant == variant && this.client == client && this.apiKey == apiKey
    {
      this.variant := variant;
      this.client := client;
      this.apiKey := apiKey;
    }

    /** The subclass's $apiUri. */
    function ApiUri(): string
    {
      match variant
      case GoogleMapsGeocoder => GoogleMaps.API_URI
      case HereMapsGeocoder => HereMaps.API_URI
    }

    /** The subclass's getRequestParams. */
    function RequestParams(a: Address): seq<(string, string)>
    {
      match variant
      case GoogleMapsGeocoder => GoogleMaps.RequestParams(a, apiKey)
      case HereMapsGeocoder => HereMaps.RequestParams(a, apiKey)
    }

    /** The request getLocation issues for an address. */
    function RequestFor(a: Address): Request
    {
      Request(ApiUri(), RequestParams(a))
    }

    /** What getLocation returns for an address, as a value: an empty
        credential throws before anything is sent; otherwise the answer to
        the one request, interpreted. */
    function Locate(a: Address): Result<Option<Coordinates>, Error>
    {
      if EmptyString(apiKey) then Failure(GeocoderException(API_KEY_NOT_PROVIDED))
      else Interpret(variant, client.respond(RequestFor(a)))
    }

    /** getLocation: exactly one GET to the adapter's URI with its request
        parameters when the credential is present, none otherwise. */
    method GetLocation(a: Address) returns (r: Result<Option<Coordinates>, Error>)
      modifies client
      ensures r == Locate(a)
      ensures client.sent == old(client.sent) + (if EmptyString(apiKey) then [] else [RequestFor(a)])
    {
      if EmptyString(apiKey) {
        return Failure(GeocoderException(API_KEY_NOT_PROVIDED));
      }
      var reply := client.Get(ApiUri(), RequestParams(a));
      r := Interpret(variant, reply);
    }
  }

  /** What one provider call comes to, from the builder's side. */
  datatype Answer = Found(coordinates: Coordinates) | NotFound | Failed(error: Error)

  /** A GeocoderInterface the builder can be given: one of the two HTTP
      adapters, the DummyGeocoder, or any other implementation (a test
      double, say) described by the answer it gives. */
  datatype Provider = Remote(geocoder: Geocoder) | Dummy | Stub(answer: Answer)

  /** DummyGeocoder's fixed answer. */
  const DUMMY_COORDINATES := Coordinates(1.0, 2.0)

  /** A provider's answer for an address. */
  function AnswerOf(p: Provider, a: Address): Answer
  {
    match p
    case Dummy => Found(DUMMY_COORDINATES)
    case Stub(answer) => answer
    case Remote(g) =>
      match g.Locate(a)
      case Failure(e) => Failed(e)
      case Success(None) => NotFound
      case Success(Some(c)) => Found(c)
  }

  /** The HTTP clients a list of providers can send requests through. */
  function ClientsOf(ps: seq<Provider>): set<HttpClient>
  {
    set i | 0 <= i < |ps| && ps[i].Remote? :: ps[i].geocoder.client
  }

  /** `$provider->getLocation($address)`. */
  method Call(p: Provider, a: Address) returns (answer: Answer)
    modifies ClientsOf([p])
    ensures answer == AnswerOf(p, a)
  {
    match p
    case Dummy => answer := Found(DUMMY_COORDINATES);
    case Stub(x) => answer := x;
    case Remote(g) =>
      assert [p][0] == p;
      assert g.client in ClientsOf([p]);
      var r := g.GetLocation(a);
      match r
      case Failure(e) => answer := Failed(e);
      case Success(None) => answer := NotFound;
      case Success(Some(c)) => answer := Found(c);
  }

  /** An empty credential stops an HTTP adapter before the network: its
      answer is the GeocoderException whatever the client would reply. */
  lemma EmptyKeyFailsFirst(g: Geocoder, a: Address)
    requires EmptyString(g.apiKey)
    ensures AnswerOf(Remote(g), a) == Failed(GeocoderException(API_KEY_NOT_PROVIDED))
  {
  }

  /** An HTTP adapter answers with coordinates exactly when its credential
      is present, the reply to its one request decodes, and the first result
      carries the variant's precision tag; the coordinates are then that
      result's position. */
  lemma FoundExactlyThroughGate(g: Geocoder, a: Address)
    ensures var reply := g.client.respond(g.RequestFor(a));
      AnswerOf(Remote(g), a).Found? <==>
        && !EmptyString(g.apiKey)
        && reply.Response? && reply.body.Json? && |reply.body.results| > 0
        && reply.body.results[0].kind == PrecisionTag(g.variant)
    ensures var reply := g.client.respond(g.RequestFor(a));
      AnswerOf(Remote(g), a).Found? ==>
        AnswerOf(Remote(g), a).coordinates == Coordinates(reply.body.results[0].lat, reply.body.results[0].lng)
  {
  }
}
