/** The HTTP side of a provider adapter, reduced to what the adapters use:
    one GET with a query array, and a JSON body that decodes to a list of
    candidate results (each with a precision tag and a position) or fails to
    decode. The transport itself is outside the model: a client answers a
    request through a fixed function and keeps a log of what it was sent. */
module Http {

  /** A GET: the URI and the 'query' option, as ordered (name, value) pairs. */
  datatype Request = Request(uri: string, query: seq<(string, string)>)

  /** One decoded result: its precision tag (Google's geometry.location_type,
      HERE's resultType) and its position. */
  datatype Candidate = Candidate(kind: string, lat: real, lng: real)

  /** A response body: JSON that decodes to the provider's result list
      (Google's `results`, HERE's `items`), or text json_decode rejects. */
  datatype Body = Json(results: seq<Candidate>) | Malformed(message: string)

  /** What the client returns, or the transport failure it throws. */
  datatype Reply = Response(body: Body) | TransportError(message: string)

  /** The Guzzle client: the network is the fixed `respond` function; `sent`
      records every request issued. */
  class HttpClient {
    const respond: Request -> Reply
    ghost var sent: seq<Request>

    constructor (respond: Request -> Reply)
      ensures this.respond == respond && sent == []
    {
      this.respond := respond;
      sent := [];
    }

    /** `$client->get($uri, ['query' => $query])`. */
    method Get(uri: string, query: seq<(string, string)>) returns (reply: Reply)
      modifies this
      ensures sent == old(sent) + [Request(uri, query)]
      ensures reply == respond(Request(uri, query))
    {
      sent := sent + [Request(uri, query)];
      reply := respond(Request(uri, query));
    }
  }

  /** PHP implode with a one-character glue. */
  function Implode(glue: char, pieces: seq<string>): string
  {
    if |pieces| == 0 then ""
    else if |pieces| == 1 then pieces[0]
    else pieces[0] + [glue] + Implode(glue, pieces[1..])
  }

  /** The inverse direction: cut a string at every occurrence of the glue. */
  function Explode(glue: char, s: string): (parts: seq<string>)
    ensures |parts| >= 1
  {
    if |s| == 0 then [""]
    else if s[0] == glue then [""] + Explode(glue, s[1..])
    else
      var rest := Explode(glue, s[1..]);
      [[s[0]] + rest[0]] + rest[1..]
  }

  /** Cutting a piece free of the glue, followed by the glue and a tail,
      yields the piece and then the tail's own parts. */
  lemma {:induction false} ExplodeAfterPiece(glue: char, piece: string, tail: string)
    requires glue !in piece
    ensures Explode(glue, piece + [glue] + tail) == [piece] + Explode(glue, tail)
  {
    if |piece| == 0 {
      assert piece + [glue] + tail == [glue] + tail;
    } else {
      var s := piece + [glue] + tail;
      assert s[0] == piece[0] && s[1..] == piece[1..] + [glue] + tail;
      ExplodeAfterPiece(glue, piece[1..], tail);
      assert [piece[0]] + piece[1..] == piece;
    }
  }

  /** A piece free of the glue is not cut. */
  lemma {:induction false} ExplodeWhole(glue: char, piece: string)
    requires glue !in piece
    ensures Explode(glue, piece) == [piece]
  {
    if |piece| > 0 {
      ExplodeWhole(glue, piece[1..]);
      assert [piece[0]] + piece[1..] == piece;
    }
  }

  /** implode is reversible when no piece contains the glue: the query
      string the adapters build names each component unambiguously. */
  lemma {:induction false} ExplodeImplode(glue: char, pieces: seq<string>)
    requires |pieces| >= 1
    requires forall i :: 0 <= i < |pieces| ==> glue !in pieces[i]
    ensures Explode(glue, Implode(glue, pieces)) == pieces
  {
    if |pieces| == 1 {
      ExplodeWhole(glue, pieces[0]);
    } else {
      ExplodeImplode(glue, pieces[1..]);
      ExplodeAfterPiece(glue, pieces[0], Implode(glue, pieces[1..]));
      assert [pieces[0]] + pieces[1..] == pieces;
    }
  }
}
