/** The exceptions that reach or leave the resolution core. Every one of them
    is a PHP `Exception`, so the builder's `catch (Exception $e)` catches all
    of them; `message` is what `getMessage()` returns. */
module Errors {

  datatype Error =
    /** App\Service\Geocoder\Exceptions\GeocoderException: misconfiguration. */
    | GeocoderException(message: string)
    /** A Doctrine ORM / DBAL exception raised by a query or a flush. */
    | StorageException(message: string)
    /** A GuzzleException: the HTTP request did not produce a usable response. */
    | TransportException(message: string)
    /** \JsonException from json_decode with JSON_THROW_ON_ERROR. */
    | JsonException(message: string)
}
