/** The two value objects of the service: a postal address (the lookup
    argument and, through its four fields, the cache identity) and a
    latitude/longitude pair. Both are immutable: a datatype's fields are its
    getters and nothing can change them after construction. */
module ValueObjects {

  /** App\ValueObject\Address: country code, city, street, postcode. */
  datatype Address = Address(country: string, city: string, street: string, postcode: string)

  /** App\ValueObject\Coordinates. Floating point is not modelled: a
      coordinate is an exact real number. */
  datatype Coordinates = Coordinates(lat: real, lng: real)

  /** Bounds of the @Assert\Length annotations on Address. */
  const COUNTRY_MIN_LENGTH := 2
  const COUNTRY_MAX_LENGTH := 3
  const CITY_MAX_LENGTH := 255
  const STREET_MAX_LENGTH := 255
  const POSTCODE_MAX_LENGTH := 16

  /** The request keys fromArray reads. */
  const COUNTRY_KEY := "country_code"
  const CITY_KEY := "city"
  const STREET_KEY := "street"
  const POSTCODE_KEY := "postcode"

  /** Symfony's NotBlank on a string: only the empty string is blank (the
      validator exempts "0", which PHP's empty() would call empty). */
  predicate NotBlank(s: string)
  {
    s != ""
  }

  /** The validity the @Assert annotations declare, field by field. */
  predicate IsValid(a: Address)
  {
    && NotBlank(a.country) && COUNTRY_MIN_LENGTH <= |a.country| <= COUNTRY_MAX_LENGTH
    && NotBlank(a.city) && |a.city| <= CITY_MAX_LENGTH
    && NotBlank(a.street) && |a.street| <= STREET_MAX_LENGTH
    && NotBlank(a.postcode) && |a.postcode| <= POSTCODE_MAX_LENGTH
  }

  /** `$params[$name] ?? ''` */
  function Param(params: map<string, string>, name: string): string
  {
    if name in params then params[name] else ""
  }

  /** Address::fromArray: the four request keys, each defaulting to ''. */
  function FromArray(params: map<string, string>): (a: Address)
    ensures COUNTRY_KEY in params ==> a.country == params[COUNTRY_KEY]
    ensures CITY_KEY in params ==> a.city == params[CITY_KEY]
    ensures STREET_KEY in params ==> a.street == params[STREET_KEY]
    ensures POSTCODE_KEY in params ==> a.postcode == params[POSTCODE_KEY]
    ensures COUNTRY_KEY !in params ==> a.country == ""
    ensures CITY_KEY !in params ==> a.city == ""
    ensures STREET_KEY !in params ==> a.street == ""
    ensures POSTCODE_KEY !in params ==> a.postcode == ""
  {
    Address(Param(params, COUNTRY_KEY), Param(params, CITY_KEY),
            Param(params, STREET_KEY), Param(params, POSTCODE_KEY))
  }

  /** The request array an address is read back from: the inverse of FromArray. */
  function ToArray(a: Address): map<string, string>
  {
    map[COUNTRY_KEY := a.country, CITY_KEY := a.city, STREET_KEY := a.street, POSTCODE_KEY := a.postcode]
  }

  /** Reading an address back from its own request array gives the same address. */
  lemma FromArrayToArray(a: Address)
    ensures FromArray(ToArray(a)) == a
  {
  }

  /** Keys other than the four are ignored: adding or changing them does not
      change the address. */
  lemma FromArrayIgnoresOtherKeys(params: map<string, string>, extra: map<string, string>)
    requires COUNTRY_KEY !in extra && CITY_KEY !in extra && STREET_KEY !in extra && POSTCODE_KEY !in extra
    ensures FromArray(params + extra) == FromArray(params)
  {
  }

  /** An address read from a request passes validation exactly when all four
      keys are present and their values satisfy the annotations; in
      particular a request missing any of the keys yields an invalid address. */
  lemma FromArrayValidity(params: map<string, string>)
    ensures IsValid(FromArray(params)) <==>
      && COUNTRY_KEY in params && CITY_KEY in params && STREET_KEY in params && POSTCODE_KEY in params
      && IsValid(Address(params[COUNTRY_KEY], params[CITY_KEY], params[STREET_KEY], params[POSTCODE_KEY]))
  {
  }
}
