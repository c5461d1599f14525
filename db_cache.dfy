/** GeocoderDBCache: the resolution cache over the resolved_address table. A
    read maps a row to coordinates; a write delegates to saveIfNotExist, so
    the cache never overwrites an identity it already holds. */
module DbCache {
  import opened Wrappers
  import opened Errors
  import opened ValueObjects
  import opened Repository

  /** PHP's `(float)` cast of a nullable column: null becomes 0.0. */
  function FloatCast(v: Option<real>): (x: real)
    ensures v.Some? ==> x == v.value
    ensures v.None? ==> x == 0.0
  {
    match v
    case None => 0.0
    case Some(y) => y
  }

  /** The coordinates a stored row reads back as. A known miss has null lat
      and lng and therefore reads back as (0.0, 0.0), not as null. */
  function RowCoordinates(row: ResolvedAddress): (c: Coordinates)
    ensures row.lat.Some? ==> c.lat == row.lat.value
    ensures row.lng.Some? ==> c.lng == row.lng.value
    ensures row.lat.None? && row.lng.None? ==> c == Coordinates(0.0, 0.0)
  {
    Coordinates(FloatCast(row.lat), FloatCast(row.lng))
  }

  /** getLocation on a table value: null exactly when the table has no row
      for the identity; otherwise the row's coordinates, with a known miss
      read as (0.0, 0.0). A query failure propagates. */
  function CachedLocation(t: Table, a: Address): (r: Result<Option<Coordinates>, Error>)
    ensures r.Failure? <==> t.faults.onQuery.Some?
    ensures r.Failure? ==> r.error == StorageException(t.faults.onQuery.value)
    ensures r.Success? ==> (r.value.None? <==> KeyOf(a) !in t.rows)
    ensures r.Success? && KeyOf(a) in t.rows ==> r.value == Some(RowCoordinates(t.rows[KeyOf(a)]))
  {
    match Find(t, a)
    case Failure(e) => Failure(e)
    case Success(None) => Success(None)
    case Success(Some(row)) => Success(Some(RowCoordinates(row)))
  }

  /** Round trip through the cache: on a healthy database, saving coordinates
      for an identity that has no row and reading them back gives those
      coordinates; saving a miss and reading it back gives (0.0, 0.0). */
  lemma SaveThenRead(t: Table, a: Address, c: Option<Coordinates>)
    requires t.faults == Faults(None, None)
    requires KeyOf(a) !in t.rows
    ensures var w := PersistIfAbsent(t, a, c);
      CachedLocation(Table(w.rows, t.faults), a) ==
        Success(Some(if c.Some? then c.value else Coordinates(0.0, 0.0)))
  {
  }

  /** A stored record is never replaced: once the identity has a row, every
      later save leaves what getLocation reads unchanged. */
  lemma SavedEntryIsStable(t: Table, a: Address, c: Option<Coordinates>)
    requires KeyOf(a) in t.rows
    ensures var w := PersistIfAbsent(t, a, c);
      CachedLocation(Table(w.rows, t.faults), a) == CachedLocation(t, a)
  {
  }

  /** App\Service\Geocoder\Cache\GeocoderDBCache. */
  class GeocoderDBCache {
    const repository: ResolvedAddressRepository

    constructor (repository: ResolvedAddressRepository)
      ensures this.repository == repository
    {
      this.repository := repository;
    }

    /** getLocation: a read of the store; it changes nothing. */
    function GetLocation(a: Address): (r: Result<Option<Coordinates>, Error>)
      reads repository
      requires repository.Valid()
      ensures r == CachedLocation(repository.State(), a)
      ensures r.Success? && r.value.Some? ==> KeyOf(a) in repository.rows
    {
      CachedLocation(repository.State(), a)
    }

    /** saveLocation: the coordinates default to null, which records a miss. */
    method SaveLocation(a: Address, coordinates: Option<Coordinates> := None) returns (r: Outcome<Error>)
      requires repository.Valid()
      modifies repository
      ensures repository.Valid()
      ensures Write(r, repository.rows) == PersistIfAbsent(old(repository.State()), a, coordinates)
    {
      r := repository.SaveIfNotExist(a, coordinates);
    }
  }
}
