/** The resolved_address table and its repository: a store of at most one row
    per address identity (the unique index `search_idx` over country code,
    city, street and postcode), each row holding either coordinates or a null
    "known miss". The table is a map keyed by that 4-tuple, which is what the
    unique index guarantees. */
module Repository {
  import opened Wrappers
  import opened Errors
  import opened ValueObjects

  /** The columns of the unique index search_idx. */
  datatype Key = Key(countryCode: string, city: string, street: string, postcode: string)

  /** A row of the table (App\Entity\ResolvedAddress without its generated
      id). lat and lng are nullable; both are null in a known miss. */
  datatype ResolvedAddress = ResolvedAddress(
    countryCode: string, city: string, street: string, postcode: string,
    lat: Option<real>, lng: Option<real>)

  /** How the database behaves for the lifetime of the model: `onQuery` is
      Some(message) when every SELECT throws, `onFlush` is Some(message) when
      every flush throws. This stands for the database's availability, which
      the application does not control. */
  datatype Faults = Faults(onQuery: Option<string>, onFlush: Option<string>)

  /** The table as a value: its rows and how the database answers. */
  datatype Table = Table(rows: map<Key, ResolvedAddress>, faults: Faults)

  /** Message of the exception a flush raises when an insert collides with
      the unique index (the driver's own wording is not modelled). */
  const DUPLICATE_ENTRY := "Duplicate entry for unique index search_idx"

  /** The identity of an address: the getters getByAddress queries by. */
  function KeyOf(a: Address): Key
  {
    Key(a.country, a.city, a.street, a.postcode)
  }

  /** The identity columns of a row. */
  function RowKey(row: ResolvedAddress): Key
  {
    Key(row.countryCode, row.city, row.street, row.postcode)
  }

  /** The findOneBy criteria of getByAddress: all four columns equal. */
  predicate Matches(row: ResolvedAddress, a: Address)
  {
    && row.countryCode == a.country && row.city == a.city
    && row.street == a.street && row.postcode == a.postcode
  }

  /** The table's invariant: every row sits under its own identity, and its
      lat and lng are either both null or both set. */
  ghost predicate WellFormed(rows: map<Key, ResolvedAddress>)
  {
    forall k :: k in rows ==> RowKey(rows[k]) == k && (rows[k].lat.Some? <==> rows[k].lng.Some?)
  }

  /** findOneBy over the table with getByAddress's criteria, as a lookup by
      key; FindOneByIsScan states what it finds in terms of all the rows. */
  function FindOneBy(rows: map<Key, ResolvedAddress>, a: Address): Option<ResolvedAddress>
  {
    if KeyOf(a) in rows then Some(rows[KeyOf(a)]) else None
  }

  /** On a well-formed table the keyed lookup is the scan findOneBy
      performs: it finds a row exactly when some row matches on all four
      columns, and the row it finds is a matching one. */
  lemma FindOneByIsScan(rows: map<Key, ResolvedAddress>, a: Address)
    requires WellFormed(rows)
    ensures var r := FindOneBy(rows, a);
      && (r.Some? ==> r.value in rows.Values && Matches(r.value, a))
      && (r.None? <==> forall row :: row in rows.Values ==> !Matches(row, a))
  {
    if KeyOf(a) !in rows {
      forall row | row in rows.Values ensures !Matches(row, a) {
        var k :| k in rows && rows[k] == row;
        assert RowKey(row) == k;
      }
    }
  }

  /** getByAddress on a table value: the SELECT throws when the database
      rejects queries, and otherwise returns the matching row or null. */
  function Find(t: Table, a: Address): (r: Result<Option<ResolvedAddress>, Error>)
    ensures r.Failure? <==> t.faults.onQuery.Some?
    ensures r.Failure? ==> r.error == StorageException(t.faults.onQuery.value)
    ensures r.Success? ==> (r.value.Some? <==> KeyOf(a) in t.rows)
    ensures r.Success? && r.value.Some? ==> r.value.value == t.rows[KeyOf(a)]
  {
    if t.faults.onQuery.Some? then Failure(StorageException(t.faults.onQuery.value))
    else Success(FindOneBy(t.rows, a))
  }

  /** The entity saveResolvedAddress builds: the four address fields copied,
      and lat/lng set from the coordinates or left null. */
  function NewRecord(a: Address, c: Option<Coordinates>): (row: ResolvedAddress)
    ensures RowKey(row) == KeyOf(a) && Matches(row, a)
    ensures row.lat.Some? <==> c.Some?
    ensures row.lng.Some? <==> c.Some?
    ensures c.Some? ==> row.lat.value == c.value.lat && row.lng.value == c.value.lng
  {
    match c
    case None => ResolvedAddress(a.country, a.city, a.street, a.postcode, None, None)
    case Some(p) => ResolvedAddress(a.country, a.city, a.street, a.postcode, Some(p.lat), Some(p.lng))
  }

  /** The effect of a write: what it raised, and the rows afterwards. */
  datatype Write = Write(outcome: Outcome<Error>, rows: map<Key, ResolvedAddress>)

  /** saveResolvedAddress on a table value: persist and flush a new row. The
      flush throws when the database rejects writes or when the unique index
      already holds the identity; a failed flush inserts nothing. */
  function Persist(t: Table, a: Address, c: Option<Coordinates>): (w: Write)
    ensures w.outcome.Fail? <==> t.faults.onFlush.Some? || KeyOf(a) in t.rows
    ensures w.outcome.Fail? ==> w.rows == t.rows
    ensures w.outcome.Pass? ==> w.rows == t.rows[KeyOf(a) := NewRecord(a, c)]
  {
    if t.faults.onFlush.Some? then Write(Fail(StorageException(t.faults.onFlush.value)), t.rows)
    else if KeyOf(a) in t.rows then Write(Fail(StorageException(DUPLICATE_ENTRY)), t.rows)
    else Write(Pass, t.rows[KeyOf(a) := NewRecord(a, c)])
  }

  /** saveIfNotExist on a table value: insert only when getByAddress finds
      nothing. */
  function PersistIfAbsent(t: Table, a: Address, c: Option<Coordinates>): (w: Write)
    ensures w.outcome.Fail? ==> w.rows == t.rows
    ensures KeyOf(a) in t.rows ==> w.rows == t.rows
    ensures w.outcome.Pass? ==> KeyOf(a) in w.rows
    ensures w.outcome.Pass? && KeyOf(a) !in t.rows ==> w.rows[KeyOf(a)] == NewRecord(a, c)
  {
    match Find(t, a)
    case Failure(e) => Write(Fail(e), t.rows)
    case Success(found) =>
      if found.None? then Persist(t, a, c) else Write(Pass, t.rows)
  }

  /** saveIfNotExist touches no other identity: every other key is stored
      afterwards exactly when it was before, with the same row. */
  lemma PersistIfAbsentKeepsOtherKeys(t: Table, a: Address, c: Option<Coordinates>, k: Key)
    requires k != KeyOf(a)
    ensures var w := PersistIfAbsent(t, a, c);
      (k in w.rows <==> k in t.rows) && (k in t.rows ==> w.rows[k] == t.rows[k])
  {
  }

  /** Both saves keep the table well formed: the new row sits under its own
      identity, with lat and lng set or null together. */
  lemma SavesKeepWellFormed(t: Table, a: Address, c: Option<Coordinates>)
    requires WellFormed(t.rows)
    ensures WellFormed(Persist(t, a, c).rows)
    ensures WellFormed(PersistIfAbsent(t, a, c).rows)
  {
  }

  /** When saveIfNotExist fails, and with which exception, does not depend on
      the coordinates being saved: a hit and a miss fail alike. */
  lemma PersistIfAbsentOutcome(t: Table, a: Address, c: Option<Coordinates>)
    ensures PersistIfAbsent(t, a, c).outcome == PersistIfAbsent(t, a, None).outcome
    ensures PersistIfAbsent(t, a, c).outcome.Fail? <==>
      t.faults.onQuery.Some? || (KeyOf(a) !in t.rows && t.faults.onFlush.Some?)
  {
  }

  /** First writer wins: a second saveIfNotExist for the same identity leaves
      the table as the first one left it, whatever coordinates it carries,
      so the value stored first (hit or miss) stays authoritative. */
  lemma FirstWriterWins(t: Table, a: Address, c1: Option<Coordinates>, c2: Option<Coordinates>)
    requires t.faults.onQuery.None?
    ensures var first := PersistIfAbsent(t, a, c1);
      var second := PersistIfAbsent(Table(first.rows, t.faults), a, c2);
      first.outcome.Pass? ==> second.outcome.Pass? && second.rows == first.rows
  {
  }

  /** With a healthy database saveIfNotExist always succeeds, and afterwards
      the identity has exactly the row it had, or the new one if it had none. */
  lemma PersistIfAbsentOnHealthyStore(t: Table, a: Address, c: Option<Coordinates>)
    requires t.faults == Faults(None, None)
    ensures var w := PersistIfAbsent(t, a, c);
      && w.outcome.Pass?
      && w.rows == (if KeyOf(a) in t.rows then t.rows else t.rows[KeyOf(a) := NewRecord(a, c)])
  {
  }

  /** App\Repository\ResolvedAddressRepository over the table. */
  class ResolvedAddressRepository {
    var rows: map<Key, ResolvedAddress>
    const faults: Faults

    ghost predicate Valid()
      reads this
    {
      WellFormed(rows)
    }

    /** The table as a value. */
    function State(): Table
      reads this
    {
      Table(rows, faults)
    }

    constructor (faults: Faults)
      ensures Valid() && rows == map[] && this.faults == faults
    {
      rows := map[];
      this.faults := faults;
    }

    /** getByAddress: a read of the table. */
    function GetByAddress(a: Address): (r: Result<Option<ResolvedAddress>, Error>)
      reads this
      requires Valid()
      ensures r == Find(State(), a)
      ensures r.Success? && r.value.Some? ==> Matches(r.value.value, a)
    {
      Find(State(), a)
    }

    /** saveResolvedAddress: build the entity, persist it and flush. */
    method SaveResolvedAddress(a: Address, c: Option<Coordinates>) returns (r: Outcome<Error>)
      requires Valid()
      modifies this
      ensures Valid()
      ensures Write(r, rows) == Persist(old(State()), a, c)
    {
      if faults.onFlush.Some? {
        r := Fail(StorageException(faults.onFlush.value));
      } else if KeyOf(a) in rows {
        r := Fail(StorageException(DUPLICATE_ENTRY));
      } else {
        SavesKeepWellFormed(State(), a, c);
        var row := NewRecord(a, c);
        rows := rows[KeyOf(a) := row];
        r := Pass;
      }
    }

    /** saveIfNotExist: look the identity up, and save only if it is absent. */
    method SaveIfNotExist(a: Address, c: Option<Coordinates>) returns (r: Outcome<Error>)
      requires Valid()
      modifies this
      ensures Valid()
      ensures Write(r, rows) == PersistIfAbsent(old(State()), a, c)
    {
      var found := GetByAddress(a);
      if found.Failure? {
        r := Fail(found.error);
      } else if found.value.None? {
        r := SaveResolvedAddress(a, c);
      } else {
        r := Pass;
      }
    }
  }
}
