/** GeocoderBuilder: the resolution orchestrator. Setters store the address,
    the ordered providers and the cache flag; getLocation validates the
    configuration, optionally reads the cache, walks the providers in order
    (a provider's exception is logged and counts as no answer), saves the
    first hit, or saves a miss when every provider comes up empty.

    Resolve (with Chain and Attempt) is that behaviour as a value: the result,
    the trace of calls the collaborators see, and the table afterwards.
    GeocoderBuilder.GetLocation is proved to do exactly what Resolve says. */
module Builder {
  import opened Wrappers
  import opened Errors
  import opened ValueObjects
  import opened Repository
  import opened DbCache
  import opened Geocoding

  const PROVIDERS_NOT_FOUND := "Providers are not found"
  const ADDRESS_NOT_FOUND := "Address is not found"

  /** One call the builder makes on a collaborator. */
  datatype Event =
    /** `$this->cache->getLocation($address)` */
    | CacheRead(address: Address)
    /** `$provider->getLocation($address)` on the provider at `index` */
    | ProviderCall(index: nat, address: Address)
    /** `$this->cache->saveLocation($address, $coordinates)` */
    | CacheWrite(address: Address, coordinates: Option<Coordinates>)
    /** `$this->logger->error($e->getMessage(), ['exception' => $e])` */
    | LoggedError(message: string, exception: Error)

  /** The outcome of getLocation as a value: what it returns or throws, the
      calls it made in order, and the table afterwards. */
  datatype Run = Run(result: Result<Option<Coordinates>, Error>, events: seq<Event>, rows: map<Key, ResolvedAddress>)

  /** The outcome of findAndCacheLocationFromProvider. */
  datatype Step = Step(found: Option<Coordinates>, events: seq<Event>, rows: map<Key, ResolvedAddress>)

  /** Calls `events` made before a run's own calls. */
  function Prepend(events: seq<Event>, run: Run): Run
  {
    Run(run.result, events + run.events, run.rows)
  }

  /** The log entry for a caught exception. */
  function Logged(e: Error): Event
  {
    LoggedError(e.message, e)
  }

  /** findAndCacheLocationFromProvider: call the provider inside the try; on
      a hit, save it (still inside the try) and return it; any exception,
      including one from that save, is logged and gives null. */
  function Attempt(p: Provider, i: nat, a: Address, t: Table): (s: Step)
  {
    var call := [ProviderCall(i, a)];
    match AnswerOf(p, a)
    case NotFound => Step(None, call, t.rows)
    case Failed(e) => Step(None, call + [Logged(e)], t.rows)
    case Found(c) =>
      var w := PersistIfAbsent(t, a, Some(c));
      if w.outcome.Fail? then Step(None, call + [CacheWrite(a, Some(c)), Logged(w.outcome.error)], w.rows)
      else Step(Some(c), call + [CacheWrite(a, Some(c))], w.rows)
  }

  /** The foreach over the providers from index i, and the miss-write after
      it (outside the try, so its exception propagates). */
  function Chain(ps: seq<Provider>, i: nat, a: Address, t: Table): (run: Run)
    requires i <= |ps|
    decreases |ps| - i
  {
    if i == |ps| then
      var w := PersistIfAbsent(t, a, None);
      Run(if w.outcome.Fail? then Failure(w.outcome.error) else Success(None), [CacheWrite(a, None)], w.rows)
    else
      var s := Attempt(ps[i], i, a, t);
      if s.found.Some? then Run(Success(s.found), s.events, s.rows)
      else Prepend(s.events, Chain(ps, i + 1, a, Table(s.rows, t.faults)))
  }

  /** getLocation: the two configuration checks, the optional cache read
      (outside the try: its exception propagates; only a non-null result
      returns early), then the provider chain. */
  function Resolve(ps: seq<Provider>, address: Option<Address>, useCache: bool, t: Table): (run: Run)
  {
    if |ps| == 0 then Run(Failure(GeocoderException(PROVIDERS_NOT_FOUND)), [], t.rows)
    else if address.None? then Run(Failure(GeocoderException(ADDRESS_NOT_FOUND)), [], t.rows)
    else
      var a := address.value;
      if useCache then
        match CachedLocation(t, a)
        case Failure(e) => Run(Failure(e), [CacheRead(a)], t.rows)
        case Success(Some(c)) => Run(Success(Some(c)), [CacheRead(a)], t.rows)
        case Success(None) => Prepend([CacheRead(a)], Chain(ps, 0, a, t))
      else Chain(ps, 0, a, t)
  }

  // ---------------------------------------------------------------------
  // Views of a trace and of the providers' answers

  datatype Kind = Reads | Calls | Writes | Logs

  predicate OfKind(e: Event, k: Kind)
  {
    match k
    case Reads => e.CacheRead?
    case Calls => e.ProviderCall?
    case Writes => e.CacheWrite?
    case Logs => e.LoggedError?
  }

  /** The events of one kind, in order: what a mock of that collaborator sees. */
  function Filter(events: seq<Event>, k: Kind): seq<Event>
  {
    if |events| == 0 then []
    else (if OfKind(events[0], k) then [events[0]] else []) + Filter(events[1..], k)
  }

  /** Filtering distributes over concatenation, for every kind. */
  lemma {:induction false} FilterAppend(x: seq<Event>, y: seq<Event>)
    ensures forall k :: Filter(x + y, k) == Filter(x, k) + Filter(y, k)
  {
    if |x| > 0 {
      assert (x + y)[1..] == x[1..] + y;
      FilterAppend(x[1..], y);
    } else {
      assert x + y == y;
    }
  }

  lemma FilterCons(e: Event, rest: seq<Event>)
    ensures forall k :: Filter([e] + rest, k) == (if OfKind(e, k) then [e] else []) + Filter(rest, k)
  {
  }

  /** The views of one provider turn with events [call] + rest. */
  lemma CallThen(call: Event, rest: seq<Event>)
    requires call.ProviderCall?
    requires forall j :: 0 <= j < |rest| ==> !rest[j].ProviderCall? && !rest[j].CacheRead?
    ensures Filter([call] + rest, Reads) == []
    ensures Filter([call] + rest, Calls) == [call]
    ensures Filter([call] + rest, Writes) == Filter(rest, Writes)
    ensures Filter([call] + rest, Logs) == Filter(rest, Logs)
  {
    FilterCons(call, rest);
    NoneOfKind(rest, Reads);
    NoneOfKind(rest, Calls);
  }

  lemma {:induction false} NoneOfKind(events: seq<Event>, k: Kind)
    requires forall j :: 0 <= j < |events| ==> !OfKind(events[j], k)
    ensures Filter(events, k) == []
  {
    if |events| > 0 {
      NoneOfKind(events[1..], k);
    }
  }

  /** One provider's turn makes one call of that provider, with the
      address, and reads no cache. */
  lemma AttemptCalls(p: Provider, i: nat, a: Address, t: Table)
    ensures var s := Attempt(p, i, a, t);
      Filter(s.events, Reads) == [] && Filter(s.events, Calls) == [ProviderCall(i, a)]
  {
    var s := Attempt(p, i, a, t);
    var call := ProviderCall(i, a);
    assert s.events == [call] + s.events[1..];
    CallThen(call, s.events[1..]);
  }

  /** What one provider's turn shows the cache and the logger: a hit-save
      exactly when it answered with coordinates, and a log entry exactly when
      something threw (the provider, or the save of its hit). */
  lemma AttemptEffects(p: Provider, i: nat, a: Address, t: Table)
    ensures var s := Attempt(p, i, a, t);
      && Filter(s.events, Writes) == (if AnswerOf(p, a).Found? then [CacheWrite(a, Some(AnswerOf(p, a).coordinates))] else [])
      && Filter(s.events, Logs) ==
           (match AnswerOf(p, a)
            case Failed(e) => [Logged(e)]
            case NotFound => []
            case Found(c) =>
              var w := PersistIfAbsent(t, a, Some(c));
              if w.outcome.Fail? then [Logged(w.outcome.error)] else [])
  {
    match AnswerOf(p, a)
    case NotFound =>
      CallThen(ProviderCall(i, a), []);
    case Failed(e) =>
      FailedTurn(p, i, a, t, e);
    case Found(c) =>
      FoundTurn(p, i, a, t, c);
  }

  /** A provider that throws: its exception is logged and nothing is saved. */
  lemma FailedTurn(p: Provider, i: nat, a: Address, t: Table, e: Error)
    requires AnswerOf(p, a) == Failed(e)
    ensures var s := Attempt(p, i, a, t);
      Filter(s.events, Writes) == [] && Filter(s.events, Logs) == [Logged(e)]
  {
    var rest := [Logged(e)];
    assert Attempt(p, i, a, t).events == [ProviderCall(i, a)] + rest;
    assert [Logged(e)] + [] == rest;
    FilterCons(Logged(e), []);
    CallThen(ProviderCall(i, a), rest);
  }

  /** A provider with coordinates: its hit is saved, and the exception of
      that save, if any, is logged. */
  lemma FoundTurn(p: Provider, i: nat, a: Address, t: Table, c: Coordinates)
    requires AnswerOf(p, a) == Found(c)
    ensures var s := Attempt(p, i, a, t);
      var w := PersistIfAbsent(t, a, Some(c));
      && Filter(s.events, Writes) == [CacheWrite(a, Some(c))]
      && Filter(s.events, Logs) == (if w.outcome.Fail? then [Logged(w.outcome.error)] else [])
  {
    var s := Attempt(p, i, a, t);
    var w := PersistIfAbsent(t, a, Some(c));
    var call := ProviderCall(i, a);
    var write := CacheWrite(a, Some(c));
    assert [write] + [] == [write];
    FilterCons(write, []);
    if w.outcome.Fail? {
      var log := Logged(w.outcome.error);
      var rest := [write, log];
      assert s.events == [call] + rest;
      assert rest == [write] + [log];
      assert [log] + [] == [log];
      FilterCons(log, []);
      FilterCons(write, [log]);
      CallThen(call, rest);
    } else {
      assert s.events == [call] + [write];
      CallThen(call, [write]);
    }
  }

  /** One turn of the foreach: a provider turn without a result continues
      with the next provider on the table as that turn left it. */
  lemma ChainStep(ps: seq<Provider>, i: nat, a: Address, t: Table)
    requires i < |ps|
    ensures var s := Attempt(ps[i], i, a, t);
      Chain(ps, i, a, t) ==
        if s.found.Some? then Run(Success(s.found), s.events, s.rows)
        else Prepend(s.events, Chain(ps, i + 1, a, Table(s.rows, t.faults)))
  {
  }

  /** Calls of the providers lo, lo+1, ..., hi-1, in that order, each with
      the address a. */
  function CallsFrom(a: Address, lo: nat, hi: nat): seq<Event>
    decreases hi - lo
  {
    if lo >= hi then [] else [ProviderCall(lo, a)] + CallsFrom(a, lo + 1, hi)
  }

  /** The providers' answers for an address, in list order. */
  function Answers(ps: seq<Provider>, a: Address): (ans: seq<Answer>)
    ensures |ans| == |ps|
    ensures forall j :: 0 <= j < |ps| ==> ans[j] == AnswerOf(ps[j], a)
  {
    seq(|ps|, j requires 0 <= j < |ps| => AnswerOf(ps[j], a))
  }

  /** The first coordinates in a list of answers: the reference meaning of
      "the first provider with a result wins". */
  function FirstFound(ans: seq<Answer>): Option<Coordinates>
  {
    if |ans| == 0 then None
    else if ans[0].Found? then Some(ans[0].coordinates)
    else FirstFound(ans[1..])
  }

  /** How many providers are asked before the first hit (inclusive). */
  function Consulted(ans: seq<Answer>): nat
  {
    if |ans| == 0 then 0
    else if ans[0].Found? then 1
    else 1 + Consulted(ans[1..])
  }

  /** The log entries of the failures among the providers asked. */
  function FailuresBeforeHit(ans: seq<Answer>): seq<Event>
  {
    if |ans| == 0 then []
    else if ans[0].Found? then []
    else (if ans[0].Failed? then [Logged(ans[0].error)] else []) + FailuresBeforeHit(ans[1..])
  }

  /** The hit-saves attempted when every save fails. */
  function HitWrites(a: Address, ans: seq<Answer>): seq<Event>
  {
    if |ans| == 0 then []
    else (if ans[0].Found? then [CacheWrite(a, Some(ans[0].coordinates))] else []) + HitWrites(a, ans[1..])
  }

  /** The log entries when every save fails with e: one per provider
      exception, and e once for every hit whose save threw. */
  function Swallowed(ans: seq<Answer>, e: Error): seq<Event>
  {
    if |ans| == 0 then []
    else
      (match ans[0]
       case Found(_) => [Logged(e)]
       case Failed(x) => [Logged(x)]
       case NotFound => []) + Swallowed(ans[1..], e)
  }

  // ---------------------------------------------------------------------
  // Properties of the chain
  //
  // A table is writable for an address when saving a miss for it passes:
  // the query works, and either the identity is already stored (no flush
  // happens) or the flush works. Every table is writable for a given
  // address or failing for it, so the two families of lemmas below cover
  // every table.

  /** On a writable table the chain returns the first hit among the
      answers (null if none), and the table ends as saveIfNotExist of that
      result leaves it. */
  lemma {:induction false} ChainResultOnWritableStore(ps: seq<Provider>, i: nat, a: Address, t: Table)
    requires i <= |ps|
    requires PersistIfAbsent(t, a, None).outcome.Pass?
    ensures var run := Chain(ps, i, a, t);
      var ans := Answers(ps, a)[i..];
      && run.result == Success(FirstFound(ans))
      && run.rows == PersistIfAbsent(t, a, FirstFound(ans)).rows
    decreases |ps| - i
  {
    var ans := Answers(ps, a)[i..];
    if i < |ps| {
      assert ans[0] == AnswerOf(ps[i], a);
      assert ans[1..] == Answers(ps, a)[i + 1..];
      ChainStep(ps, i, a, t);
      match AnswerOf(ps[i], a)
      case Found(c) =>
        PersistIfAbsentOutcome(t, a, Some(c));
      case NotFound =>
        ChainResultOnWritableStore(ps, i + 1, a, t);
      case Failed(e) =>
        ChainResultOnWritableStore(ps, i + 1, a, t);
    }
  }

  /** The provider loop and its miss-write never read the cache. */
  lemma {:induction false} ChainReadsNothing(ps: seq<Provider>, i: nat, a: Address, t: Table)
    requires i <= |ps|
    ensures Filter(Chain(ps, i, a, t).events, Reads) == []
    decreases |ps| - i
  {
    if i == |ps| {
      FilterCons(CacheWrite(a, None), []);
    } else {
      var s := Attempt(ps[i], i, a, t);
      AttemptCalls(ps[i], i, a, t);
      ChainStep(ps, i, a, t);
      if s.found.None? {
        ChainReadsNothing(ps, i + 1, a, Table(s.rows, t.faults));
        FilterAppend(s.events, Chain(ps, i + 1, a, Table(s.rows, t.faults)).events);
      }
    }
  }

  /** The calls the loop makes from provider i on, read off the answers:
      each provider is called, and the loop stops after the first hit. */
  function CallsUpToHit(a: Address, i: nat, ans: seq<Answer>): seq<Event>
    decreases |ans|
  {
    if |ans| == 0 then []
    else [ProviderCall(i, a)] + (if ans[0].Found? then [] else CallsUpToHit(a, i + 1, ans[1..]))
  }

  /** Those calls are of the providers i, i+1, ..., up to and including the
      first hit (all of them when there is none), in that order. */
  lemma {:induction false} CallsUpToHitIsRange(a: Address, i: nat, ans: seq<Answer>)
    ensures CallsUpToHit(a, i, ans) == CallsFrom(a, i, i + Consulted(ans))
    decreases |ans|
  {
    if |ans| > 0 {
      assert CallsFrom(a, i + 1, i + 1) == [];
      if !ans[0].Found? {
        CallsUpToHitIsRange(a, i + 1, ans[1..]);
      }
    }
  }

  /** A turn without a result adds one call in front of the rest of the loop's. */
  lemma CallsPastMiss(ps: seq<Provider>, i: nat, a: Address, t: Table)
    requires i < |ps|
    requires !AnswerOf(ps[i], a).Found?
    ensures Filter(Chain(ps, i, a, t).events, Calls) == [ProviderCall(i, a)] + Filter(Chain(ps, i + 1, a, t).events, Calls)
  {
    var s := Attempt(ps[i], i, a, t);
    AttemptCalls(ps[i], i, a, t);
    ChainStep(ps, i, a, t);
    assert t == Table(s.rows, t.faults);
    FilterAppend(s.events, Chain(ps, i + 1, a, t).events);
  }

  /** On a writable table a turn with a result ends the loop after its one call. */
  lemma CallsAtHit(ps: seq<Provider>, i: nat, a: Address, t: Table)
    requires i < |ps|
    requires PersistIfAbsent(t, a, None).outcome.Pass?
    requires AnswerOf(ps[i], a).Found?
    ensures Filter(Chain(ps, i, a, t).events, Calls) == [ProviderCall(i, a)]
  {
    AttemptCalls(ps[i], i, a, t);
    ChainStep(ps, i, a, t);
    PersistIfAbsentOutcome(t, a, Some(AnswerOf(ps[i], a).coordinates));
  }

  /** On a writable table the providers up to and including the first hit
      are called in list order, and no later one. */
  lemma {:induction false} ChainCallsOnWritableStore(ps: seq<Provider>, i: nat, a: Address, t: Table)
    requires i <= |ps|
    requires PersistIfAbsent(t, a, None).outcome.Pass?
    ensures Filter(Chain(ps, i, a, t).events, Calls) == CallsUpToHit(a, i, Answers(ps, a)[i..])
    decreases |ps| - i
  {
    var ans := Answers(ps, a)[i..];
    if i == |ps| {
      FilterCons(CacheWrite(a, None), []);
    } else {
      assert ans[0] == AnswerOf(ps[i], a);
      if ans[0].Found? {
        CallsAtHit(ps, i, a, t);
      } else {
        assert ans[1..] == Answers(ps, a)[i + 1..];
        CallsPastMiss(ps, i, a, t);
        ChainCallsOnWritableStore(ps, i + 1, a, t);
      }
    }
  }

  /** On a writable table exactly one cache write is made, of the result,
      and each provider exception met before the first hit is logged once. */
  lemma {:induction false} ChainEffectsOnWritableStore(ps: seq<Provider>, i: nat, a: Address, t: Table)
    requires i <= |ps|
    requires PersistIfAbsent(t, a, None).outcome.Pass?
    ensures var run := Chain(ps, i, a, t);
      var ans := Answers(ps, a)[i..];
      && Filter(run.events, Writes) == [CacheWrite(a, FirstFound(ans))]
      && Filter(run.events, Logs) == FailuresBeforeHit(ans)
    decreases |ps| - i
  {
    var ans := Answers(ps, a)[i..];
    if i == |ps| {
      FilterCons(CacheWrite(a, None), []);
    } else {
      assert ans[0] == AnswerOf(ps[i], a);
      assert ans[1..] == Answers(ps, a)[i + 1..];
      var s := Attempt(ps[i], i, a, t);
      AttemptEffects(ps[i], i, a, t);
      ChainStep(ps, i, a, t);
      if AnswerOf(ps[i], a).Found? {
        PersistIfAbsentOutcome(t, a, Some(AnswerOf(ps[i], a).coordinates));
      } else {
        assert t == Table(s.rows, t.faults);
        ChainEffectsOnWritableStore(ps, i + 1, a, t);
        FilterAppend(s.events, Chain(ps, i + 1, a, t).events);
      }
    }
  }

  /** When the table cannot take a save for the address (the query throws,
      or the flush throws and the identity has no row), no hit's save
      succeeds: no provider returns from the chain, and the final miss-write
      throws the storage exception out of getLocation; the table is
      untouched. */
  lemma {:induction false} ChainResultOnFailingStore(ps: seq<Provider>, i: nat, a: Address, t: Table, e: Error)
    requires i <= |ps|
    requires PersistIfAbsent(t, a, None).outcome == Fail(e)
    ensures var run := Chain(ps, i, a, t);
      run.result == Failure(e) && run.rows == t.rows
    decreases |ps| - i
  {
    if i < |ps| {
      var s := Attempt(ps[i], i, a, t);
      ChainStep(ps, i, a, t);
      if AnswerOf(ps[i], a).Found? {
        PersistIfAbsentOutcome(t, a, Some(AnswerOf(ps[i], a).coordinates));
      }
      assert s.found.None? && t == Table(s.rows, t.faults);
      ChainResultOnFailingStore(ps, i + 1, a, t, e);
    }
  }

  /** On such a table every provider is called, in order. */
  lemma {:induction false} ChainCallsOnFailingStore(ps: seq<Provider>, i: nat, a: Address, t: Table, e: Error)
    requires i <= |ps|
    requires PersistIfAbsent(t, a, None).outcome == Fail(e)
    ensures Filter(Chain(ps, i, a, t).events, Calls) == CallsFrom(a, i, |ps|)
    decreases |ps| - i
  {
    if i == |ps| {
      FilterCons(CacheWrite(a, None), []);
    } else {
      var s := Attempt(ps[i], i, a, t);
      AttemptCalls(ps[i], i, a, t);
      ChainStep(ps, i, a, t);
      if AnswerOf(ps[i], a).Found? {
        PersistIfAbsentOutcome(t, a, Some(AnswerOf(ps[i], a).coordinates));
      }
      assert s.found.None? && t == Table(s.rows, t.faults);
      ChainCallsOnFailingStore(ps, i + 1, a, t, e);
      FilterAppend(s.events, Chain(ps, i + 1, a, t).events);
    }
  }

  /** On such a table each hit is attempted as a save and logged with the
      storage exception, each provider exception is logged, and the miss is
      attempted last. */
  lemma {:induction false} ChainEffectsOnFailingStore(ps: seq<Provider>, i: nat, a: Address, t: Table, e: Error)
    requires i <= |ps|
    requires PersistIfAbsent(t, a, None).outcome == Fail(e)
    ensures var run := Chain(ps, i, a, t);
      var ans := Answers(ps, a)[i..];
      && Filter(run.events, Writes) == HitWrites(a, ans) + [CacheWrite(a, None)]
      && Filter(run.events, Logs) == Swallowed(ans, e)
    decreases |ps| - i
  {
    var ans := Answers(ps, a)[i..];
    if i == |ps| {
      FilterCons(CacheWrite(a, None), []);
    } else {
      assert ans[0] == AnswerOf(ps[i], a);
      assert ans[1..] == Answers(ps, a)[i + 1..];
      var s := Attempt(ps[i], i, a, t);
      AttemptEffects(ps[i], i, a, t);
      ChainStep(ps, i, a, t);
      if AnswerOf(ps[i], a).Found? {
        PersistIfAbsentOutcome(t, a, Some(AnswerOf(ps[i], a).coordinates));
      }
      assert s.found.None? && t == Table(s.rows, t.faults);
      ChainEffectsOnFailingStore(ps, i + 1, a, t, e);
      FilterAppend(s.events, Chain(ps, i + 1, a, t).events);
      Associate(Filter(s.events, Writes), HitWrites(a, ans[1..]), [CacheWrite(a, None)]);
    }
  }

  // ---------------------------------------------------------------------
  // Properties of getLocation

  /** The configuration is checked first, providers before address, and a
      failed check makes no call at all and leaves the table alone. */
  lemma ConfigurationChecksFirst(ps: seq<Provider>, address: Option<Address>, useCache: bool, t: Table)
    ensures |ps| == 0 ==>
      Resolve(ps, address, useCache, t) == Run(Failure(GeocoderException(PROVIDERS_NOT_FOUND)), [], t.rows)
    ensures |ps| > 0 && address.None? ==>
      Resolve(ps, address, useCache, t) == Run(Failure(GeocoderException(ADDRESS_NOT_FOUND)), [], t.rows)
  {
  }

  /** With the cache enabled, a non-null cache result is returned unchanged
      after one cache read: no provider is called and nothing is written. */
  lemma CacheHitShortCircuits(ps: seq<Provider>, a: Address, t: Table, c: Coordinates)
    requires |ps| > 0
    requires CachedLocation(t, a) == Success(Some(c))
    ensures Resolve(ps, Some(a), true, t) == Run(Success(Some(c)), [CacheRead(a)], t.rows)
  {
  }

  /** With the cache enabled, a stored miss is not null once read back: it
      short-circuits the chain and getLocation returns (0.0, 0.0). */
  lemma KnownMissReturnsOrigin(ps: seq<Provider>, a: Address, t: Table)
    requires |ps| > 0
    requires t.faults.onQuery.None?
    requires KeyOf(a) in t.rows && t.rows[KeyOf(a)].lat.None? && t.rows[KeyOf(a)].lng.None?
    ensures Resolve(ps, Some(a), true, t) == Run(Success(Some(Coordinates(0.0, 0.0))), [CacheRead(a)], t.rows)
  {
  }

  /** With the cache enabled, a failing cache read propagates after that one
      read: nothing else is called. */
  lemma CacheReadFailurePropagates(ps: seq<Provider>, a: Address, t: Table)
    requires |ps| > 0
    requires t.faults.onQuery.Some?
    ensures Resolve(ps, Some(a), true, t) ==
      Run(Failure(StorageException(t.faults.onQuery.value)), [CacheRead(a)], t.rows)
  {
  }

  /** On a writable table, past a cache miss or with the cache disabled:
      the cache is read exactly when the flag is set; the result is the first
      provider hit; the providers before it and it are called in order with
      the address, and no later one; exactly one saveLocation is made, of that
      result (whatever the flag); and every provider exception met is logged
      once, in order. */
  lemma {:induction false} ResolveOnWritableStore(ps: seq<Provider>, a: Address, useCache: bool, t: Table)
    requires |ps| > 0
    requires PersistIfAbsent(t, a, None).outcome.Pass?
    requires useCache ==> KeyOf(a) !in t.rows
    ensures var run := Resolve(ps, Some(a), useCache, t);
      var ans := Answers(ps, a);
      && run.result == Success(FirstFound(ans))
      && Filter(run.events, Reads) == (if useCache then [CacheRead(a)] else [])
      && Filter(run.events, Calls) == CallsFrom(a, 0, Consulted(ans))
      && Filter(run.events, Writes) == [CacheWrite(a, FirstFound(ans))]
      && Filter(run.events, Logs) == FailuresBeforeHit(ans)
      && run.rows == PersistIfAbsent(t, a, FirstFound(ans)).rows
  {
    var chain := Chain(ps, 0, a, t);
    ChainResultOnWritableStore(ps, 0, a, t);
    ChainReadsNothing(ps, 0, a, t);
    ChainCallsOnWritableStore(ps, 0, a, t);
    ChainEffectsOnWritableStore(ps, 0, a, t);
    assert Answers(ps, a)[0..] == Answers(ps, a);
    CallsUpToHitIsRange(a, 0, Answers(ps, a));
    if useCache {
      FilterAppend([CacheRead(a)], chain.events);
      FilterCons(CacheRead(a), []);
    }
  }

  /** When the table cannot take a save for the address, and the cache read
      (if enabled) does not fail first: every provider is called, every hit
      is swallowed, and getLocation throws the storage exception from its
      final miss-write, leaving the table as it was. */
  lemma {:induction false} ResolveOnFailingStore(ps: seq<Provider>, a: Address, useCache: bool, t: Table, e: Error)
    requires |ps| > 0
    requires PersistIfAbsent(t, a, None).outcome == Fail(e)
    requires useCache ==> t.faults.onQuery.None?
    ensures var run := Resolve(ps, Some(a), useCache, t);
      && run.result == Failure(e)
      && run.rows == t.rows
      && Filter(run.events, Calls) == CallsFrom(a, 0, |ps|)
      && Filter(run.events, Writes) == HitWrites(a, Answers(ps, a)) + [CacheWrite(a, None)]
      && Filter(run.events, Logs) == Swallowed(Answers(ps, a), e)
  {
    var chain := Chain(ps, 0, a, t);
    ChainResultOnFailingStore(ps, 0, a, t, e);
    ChainCallsOnFailingStore(ps, 0, a, t, e);
    ChainEffectsOnFailingStore(ps, 0, a, t, e);
    assert Answers(ps, a)[0..] == Answers(ps, a);
    if useCache {
      FilterAppend([CacheRead(a)], chain.events);
      FilterCons(CacheRead(a), []);
    }
  }

  /** Every resolution that exhausts its providers on a healthy database
      leaves a record, so the next cache-enabled call for the same address
      calls no provider: it returns the stored hit, or (0.0, 0.0) for a
      stored miss. */
  lemma {:induction false} SecondCallIsServedByCache(ps: seq<Provider>, qs: seq<Provider>, a: Address, useCache: bool, t: Table)
    requires |ps| > 0 && |qs| > 0
    requires t.faults == Faults(None, None)
    requires KeyOf(a) !in t.rows
    ensures var first := Resolve(ps, Some(a), useCache, t);
      var found := FirstFound(Answers(ps, a));
      Resolve(qs, Some(a), true, Table(first.rows, t.faults)) ==
        Run(Success(Some(if found.Some? then found.value else Coordinates(0.0, 0.0))), [CacheRead(a)], first.rows)
  {
    var first := Resolve(ps, Some(a), useCache, t);
    var found := FirstFound(Answers(ps, a));
    PersistIfAbsentOnHealthyStore(t, a, None);
    ResolveOnWritableStore(ps, a, useCache, t);
    SaveThenRead(t, a, found);
  }

  /** A worked instance: one stub provider that finds (37.4220, -122.0841)
      for 1600 Amphitheatre Pkwy, the cache disabled, an empty healthy table.
      getLocation returns that pair and the table then holds it. */
  lemma MountainView()
    ensures var a := Address("US", "Mountain View", "1600 Amphitheatre Pkwy", "94043");
      var c := Coordinates(37.4220, -122.0841);
      var run := Resolve([Stub(Found(c))], Some(a), false, Table(map[], Faults(None, None)));
      && run.result == Success(Some(c))
      && run.events == [ProviderCall(0, a), CacheWrite(a, Some(c))]
      && run.rows == map[KeyOf(a) := ResolvedAddress("US", "Mountain View", "1600 Amphitheatre Pkwy", "94043", Some(37.4220), Some(-122.0841))]
  {
  }

  /** The clients one provider may use are among those of the list. */
  lemma ClientsOfOne(ps: seq<Provider>, i: nat)
    requires i < |ps|
    ensures ClientsOf([ps[i]]) <= ClientsOf(ps)
  {
  }

  /** The loop invariant of the foreach is kept by a turn without a result. */
  lemma WalkStep(ps: seq<Provider>, i: nat, a: Address, t0: Table, t: Table, done: seq<Event>)
    requires i < |ps|
    requires Chain(ps, 0, a, t0) == Prepend(done, Chain(ps, i, a, t))
    requires Attempt(ps[i], i, a, t).found.None?
    ensures var s := Attempt(ps[i], i, a, t);
      Chain(ps, 0, a, t0) == Prepend(done + s.events, Chain(ps, i + 1, a, Table(s.rows, t.faults)))
  {
  }

  /** Past the last provider only the miss-write is left. */
  lemma WalkEnd(ps: seq<Provider>, a: Address, t0: Table, t: Table, done: seq<Event>)
    requires Chain(ps, 0, a, t0) == Prepend(done, Chain(ps, |ps|, a, t))
    ensures var w := PersistIfAbsent(t, a, None);
      Chain(ps, 0, a, t0) ==
        Run(if w.outcome.Fail? then Failure(w.outcome.error) else Success(None), done + [CacheWrite(a, None)], w.rows)
  {
  }

  lemma Associate(x: seq<Event>, y: seq<Event>, z: seq<Event>)
    ensures x + y + z == x + (y + z)
  {
  }

  // ---------------------------------------------------------------------
  // The builder object

  /** App\Service\Geocoder\GeocoderBuilder over the database cache. `trace`
      is every call it has made on the cache, the providers and the logger. */
  class GeocoderBuilder {
    var providers: seq<Provider>
    var address: Option<Address>
    var useCache: bool
    const cache: GeocoderDBCache
    ghost var trace: seq<Event>

    ghost predicate Valid()
      reads this, cache.repository
    {
      cache.repository.Valid()
    }

    constructor (cache: GeocoderDBCache)
      ensures this.cache == cache
      ensures providers == [] && address == None && !useCache && trace == []
    {
      this.cache := cache;
      providers := [];
      address := None;
      useCache := false;
      trace := [];
    }

    /** setAddress: only the address changes; the same builder is returned. */
    method SetAddress(a: Address) returns (self: GeocoderBuilder)
      modifies this`address
      ensures self == this && address == Some(a)
    {
      address := Some(a);
      self := this;
    }

    /** setProviders: only the provider list changes. */
    method SetProviders(ps: seq<Provider>) returns (self: GeocoderBuilder)
      modifies this`providers
      ensures self == this && providers == ps
    {
      providers := ps;
      self := this;
    }

    /** useCache: only the cache flag changes. */
    method UseCache(flag: bool) returns (self: GeocoderBuilder)
      modifies this`useCache
      ensures self == this && useCache == flag
    {
      useCache := flag;
      self := this;
    }

    /** findAndCacheLocationFromProvider. */
    method FindAndCacheLocationFromProvider(p: Provider, i: nat, a: Address) returns (found: Option<Coordinates>)
      requires Valid()
      modifies this`trace, cache.repository, ClientsOf([p])
      ensures Valid()
      ensures var s := Attempt(p, i, a, old(cache.repository.State()));
        found == s.found && trace == old(trace) + s.events && cache.repository.rows == s.rows
    {
      trace := trace + [ProviderCall(i, a)];
      var answer := Call(p, a);
      match answer
      case NotFound =>
        found := None;
      case Failed(e) =>
        Associate(old(trace), [ProviderCall(i, a)], [Logged(e)]);
        trace := trace + [Logged(e)];
        found := None;
      case Found(c) =>
        Associate(old(trace), [ProviderCall(i, a)], [CacheWrite(a, Some(c))]);
        trace := trace + [CacheWrite(a, Some(c))];
        var saved := cache.SaveLocation(a, Some(c));
        if saved.Fail? {
          Associate(old(trace), [ProviderCall(i, a)] + [CacheWrite(a, Some(c))], [Logged(saved.error)]);
          trace := trace + [Logged(saved.error)];
          found := None;
        } else {
          found := Some(c);
        }
    }

    /** The foreach over the providers and the miss-write after it. */
    method WalkProviders(a: Address) returns (r: Result<Option<Coordinates>, Error>)
      requires Valid()
      modifies this`trace, cache.repository, ClientsOf(providers)
      ensures Valid()
      ensures var run := Chain(providers, 0, a, old(cache.repository.State()));
        r == run.result && trace == old(trace) + run.events && cache.repository.rows == run.rows
    {
      ghost var t0 := cache.repository.State();
      ghost var done: seq<Event> := [];
      var i := 0;
      while i < |providers|
        invariant 0 <= i <= |providers|
        invariant Valid()
        invariant trace == old(trace) + done
        invariant Chain(providers, 0, a, t0) == Prepend(done, Chain(providers, i, a, cache.repository.State()))
      {
        ghost var t := cache.repository.State();
        ghost var s := Attempt(providers[i], i, a, t);
        ClientsOfOne(providers, i);
        var found := FindAndCacheLocationFromProvider(providers[i], i, a);
        if found.Some? {
          ChainStep(providers, i, a, t);
          Associate(old(trace), done, s.events);
          return Success(found);
        }
        WalkStep(providers, i, a, t0, t, done);
        done := done + s.events;
        i := i + 1;
      }
      WalkEnd(providers, a, t0, cache.repository.State(), done);
      Associate(old(trace), done, [CacheWrite(a, None)]);
      trace := trace + [CacheWrite(a, None)];
      var saved := cache.SaveLocation(a);
      if saved.Fail? {
        r := Failure(saved.error);
      } else {
        r := Success(None);
      }
    }

    /** getLocation: returns or throws what Resolve says, makes the calls it
        lists in that order, and leaves the table as it says. */
    method GetLocation() returns (r: Result<Option<Coordinates>, Error>)
      requires Valid()
      modifies this`trace, cache.repository, ClientsOf(providers)
      ensures Valid()
      ensures var run := Resolve(old(providers), old(address), old(useCache), old(cache.repository.State()));
        r == run.result && trace == old(trace) + run.events && cache.repository.rows == run.rows
    {
      if |providers| == 0 {
        return Failure(GeocoderException(PROVIDERS_NOT_FOUND));
      }
      if address.None? {
        return Failure(GeocoderException(ADDRESS_NOT_FOUND));
      }
      var a := address.value;
      if useCache {
        trace := trace + [CacheRead(a)];
        var coordinates := cache.GetLocation(a);
        if coordinates.Failure? {
          return Failure(coordinates.error);
        }
        if coordinates.value.Some? {
          return coordinates;
        }
      }
      ghost var before := trace;
      r := WalkProviders(a);
      assert trace == before + (trace[|before|..]);
    }
  }
}
