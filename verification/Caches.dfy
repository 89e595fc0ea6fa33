/** Caches in front of slow sources: the contact lookup of internal/facebook/outbound.go and the
    gate type lookup of internal/core/handler/outbound_message.go. An LRU cache is a map that
    may lose any entries when one is added (internal/core/store/gate_lru.go). */
module Caches {
  import opened Options

  datatype Result<+V, +E> = Ok(value: V) | Err(error: E)

  // ---- A cache over a source ----

  /** One question to the cache. The source answers `caller` about `key`, unless it is down;
      `evicted` is what the cache loses if it grows. The cache itself does not see the caller. */
  datatype Ask<C, K> = Ask(caller: C, key: K, down: bool, evicted: set<K>)

  type Source<!C, !K, +V, +E> = (C, K) -> Result<V, E>

  /** Answers from the cache, else from the source, and keeps what the source found.
      Errors are not kept. */
  function Memo<C, K, V, E>(cache: map<K, V>, source: Source<C, K, V, E>, failure: E, a: Ask<C, K>)
      : (map<K, V>, Result<V, E>) {
    if a.key in cache then (cache, Ok(cache[a.key]))
    else if a.down then (cache, Err(failure))
    else
      match source(a.caller, a.key)
      case Ok(v) => (cache[a.key := v] - a.evicted, Ok(v))
      case Err(e) => (cache, Err(e))
  }

  /** A resolver: some keys are answered as they are, without cache or source. */
  function Resolve<C, K, V, E>(cache: map<K, V>, plain: K -> Option<V>, source: Source<C, K, V, E>, failure: E,
                               a: Ask<C, K>)
      : (map<K, V>, Result<V, E>)
  {
    match plain(a.key)
    case Some(v) => (cache, Ok(v))
    case None => Memo(cache, source, failure, a)
  }

  /** The cache after a sequence of questions to a resolver with an empty cache. */
  function After<C, K, V, E>(plain: K -> Option<V>, source: Source<C, K, V, E>, failure: E, asks: seq<Ask<C, K>>)
      : map<K, V> {
    if asks == [] then map[]
    else Resolve(After(plain, source, failure, asks[..|asks| - 1]), plain, source, failure, asks[|asks| - 1]).0
  }

  /** The answer to question `i`. */
  function Answer<C, K, V, E>(plain: K -> Option<V>, source: Source<C, K, V, E>, failure: E, asks: seq<Ask<C, K>>,
                              i: nat): Result<V, E>
    requires i < |asks|
  {
    Resolve(After(plain, source, failure, asks[..i]), plain, source, failure, asks[i]).1
  }

  /** The answer without a cache, with the source up. */
  function Uncached<C, K, V, E>(plain: K -> Option<V>, source: Source<C, K, V, E>, caller: C, key: K): Result<V, E> {
    match plain(key)
    case Some(v) => Ok(v)
    case None => source(caller, key)
  }

  /** After every sequence of questions and evictions the resolver answers as it would without
      a cache; only when the source is down may it fail instead. */
  ghost predicate Transparent<C(!new), K(!new), V, E(!new)>(
      plain: K -> Option<V>, source: Source<C, K, V, E>, failure: E) {
    forall asks: seq<Ask<C, K>>, i: nat :: i < |asks| ==>
      || Answer(plain, source, failure, asks, i) == Uncached(plain, source, asks[i].caller, asks[i].key)
      || (asks[i].down && Answer(plain, source, failure, asks, i) == Err(failure))
  }

  /** What the source tells one caller about a key, it tells every caller. */
  ghost predicate Shared<C(!new), K(!new), V, E>(plain: K -> Option<V>, source: Source<C, K, V, E>) {
    forall c: C, d: C, k: K :: plain(k).None? && source(c, k).Ok? ==> source(d, k) == source(c, k)
  }

  lemma {:induction false} AfterFaithful<C(!new), K(!new), V, E>(
      plain: K -> Option<V>, source: Source<C, K, V, E>, failure: E, asks: seq<Ask<C, K>>, k: K, d: C)
    requires Shared(plain, source) && k in After(plain, source, failure, asks)
    ensures source(d, k) == Ok(After(plain, source, failure, asks)[k])
  {
    var front, a := asks[..|asks| - 1], asks[|asks| - 1];
    if k in After(plain, source, failure, front) {
      AfterFaithful(plain, source, failure, front, k, d);
    }
  }

  /** A cache that does not see the caller is transparent exactly when, on the keys that reach
      it, its source does not depend on who asks. */
  lemma {:induction false} CacheTransparent<C(!new), K(!new), V, E(!new)>(
      plain: K -> Option<V>, source: Source<C, K, V, E>, failure: E)
    ensures Transparent(plain, source, failure) <==> Shared(plain, source)
  {
    if Shared(plain, source) {
      forall asks: seq<Ask<C, K>>, i: nat | i < |asks|
        ensures Answer(plain, source, failure, asks, i) == Uncached(plain, source, asks[i].caller, asks[i].key)
             || (asks[i].down && Answer(plain, source, failure, asks, i) == Err(failure))
      {
        if asks[i].key in After(plain, source, failure, asks[..i]) {
          AfterFaithful(plain, source, failure, asks[..i], asks[i].key, asks[i].caller);
        }
      }
    }
    if Transparent(plain, source, failure) {
      forall c: C, d: C, k: K | plain(k).None? && source(c, k).Ok?
        ensures source(d, k) == source(c, k)
      {
        var asks := [Ask(c, k, false, {}), Ask(d, k, false, {})];
        assert asks[..1][..0] == [] && asks[..1][0] == Ask(c, k, false, {});
        assert After(plain, source, failure, asks[..1]) == map[k := source(c, k).value];
        assert Answer(plain, source, failure, asks, 1) == Uncached(plain, source, asks[1].caller, asks[1].key);
      }
    }
  }

  // ---- Facebook ids of contacts ----

  datatype LookupError = SearchFailed | NotFound

  /** The contact search, in the name of a gate: the subject of the first contact. */
  type Directory = (string, string) -> Option<string>

  /** A contact that is missing or has no subject is an error. */
  function Subject(directory: Directory): Source<string, string, string, LookupError> {
    (caller, id) =>
      if directory(caller, id).None? || directory(caller, id).value == "" then Err(NotFound)
      else Ok(directory(caller, id).value)
  }

  /** An id without a dash is a Facebook id already. */
  function PlainId(id: string): Option<string> {
    if '-' in id then None else Some(id)
  }

  class PsidResolver {
    var psidCache: map<string, string>

    constructor ()
      ensures psidCache == map[]
    {
      psidCache := map[];
    }

    method ResolvePSID(directory: Directory, a: Ask<string, string>) returns (r: Result<string, LookupError>)
      modifies this
      ensures '-' !in a.key ==> r == Ok(a.key) && psidCache == old(psidCache)
      ensures (psidCache, r) == Resolve(old(psidCache), PlainId, Subject(directory), SearchFailed, a)
    {
      if '-' !in a.key {
        return Ok(a.key);
      }
      if a.key in psidCache {
        return Ok(psidCache[a.key]);
      }
      if a.down {
        return Err(SearchFailed);
      }
      var found := directory(a.caller, a.key);
      if found.None? || found.value == "" {
        return Err(NotFound);
      }
      psidCache := psidCache[a.key := found.value] - a.evicted;
      return Ok(found.value);
    }
  }

  // ---- Gate types ----

  datatype GateType = TypeUnknown | TypeFacebook | TypeInstagram | TypeWhatsApp | TypeTelegramBot | TypeTelegramApp

  datatype StoreError = NoGate | StoreDown

  datatype SenderError = GateNotFound | TypeLookupFailed | UnknownType | NotRegistered(key: GateType)

  /** The gate table. A gate of a type the connector does not know has type TypeUnknown. */
  type Gates = string -> Option<GateType>

  /** No gate id says its type. */
  function PlainType(id: string): Option<GateType> {
    None
  }

  function TypeOf(gates: Gates): Source<(), string, GateType, StoreError> {
    (caller, id) => if gates(id).None? then Err(NoGate) else Ok(gates(id).value)
  }

  /** From the answer about the type to the provider registered for it. */
  function Provider(registry: set<GateType>, t: Result<GateType, StoreError>): Result<GateType, SenderError> {
    match t
    case Err(NoGate) => Err(GateNotFound)
    case Err(StoreDown) => Err(TypeLookupFailed)
    case Ok(TypeUnknown) => Err(UnknownType)
    case Ok(known) => if known in registry then Ok(known) else Err(NotRegistered(known))
  }

  class SenderResolver {
    var typeCache: map<string, GateType>
    const registry: set<GateType>

    constructor (registry: set<GateType>)
      ensures typeCache == map[] && this.registry == registry
    {
      typeCache := map[];
      this.registry := registry;
    }

    method ResolveSender(gates: Gates, a: Ask<(), string>) returns (r: Result<GateType, SenderError>)
      modifies this
      ensures var (cache, t) := Resolve(old(typeCache), PlainType, TypeOf(gates), StoreDown, a);
        typeCache == cache && r == Provider(registry, t)
    {
      var gateType: GateType;
      if a.key in typeCache {
        gateType := typeCache[a.key];
      } else {
        if a.down {
          return Err(TypeLookupFailed);
        }
        var t := gates(a.key);
        if t.None? {
          return Err(GateNotFound);
        }
        typeCache := typeCache[a.key := t.value] - a.evicted;
        gateType := t.value;
      }
      if gateType.TypeUnknown? {
        return Err(UnknownType);
      }
      if gateType !in registry {
        return Err(NotRegistered(gateType));
      }
      return Ok(gateType);
    }
  }

  /** The answer of `ResolveSender` to question `i`. */
  function SenderAnswer(registry: set<GateType>, gates: Gates, asks: seq<Ask<(), string>>, i: nat)
      : Result<GateType, SenderError>
    requires i < |asks|
  {
    Provider(registry, Answer(PlainType, TypeOf(gates), StoreDown, asks, i))
  }

  /** What `resolvePSID` answers and keeps: an id without a dash answers itself; else the cached
      subject, else the contact's, if there is one that is not empty. Only that is kept. */
  lemma {:induction false} PsidFound(cache: map<string, string>, directory: Directory, a: Ask<string, string>)
    ensures var (after, r) := Resolve(cache, PlainId, Subject(directory), SearchFailed, a);
      if '-' !in a.key then r == Ok(a.key) && after == cache
      else if a.key in cache then r == Ok(cache[a.key]) && after == cache
      else if a.down then r == Err(SearchFailed) && after == cache
      else
        match directory(a.caller, a.key)
        case None => r == Err(NotFound) && after == cache
        case Some(sub) =>
          if sub == "" then r == Err(NotFound) && after == cache
          else r == Ok(sub) && after == cache[a.key := sub] - a.evicted
  {
  }

  /** The search finds a subject that is not empty. */
  predicate Finds(directory: Directory, caller: string, id: string) {
    directory(caller, id).Some? && directory(caller, id).value != ""
  }

  /** `ResolvePSID` is transparent exactly when a subject that the search finds for one gate, for
      an id with a dash, it finds for every gate; the other ids never depend on anything. */
  lemma {:induction false} PsidTransparent(directory: Directory)
    ensures Transparent(PlainId, Subject(directory), SearchFailed) <==>
            forall c: string, d: string, id: string ::
              '-' in id && Finds(directory, c, id) ==> directory(d, id) == directory(c, id)
  {
    CacheTransparent(PlainId, Subject(directory), SearchFailed);
    var source := Subject(directory);
    if Shared(PlainId, source) {
      forall c: string, d: string, id: string | '-' in id && Finds(directory, c, id)
        ensures directory(d, id) == directory(c, id)
      {
        assert PlainId(id).None? && source(c, id) == Ok(directory(c, id).value);
        assert source(d, id) == source(c, id);
      }
    }
    if forall c: string, d: string, id: string ::
         '-' in id && Finds(directory, c, id) ==> directory(d, id) == directory(c, id)
    {
      forall c: string, d: string, id: string | PlainId(id).None? && source(c, id).Ok?
        ensures source(d, id) == source(c, id)
      {
        assert '-' in id && Finds(directory, c, id);
      }
    }
  }

  /** What `resolveSender` answers and keeps: the provider registered for the cached type, else
      for the type of the gate's row. A type is kept even when it is unknown or not registered. */
  lemma {:induction false} SenderFound(cache: map<string, GateType>, registry: set<GateType>, gates: Gates,
                                       a: Ask<(), string>)
    ensures var (after, t) := Resolve(cache, PlainType, TypeOf(gates), StoreDown, a);
      var r := Provider(registry, t);
      if a.key !in cache && a.down then r == Err(TypeLookupFailed) && after == cache
      else if a.key !in cache && gates(a.key).None? then r == Err(GateNotFound) && after == cache
      else
        var known := if a.key in cache then cache[a.key] else gates(a.key).value;
        && after == (if a.key in cache then cache else cache[a.key := known] - a.evicted)
        && r == if known == TypeUnknown then Err(UnknownType)
                else if known in registry then Ok(known) else Err(NotRegistered(known))
  {
  }

  /** Over an unchanging gate table `ResolveSender` always answers by the gate's own row and the
      registry, or, with the store down, that the lookup failed. */
  lemma {:induction false} SenderTransparent(registry: set<GateType>, gates: Gates, asks: seq<Ask<(), string>>, i: nat)
    requires i < |asks|
    ensures var r := SenderAnswer(registry, gates, asks, i);
      || (asks[i].down && r == Err(TypeLookupFailed))
      || r == match gates(asks[i].key)
              case None => Err(GateNotFound)
              case Some(TypeUnknown) => Err(UnknownType)
              case Some(t) => if t in registry then Ok(t) else Err(NotRegistered(t))
  {
    CacheTransparent(PlainType, TypeOf(gates), StoreDown);
    assert Shared(PlainType, TypeOf(gates));
    var t := Answer(PlainType, TypeOf(gates), StoreDown, asks, i);
    assert t == Uncached(PlainType, TypeOf(gates), asks[i].caller, asks[i].key)
      || (asks[i].down && t == Err(StoreDown));
  }
}
