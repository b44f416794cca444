/**
 * The `useApi` hook: one asynchronous fetch with `data`, `loading` and
 * `error` state cells and a single, unkeyed cache slot (`cacheRef`).
 *
 * The hook's events run one after another: `LoadStep` starts a fetch (or answers
 * from the cache), `CompleteStep` is the settling of the promise, `RefreshStep`
 * empties the cache and loads. The pure functions below are the
 * specification; the class `ApiHook` holds the same cells as fields and its
 * methods are the events.
 */
module UseApi {
  import opened Wrappers

  /** How the promise returned by `apiFunction` settles. */
  datatype Settlement<T> = Resolved(response: T) | Rejected(message: string)

  /**
   * The hook's cells, together with what the model records of the outside
   * world: `requests` lists, in order, the request each call of `apiFunction`
   * made (identified by the key its closure captured), and `pending` counts
   * the promises that have not settled yet.
   */
  datatype FetchState<K, T> = FetchState(
    data: Option<T>,
    loading: bool,
    error: Option<string>,
    cache: Option<T>,
    requests: seq<K>,
    pending: nat)

  /** `useState<T>()`, `useState(false)`, `useState(null)`, `useRef(null)`. */
  function Initial<K, T>(): (s: FetchState<K, T>)
    ensures Coherent(s)
  {
    FetchState(None, false, None, None, [], 0)
  }

  /** `if (cacheRef.current)`: the slot holds a value that JavaScript treats as true. */
  predicate CacheHit<T>(cache: Option<T>, truthy: T -> bool) {
    cache.Some? && truthy(cache.value)
  }

  /** `fetchData`: answer from the cache, or set `loading` and call `apiFunction` once. */
  function LoadStep<K, T>(s: FetchState<K, T>, key: K, truthy: T -> bool): (r: FetchState<K, T>)
    // With a usable cache: data becomes the cached value, no request, loading untouched.
    ensures CacheHit(s.cache, truthy) ==>
      r.data == s.cache && r.requests == s.requests && r.pending == s.pending && r.loading == s.loading
    // Otherwise: exactly one request, for this key, and loading is on.
    ensures !CacheHit(s.cache, truthy) ==>
      r.loading && r.data == s.data && r.requests == s.requests + [key] && r.pending == s.pending + 1
    ensures r.error == s.error && r.cache == s.cache
  {
    if CacheHit(s.cache, truthy) then s.(data := s.cache)
    else s.(loading := true, requests := s.requests + [key], pending := s.pending + 1)
  }

  /** The `.then` / `.catch` / `.finally` of the promise, with no check of which request it answers. */
  function CompleteStep<K, T>(s: FetchState<K, T>, outcome: Settlement<T>): (r: FetchState<K, T>)
    requires s.pending > 0
    ensures !r.loading && r.pending == s.pending - 1 && r.requests == s.requests
    ensures outcome.Resolved? ==>
      r.data == Some(outcome.response) && r.cache == Some(outcome.response) && r.error == s.error
    ensures outcome.Rejected? ==>
      r.error == Some(outcome.message) && r.data == s.data && r.cache == s.cache
  {
    var settled := match outcome
      case Resolved(response) => s.(data := Some(response), cache := Some(response))
      case Rejected(message) => s.(error := Some(message));
    settled.(loading := false, pending := s.pending - 1)
  }

  /** `refresh`: `cacheRef.current = null`, then `fetchData`. */
  function RefreshStep<K, T>(s: FetchState<K, T>, key: K, truthy: T -> bool): (r: FetchState<K, T>)
    ensures r.requests == s.requests + [key] && r.pending == s.pending + 1
    ensures r.loading && r.cache.None? && r.data == s.data && r.error == s.error
  {
    LoadStep(s.(cache := None), key, truthy)
  }

  // ---------------------------------------------------------------------------
  // Runs of events

  datatype Event<K, T> = LoadEvent(key: K) | SettleEvent(outcome: Settlement<T>) | RefreshEvent(key: K)

  /** One event; a settlement with nothing pending cannot occur and changes nothing. */
  function Step<K, T>(s: FetchState<K, T>, e: Event<K, T>, truthy: T -> bool): FetchState<K, T> {
    match e
    case LoadEvent(key) => LoadStep(s, key, truthy)
    case SettleEvent(outcome) => if s.pending == 0 then s else CompleteStep(s, outcome)
    case RefreshEvent(key) => RefreshStep(s, key, truthy)
  }

  function Run<K, T>(s: FetchState<K, T>, events: seq<Event<K, T>>, truthy: T -> bool): FetchState<K, T>
    decreases |events|
  {
    if events == [] then s else Run(Step(s, events[0], truthy), events[1..], truthy)
  }

  /**
   * What every reachable state satisfies: a filled cache is what is shown,
   * `loading` implies some request is outstanding, and every outstanding
   * request was issued.
   */
  ghost predicate Coherent<K, T>(s: FetchState<K, T>) {
    && (s.cache.Some? ==> s.data == s.cache)
    && (s.loading ==> s.pending > 0)
    && s.pending <= |s.requests|
  }

  lemma StepPreservesCoherent<K, T>(s: FetchState<K, T>, e: Event<K, T>, truthy: T -> bool)
    requires Coherent(s)
    ensures Coherent(Step(s, e, truthy))
  {
  }

  lemma {:induction false} RunPreservesCoherent<K, T>(s: FetchState<K, T>, events: seq<Event<K, T>>, truthy: T -> bool)
    requires Coherent(s)
    ensures Coherent(Run(s, events, truthy))
    decreases |events|
  {
    if events != [] {
      StepPreservesCoherent(s, events[0], truthy);
      RunPreservesCoherent(Step(s, events[0], truthy), events[1..], truthy);
    }
  }

  /** No branch resets `error`: once a fetch has failed, the message stays, whatever succeeds later. */
  lemma {:induction false} ErrorNeverCleared<K, T>(s: FetchState<K, T>, events: seq<Event<K, T>>, truthy: T -> bool)
    requires s.error.Some?
    ensures Run(s, events, truthy).error.Some?
    decreases |events|
  {
    if events != [] {
      ErrorNeverCleared(Step(s, events[0], truthy), events[1..], truthy);
    }
  }

  predicate NoRefresh<K, T>(events: seq<Event<K, T>>) {
    forall i :: 0 <= i < |events| ==> !events[i].RefreshEvent?
  }

  /**
   * The cache is one slot, not keyed by request: once it holds a usable value
   * and nothing is outstanding, loads for any keys (another page, another
   * page size) issue no request and keep showing the cached value, until a
   * refresh.
   */
  lemma {:induction false} CacheIgnoresKey<K, T>(s: FetchState<K, T>, events: seq<Event<K, T>>, truthy: T -> bool)
    requires Coherent(s) && CacheHit(s.cache, truthy) && s.pending == 0
    requires NoRefresh(events)
    ensures Run(s, events, truthy).requests == s.requests
    ensures Run(s, events, truthy).data == s.cache
    ensures Run(s, events, truthy).cache == s.cache
    decreases |events|
  {
    if events != [] {
      var s1 := Step(s, events[0], truthy);
      assert !events[0].RefreshEvent?;
      assert s1 == s.(data := s.cache);
      assert NoRefresh(events[1..]) by {
        forall i | 0 <= i < |events[1..]| ensures !events[1..][i].RefreshEvent? {
          assert events[1..][i] == events[i + 1];
        }
      }
      CacheIgnoresKey(s1, events[1..], truthy);
    }
  }

  /**
   * Where a plain load would answer from the cache, `refresh` still issues a
   * request, and its response replaces what the cache held.
   */
  lemma RefreshBypassesCache<K, T>(s: FetchState<K, T>, key: K, response: T, truthy: T -> bool)
    requires CacheHit(s.cache, truthy)
    ensures LoadStep(s, key, truthy).requests == s.requests
    ensures RefreshStep(s, key, truthy).requests == s.requests + [key]
    ensures var r := CompleteStep(RefreshStep(s, key, truthy), Resolved(response));
      r.data == Some(response) && r.cache == Some(response)
  {
  }

  /**
   * Without a stale-response guard, `loading` can be off while a request is
   * still outstanding, and the earlier response can end up displayed: two
   * loads with an empty cache, then the first settles.
   */
  lemma LoadingClearsBeforeLastResponse<K, T>(k1: K, k2: K, first: T, truthy: T -> bool)
    ensures
      var s: FetchState<K, T> := CompleteStep(LoadStep(LoadStep(Initial(), k1, truthy), k2, truthy), Resolved(first));
      !s.loading && s.pending == 1 && s.requests == [k1, k2] && s.data == Some(first)
  {
  }

  // ---------------------------------------------------------------------------
  // The hook, with its state cells as fields

  class ApiHook<K, T> {
    /** JavaScript truthiness of the values `apiFunction` resolves to. */
    const truthy: T -> bool
    var data: Option<T>
    var loading: bool
    var error: Option<string>
    var cache: Option<T>
    var requests: seq<K>
    var pending: nat

    function State(): FetchState<K, T>
      reads this
    {
      FetchState(data, loading, error, cache, requests, pending)
    }

    ghost predicate Valid()
      reads this
    {
      Coherent(State())
    }

    constructor (truthy: T -> bool)
      ensures Valid() && State() == Initial() && this.truthy == truthy
    {
      this.truthy := truthy;
      data, loading, error, cache := None, false, None, None;
      requests, pending := [], 0;
    }

    /** `fetchData`, with the request the current `apiFunction` closure would make. */
    method FetchData(key: K)
      requires Valid()
      modifies this
      ensures Valid() && State() == LoadStep(old(State()), key, truthy)
    {
      if cache.Some? && truthy(cache.value) {
        data := cache;
        return;
      }
      loading := true;
      requests := requests + [key];
      pending := pending + 1;
    }

    /** The promise of one outstanding request settles. */
    method Settle(outcome: Settlement<T>)
      requires Valid() && pending > 0
      modifies this
      ensures Valid() && State() == CompleteStep(old(State()), outcome)
    {
      match outcome {
        case Resolved(response) =>
          data := Some(response);
          cache := Some(response);
        case Rejected(message) =>
          error := Some(message);
      }
      loading := false;
      pending := pending - 1;
    }

    method Refresh(key: K)
      requires Valid()
      modifies this
      ensures Valid() && State() == RefreshStep(old(State()), key, truthy)
    {
      cache := None;
      FetchData(key);
    }
  }
}
