/** The configuration provider (src/services/config.ts): a write-once cache of the two
    URL prefixes, filled by the first loadConfig call from a fetched descriptor or, when
    anything about that fetch goes wrong, from hard-coded defaults. */
module Config {
  import opened Wrappers

  /** The resolved configuration: the two URL path prefixes. */
  datatype AppConfig = AppConfig(apiPrefix: string, imagesPrefix: string) {
    /** The value of one field, as a property read through the `config` accessor gives it. */
    function Select(f: Field): string {
      match f
      case ApiPrefix => apiPrefix
      case ImagesPrefix => imagesPrefix
    }
  }

  /** The two properties of AppConfig that can be read through the `config` accessor. */
  datatype Field = ApiPrefix | ImagesPrefix

  /** The usage error raised when the configuration is read before it has been loaded. */
  datatype ConfigError = NotLoaded

  const DefaultApiPrefix: string := "/api/public"
  const DefaultImagesPrefix: string := "/usermaps_images"

  /** The configuration substituted for any failure to load the descriptor. */
  const Defaults: AppConfig := AppConfig(DefaultApiPrefix, DefaultImagesPrefix)

  /** Whether a response counts as `ok`: a status in the range 200 to 299, as the Fetch Standard defines it. */
  predicate OkStatus(status: int) {
    200 <= status <= 299
  }

  /** What `response.json()` yields for the descriptor. `Unparseable` is a body that is not JSON.
      For a parsed body, each field is `Some` exactly when the value at that key is a string;
      a missing key, a non-string value or a top-level value that is not an object gives `None`,
      since only a string has the `replace` method the provider calls on it. */
  datatype Payload = Unparseable | Json(api: Option<string>, images: Option<string>)

  /** The outcome of the single fetch of the descriptor: the promise rejects, or a response arrives. */
  datatype FetchOutcome = NetworkFailure | Received(status: int, payload: Payload)

  predicate EndsWithSlash(s: string) {
    |s| > 0 && s[|s| - 1] == '/'
  }

  /** `s.replace(/\/$/, '')`: removes one `/` at the very end of `s`, if there is one. */
  function StripTrailingSlash(s: string): (r: string)
    ensures |r| <= |s| <= |r| + 1
    ensures r == s[..|r|]
    ensures |r| < |s| <==> EndsWithSlash(s)
  {
    if EndsWithSlash(s) then s[..|s| - 1] else s
  }

  /** Stripping undoes appending one slash, whatever the string already ends with. */
  lemma StripAppendedSlash(r: string)
    ensures StripTrailingSlash(r + "/") == r
  {
  }

  /** Appending a slash undoes stripping from a string that ends with one. */
  lemma AppendAfterStrip(s: string)
    requires EndsWithSlash(s)
    ensures StripTrailingSlash(s) + "/" == s
  {
  }

  /** Only one slash goes: a doubled slash keeps one, and a lone slash becomes empty. */
  lemma StripExamples()
    ensures StripTrailingSlash("/a//") == "/a/"
    ensures StripTrailingSlash("/") == ""
    ensures StripTrailingSlash("/api/public/") == "/api/public"
    ensures StripTrailingSlash("/img") == "/img"
  {
  }

  /** Whether the fetch gives a descriptor the provider takes: an ok status and both fields strings. */
  predicate Accepted(o: FetchOutcome) {
    o.Received? && OkStatus(o.status) && o.payload.Json? && o.payload.api.Some? && o.payload.images.Some?
  }

  /** The configuration the first loadConfig call stores for a given fetch outcome: the `try`
      block when every step succeeds, the `catch` block's defaults otherwise. The result is all
      or nothing: both fields come from the payload, or both are defaults. */
  function Resolve(o: FetchOutcome): (c: AppConfig)
    ensures Accepted(o) ==>
      c.apiPrefix == StripTrailingSlash(o.payload.api.value) && c.imagesPrefix == StripTrailingSlash(o.payload.images.value)
    ensures !Accepted(o) ==> c == Defaults
  {
    match o
    case NetworkFailure => Defaults
    case Received(status, payload) =>
      if !OkStatus(status) then Defaults
      else
        match payload
        case Unparseable => Defaults
        case Json(api, images) =>
          if api.Some? && images.Some? then
            AppConfig(StripTrailingSlash(api.value), StripTrailingSlash(images.value))
          else
            Defaults
  }

  /** A descriptor with trailing slashes loads without them. */
  lemma ResolveStripsPayload()
    ensures Resolve(Received(200, Json(Some("/api/public/"), Some("/img/")))) == AppConfig("/api/public", "/img")
  {
  }

  /** Any failure of the fetch, whatever its kind, yields the defaults: a rejected fetch, a
      non-ok status with any payload, an unparseable body or a missing or non-string field
      under any status. */
  lemma ResolveFailures(status: int, payload: Payload, field: Option<string>)
    ensures Resolve(NetworkFailure) == Defaults
    ensures !OkStatus(status) ==> Resolve(Received(status, payload)) == Defaults
    ensures Resolve(Received(status, Unparseable)) == Defaults
    ensures Resolve(Received(status, Json(field, None))) == Defaults
    ensures Resolve(Received(status, Json(None, field))) == Defaults
  {
  }

  /** All or nothing: a bad IMAGES_PREFIX discards whatever API_PREFIX came with it, so both
      fields are the defaults, whatever the status. */
  lemma BadImagesDiscardsApi(status: int, api: Option<string>)
    ensures Resolve(Received(status, Json(api, None))) == Defaults
    ensures Resolve(Received(status, Json(api, None))).apiPrefix == DefaultApiPrefix
  {
  }

  /** The value a loadConfig call returns, given the cache before it and the outcome its fetch
      would have: the cached value when there is one (no fetch), the resolved one otherwise. */
  function Load(cache: Option<AppConfig>, o: FetchOutcome): AppConfig {
    if cache.Some? then cache.value else Resolve(o)
  }

  /** The values returned by loadConfig calls made one after another, starting from `cache`;
      `outcomes[i]` is what the i-th call's fetch would see if it fetched. */
  function SessionResults(cache: Option<AppConfig>, outcomes: seq<FetchOutcome>): (rs: seq<AppConfig>)
    ensures |rs| == |outcomes|
    decreases |outcomes|
  {
    if outcomes == [] then []
    else
      var c := Load(cache, outcomes[0]);
      [c] + SessionResults(Some(c), outcomes[1..])
  }

  /** The number of fetches those calls perform. */
  function SessionFetches(cache: Option<AppConfig>, outcomes: seq<FetchOutcome>): nat
    decreases |outcomes|
  {
    if outcomes == [] then 0
    else (if cache.None? then 1 else 0) + SessionFetches(Some(Load(cache, outcomes[0])), outcomes[1..])
  }

  /** Once a value is cached, every later call returns it, whatever its fetch would have seen. */
  lemma {:induction false} CachedSessionIsConstant(c: AppConfig, outcomes: seq<FetchOutcome>)
    ensures forall i :: 0 <= i < |outcomes| ==> SessionResults(Some(c), outcomes)[i] == c
    decreases |outcomes|
  {
    if outcomes != [] {
      CachedSessionIsConstant(c, outcomes[1..]);
    }
  }

  /** Every call of a session returns the value the first call returned. */
  lemma {:induction false} SessionReturnsFirstValue(cache: Option<AppConfig>, outcomes: seq<FetchOutcome>)
    requires |outcomes| > 0
    ensures forall i :: 0 <= i < |outcomes| ==> SessionResults(cache, outcomes)[i] == Load(cache, outcomes[0])
  {
    CachedSessionIsConstant(Load(cache, outcomes[0]), outcomes[1..]);
  }

  /** A session fetches once if it starts unloaded and makes a call, and never otherwise. */
  lemma {:induction false} SessionFetchesAtMostOnce(cache: Option<AppConfig>, outcomes: seq<FetchOutcome>)
    ensures SessionFetches(cache, outcomes) == if cache.None? && |outcomes| > 0 then 1 else 0
    decreases |outcomes|
  {
    if outcomes != [] {
      SessionFetchesAtMostOnce(Some(Load(cache, outcomes[0])), outcomes[1..]);
    }
  }

  /** A failed first load is cached like a loaded one and never retried: every call of the
      session returns the defaults, even when a later fetch would have succeeded. */
  lemma FailedLoadNeverRetried(outcomes: seq<FetchOutcome>)
    requires |outcomes| > 0 && !Accepted(outcomes[0])
    ensures forall i :: 0 <= i < |outcomes| ==> SessionResults(None, outcomes)[i] == Defaults
  {
    SessionReturnsFirstValue(None, outcomes);
  }

  /** The module-level `configCache` and the operations on it. The ghost `fetches` counts the
      fetches performed so far; Valid says there has been one exactly when a value is cached. */
  class ConfigProvider {
    var cache: Option<AppConfig>
    ghost var fetches: nat

    ghost predicate Valid()
      reads this
    {
      fetches == if cache.Some? then 1 else 0
    }

    /** The state at start-up: nothing cached, nothing fetched. */
    constructor ()
      ensures Valid() && cache == None
    {
      cache := None;
      fetches := 0;
    }

    /** `loadConfig`: returns the cached value without fetching when there is one; otherwise
        fetches once (with outcome `o`), caches what Resolve makes of it and returns that.
        It never fails. */
    method LoadConfig(o: FetchOutcome) returns (c: AppConfig)
      requires Valid()
      modifies this
      ensures Valid()
      ensures cache == Some(c)
      ensures c == Load(old(cache), o)
      ensures old(cache).Some? ==> c == old(cache).value && fetches == old(fetches)
      ensures old(cache).None? ==> c == Resolve(o) && fetches == old(fetches) + 1
    {
      if cache.Some? {
        return cache.value;
      }
      fetches := fetches + 1;
      c := Resolve(o);
      cache := Some(c);
    }

    /** `getConfig`: the cached value, or the not-loaded error before any load completed. */
    function GetConfig(): (r: Result<AppConfig, ConfigError>)
      reads this
      ensures r.Ok? <==> cache.Some?
      ensures r.Ok? ==> r.value == cache.value
      ensures r.Err? ==> r.error == NotLoaded
    {
      if cache.None? then Err(NotLoaded) else Ok(cache.value)
    }

    /** A property read through the `config` accessor: fails like getConfig before loading and
        gives the cached field afterwards. */
    function Read(f: Field): (r: Result<string, ConfigError>)
      reads this
      ensures r.Ok? <==> GetConfig().Ok?
      ensures r.Ok? ==> r.value == GetConfig().value.Select(f)
      ensures r.Err? ==> r == Err(NotLoaded)
    {
      match cache
      case None => Err(NotLoaded)
      case Some(c) => Ok(c.Select(f))
    }
  }
}
