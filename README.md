# Configuration provider, command client and config generator of a game-server front-end

This project models, in Dafny, the logic of a small single-page front-end that controls a game server.

- **Configuration provider** (`src/services/config.ts`, module `Config`). This is a write-once cache of two URL prefixes, `API_PREFIX` and `IMAGES_PREFIX`. The first `loadConfig` call fetches `/config.json`. It strips one trailing `/` from each field and caches the result. If anything fails, it caches the hard-coded defaults instead. Every later call returns the cached value without fetching. `getConfig` and the `config` accessor fail before the first load has completed. The module-level `configCache` becomes the class `ConfigProvider`, with an `Option<AppConfig>` field. A ghost counter records the fetches performed. The outcome of the fetch is an input of `LoadConfig`.
- **Command client** (`src/services/api.ts`, module `Api`). It has four operations. Each one sends a single request to `API_PREFIX` followed by a fixed endpoint. A non-ok status becomes an error that carries the status. Every failure reaches the caller unchanged, including the configuration not being loaded. Each operation is a function of the provider's state and of the response it would receive. It returns the request it issues, if any, together with its result or error.
- **Config generator** (`scripts/generate-config.js`, module `Generator`). Each field is its environment variable when that is set and non-empty, and the default otherwise.
- **Pipeline**: cross-file lemmas. A descriptor generated from the environment, once served and loaded, gives the prefixes that later requests are built from.
- `Models` holds the records from `src/models/map.ts`. `Wrappers` holds `Option` and `Result`.

Only sequential calls are modelled. The fetches, `response.json()` and the environment are inputs.

Two behaviours of the code worth knowing:
- A rejected fetch in the command client is rethrown as it is, as `Api.Network(reason)`. It is not turned into an error that carries a status.
- The provider has no single-flight protection. Its cache is checked before the fetch is awaited.

## Model

| member | source | states |
|---|---|---|
| `Config.StripTrailingSlash` | src/services/config.ts:20-21 | The result is a prefix of the input and at most one character shorter. It is shorter exactly when the input ends in `/`. |
| `Config.StripAppendedSlash` | src/services/config.ts:20-21 | Stripping `r + "/"` gives back `r` for every `r`, including one that already ends in `/`. |
| `Config.AppendAfterStrip` | src/services/config.ts:20-21 | For an input ending in `/`, appending `/` to the stripped string restores the input. |
| `Config.StripExamples` | src/services/config.ts:20-21 | `"/a//"` becomes `"/a/"`, `"/"` becomes `""`, `"/api/public/"` becomes `"/api/public"`, and `"/img"` is unchanged. |
| `Config.Resolve` | src/services/config.ts:13-29 | Both fields strings under an ok status: both stored prefixes are the stripped fields. Any other outcome (network failure, non-ok status, unparseable body, missing or non-string field): the defaults `/api/public` and `/usermaps_images`. |
| `Config.ResolveStripsPayload` | src/services/config.ts:19-22 | The payload `{"/api/public/", "/img/"}` loads as `{"/api/public", "/img"}`. |
| `Config.ResolveFailures` | src/services/config.ts:14-28 | A network failure, a non-ok status with any payload, an unparseable body under any status, or either field missing or not a string under any status each yields the defaults. |
| `Config.BadImagesDiscardsApi` | src/services/config.ts:19-28 | All or nothing: whatever `API_PREFIX` comes with a bad `IMAGES_PREFIX`, under any status, the result is the defaults in both fields. |
| `Config.CachedSessionIsConstant` | src/services/config.ts:9-11 | Once a value is cached, every later call returns it, whatever its fetch would have seen. |
| `Config.SessionReturnsFirstValue` | src/services/config.ts:8-31 | Every call in a sequence of `loadConfig` calls returns the value the first call returned. |
| `Config.SessionFetchesAtMostOnce` | src/services/config.ts:9-14 | A sequence of calls fetches exactly once if it starts unloaded and makes at least one call. Otherwise it never fetches. |
| `Config.FailedLoadNeverRetried` | src/services/config.ts:9-29 | When the first load fails, every call returns the defaults, even if a later fetch would have succeeded. |
| `Config.ConfigProvider.constructor` | src/services/config.ts:6 | The cache starts empty, with no fetch performed. |
| `Config.ConfigProvider.LoadConfig` | src/services/config.ts:8-32 | The call returns `Load` of the old cache and the outcome, so the session lemmas above describe repeated calls of this method. When a value is cached, the call returns it unchanged and does not fetch. Otherwise it fetches once, then caches and returns `Resolve` of the outcome. Afterwards a value is always cached, and exactly one fetch has happened. |
| `Config.ConfigProvider.GetConfig` | src/services/config.ts:34-39 | Fails with the not-loaded error exactly when nothing is cached. Otherwise returns the cached value. |
| `Config.ConfigProvider.Read` | src/services/config.ts:42-49 | Fails exactly when `GetConfig` fails. Otherwise returns the requested field of the cached value. |
| `Api.ComputeUrl` | src/services/api.ts:4-6 | After loading, the URL splits into the API prefix followed by the endpoint, with nothing inserted or removed. Before loading it fails with the not-loaded error. |
| `Api.Exchange` | src/services/api.ts:10-19 | The shared request shape. One request is issued to prefix + endpoint only when the configuration is loaded. The not-loaded error, a rejected fetch and a non-ok status each reach the caller unchanged. Success happens exactly on an ok response and carries its body. |
| `Api.FetchMaps` | src/services/api.ts:9-20 | GET `/v1/maps`. Succeeds exactly on an ok response with a parsed body, and returns that list as it is. An unparseable body is an error. Failures are propagated as in `Exchange`. |
| `Api.SetGametypeMap` | src/services/api.ts:22-44 | POST `/v1/server/gametype_map` with exactly the given gametype and map as the body. Succeeds exactly on an ok response. |
| `Api.MapRestart` | src/services/api.ts:46-56 | GET `/v1/server/map_restart`. Succeeds exactly on an ok response. |
| `Api.FastRestart` | src/services/api.ts:58-68 | GET `/v1/server/fast_restart`. Succeeds exactly on an ok response. |
| `Api.MapsUrlUnderDefaultPrefix` | src/services/api.ts:4-11 | With `/api/public` loaded, listing maps issues GET `/api/public/v1/maps`. |
| `Api.ServerErrorIsUniform` | src/services/api.ts:12-14 | A 500 response makes each of the four operations fail with an error carrying 500, after issuing one request. |
| `Api.NothingBeforeLoad` | src/services/api.ts:4-6 | Before loading, each operation fails with the not-loaded error and issues no request. |
| `Api.MapListReturnedAsIs` | src/services/api.ts:15 | For every ok status and every map list, the list is handed back unchanged, in order. |
| `Generator.OrDefault` | scripts/generate-config.js:24-25 | A set, non-empty value is chosen. An unset or empty value gives the fallback. |
| `Generator.Generate` | scripts/generate-config.js:23-26 | Each field is its variable verbatim when that is set and non-empty, and its default otherwise. No field is ever empty. |
| `Generator.EmptyValuesAreUnset` | scripts/generate-config.js:24-25 | Empty-string variables generate the same descriptor as unset ones: the defaults. |
| `Pipeline.SameDefaults` | scripts/generate-config.js:17-20 | The generator's defaults equal the provider's fallback defaults. |
| `Pipeline.LoadGenerated` | scripts/generate-config.js:23-26 | A loaded generated field equals the generated value, or the generated value minus one trailing `/`. |
| `Pipeline.VerbatimPrefix` | scripts/generate-config.js:24 | A set, non-empty `VITE_API_PREFIX` without a trailing `/` becomes the API prefix verbatim. |
| `Pipeline.UnsetEnvironmentLoadsDefaults` | scripts/generate-config.js:17-20 | A descriptor generated with no variables set loads to exactly the provider's fallback. |
| `Pipeline.StartThenFetchMaps` | src/main.ts:7-8 | Loading before use means listing maps always issues its GET to the resolved prefix + `/v1/maps`. It never fails with the not-loaded error, and it succeeds exactly on an ok response with a parsed body. |

## Left out

- The `fetch` calls, `Response` objects and `response.json()`: foreign browser APIs. Their outcome is an input value: `Config.FetchOutcome` and `Api.Response`.
- A JSON map list that parses but has some other shape: the TypeScript cast is unchecked, and the model only distinguishes a parsed list from an unparseable body.
- `console.error` and `console.log` calls: diagnostic only.
- Concurrency and single-flight: only sequential calls are modelled. In the source, overlapping first calls would each fetch, and the last write would win.
- The JavaScript `Proxy` mechanics of `config`. `ConfigProvider.Read` covers the two declared fields only. Reads of other property names are not modelled: they give `undefined`, or for names inherited from `Object.prototype` (`toString`, `constructor`, ...) the inherited member.
- Aliasing of the cached object: `loadConfig` and `getConfig` hand out the cache object itself, whose fields are not read-only, so a caller could change the cached configuration through it. The model treats `AppConfig` as an immutable value, so its write-once guarantees hold only for callers that do not mutate the returned object.
- HTTP headers and `JSON.stringify` serialisation: the request body is a record.
- The text of error messages, beyond the status they carry.
- The filesystem writes, directory creation and `process.exit` in the generator: I/O.
- `vite.config.ts`: dev-server proxy settings, with no logic.
- The `Gametype` type is not part of this model. It is any string.
