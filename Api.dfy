/** The command client (src/services/api.ts): four operations, each a single request to a
    fixed endpoint under the configured API prefix. A non-ok status becomes an error carrying
    that status, and every failure (including the configuration not being loaded yet) reaches
    the caller unchanged. The fetch itself is an input: each operation receives the response
    it would get and returns the request it issues together with its result. */
module Api {
  import opened Wrappers
  import opened Models
  import Config

  datatype Verb = Get | Post

  /** A request as it leaves the client: HTTP method, absolute URL and the record sent as its JSON body. */
  datatype Request = Request(verb: Verb, url: string, body: Option<SetGametypeMapRequest>)

  /** What `response.json()` yields: a list of maps, or a failure to parse. */
  datatype Body = Parsed(maps: seq<CodMap>) | Malformed

  /** The outcome of one fetch: the promise rejects with a reason, or a response arrives. */
  datatype Response = NetworkFailure(reason: string) | Received(status: int, body: Body)

  /** The errors an operation throws: the configuration accessor's usage error, the HTTP error
      made from a non-ok status, a rejected fetch and a body that does not parse. */
  datatype ApiError =
    | NotReady(cause: Config.ConfigError)
    | HttpStatus(status: int)
    | Network(reason: string)
    | BadJson

  /** One invocation of an operation: the request it issued, if any, and what it returned or threw. */
  datatype Call<T> = Call(issued: Option<Request>, result: Result<T, ApiError>)

  const MapsEndpoint: string := "/v1/maps"
  const GametypeMapEndpoint: string := "/v1/server/gametype_map"
  const MapRestartEndpoint: string := "/v1/server/map_restart"
  const FastRestartEndpoint: string := "/v1/server/fast_restart"

  /** `computeUrl`: the API prefix read through the `config` accessor, immediately followed by
      the endpoint, with no separator inserted or removed; fails before loading. */
  function ComputeUrl(p: Config.ConfigProvider, endpoint: string): (r: Result<string, Config.ConfigError>)
    reads p
    ensures r.Ok? <==> p.cache.Some?
    ensures r.Ok? ==>
      var prefix := p.cache.value.apiPrefix;
      |r.value| == |prefix| + |endpoint| && r.value[..|prefix|] == prefix && r.value[|prefix|..] == endpoint
    ensures r.Err? ==> r.error == Config.NotLoaded
  {
    match p.Read(Config.ApiPrefix)
    case Ok(prefix) => Ok(prefix + endpoint)
    case Err(e) => Err(e)
  }

  /** `c` issued exactly one request, to the API prefix followed by `endpoint` with the given
      HTTP method and body, when the configuration is loaded, and none otherwise. */
  ghost predicate Targets<T>(p: Config.ConfigProvider, c: Call<T>, verb: Verb, endpoint: string,
                             body: Option<SetGametypeMapRequest>)
    reads p
  {
    if p.cache.Some? then c.issued == Some(Request(verb, p.cache.value.apiPrefix + endpoint, body))
    else c.issued == None
  }

  /** The failure mapping every operation shares: the not-loaded error before loading, the
      rejection reason of a failed fetch, and the status of a non-ok response, each unchanged. */
  ghost predicate Propagates<T>(p: Config.ConfigProvider, c: Call<T>, resp: Response)
    reads p
  {
    && (p.cache.None? ==> c.result == Err(NotReady(Config.NotLoaded)))
    && (p.cache.Some? && resp.NetworkFailure? ==> c.result == Err(Network(resp.reason)))
    && (p.cache.Some? && resp.Received? && !Config.OkStatus(resp.status) ==> c.result == Err(HttpStatus(resp.status)))
  }

  /** Whether the exchange gets as far as an ok response. */
  ghost predicate Answered(p: Config.ConfigProvider, resp: Response)
    reads p
  {
    p.cache.Some? && resp.Received? && Config.OkStatus(resp.status)
  }

  /** The `try` block every operation shares up to the status check: compute the URL, issue the
      one request, throw on a non-ok status; the `catch` rethrows whatever was thrown. On an ok
      response the body is handed on. */
  function Exchange(p: Config.ConfigProvider, verb: Verb, endpoint: string,
                    body: Option<SetGametypeMapRequest>, resp: Response): (c: Call<Body>)
    reads p
    ensures Targets(p, c, verb, endpoint, body)
    ensures Propagates(p, c, resp)
    ensures c.result.Ok? <==> Answered(p, resp)
    ensures c.result.Ok? ==> c.result.value == resp.body
  {
    match ComputeUrl(p, endpoint)
    case Err(e) => Call(None, Err(NotReady(e)))
    case Ok(url) =>
      var request := Request(verb, url, body);
      match resp
      case NetworkFailure(reason) => Call(Some(request), Err(Network(reason)))
      case Received(status, replyBody) =>
        if !Config.OkStatus(status) then Call(Some(request), Err(HttpStatus(status)))
        else Call(Some(request), Ok(replyBody))
  }

  /** `fetchMaps`: GET the map list; on an ok response the parsed body is returned as it is,
      in the server's order, and a body that does not parse is thrown on. */
  function FetchMaps(p: Config.ConfigProvider, resp: Response): (c: Call<seq<CodMap>>)
    reads p
    ensures Targets(p, c, Get, MapsEndpoint, None)
    ensures Propagates(p, c, resp)
    ensures c.result.Ok? <==> Answered(p, resp) && resp.body.Parsed?
    ensures c.result.Ok? ==> c.result.value == resp.body.maps
    ensures Answered(p, resp) && resp.body.Malformed? ==> c.result == Err(BadJson)
  {
    var exchanged := Exchange(p, Get, MapsEndpoint, None, resp);
    match exchanged.result
    case Err(e) => Call(exchanged.issued, Err(e))
    case Ok(Parsed(maps)) => Call(exchanged.issued, Ok(maps))
    case Ok(Malformed) => Call(exchanged.issued, Err(BadJson))
  }

  /** Drops the body of an exchange whose operation returns nothing. */
  function Discard(exchanged: Call<Body>): Call<()> {
    match exchanged.result
    case Err(e) => Call(exchanged.issued, Err(e))
    case Ok(_) => Call(exchanged.issued, Ok(()))
  }

  /** `setGametypeMap`: POST the gametype and map, exactly as given, as the request body. */
  function SetGametypeMap(p: Config.ConfigProvider, gametype: Gametype, selectedMap: string, resp: Response): (c: Call<()>)
    reads p
    ensures Targets(p, c, Post, GametypeMapEndpoint, Some(SetGametypeMapRequest(gametype, selectedMap)))
    ensures Propagates(p, c, resp)
    ensures c.result.Ok? <==> Answered(p, resp)
  {
    Discard(Exchange(p, Post, GametypeMapEndpoint, Some(SetGametypeMapRequest(gametype, selectedMap)), resp))
  }

  /** `mapRestart`: GET the map-restart command. */
  function MapRestart(p: Config.ConfigProvider, resp: Response): (c: Call<()>)
    reads p
    ensures Targets(p, c, Get, MapRestartEndpoint, None)
    ensures Propagates(p, c, resp)
    ensures c.result.Ok? <==> Answered(p, resp)
  {
    Discard(Exchange(p, Get, MapRestartEndpoint, None, resp))
  }

  /** `fastRestart`: GET the fast-restart command. */
  function FastRestart(p: Config.ConfigProvider, resp: Response): (c: Call<()>)
    reads p
    ensures Targets(p, c, Get, FastRestartEndpoint, None)
    ensures Propagates(p, c, resp)
    ensures c.result.Ok? <==> Answered(p, resp)
  {
    Discard(Exchange(p, Get, FastRestartEndpoint, None, resp))
  }

  /** With the default prefix loaded, listing the maps issues a GET to /api/public/v1/maps. */
  lemma MapsUrlUnderDefaultPrefix(p: Config.ConfigProvider, resp: Response)
    requires p.cache.Some? && p.cache.value.apiPrefix == Config.DefaultApiPrefix
    ensures FetchMaps(p, resp).issued == Some(Request(Get, "/api/public/v1/maps", None))
  {
    assert Config.DefaultApiPrefix + MapsEndpoint == "/api/public/v1/maps";
  }

  /** A 500 answer makes every operation fail with an error carrying 500, never succeed, after one request. */
  lemma ServerErrorIsUniform(p: Config.ConfigProvider, body: Body, gametype: Gametype, selectedMap: string)
    requires p.cache.Some?
    ensures var resp := Received(500, body);
      && FetchMaps(p, resp).result == Err(HttpStatus(500)) && FetchMaps(p, resp).issued.Some?
      && SetGametypeMap(p, gametype, selectedMap, resp).result == Err(HttpStatus(500))
      && SetGametypeMap(p, gametype, selectedMap, resp).issued.Some?
      && MapRestart(p, resp).result == Err(HttpStatus(500)) && MapRestart(p, resp).issued.Some?
      && FastRestart(p, resp).result == Err(HttpStatus(500)) && FastRestart(p, resp).issued.Some?
  {
  }

  /** Before the configuration is loaded every operation fails with the not-loaded error and issues nothing. */
  lemma NothingBeforeLoad(p: Config.ConfigProvider, resp: Response, gametype: Gametype, selectedMap: string)
    requires p.cache.None?
    ensures FetchMaps(p, resp) == Call(None, Err(NotReady(Config.NotLoaded)))
    ensures SetGametypeMap(p, gametype, selectedMap, resp) == Call(None, Err(NotReady(Config.NotLoaded)))
    ensures MapRestart(p, resp) == Call(None, Err(NotReady(Config.NotLoaded)))
    ensures FastRestart(p, resp) == Call(None, Err(NotReady(Config.NotLoaded)))
  {
  }

  /** Whatever list an ok response carries is handed back unchanged, in the server's order. */
  lemma MapListReturnedAsIs(p: Config.ConfigProvider, status: int, maps: seq<CodMap>)
    requires p.cache.Some? && Config.OkStatus(status)
    ensures FetchMaps(p, Received(status, Parsed(maps))).result == Ok(maps)
  {
  }
}
