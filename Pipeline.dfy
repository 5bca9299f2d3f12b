/** What the generator, the provider and the client guarantee together: a descriptor generated
    from the environment, served and loaded, gives the prefixes every later request is built from. */
module Pipeline {
  import opened Wrappers
  import Config
  import Generator
  import Api
  import Models

  /** The fetch outcome of a generated descriptor served with an ok status. */
  function Served(g: Generator.GeneratedConfig, status: int): Config.FetchOutcome {
    Config.Received(status, Config.Json(Some(g.apiPrefix), Some(g.imagesPrefix)))
  }

  /** The generator falls back to exactly the defaults the provider falls back to. */
  lemma SameDefaults()
    ensures Generator.Defaults.apiPrefix == Config.Defaults.apiPrefix
    ensures Generator.Defaults.imagesPrefix == Config.Defaults.imagesPrefix
  {
  }

  /** Loading a generated descriptor gives each generated value with at most one trailing slash
      removed: the loaded prefix is the generated one, or the generated one less a final `/`. */
  lemma LoadGenerated(env: Generator.Env, status: int)
    requires Config.OkStatus(status)
    ensures var g := Generator.Generate(env);
      var c := Config.Resolve(Served(g, status));
      && (g.apiPrefix == c.apiPrefix || g.apiPrefix == c.apiPrefix + "/")
      && (g.imagesPrefix == c.imagesPrefix || g.imagesPrefix == c.imagesPrefix + "/")
  {
  }

  /** A set, non-empty variable without a trailing slash reaches the client verbatim. */
  lemma VerbatimPrefix(env: Generator.Env, status: int)
    requires Config.OkStatus(status)
    requires Generator.ApiPrefixVar in env && env[Generator.ApiPrefixVar] != ""
    requires !Config.EndsWithSlash(env[Generator.ApiPrefixVar])
    ensures Config.Resolve(Served(Generator.Generate(env), status)).apiPrefix == env[Generator.ApiPrefixVar]
  {
  }

  /** A descriptor generated with neither variable set loads to exactly the provider's fallback,
      so it cannot be told apart from a failed load. */
  lemma UnsetEnvironmentLoadsDefaults(env: Generator.Env, status: int)
    requires Config.OkStatus(status)
    requires Generator.ApiPrefixVar !in env && Generator.ImagesPrefixVar !in env
    ensures Config.Resolve(Served(Generator.Generate(env), status)) == Config.Defaults
  {
  }

  /** Start-up as the application runs it: load the configuration, then list the maps. The
      load discharges the client's need for a loaded configuration, so the request always goes
      out, to the resolved API prefix followed by /v1/maps, and no not-loaded error can occur. */
  method StartThenFetchMaps(o: Config.FetchOutcome, resp: Api.Response) returns (c: Api.Call<seq<Models.CodMap>>)
    ensures c.issued == Some(Api.Request(Api.Get, Config.Resolve(o).apiPrefix + Api.MapsEndpoint, None))
    ensures c.result != Err(Api.NotReady(Config.NotLoaded))
    ensures c.result.Ok? <==> resp.Received? && Config.OkStatus(resp.status) && resp.body.Parsed?
  {
    var provider := new Config.ConfigProvider();
    var loaded := provider.LoadConfig(o);
    c := Api.FetchMaps(provider, resp);
  }
}
