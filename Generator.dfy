/** The build-time configuration generator (scripts/generate-config.js): each field of the
    generated descriptor is its environment variable when that is set and non-empty, and the
    field's default otherwise. Writing the file is left to the caller. */
module Generator {
  import opened Wrappers

  /** The process environment: variable name to value; an unset variable is absent. */
  type Env = map<string, string>

  const ApiPrefixVar: string := "VITE_API_PREFIX"
  const ImagesPrefixVar: string := "VITE_IMAGES_PREFIX"

  /** The descriptor written to public/config.json. */
  datatype GeneratedConfig = GeneratedConfig(apiPrefix: string, imagesPrefix: string)

  /** The generator's own defaults. */
  const Defaults: GeneratedConfig := GeneratedConfig("/api/public", "/usermaps_images")

  /** `process.env[name]`. */
  function Lookup(env: Env, name: string): Option<string> {
    if name in env then Some(env[name]) else None
  }

  /** `value || fallback` for an environment value: JavaScript's `||` treats an unset variable
      and the empty string alike, as absent. */
  function OrDefault(value: Option<string>, fallback: string): (r: string)
    ensures value.Some? && value.value != "" ==> r == value.value
    ensures value.None? || value.value == "" ==> r == fallback
  {
    match value
    case Some(v) => if v != "" then v else fallback
    case None => fallback
  }

  /** The generated descriptor. No field is ever empty, and none is normalised: a set,
      non-empty variable is written verbatim. */
  function Generate(env: Env): (g: GeneratedConfig)
    ensures ApiPrefixVar in env && env[ApiPrefixVar] != "" ==> g.apiPrefix == env[ApiPrefixVar]
    ensures ApiPrefixVar !in env || env[ApiPrefixVar] == "" ==> g.apiPrefix == Defaults.apiPrefix
    ensures ImagesPrefixVar in env && env[ImagesPrefixVar] != "" ==> g.imagesPrefix == env[ImagesPrefixVar]
    ensures ImagesPrefixVar !in env || env[ImagesPrefixVar] == "" ==> g.imagesPrefix == Defaults.imagesPrefix
    ensures g.apiPrefix != "" && g.imagesPrefix != ""
  {
    GeneratedConfig(
      OrDefault(Lookup(env, ApiPrefixVar), Defaults.apiPrefix),
      OrDefault(Lookup(env, ImagesPrefixVar), Defaults.imagesPrefix))
  }

  /** An environment setting both variables to the empty string generates the same descriptor as an empty one. */
  lemma EmptyValuesAreUnset()
    ensures Generate(map[ApiPrefixVar := "", ImagesPrefixVar := ""]) == Generate(map[]) == Defaults
  {
  }
}
