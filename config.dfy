/** The process environment and the configuration object built from it (src/config/env.ts). */
module Config {
  import opened Wrappers
  import JsText

  /** The environment variables the server reads; `None` is an unset variable. */
  datatype Env = Env(
    webhookVerifyToken: Option<string>,
    graphApiToken: Option<string>,
    businessPhone: Option<string>,
    apiVersion: Option<string>)

  /** The exported configuration: only `API_VERSION` has a default (`PORT` is transport and not modelled). */
  datatype Settings = Settings(
    webhookVerifyToken: Option<string>,
    graphApiToken: Option<string>,
    businessPhone: Option<string>,
    apiVersion: string)

  const DefaultApiVersion: string := "v21.0"

  function Load(env: Env): Settings
  {
    Settings(env.webhookVerifyToken, env.graphApiToken, env.businessPhone, JsText.OrElse(env.apiVersion, DefaultApiVersion))
  }
}
