/**
 * Server-side environment variable access (app/lib/env.server.ts). The process
 * environment is a parameter: a map from variable name to value, where a name
 * that is not a key is unset (`undefined`). A thrown `Error` is a `Failure`
 * carrying the error's message.
 */
module Env {
  import opened Wrappers

  type Environment = map<string, string>

  /** `process.env[key]`. */
  function Lookup(env: Environment, key: string): Option<string>
  {
    if key in env then Some(env[key]) else None
  }

  /** JavaScript truthiness of a `string | undefined`: set and not the empty string. */
  predicate IsSet(value: Option<string>)
  {
    value.Some? && value.value != ""
  }

  /** `value || fallback` on a `string | undefined`: an unset or empty value gives the fallback. */
  function OrElse(value: Option<string>, fallback: string): (r: string)
    ensures IsSet(value) ==> r == value.value
    ensures !IsSet(value) ==> r == fallback
  {
    if IsSet(value) then value.value else fallback
  }

  function MissingMessage(key: string): string
  {
    "Missing required environment variable: " + key
  }

  /**
   * `getEnv(key, required)`: the raw lookup, except that a required variable
   * that is unset or empty throws.
   */
  function GetEnv(env: Environment, key: string, required: bool): (r: Result<Option<string>, string>)
    ensures r.Failure? <==> required && !IsSet(Lookup(env, key))
    ensures r.Failure? ==> r.error == MissingMessage(key)
    ensures r.Success? ==> r.value == Lookup(env, key)
  {
    var value := Lookup(env, key);
    if required && !IsSet(value) then Failure(MissingMessage(key)) else Success(value)
  }

  /**
   * `getRequiredEnv(key)`: either throws, or returns a non-empty value that is
   * exactly the variable's value.
   */
  function GetRequiredEnv(env: Environment, key: string): (r: Result<string, string>)
    ensures r.Failure? <==> !IsSet(Lookup(env, key))
    ensures r.Failure? ==> r.error == MissingMessage(key)
    ensures r.Success? ==> key in env && r.value == env[key] && r.value != ""
  {
    match GetEnv(env, key, true)
    case Failure(e) => Failure(e)
    case Success(value) =>
      if !IsSet(value) then Failure(MissingMessage(key)) else Success(value.value)
  }

  /** The `env` object: the server's configuration, read once from the environment. */
  datatype ServerEnv = ServerEnv(
    nodeEnv: string,
    port: string,
    publicUrl: string,
    databaseUrl: Option<string>,
    directDatabaseUrl: Option<string>,
    sessionSecret: string)

  const DefaultNodeEnv := "development"
  const DefaultPort := "8080"
  const DefaultPublicUrl := "http://localhost:8080"
  const DefaultSessionSecret := "dev-secret-change-in-production"

  /** Reads a variable through `getEnv` with `required` false, which never throws. */
  function Optional(env: Environment, key: string): (r: Option<string>)
    ensures r == Lookup(env, key)
  {
    var result := GetEnv(env, key, false);
    assert result.Success?;
    result.value
  }

  /**
   * Builds the `env` object. Each defaulted entry is the variable's value when it
   * is set and non-empty and its default otherwise; the database URLs are passed
   * through as they are, with no default and no failure.
   */
  function LoadServerEnv(env: Environment): (r: ServerEnv)
    ensures r.nodeEnv == (if IsSet(Lookup(env, "NODE_ENV")) then env["NODE_ENV"] else DefaultNodeEnv)
    ensures r.port == (if IsSet(Lookup(env, "PORT")) then env["PORT"] else DefaultPort)
    ensures r.publicUrl == (if IsSet(Lookup(env, "PUBLIC_URL")) then env["PUBLIC_URL"] else DefaultPublicUrl)
    ensures r.sessionSecret
         == (if IsSet(Lookup(env, "SESSION_SECRET")) then env["SESSION_SECRET"] else DefaultSessionSecret)
    ensures r.databaseUrl == Lookup(env, "DATABASE_URL")
    ensures r.directDatabaseUrl == Lookup(env, "DIRECT_DATABASE_URL")
  {
    ServerEnv(
      nodeEnv := OrElse(Optional(env, "NODE_ENV"), DefaultNodeEnv),
      port := OrElse(Optional(env, "PORT"), DefaultPort),
      publicUrl := OrElse(Optional(env, "PUBLIC_URL"), DefaultPublicUrl),
      databaseUrl := Optional(env, "DATABASE_URL"),
      directDatabaseUrl := Optional(env, "DIRECT_DATABASE_URL"),
      sessionSecret := OrElse(Optional(env, "SESSION_SECRET"), DefaultSessionSecret))
  }

  /** None of the defaulted entries of `env` is ever empty, whatever the environment holds. */
  lemma DefaultedEntriesNonEmpty(env: Environment)
    ensures var r := LoadServerEnv(env);
            r.nodeEnv != "" && r.port != "" && r.publicUrl != "" && r.sessionSecret != ""
  {
  }

  /**
   * A defaulted entry agrees with `getRequiredEnv` whenever that succeeds, and is
   * the default exactly when `getRequiredEnv` would throw.
   */
  lemma DefaultedEntriesMatchRequired(env: Environment)
    ensures var r := LoadServerEnv(env);
            && (GetRequiredEnv(env, "NODE_ENV").Success? ==> r.nodeEnv == GetRequiredEnv(env, "NODE_ENV").value)
            && (GetRequiredEnv(env, "NODE_ENV").Failure? ==> r.nodeEnv == DefaultNodeEnv)
            && (GetRequiredEnv(env, "PORT").Success? ==> r.port == GetRequiredEnv(env, "PORT").value)
            && (GetRequiredEnv(env, "PORT").Failure? ==> r.port == DefaultPort)
            && (GetRequiredEnv(env, "PUBLIC_URL").Success? ==> r.publicUrl == GetRequiredEnv(env, "PUBLIC_URL").value)
            && (GetRequiredEnv(env, "PUBLIC_URL").Failure? ==> r.publicUrl == DefaultPublicUrl)
            && (GetRequiredEnv(env, "SESSION_SECRET").Success? ==>
                  r.sessionSecret == GetRequiredEnv(env, "SESSION_SECRET").value)
            && (GetRequiredEnv(env, "SESSION_SECRET").Failure? ==> r.sessionSecret == DefaultSessionSecret)
  {
  }
}
