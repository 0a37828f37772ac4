/**
 * `env(name, defaultValue?)`: configuration read from the process
 * environment, whose values are always strings.
 */
module Env {
  import opened Wrappers
  import opened Errors

  /** The variable names of the `Env` and `EnvOptional` unions. */
  datatype Name =
    | ServiceId | ServicePassword | ServiceTenant | AppId | AppPassword
    | MongoResourceId | MongoDb | MongoConnectionString
    | Mode | SessionSecret | SessionTtl | Port | AuthToken | AppTenant

  function Text(name: Name): string {
    match name
    case ServiceId => "SERVICE_ID"
    case ServicePassword => "SERVICE_PASSWORD"
    case ServiceTenant => "SERVICE_TENANT"
    case AppId => "APP_ID"
    case AppPassword => "APP_PASSWORD"
    case MongoResourceId => "MONGO_RESOURCE_ID"
    case MongoDb => "MONGO_DB"
    case MongoConnectionString => "MONGO_CONNECTION_STRING"
    case Mode => "MODE"
    case SessionSecret => "SESSION_SECRET"
    case SessionTtl => "SESSION_TTL"
    case Port => "PORT"
    case AuthToken => "AUTH_TOKEN"
    case AppTenant => "APP_TENANT"
  }

  /** Reads a variable name back. */
  function Parse(s: string): Option<Name> {
    if s == "SERVICE_ID" then Some(ServiceId)
    else if s == "SERVICE_PASSWORD" then Some(ServicePassword)
    else if s == "SERVICE_TENANT" then Some(ServiceTenant)
    else if s == "APP_ID" then Some(AppId)
    else if s == "APP_PASSWORD" then Some(AppPassword)
    else if s == "MONGO_RESOURCE_ID" then Some(MongoResourceId)
    else if s == "MONGO_DB" then Some(MongoDb)
    else if s == "MONGO_CONNECTION_STRING" then Some(MongoConnectionString)
    else if s == "MODE" then Some(Mode)
    else if s == "SESSION_SECRET" then Some(SessionSecret)
    else if s == "SESSION_TTL" then Some(SessionTtl)
    else if s == "PORT" then Some(Port)
    else if s == "AUTH_TOKEN" then Some(AuthToken)
    else if s == "APP_TENANT" then Some(AppTenant)
    else None
  }

  /** The error naming a missing required variable. */
  function Missing(name: Name): Error {
    Error(PlainError, "Missing required environment variable '" + Text(name) + "'")
  }

  const MISSING_PREFIX_LENGTH: nat := 39

  /** `env(name, defaultValue)` over the environment `environment`. */
  function Lookup(environment: map<string, string>, name: Name, default: Option<string>): (r: Result<string, Error>)
    ensures r.Err? <==> Text(name) !in environment && default.None?
    ensures r.Err? ==> r.error.kind == PlainError
    ensures r.Err? ==> |r.error.message| == MISSING_PREFIX_LENGTH + |Text(name)| + 1
    ensures r.Err? ==> r.error.message[MISSING_PREFIX_LENGTH..|r.error.message| - 1] == Text(name)
    ensures Text(name) in environment ==> r == Ok(environment[Text(name)])
    ensures Text(name) !in environment && default.Some? ==> r == Ok(default.value)
  {
    if Text(name) !in environment && default.None? then Err(Missing(name))
    else if Text(name) !in environment then Ok(default.value)
    else Ok(environment[Text(name)])
  }

  /** Every variable name reads back as itself. */
  lemma ParseText(name: Name)
    ensures Parse(Text(name)) == Some(name)
  {
  }

  /** With a default the call never throws, and a set variable ignores the default. */
  lemma DefaultNeverThrows(environment: map<string, string>, name: Name, default: string)
    ensures Lookup(environment, name, Some(default)).Ok?
    ensures Text(name) in environment ==> Lookup(environment, name, Some(default)) == Lookup(environment, name, None)
  {
  }

  /** The error message names the variable it is about. */
  lemma MissingNamesVariable(environment: map<string, string>, a: Name, b: Name)
    requires Lookup(environment, a, None).Err? && Lookup(environment, b, None).Err?
    requires Lookup(environment, a, None).error.message == Lookup(environment, b, None).error.message
    ensures a == b
  {
    var m := Lookup(environment, a, None).error.message;
    assert Text(a) == m[MISSING_PREFIX_LENGTH..|m| - 1] == Text(b);
    ParseText(a);
    ParseText(b);
  }
}
