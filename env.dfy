/**
 * The environment: the server-side and client-side records parsed from the
 * process environment (their defaults and constraints), and the choice of the
 * active database schema from NODE_ENV and the per-environment overrides.
 */
module Env {
  import opened Wrappers
  import opened Text

  datatype NodeEnv = Development | Production | Test

  /**
   * The variables as the process provides them, `None` where unset. Variables
   * that are plain optional strings with no constraint are not part of the record.
   */
  datatype RawEnv = RawEnv(
    nodeEnv: Option<string>,
    appUrl: Option<string>,
    supabaseUrl: Option<string>,
    supabaseAnonKey: Option<string>,
    schema: Option<string>,
    schemaDev: Option<string>,
    schemaStaging: Option<string>,
    schemaProd: Option<string>,
    serviceRoleKey: Option<string>)

  /** The parsed server-side environment. */
  datatype ServerEnv = ServerEnv(
    nodeEnv: NodeEnv,
    appUrl: string,
    supabaseUrl: string,
    supabaseAnonKey: string,
    schema: string,
    schemaDev: Option<string>,
    schemaStaging: Option<string>,
    schemaProd: Option<string>,
    serviceRoleKey: Option<string>)

  /** The parsed client-side environment. */
  datatype ClientEnv = ClientEnv(appUrl: string, supabaseUrl: string, supabaseAnonKey: string, schema: string)

  const DEFAULT_APP_URL := "http://localhost:3000"
  const DEFAULT_SCHEMA := "public"

  /** `z.enum(['development', 'production', 'test']).default('development')`. */
  function ParseNodeEnv(o: Option<string>): (r: Option<NodeEnv>)
    ensures o.None? ==> r == Some(Development)
    ensures o.Some? ==> (r.Some? <==> o.value in {"development", "production", "test"})
  {
    match o
    case None => Some(Development)
    case Some(s) =>
      if s == "development" then Some(Development)
      else if s == "production" then Some(Production)
      else if s == "test" then Some(Test)
      else None
  }

  /** `z.string()` with a `min(1)` check and an optional default; `None` when parsing fails. */
  function NonEmptyWithDefault(o: Option<string>, default: Option<string>): (r: Option<string>)
    ensures r.Some? ==> r.value != []
    ensures o.Some? ==> (r.Some? <==> o.value != []) && (r.Some? ==> r.value == o.value)
    ensures o.None? ==> (r.Some? <==> default.Some? && default.value != []) && (r.Some? ==> r == default)
  {
    var v := if o.Some? then o else default;
    if v.Some? && v.value != [] then v else None
  }

  /** `z.string().url()` with an optional default; `None` when parsing fails. */
  function UrlWithDefault(isUrl: string -> bool, o: Option<string>, default: Option<string>): (r: Option<string>)
    ensures r.Some? ==> isUrl(r.value)
    ensures o.Some? ==> (r.Some? <==> isUrl(o.value)) && (r.Some? ==> r.value == o.value)
    ensures o.None? ==> (r.Some? <==> default.Some? && isUrl(default.value)) && (r.Some? ==> r == default)
  {
    var v := if o.Some? then o else default;
    if v.Some? && isUrl(v.value) then v else None
  }

  /**
   * The server-side parse: the value, or the names of the variables that
   * failed, in declaration order. `isUrl` is the library's URL format check.
   */
  function ParseServerEnv(isUrl: string -> bool, raw: RawEnv): (r: Result<ServerEnv, seq<string>>)
    ensures r.Err? ==> r.error != []
    ensures r.Ok? <==>
              && (raw.nodeEnv.None? || raw.nodeEnv.value in {"development", "production", "test"})
              && (if raw.appUrl.Some? then isUrl(raw.appUrl.value) else isUrl(DEFAULT_APP_URL))
              && raw.supabaseUrl.Some? && isUrl(raw.supabaseUrl.value)
              && raw.supabaseAnonKey.Some? && raw.supabaseAnonKey.value != []
              && (raw.schema.Some? ==> raw.schema.value != [])
              && (raw.serviceRoleKey.Some? ==> raw.serviceRoleKey.value != [])
    ensures r.Ok? ==> ValidServerEnv(r.value) && isUrl(r.value.appUrl) && isUrl(r.value.supabaseUrl)
    ensures raw.supabaseUrl.None? || !isUrl(raw.supabaseUrl.value) ==>
              r.Err? && "NEXT_PUBLIC_SUPABASE_URL" in r.error
    ensures raw.supabaseAnonKey.None? || raw.supabaseAnonKey == Some("") ==>
              r.Err? && "NEXT_PUBLIC_SUPABASE_ANON_KEY" in r.error
  {
    var nodeEnv := ParseNodeEnv(raw.nodeEnv);
    var appUrl := UrlWithDefault(isUrl, raw.appUrl, Some(DEFAULT_APP_URL));
    var supabaseUrl := UrlWithDefault(isUrl, raw.supabaseUrl, None);
    var anonKey := NonEmptyWithDefault(raw.supabaseAnonKey, None);
    var schema := NonEmptyWithDefault(raw.schema, Some(DEFAULT_SCHEMA));
    var serviceKeyOk := raw.serviceRoleKey.None? || raw.serviceRoleKey.value != [];
    var failed :=
      (if nodeEnv.None? then ["NODE_ENV"] else [])
      + (if appUrl.None? then ["NEXT_PUBLIC_APP_URL"] else [])
      + (if supabaseUrl.None? then ["NEXT_PUBLIC_SUPABASE_URL"] else [])
      + (if anonKey.None? then ["NEXT_PUBLIC_SUPABASE_ANON_KEY"] else [])
      + (if schema.None? then ["NEXT_PUBLIC_SUPABASE_SCHEMA"] else [])
      + (if serviceKeyOk then [] else ["SUPABASE_SERVICE_ROLE_KEY"]);
    if failed != [] then Err(failed)
    else Ok(ServerEnv(nodeEnv.value, appUrl.value, supabaseUrl.value, anonKey.value, schema.value,
                      raw.schemaDev, raw.schemaStaging, raw.schemaProd, raw.serviceRoleKey))
  }

  /** What every successfully parsed server environment satisfies. */
  predicate ValidServerEnv(e: ServerEnv) {
    e.schema != [] && e.supabaseAnonKey != []
    && (e.serviceRoleKey.Some? ==> e.serviceRoleKey.value != [])
  }

  /**
   * A successful parse yields a valid record whose URLs pass the URL check,
   * whose app URL is the given one or 'http://localhost:3000' when unset, whose
   * schema is the given one or 'public' when unset, whose NODE_ENV is the given
   * one or development when unset, and which keeps the other values as given.
   */
  lemma ParseServerEnvOk(isUrl: string -> bool, raw: RawEnv)
    requires ParseServerEnv(isUrl, raw).Ok?
    ensures var e := ParseServerEnv(isUrl, raw).value;
            && ValidServerEnv(e)
            && isUrl(e.appUrl) && isUrl(e.supabaseUrl)
            && e.appUrl == (if raw.appUrl.Some? then raw.appUrl.value else DEFAULT_APP_URL)
            && raw.supabaseUrl == Some(e.supabaseUrl) && raw.supabaseAnonKey == Some(e.supabaseAnonKey)
            && e.schema == (if raw.schema.Some? then raw.schema.value else DEFAULT_SCHEMA)
            && (raw.nodeEnv.None? ==> e.nodeEnv == Development)
            && (raw.nodeEnv == Some("development") ==> e.nodeEnv == Development)
            && (raw.nodeEnv == Some("production") ==> e.nodeEnv == Production)
            && (raw.nodeEnv == Some("test") ==> e.nodeEnv == Test)
            && e.schemaDev == raw.schemaDev && e.schemaProd == raw.schemaProd
            && e.schemaStaging == raw.schemaStaging && e.serviceRoleKey == raw.serviceRoleKey
  {
  }

  /**
   * The parse fails when NODE_ENV is set to anything but the three names, when
   * the schema is set to the empty string, or when the service-role key is set
   * to the empty string.
   */
  lemma ParseServerEnvRejects(isUrl: string -> bool, raw: RawEnv)
    ensures raw.nodeEnv.Some? && raw.nodeEnv.value !in {"development", "production", "test"} ==>
              ParseServerEnv(isUrl, raw).Err? && "NODE_ENV" in ParseServerEnv(isUrl, raw).error
    ensures raw.schema == Some("") ==> ParseServerEnv(isUrl, raw).Err?
                                       && "NEXT_PUBLIC_SUPABASE_SCHEMA" in ParseServerEnv(isUrl, raw).error
    ensures raw.serviceRoleKey == Some("") ==> ParseServerEnv(isUrl, raw).Err?
                                               && "SUPABASE_SERVICE_ROLE_KEY" in ParseServerEnv(isUrl, raw).error
  {
  }

  /** JavaScript `override || base` for a string that may be undefined: "" counts as absent. */
  function OrElse(override: Option<string>, base: string): (r: string)
    ensures override.Some? && override.value != [] ==> r == override.value
    ensures override.None? || override.value == [] ==> r == base
  {
    if override.Some? && override.value != [] then override.value else base
  }

  /**
   * `getCurrentSchema`: in development and test the DEV override when
   * non-empty, in production the PROD override when non-empty, and otherwise
   * the base schema. The STAGING override is never consulted.
   */
  function GetCurrentSchema(e: ServerEnv): (r: string)
    ensures r == e.schema || (e.nodeEnv != Production && e.schemaDev == Some(r))
                          || (e.nodeEnv == Production && e.schemaProd == Some(r))
    ensures e.nodeEnv != Production ==> r == (if e.schemaDev.Some? && e.schemaDev.value != [] then e.schemaDev.value else e.schema)
    ensures e.nodeEnv == Production ==> r == (if e.schemaProd.Some? && e.schemaProd.value != [] then e.schemaProd.value else e.schema)
  {
    match e.nodeEnv
    case Development => OrElse(e.schemaDev, e.schema)
    case Test => OrElse(e.schemaDev, e.schema)
    case Production => OrElse(e.schemaProd, e.schema)
  }

  /** The STAGING override has no effect on the active schema. */
  lemma StagingIgnored(e: ServerEnv, staging: Option<string>)
    ensures GetCurrentSchema(e.(schemaStaging := staging)) == GetCurrentSchema(e)
  {
  }

  /** The active schema of a parsed environment is never empty. */
  lemma CurrentSchemaNonEmpty(isUrl: string -> bool, raw: RawEnv)
    requires ParseServerEnv(isUrl, raw).Ok?
    ensures GetCurrentSchema(ParseServerEnv(isUrl, raw).value) != []
  {
  }

  /**
   * The client-side parse: no variable has a default, so it succeeds exactly
   * when both URLs are set and pass the URL check and the anon key and the
   * schema are set and non-empty, and it then keeps the four values as given.
   */
  function ParseClientEnv(isUrl: string -> bool, raw: RawEnv): (r: Result<ClientEnv, seq<string>>)
    ensures r.Err? ==> r.error != []
    ensures r.Ok? <==>
              && raw.appUrl.Some? && isUrl(raw.appUrl.value)
              && raw.supabaseUrl.Some? && isUrl(raw.supabaseUrl.value)
              && raw.supabaseAnonKey.Some? && raw.supabaseAnonKey.value != []
              && raw.schema.Some? && raw.schema.value != []
    ensures raw.schema.None? || raw.schema == Some("") ==> r.Err? && "NEXT_PUBLIC_SUPABASE_SCHEMA" in r.error
    ensures r.Ok? ==> raw.schema == Some(r.value.schema) && r.value.schema != []
    ensures r.Ok? ==> raw.appUrl == Some(r.value.appUrl) && isUrl(r.value.appUrl)
    ensures r.Ok? ==> raw.supabaseUrl == Some(r.value.supabaseUrl) && isUrl(r.value.supabaseUrl)
    ensures r.Ok? ==> raw.supabaseAnonKey == Some(r.value.supabaseAnonKey)
  {
    var appUrl := UrlWithDefault(isUrl, raw.appUrl, None);
    var supabaseUrl := UrlWithDefault(isUrl, raw.supabaseUrl, None);
    var anonKey := NonEmptyWithDefault(raw.supabaseAnonKey, None);
    var schema := NonEmptyWithDefault(raw.schema, None);
    var failed :=
      (if appUrl.None? then ["NEXT_PUBLIC_APP_URL"] else [])
      + (if supabaseUrl.None? then ["NEXT_PUBLIC_SUPABASE_URL"] else [])
      + (if anonKey.None? then ["NEXT_PUBLIC_SUPABASE_ANON_KEY"] else [])
      + (if schema.None? then ["NEXT_PUBLIC_SUPABASE_SCHEMA"] else []);
    if failed != [] then Err(failed)
    else Ok(ClientEnv(appUrl.value, supabaseUrl.value, anonKey.value, schema.value))
  }

  /**
   * `getCurrentSchemaClient`: the schema of `clientEnv`, the client record
   * parsed from the process environment at module load (a failed parse throws
   * there, so the function is only reachable after a successful one).
   */
  function GetCurrentSchemaClient(isUrl: string -> bool, raw: RawEnv): (r: string)
    requires ParseClientEnv(isUrl, raw).Ok?
    ensures Some(r) == raw.schema && r != []
  {
    ParseClientEnv(isUrl, raw).value.schema
  }

  /** On the client NODE_ENV and the per-environment overrides play no part. */
  lemma ClientIgnoresOverrides(isUrl: string -> bool, raw: RawEnv, nodeEnv: Option<string>,
                               dev: Option<string>, staging: Option<string>, prod: Option<string>)
    requires ParseClientEnv(isUrl, raw).Ok?
    ensures var other := raw.(nodeEnv := nodeEnv, schemaDev := dev, schemaStaging := staging, schemaProd := prod);
            ParseClientEnv(isUrl, other).Ok? && GetCurrentSchemaClient(isUrl, other) == GetCurrentSchemaClient(isUrl, raw)
  {
  }
}
