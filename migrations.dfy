/**
 * Schema management: the protected-schema guard, the failure-result
 * constructor, the existence probe, the create/drop check chains and their
 * CLI-facing variants, the listing of custom schemas and of tables.
 *
 * The database is an oracle (`Backend`): what a one-row select on a relation
 * returns, and what the `pg_tables` catalogue query returns. Everything else
 * the TypeScript module prints to the console is left out.
 */
module Migrations {
  import opened Wrappers
  import opened Text
  import opened StringSort
  import Env

  const PROTECTED_SCHEMAS: seq<string> := ["public", "auth", "storage"]

  /** `isProtectedSchema`: exact, case-sensitive membership in the protected list. */
  function IsProtectedSchema(schema: string): (r: bool)
    ensures r <==> schema == "public" || schema == "auth" || schema == "storage"
  {
    schema in PROTECTED_SCHEMAS
  }

  /** The comparison is case-sensitive: an upper-case spelling is not protected. */
  lemma ProtectedIsCaseSensitive()
    ensures !IsProtectedSchema("Public") && !IsProtectedSchema("PUBLIC") && !IsProtectedSchema(" auth")
  {
  }

  datatype MigrationResult = MigrationResult(success: bool, message: string, error: Option<string>)

  /** `fail(message, error?)`: a failure, carrying `error` only when it is given and non-empty. */
  function Fail(message: string, error: Option<string>): (r: MigrationResult)
    ensures !r.success && r.message == message
    ensures r.error.Some? <==> error.Some? && error.value != []
    ensures r.error.Some? ==> r.error == error
  {
    MigrationResult(false, message, if error.Some? && error.value != [] then error else None)
  }

  // ---------------------------------------------------------------------
  // The database oracle

  /** What a `select('*').limit(1)` on a relation returns: no error, an error code, or an exception. */
  datatype ProbeResult = NoError | PostgrestError(code: string) | Thrown

  /** What the `pg_tables` query returns: rows, an error, no data, or an exception. */
  datatype CatalogResult = Rows(tablenames: seq<string>) | CatalogError | NoData | CatalogThrown

  datatype Backend = Backend(probe: string -> ProbeResult, pgTables: string -> CatalogResult)

  /**
   * `createAdminClient` throws exactly when the service-role key is unset or
   * empty; every operation here then takes its exception path.
   */
  predicate AdminClientAvailable(e: Env.ServerEnv) {
    e.serviceRoleKey.Some? && e.serviceRoleKey.value != []
  }

  /** The relation name the probes pass to `from`: `schema.table`. */
  function Relation(schema: string, table: string): string {
    schema + "." + table
  }

  /** A probe shows the table: no error, or PGRST116 (no rows, table present). */
  predicate ProbeHit(r: ProbeResult) {
    r.NoError? || (r.PostgrestError? && r.code == "PGRST116")
  }

  const TEST_TABLES: seq<string> := ["users", "profiles"]

  function TestRelations(schema: string): seq<string> {
    [Relation(schema, "users"), Relation(schema, "profiles")]
  }

  /** The existence rule: the admin client works and `users` or `profiles` is found. */
  predicate SchemaPresent(e: Env.ServerEnv, db: Backend, schema: string) {
    && AdminClientAvailable(e)
    && (ProbeHit(db.probe(Relation(schema, "users"))) || ProbeHit(db.probe(Relation(schema, "profiles"))))
  }

  // ---------------------------------------------------------------------
  // schemaExists

  /**
   * `schemaExists`: probes `users` then `profiles`, stopping at the first hit;
   * a probe that throws counts as a miss, and a failing client gives false.
   * `probed` is the sequence of relations probed.
   */
  method SchemaExists(e: Env.ServerEnv, db: Backend, schemaName: string) returns (present: bool, ghost probed: seq<string>)
    ensures present <==> SchemaPresent(e, db, schemaName)
    ensures |probed| <= 2 && probed == TestRelations(schemaName)[..|probed|]
    ensures forall k :: 0 <= k < |probed| ==> (ProbeHit(db.probe(probed[k])) <==> present && k == |probed| - 1)
    ensures AdminClientAvailable(e) ==> probed != []
    ensures AdminClientAvailable(e) && !present ==> probed == TestRelations(schemaName)
  {
    probed := [];
    if !AdminClientAvailable(e) {
      return false, probed;
    }
    var testTables := TEST_TABLES;
    for i := 0 to |testTables|
      invariant probed == TestRelations(schemaName)[..i]
      invariant forall k :: 0 <= k < i ==> !ProbeHit(db.probe(probed[k]))
    {
      var relation := schemaName + "." + testTables[i];
      probed := probed + [relation];
      var result := db.probe(relation);
      if result.NoError? || (result.PostgrestError? && result.code == "PGRST116") {
        return true, probed;
      }
      // A thrown probe is caught and the next table is tried.
    }
    assert probed == TestRelations(schemaName);
    assert !ProbeHit(db.probe(probed[0])) && !ProbeHit(db.probe(probed[1]));
    return false, probed;
  }

  // ---------------------------------------------------------------------
  // Messages

  function AlreadyExistsMessage(schema: string): string { "스키마 '" + schema + "'는 이미 존재합니다" }
  function ManualCreateMessage(schema: string): string {
    "스키마 '" + schema + "' 생성을 위해 Supabase Dashboard에서 수동 작업이 필요합니다"
  }
  function NotFoundMessage(schema: string): string { "스키마 '" + schema + "'가 존재하지 않습니다" }
  function ManualDropMessage(schema: string): string {
    "스키마 '" + schema + "' 삭제를 위해 Supabase Dashboard에서 수동 작업이 필요합니다"
  }
  const DROP_PROTECTED := "시스템 스키마는 삭제할 수 없습니다"
  const NO_NAME := "스키마명이 입력되지 않았습니다."
  const CREATE_PROTECTED_CUSTOM := "시스템 스키마는 생성할 수 없습니다."
  const DROP_PROTECTED_CUSTOM := "시스템 스키마는 삭제할 수 없습니다."

  const MANUAL_CREATION := "Manual schema creation required"
  const MANUAL_DELETION := "Manual schema deletion required"
  const PROTECTED_ERROR := "Protected schema"
  const NO_NAME_ERROR := "No schema name provided"

  // ---------------------------------------------------------------------
  // The check chains

  /**
   * `createSchema`: succeeds exactly when the schema already exists; otherwise
   * the manual creation failure.
   */
  method CreateSchema(e: Env.ServerEnv, db: Backend, schemaName: string) returns (r: MigrationResult, ghost probed: seq<string>)
    ensures r.success <==> SchemaPresent(e, db, schemaName)
    ensures r.success ==> r == MigrationResult(true, AlreadyExistsMessage(schemaName), None)
    ensures !r.success ==> r == Fail(ManualCreateMessage(schemaName), Some(MANUAL_CREATION))
    ensures |probed| <= 2 && probed == TestRelations(schemaName)[..|probed|]
  {
    var present;
    present, probed := SchemaExists(e, db, schemaName);
    if present {
      return MigrationResult(true, AlreadyExistsMessage(schemaName), None), probed;
    }
    r := Fail(ManualCreateMessage(schemaName), Some(MANUAL_CREATION));
  }

  /**
   * `dropSchema`: a protected name fails before any probe; otherwise succeeds
   * exactly when the schema does not exist, and fails with the manual deletion
   * error when it does.
   */
  method DropSchema(e: Env.ServerEnv, db: Backend, schemaName: string) returns (r: MigrationResult, ghost probed: seq<string>)
    ensures IsProtectedSchema(schemaName) ==> r == Fail(DROP_PROTECTED, Some(PROTECTED_ERROR)) && probed == []
    ensures !IsProtectedSchema(schemaName) ==> (r.success <==> !SchemaPresent(e, db, schemaName))
    ensures !IsProtectedSchema(schemaName) && !SchemaPresent(e, db, schemaName) ==>
              r == MigrationResult(true, NotFoundMessage(schemaName), None)
    ensures !IsProtectedSchema(schemaName) && SchemaPresent(e, db, schemaName) ==>
              r == Fail(ManualDropMessage(schemaName), Some(MANUAL_DELETION))
    ensures |probed| <= 2 && probed == TestRelations(schemaName)[..|probed|]
  {
    if IsProtectedSchema(schemaName) {
      return Fail(DROP_PROTECTED, Some(PROTECTED_ERROR)), [];
    }
    var present;
    present, probed := SchemaExists(e, db, schemaName);
    if !present {
      return MigrationResult(true, NotFoundMessage(schemaName), None), probed;
    }
    r := Fail(ManualDropMessage(schemaName), Some(MANUAL_DELETION));
  }

  /**
   * `migrationUtils.createCustomSchema`: empty name, then protected name, then
   * existence; a schema that does not exist goes on to `createSchema`, which
   * probes again and, the database being the same, fails too. It never succeeds.
   */
  method CreateCustomSchema(e: Env.ServerEnv, db: Backend, schemaName: string) returns (r: MigrationResult, ghost probed: seq<string>)
    ensures !r.success
    ensures schemaName == [] ==> r == Fail(NO_NAME, Some(NO_NAME_ERROR)) && probed == []
    ensures schemaName != [] && IsProtectedSchema(schemaName) ==>
              r == Fail(CREATE_PROTECTED_CUSTOM, Some(PROTECTED_ERROR)) && probed == []
    ensures schemaName != [] && !IsProtectedSchema(schemaName) && SchemaPresent(e, db, schemaName) ==>
              r == Fail(AlreadyExistsMessage(schemaName) + ".", None)
    ensures schemaName != [] && !IsProtectedSchema(schemaName) && !SchemaPresent(e, db, schemaName) ==>
              r == Fail(ManualCreateMessage(schemaName), Some(MANUAL_CREATION))
  {
    if schemaName == [] {
      return Fail(NO_NAME, Some(NO_NAME_ERROR)), [];
    }
    if IsProtectedSchema(schemaName) {
      return Fail(CREATE_PROTECTED_CUSTOM, Some(PROTECTED_ERROR)), [];
    }
    var present;
    present, probed := SchemaExists(e, db, schemaName);
    if present {
      return Fail(AlreadyExistsMessage(schemaName) + ".", None), probed;
    }
    ghost var again;
    r, again := CreateSchema(e, db, schemaName);
    probed := probed + again;
  }

  /**
   * `migrationUtils.dropCustomSchema`: empty name, then protected name, then
   * existence; an existing schema goes on to `dropSchema`, which probes again
   * and fails with the manual deletion error. It never succeeds.
   */
  method DropCustomSchema(e: Env.ServerEnv, db: Backend, schemaName: string) returns (r: MigrationResult, ghost probed: seq<string>)
    ensures !r.success
    ensures schemaName == [] ==> r == Fail(NO_NAME, Some(NO_NAME_ERROR)) && probed == []
    ensures schemaName != [] && IsProtectedSchema(schemaName) ==>
              r == Fail(DROP_PROTECTED_CUSTOM, Some(PROTECTED_ERROR)) && probed == []
    ensures schemaName != [] && !IsProtectedSchema(schemaName) && !SchemaPresent(e, db, schemaName) ==>
              r == Fail(NotFoundMessage(schemaName) + ".", None)
    ensures schemaName != [] && !IsProtectedSchema(schemaName) && SchemaPresent(e, db, schemaName) ==>
              r == Fail(ManualDropMessage(schemaName), Some(MANUAL_DELETION))
  {
    if schemaName == [] {
      return Fail(NO_NAME, Some(NO_NAME_ERROR)), [];
    }
    if IsProtectedSchema(schemaName) {
      return Fail(DROP_PROTECTED_CUSTOM, Some(PROTECTED_ERROR)), [];
    }
    var present;
    present, probed := SchemaExists(e, db, schemaName);
    if !present {
      return Fail(NotFoundMessage(schemaName) + ".", None), probed;
    }
    ghost var again;
    r, again := DropSchema(e, db, schemaName);
    probed := probed + again;
  }

  /**
   * `initializeCurrentSchema`, on the configured schema as set (not trimmed):
   * success for a protected or existing schema, otherwise `createSchema`'s
   * manual creation failure.
   */
  method InitializeCurrentSchema(e: Env.ServerEnv, db: Backend) returns (r: MigrationResult)
    ensures r.success <==> IsProtectedSchema(e.schema) || SchemaPresent(e, db, e.schema)
    ensures IsProtectedSchema(e.schema) ==> r == MigrationResult(true, e.schema + " 스키마는 이미 존재합니다", None)
    ensures !IsProtectedSchema(e.schema) && SchemaPresent(e, db, e.schema) ==>
              r == MigrationResult(true, AlreadyExistsMessage(e.schema), None)
    ensures !r.success ==> r == Fail(ManualCreateMessage(e.schema), Some(MANUAL_CREATION))
  {
    var currentSchema := e.schema;
    if IsProtectedSchema(currentSchema) {
      return MigrationResult(true, currentSchema + " 스키마는 이미 존재합니다", None);
    }
    var present, _ := SchemaExists(e, db, currentSchema);
    if present {
      return MigrationResult(true, AlreadyExistsMessage(currentSchema), None);
    }
    ghost var probed;
    r, probed := CreateSchema(e, db, currentSchema);
  }

  // ---------------------------------------------------------------------
  // Listings

  /** The schemas `listCustomSchemas` tries: the configured one, trimmed and lowercased, then five known names. */
  function CustomSchemaCandidates(e: Env.ServerEnv): seq<string> {
    [ToLowerAscii(Trim(e.schema)), "portfolio", "main", "development", "staging", "production"]
  }

  /**
   * `listCustomSchemas`: the candidates that are not protected and exist,
   * without duplicates and sorted.
   */
  method ListCustomSchemas(e: Env.ServerEnv, db: Backend) returns (schemas: seq<string>)
    ensures StrictlySorted(schemas)
    ensures forall s :: s in schemas <==>
              s in CustomSchemaCandidates(e) && !IsProtectedSchema(s) && SchemaPresent(e, db, s)
  {
    var potentialSchemas := [ToLowerAscii(Trim(e.schema)), "portfolio", "main", "development", "staging", "production"];
    var existingSchemas: seq<string> := [];
    for i := 0 to |potentialSchemas|
      invariant forall s :: s in existingSchemas <==>
                  s in potentialSchemas[..i] && !IsProtectedSchema(s) && SchemaPresent(e, db, s)
    {
      var schema := potentialSchemas[i];
      assert potentialSchemas[..i + 1] == potentialSchemas[..i] + [schema];
      if IsProtectedSchema(schema) {
        continue;
      }
      var present, _ := SchemaExists(e, db, schema);
      if present {
        existingSchemas := existingSchemas + [schema];
      }
    }
    assert potentialSchemas[..|potentialSchemas|] == CustomSchemaCandidates(e);
    schemas := SortedUnique(existingSchemas);
  }

  const COMMON_TABLES: seq<string> := ["users", "profiles", "posts", "comments", "settings"]
  const FALLBACK_TABLES: seq<string> := ["users", "profiles"]

  /**
   * The fallback probe of `listTablesInSchema`: the tables of `tables`, in
   * order, whose probe returns no error at all (PGRST116 does not count here).
   */
  function TablesFound(db: Backend, schema: string, tables: seq<string>): (r: seq<string>)
    ensures forall t :: t in r <==> t in tables && db.probe(Relation(schema, t)).NoError?
    ensures |r| <= |tables|
  {
    if tables == [] then []
    else
      var init, last := tables[..|tables| - 1], tables[|tables| - 1];
      assert tables == init + [last];
      TablesFound(db, schema, init) + (if db.probe(Relation(schema, last)).NoError? then [last] else [])
  }

  /** One probe of the fallback: the table, when it answers without error. */
  function FoundTable(db: Backend, schema: string, table: string): seq<string> {
    if db.probe(Relation(schema, table)).NoError? then [table] else []
  }

  /** The fallback keeps list order: the tables found in `a + b` are those found in `a`, then those in `b`. */
  lemma {:induction false} TablesFoundAppend(db: Backend, schema: string, a: seq<string>, b: seq<string>)
    ensures TablesFound(db, schema, a + b) == TablesFound(db, schema, a) + TablesFound(db, schema, b)
    decreases |b|
  {
    if b == [] {
      assert a + b == a;
    } else {
      var init, last := b[..|b| - 1], b[|b| - 1];
      assert (a + b)[..|a + b| - 1] == a + init;
      assert (a + b)[|a + b| - 1] == last;
      TablesFoundAppend(db, schema, a, init);
    }
  }

  /** Probing one table finds it exactly when it answers without error. */
  lemma TablesFoundSingle(db: Backend, schema: string, table: string)
    ensures TablesFound(db, schema, [table]) == FoundTable(db, schema, table)
  {
    assert [table][..0] == [];
  }

  /** The fallback result, table by table in the probe order users, profiles, posts, comments, settings. */
  lemma FallbackOrder(db: Backend, schema: string)
    ensures TablesFound(db, schema, COMMON_TABLES)
         == FoundTable(db, schema, "users") + FoundTable(db, schema, "profiles") + FoundTable(db, schema, "posts")
            + FoundTable(db, schema, "comments") + FoundTable(db, schema, "settings")
  {
    var t := COMMON_TABLES;
    assert t == [t[0]] + [t[1]] + [t[2]] + [t[3]] + [t[4]];
    TablesFoundAppend(db, schema, [t[0]] + [t[1]] + [t[2]] + [t[3]], [t[4]]);
    TablesFoundAppend(db, schema, [t[0]] + [t[1]] + [t[2]], [t[3]]);
    TablesFoundAppend(db, schema, [t[0]] + [t[1]], [t[2]]);
    TablesFoundAppend(db, schema, [t[0]], [t[1]]);
    TablesFoundSingle(db, schema, t[0]);
    TablesFoundSingle(db, schema, t[1]);
    TablesFoundSingle(db, schema, t[2]);
    TablesFoundSingle(db, schema, t[3]);
    TablesFoundSingle(db, schema, t[4]);
  }

  /**
   * `listTablesInSchema`: the catalogue's rows when that query succeeds with
   * data; otherwise the common tables that answer a probe without error; and
   * `users, profiles` when the admin client cannot be made.
   */
  method ListTablesInSchema(e: Env.ServerEnv, db: Backend, schemaName: string) returns (tables: seq<string>)
    ensures !AdminClientAvailable(e) ==> tables == FALLBACK_TABLES
    ensures AdminClientAvailable(e) && db.pgTables(schemaName).Rows? ==> tables == db.pgTables(schemaName).tablenames
    ensures AdminClientAvailable(e) && !db.pgTables(schemaName).Rows? ==>
              tables == TablesFound(db, schemaName, COMMON_TABLES)
  {
    if !AdminClientAvailable(e) {
      return FALLBACK_TABLES;
    }
    var catalogue := db.pgTables(schemaName);
    if catalogue.Rows? {
      return catalogue.tablenames;
    }
    // An error, no data or an exception: fall back to probing known tables.
    var commonTables := COMMON_TABLES;
    var existingTables: seq<string> := [];
    for i := 0 to |commonTables|
      invariant existingTables == TablesFound(db, schemaName, commonTables[..i])
    {
      var table := commonTables[i];
      assert commonTables[..i + 1][..i] == commonTables[..i];
      var result := db.probe(schemaName + "." + table);
      if result.NoError? {
        existingTables := existingTables + [table];
      }
    }
    assert commonTables[..|commonTables|] == COMMON_TABLES;
    tables := existingTables;
  }
}
