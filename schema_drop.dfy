/**
 * The schema-drop script: picks and normalises the schema argument, refuses
 * system schemas and the configured schema, checks existence, lists the
 * tables, asks for confirmation and prints the DROP statements to run.
 * `process.exit` is the returned exit code, the reply to the prompt is a
 * parameter, and what is printed is summarised by the returned outcome.
 */
module SchemaDrop {
  import opened Wrappers
  import opened Text
  import opened CliArgs
  import Env
  import Migrations

  const SYSTEM_SCHEMAS: seq<string> := ["public", "auth", "storage", "postgres", "information_schema"]

  datatype Outcome =
    | ShowedHelp
    | MissingName
    | SystemSchema(schema: string)
    | SchemaInUse(schema: string)
    | NotFound(schema: string)
    | Cancelled(schema: string, tables: seq<string>)
    | GuidePrinted(schema: string, tables: seq<string>, statements: seq<string>)

  function ExitCode(o: Outcome): int {
    if o.MissingName? || o.SystemSchema? || o.SchemaInUse? then 1 else 0
  }

  /** `c` is the ASCII letter `lower` in either case (`lower` being lowercase). */
  predicate SameLetterIgnoringCase(c: char, lower: char)
    requires IsAsciiLower(lower)
  {
    c == lower || c as int == lower as int - 32
  }

  /** The pattern `/^y(es)?$/i`. */
  predicate ConfirmPattern(t: string) {
    || (|t| == 1 && SameLetterIgnoringCase(t[0], 'y'))
    || (|t| == 3 && SameLetterIgnoringCase(t[0], 'y') && SameLetterIgnoringCase(t[1], 'e')
                 && SameLetterIgnoringCase(t[2], 's'))
  }

  /**
   * `confirm`'s reading of the reply: the trimmed reply matches the pattern,
   * that is, it is "y" or "yes" in any mix of case.
   */
  function Confirmed(answer: string): (r: bool)
    ensures r <==> ToLowerAscii(Trim(answer)) == "y" || ToLowerAscii(Trim(answer)) == "yes"
  {
    var t := Trim(answer);
    var l := ToLowerAscii(t);
    assert |t| == 1 ==> (l == "y" <==> SameLetterIgnoringCase(t[0], 'y'));
    assert |t| == 3 ==> (l == "yes" <==> SameLetterIgnoringCase(t[0], 'y') && SameLetterIgnoringCase(t[1], 'e')
                                         && SameLetterIgnoringCase(t[2], 's')) by {
      if |t| == 3 && SameLetterIgnoringCase(t[0], 'y') && SameLetterIgnoringCase(t[1], 'e')
         && SameLetterIgnoringCase(t[2], 's') {
        assert l == [l[0], l[1], l[2]];
      }
    }
    ConfirmPattern(t)
  }

  /** A blank reply cancels the drop. */
  lemma BlankCancels(answer: string)
    requires forall i :: 0 <= i < |answer| ==> IsJsWhitespace(answer[i])
    ensures !Confirmed(answer)
  {
    TrimAllWhitespace(answer);
  }

  /** "y" or "yes" in any case, with any whitespace around it, confirms. */
  lemma SurroundedYesConfirms(pre: string, reply: string, post: string)
    requires forall i :: 0 <= i < |pre| ==> IsJsWhitespace(pre[i])
    requires forall i :: 0 <= i < |post| ==> IsJsWhitespace(post[i])
    requires ToLowerAscii(reply) == "y" || ToLowerAscii(reply) == "yes"
    ensures Confirmed(pre + reply + post)
  {
    var l := ToLowerAscii(reply);
    assert reply != [];
    LowerPreservesWhitespace(reply[0]);
    LowerPreservesWhitespace(reply[|reply| - 1]);
    assert l[0] == 'y' && l[|l| - 1] in "ys";
    TrimSurrounded(pre, reply, post);
  }

  function DropTableStatement(schema: string, table: string): string {
    "DROP TABLE IF EXISTS \"" + schema + "\".\"" + table + "\" CASCADE;"
  }

  function DropSchemaStatement(schema: string): string {
    "DROP SCHEMA IF EXISTS \"" + schema + "\" CASCADE;"
  }

  /**
   * The statements of the guide: one DROP TABLE per listed table, in list
   * order, then exactly one DROP SCHEMA.
   */
  method DropStatements(schema: string, tables: seq<string>) returns (statements: seq<string>)
    ensures |statements| == |tables| + 1
    ensures forall k :: 0 <= k < |tables| ==> statements[k] == DropTableStatement(schema, tables[k])
    ensures statements[|tables|] == DropSchemaStatement(schema)
    ensures forall k :: 0 <= k < |tables| ==> statements[k] != statements[|tables|]
  {
    statements := [];
    for i := 0 to |tables|
      invariant |statements| == i
      invariant forall k :: 0 <= k < i ==> statements[k] == DropTableStatement(schema, tables[k])
    {
      statements := statements + [DropTableStatement(schema, tables[i])];
    }
    statements := statements + [DropSchemaStatement(schema)];
    forall k | 0 <= k < |tables| ensures statements[k] != statements[|tables|] {
      StatementsDistinguishable(schema, tables[k]);
    }
  }

  /** Only the DROP SCHEMA statement mentions no table. */
  lemma StatementsDistinguishable(schema: string, table: string)
    ensures DropTableStatement(schema, table) != DropSchemaStatement(schema)
  {
    assert DropTableStatement(schema, table)[5] == 'T';
    assert DropSchemaStatement(schema)[5] == 'S';
  }

  /** The tables `listTablesInSchema` reports, as its contract gives them. */
  predicate ListedTables(e: Env.ServerEnv, db: Migrations.Backend, schema: string, tables: seq<string>) {
    if !Migrations.AdminClientAvailable(e) then tables == Migrations.FALLBACK_TABLES
    else if db.pgTables(schema).Rows? then tables == db.pgTables(schema).tablenames
    else tables == Migrations.TablesFound(db, schema, Migrations.COMMON_TABLES)
  }

  /** The schema the script is about: the first positional argument, trimmed and lowercased. */
  function Target(args: seq<string>): string
    requires !NameMissing(FirstPositional(args))
  {
    NormaliseName(FirstPositional(args).value)
  }

  /** The refusals before the prompt, in order: system schema, configured schema, missing schema. */
  predicate Refused(args: seq<string>, e: Env.ServerEnv, db: Migrations.Backend, outcome: Outcome)
    requires !NameMissing(FirstPositional(args))
  {
    var schema := Target(args);
    && (schema in SYSTEM_SCHEMAS ==> outcome == SystemSchema(schema))
    && (schema !in SYSTEM_SCHEMAS && schema == NormaliseName(e.schema) ==> outcome == SchemaInUse(schema))
    && (schema !in SYSTEM_SCHEMAS && schema != NormaliseName(e.schema) && !Migrations.SchemaPresent(e, db, schema) ==>
          outcome == NotFound(schema))
  }

  /** Every gate passed: the schema exists, is not a system schema and is not in use. */
  predicate Proceeds(args: seq<string>, e: Env.ServerEnv, db: Migrations.Backend) {
    && !WantsHelp(args)
    && !NameMissing(FirstPositional(args))
    && Target(args) !in SYSTEM_SCHEMAS
    && Target(args) != NormaliseName(e.schema)
    && Migrations.SchemaPresent(e, db, Target(args))
  }

  /** After the prompt: the listed tables are shown, and y/yes prints the guide while anything else cancels. */
  predicate PromptOutcome(e: Env.ServerEnv, db: Migrations.Backend, schema: string, answer: string, outcome: Outcome) {
    && (outcome.Cancelled? || outcome.GuidePrinted?)
    && outcome.schema == schema
    && ListedTables(e, db, schema, outcome.tables)
    && (outcome.GuidePrinted? <==> Confirmed(answer))
  }

  /** What the guide states about its DROP statements, once printed. */
  predicate StatementsFor(outcome: Outcome)
    requires outcome.GuidePrinted?
  {
    && |outcome.statements| == |outcome.tables| + 1
    && (forall k :: 0 <= k < |outcome.tables| ==>
          outcome.statements[k] == DropTableStatement(outcome.schema, outcome.tables[k]))
    && outcome.statements[|outcome.tables|] == DropSchemaStatement(outcome.schema)
  }

  /**
   * The `try` block of the script, for a name that passed the pre-checks: a
   * schema that does not exist ends with exit 0 before any prompt; otherwise
   * the tables are listed and the reply is read: anything but y/yes cancels,
   * y/yes prints the DROP statements; both exit 0.
   */
  method Guide(e: Env.ServerEnv, db: Migrations.Backend, name: string, answer: string)
    returns (outcome: Outcome, prompted: bool)
    ensures outcome.NotFound? || outcome.Cancelled? || outcome.GuidePrinted?
    ensures prompted <==> !outcome.NotFound?
    ensures !Migrations.SchemaPresent(e, db, name) ==> outcome == NotFound(name) && !prompted
    ensures Migrations.SchemaPresent(e, db, name) ==> prompted && PromptOutcome(e, db, name, answer, outcome)
    ensures outcome.GuidePrinted? ==> StatementsFor(outcome)
  {
    var present, _ := Migrations.SchemaExists(e, db, name);
    if !present {
      return NotFound(name), false;
    }
    var tables := Migrations.ListTablesInSchema(e, db, name);
    prompted := true;
    var confirmed := Confirmed(answer);
    if !confirmed {
      return Cancelled(name, tables), prompted;
    }
    var statements := DropStatements(name, tables);
    return GuidePrinted(name, tables, statements), prompted;
  }

  /**
   * The script. With "--help" only the help. Without a schema argument, or
   * with an empty one, exit 1.
   * The normalised name is refused with exit 1 when it is a system schema, and
   * then when it equals the configured schema (normalised the same way); the
   * rest is the guide, ending with exit 0.
   */
  method Run(args: seq<string>, e: Env.ServerEnv, db: Migrations.Backend, answer: string)
    returns (exitCode: int, outcome: Outcome, prompted: bool)
    ensures exitCode == ExitCode(outcome)
    ensures prompted <==> outcome.Cancelled? || outcome.GuidePrinted?
    ensures WantsHelp(args) ==> outcome == ShowedHelp
    ensures !WantsHelp(args) && NameMissing(FirstPositional(args)) ==> outcome == MissingName
    ensures !WantsHelp(args) && !NameMissing(FirstPositional(args)) ==> Refused(args, e, db, outcome)
    ensures Proceeds(args, e, db) ==> PromptOutcome(e, db, Target(args), answer, outcome)
    ensures outcome.GuidePrinted? ==> StatementsFor(outcome)
  {
    var schema := FirstPositional(args);
    var help := WantsHelp(args);
    if help {
      return 0, ShowedHelp, false;
    }
    if schema.None? || schema.value == [] {
      return 1, MissingName, false;
    }
    var name := schema.value;
    name := NormaliseName(name);
    var protectedSchemas := SYSTEM_SCHEMAS;
    if name in protectedSchemas {
      return 1, SystemSchema(name), false;
    }
    var currentSchema := NormaliseName(e.schema);
    if name == currentSchema {
      return 1, SchemaInUse(name), false;
    }
    outcome, prompted := Guide(e, db, name, answer);
    exitCode := 0;
  }
}
