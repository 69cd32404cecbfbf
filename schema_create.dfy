/**
 * The schema-create script: picks the schema argument, normalises it, checks
 * it against the identifier pattern and the database, and prints the manual
 * creation guide. `process.exit` is the returned exit code; what is printed is
 * summarised by the returned outcome.
 */
module SchemaCreate {
  import opened Wrappers
  import opened Text
  import opened CliArgs
  import Env
  import Migrations

  datatype Outcome =
    | ShowedHelp
    | MissingName
    | InvalidName(schema: string)
    | AlreadyExists(schema: string)
    | GuidePrinted(schema: string)

  predicate IdentifierChar(c: char) {
    IsAsciiLower(c) || IsAsciiDigit(c) || c == '_'
  }

  /** The pattern `^[a-z][a-z0-9_]*$`. */
  predicate ValidSchemaName(s: string) {
    s != [] && IsAsciiLower(s[0]) && forall i :: 1 <= i < |s| ==> IdentifierChar(s[i])
  }

  /** An accepted name is already in normal form: normalising changes nothing. */
  lemma ValidNameIsNormal(s: string)
    requires ValidSchemaName(s)
    ensures NormaliseName(s) == s
  {
    assert forall i :: 0 <= i < |s| ==> !IsJsWhitespace(s[i]) && !IsAsciiUpper(s[i]);
    TrimNoWhitespace(s);
  }

  /** Mixed case is accepted once lowercased. */
  lemma MixedCaseAccepted()
    ensures NormaliseName("Client_Samsung") == "client_samsung" && ValidSchemaName("client_samsung")
  {
    var s := "Client_Samsung";
    assert forall i :: 0 <= i < |s| ==> '0' <= s[i] <= 'z';
    NormaliseWithoutWhitespace(s);
    var r := ToLowerAscii(s);
    assert r[0] == 'c' && r[7] == 's';
    assert forall i :: 0 <= i < |s| && i != 0 && i != 7 ==> r[i] == s[i];
  }

  /** A leading digit is rejected. */
  lemma LeadingDigitRejected()
    ensures !ValidSchemaName(NormaliseName("123abc"))
  {
    var s := "123abc";
    assert forall i :: 0 <= i < |s| ==> '0' <= s[i] <= 'z';
    NormaliseWithoutWhitespace(s);
    assert ToLowerAscii(s)[0] == '1';
  }

  /** A hyphen is rejected, whatever the case. */
  lemma HyphenRejected()
    ensures !ValidSchemaName(NormaliseName("My-Project"))
  {
    var s := "My-Project";
    assert forall i :: 0 <= i < |s| ==> '-' <= s[i] <= 'z';
    NormaliseWithoutWhitespace(s);
    assert ToLowerAscii(s)[2] == '-';
  }

  /** The exit code of each outcome. */
  function ExitCode(o: Outcome): int {
    if o.ShowedHelp? || o.GuidePrinted? then 0 else 1
  }

  /**
   * The script: with "--help" only the help; without a schema argument, or
   * with an empty one, exit 1;
   * otherwise the normalised name must match the pattern (else exit 1) and must
   * not exist yet (else exit 1), and then the guide is printed and it exits 0.
   */
  method Run(args: seq<string>, e: Env.ServerEnv, db: Migrations.Backend) returns (exitCode: int, outcome: Outcome)
    ensures exitCode == ExitCode(outcome)
    ensures WantsHelp(args) ==> outcome == ShowedHelp
    ensures !WantsHelp(args) && NameMissing(FirstPositional(args)) ==> outcome == MissingName
    ensures !WantsHelp(args) && !NameMissing(FirstPositional(args)) ==>
              var schema := NormaliseName(FirstPositional(args).value);
              && (!ValidSchemaName(schema) ==> outcome == InvalidName(schema))
              && (ValidSchemaName(schema) && Migrations.SchemaPresent(e, db, schema) ==> outcome == AlreadyExists(schema))
              && (ValidSchemaName(schema) && !Migrations.SchemaPresent(e, db, schema) ==> outcome == GuidePrinted(schema))
    ensures exitCode == 0 <==> outcome == ShowedHelp || outcome.GuidePrinted?
  {
    var schema := FirstPositional(args);
    var help := WantsHelp(args);
    if help {
      return 0, ShowedHelp;
    }
    if schema.None? || schema.value == [] {
      return 1, MissingName;
    }
    var name := schema.value;
    name := NormaliseName(name);
    if !ValidSchemaName(name) {
      return 1, InvalidName(name);
    }
    var present, _ := Migrations.SchemaExists(e, db, name);
    if present {
      return 1, AlreadyExists(name);
    }
    return 0, GuidePrinted(name);
  }
}
