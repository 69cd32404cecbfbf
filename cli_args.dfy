/**
 * Argument handling shared by the schema scripts: the schema argument is the
 * first argument not starting with "--", "--help" anywhere asks for help, and
 * the name is trimmed and lowercased before any check.
 */
module CliArgs {
  import opened Wrappers
  import opened Text

  predicate IsFlag(arg: string) {
    StartsWith(arg, "--")
  }

  /** `args.find(arg => !arg.startsWith('--'))`. */
  function FirstPositional(args: seq<string>): (r: Option<string>)
    ensures r.None? <==> forall i :: 0 <= i < |args| ==> IsFlag(args[i])
    ensures r.Some? ==> exists i :: 0 <= i < |args| && args[i] == r.value && !IsFlag(args[i])
                                    && forall j :: 0 <= j < i ==> IsFlag(args[j])
  {
    if args == [] then None
    else if !IsFlag(args[0]) then Some(args[0])
    else
      var r := FirstPositional(args[1..]);
      if r.Some? then
        var i :| 0 <= i < |args[1..]| && args[1..][i] == r.value && !IsFlag(args[1..][i])
                 && forall j :: 0 <= j < i ==> IsFlag(args[1..][j]);
        assert args[i + 1] == r.value && forall j :: 0 <= j < i + 1 ==> IsFlag(args[j]);
        r
      else r
  }

  /**
   * The scripts' `if (!schema)`: no positional argument, or an empty one,
   * since the empty string is falsy in JavaScript.
   */
  predicate NameMissing(schema: Option<string>) {
    schema.None? || schema.value == []
  }

  /** An empty first argument counts as a missing name, not as the name "". */
  lemma EmptyArgumentMissing(args: seq<string>)
    requires args != [] && args[0] == []
    ensures FirstPositional(args) == Some([])
    ensures NameMissing(FirstPositional(args))
  {
  }

  /** `args.includes('--help')`. */
  predicate WantsHelp(args: seq<string>) {
    "--help" in args
  }

  /** `schema.trim().toLowerCase()`. */
  function NormaliseName(s: string): (r: string)
    ensures |r| <= |s|
    ensures r != [] ==> !IsJsWhitespace(r[0]) && !IsJsWhitespace(r[|r| - 1])
    ensures forall i :: 0 <= i < |r| ==> !IsAsciiUpper(r[i])
  {
    var t := Trim(s);
    LowerPreservesWhitespace(if t == [] then ' ' else t[0]);
    LowerPreservesWhitespace(if t == [] then ' ' else t[|t| - 1]);
    ToLowerAscii(t)
  }

  /** Without whitespace, normalising is lowercasing. */
  lemma NormaliseWithoutWhitespace(s: string)
    requires forall i :: 0 <= i < |s| ==> !IsJsWhitespace(s[i])
    ensures NormaliseName(s) == ToLowerAscii(s)
  {
    TrimNoWhitespace(s);
  }

  /** Normalising twice is normalising once. */
  lemma NormaliseIdempotent(s: string)
    ensures NormaliseName(NormaliseName(s)) == NormaliseName(s)
  {
    var t := Trim(s);
    var n := ToLowerAscii(t);
    var ws := LeadingWhitespace(t);
    assert ws == 0;
    forall i | 0 <= i < |n| ensures IsJsWhitespace(n[i]) == IsJsWhitespace(t[i]) {
      LowerPreservesWhitespace(t[i]);
    }
    LeadingWhitespaceSame(n, t);
    assert LeadingWhitespace(n) == 0;
    TrimOfTrimmed(n);
    ToLowerIdempotent(t);
  }

  lemma {:induction false} LeadingWhitespaceSame(a: string, b: string)
    requires |a| == |b|
    requires forall i :: 0 <= i < |a| ==> IsJsWhitespace(a[i]) == IsJsWhitespace(b[i])
    ensures LeadingWhitespace(a) == LeadingWhitespace(b)
  {
    if a != [] && IsJsWhitespace(a[0]) {
      LeadingWhitespaceSame(a[1..], b[1..]);
    }
  }
}
