/**
 * The part of the Zod validation library the auth and env schemas depend on:
 * an issue is a path and a message; string checks (`min`, `max`, `length`,
 * `regex`, `refine`) each add at most one issue and do not stop later checks;
 * `flatten().fieldErrors` groups messages by the first path element.
 */
module ZodIssues {
  import opened Text

  datatype Issue = Issue(path: seq<string>, message: string)

  /** One issue at `path` unless `ok` holds (a `regex`, `email`, `url` or `refine` check). */
  function Check(path: seq<string>, ok: bool, message: string): (r: seq<Issue>)
    ensures r == [] <==> ok
    ensures !ok ==> r == [Issue(path, message)]
  {
    if ok then [] else [Issue(path, message)]
  }

  /** `.min(n, message)`: at least `n` UTF-16 code units. */
  function MinLength(path: seq<string>, s: string, n: nat, message: string): (r: seq<Issue>)
    ensures r == [] <==> n <= JsLength(s)
  {
    Check(path, n <= JsLength(s), message)
  }

  /** `.max(n, message)`: at most `n` UTF-16 code units. */
  function MaxLength(path: seq<string>, s: string, n: nat, message: string): (r: seq<Issue>)
    ensures r == [] <==> JsLength(s) <= n
  {
    Check(path, JsLength(s) <= n, message)
  }

  /** `.length(n, message)`: exactly `n` UTF-16 code units. */
  function ExactLength(path: seq<string>, s: string, n: nat, message: string): (r: seq<Issue>)
    ensures r == [] <==> JsLength(s) == n
  {
    Check(path, JsLength(s) == n, message)
  }

  /** The field names `flatten()` groups issues under: first elements of non-empty paths. */
  function FieldNames(issues: seq<Issue>): set<string> {
    set i | 0 <= i < |issues| && issues[i].path != [] :: issues[i].path[0]
  }

  /** The messages of the issues filed under `field`, in issue order. */
  function MessagesFor(issues: seq<Issue>, field: string): seq<string> {
    if issues == [] then []
    else
      var last := issues[|issues| - 1];
      MessagesFor(issues[..|issues| - 1], field)
        + (if last.path != [] && last.path[0] == field then [last.message] else [])
  }

  /**
   * `error.flatten().fieldErrors`: issue by issue, the message is appended to
   * the list of the issue's first path element; issues with an empty path
   * (form errors) are not included.
   */
  function FieldErrors(issues: seq<Issue>): map<string, seq<string>> {
    if issues == [] then map[]
    else
      var m, last := FieldErrors(issues[..|issues| - 1]), issues[|issues| - 1];
      if last.path == [] then m
      else m[last.path[0] := (if last.path[0] in m then m[last.path[0]] else []) + [last.message]]
  }

  /**
   * The fields of `FieldErrors(issues)` are exactly the fields some issue is
   * filed under, each holding the messages filed under it, in issue order.
   */
  lemma {:induction false} FieldErrorsSpec(issues: seq<Issue>)
    ensures FieldErrors(issues).Keys == FieldNames(issues)
    ensures forall k :: k in FieldErrors(issues) ==> FieldErrors(issues)[k] == MessagesFor(issues, k) != []
  {
    if issues != [] {
      var init, last := issues[..|issues| - 1], issues[|issues| - 1];
      FieldErrorsSpec(init);
      FieldNamesStep(issues);
      var m := FieldErrors(init);
      if last.path != [] {
        var k := last.path[0];
        if k !in m { MessagesForAbsent(init, k); }
      }
    }
  }

  lemma FieldNamesStep(issues: seq<Issue>)
    requires issues != []
    ensures var last := issues[|issues| - 1];
            FieldNames(issues) == FieldNames(issues[..|issues| - 1]) + (if last.path != [] then {last.path[0]} else {})
  {
    var init := issues[..|issues| - 1];
    assert forall i :: 0 <= i < |init| ==> init[i] == issues[i];
  }

  lemma {:induction false} MessagesForAbsent(issues: seq<Issue>, field: string)
    requires field !in FieldNames(issues)
    ensures MessagesFor(issues, field) == []
  {
    if issues != [] {
      var init := issues[..|issues| - 1];
      assert forall i :: 0 <= i < |init| ==> init[i] == issues[i];
      assert FieldNames(init) <= FieldNames(issues);
      MessagesForAbsent(init, field);
    }
  }
}
