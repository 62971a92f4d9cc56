/**
 * The vocabulary shared by the two schemas: untyped JavaScript values as a
 * validator receives them, the issues a failed validation reports, and the
 * behaviour of the platform that the source relies on without defining it.
 */
module Validation {

  import opened Common

  /**
   * An untyped JavaScript value. `Num` is a finite number; `NonFinite` stands
   * for NaN and the infinities. A key that is missing from an object and a key
   * bound to `undefined` read the same (see `Field`).
   */
  datatype Value =
    | Undefined
    | Null
    | Bool(b: bool)
    | Num(n: real)
    | NonFinite
    | Str(s: string)
    | Arr(items: seq<Value>)
    | Obj(fields: map<string, Value>)

  /** Property access `o[key]`: `undefined` when the key is missing. */
  function Field(fields: map<string, Value>, key: string): (v: Value)
    ensures key !in fields ==> v == Undefined
    ensures key in fields ==> v == fields[key]
  {
    if key in fields then fields[key] else Undefined
  }

  /** The kinds of failed check, named after the validation library's issue codes. */
  datatype IssueCode =
    | InvalidType    // wrong JavaScript type, or a required field is missing
    | InvalidValue   // not a member of an enumeration
    | InvalidFormat  // a string that is not a UUID, an ISO datetime or an email address
    | TooSmall       // below a minimum length or value
    | TooBig         // above a maximum length

  /** A message written in the schema, or the library's own wording (not part of this model). */
  datatype Message = Text(text: string) | LibraryText

  /** One failed check: the path of the offending field, its code and its message. */
  datatype Issue = Issue(path: seq<string>, code: IssueCode, message: Message)

  /**
   * Behaviour of the validation library and of the JavaScript runtime that
   * the source calls but does not define: the UUID, ISO-datetime and email
   * syntax checks, the library's rendering of a list of issues as the error
   * message, and `String(v)`.
   */
  datatype Platform = Platform(
    isUuid: string -> bool,
    isIsoDatetime: string -> bool,
    isEmail: string -> bool,
    issuesText: seq<Issue> -> string,
    stringOf: Value -> string)

  /** Absent (or `undefined`): what `.optional()` and `.default(..)` let through untouched. */
  predicate Absent(v: Value) {
    v.Undefined?
  }

  /**
   * The issues of `z.string().min(min, minMessage).max(max, maxMessage)` on
   * the string `s` of field `field`: both checks run, at most one can fail.
   */
  function LengthIssues(field: string, s: string, min: nat, minMessage: string, max: nat, maxMessage: string): (r: seq<Issue>)
    requires min <= max
    ensures r == [] <==> min <= |s| <= max
    ensures |s| < min ==> r == [Issue([field], TooSmall, Text(minMessage))]
    ensures |s| > max ==> r == [Issue([field], TooBig, Text(maxMessage))]
  {
    (if |s| < min then [Issue([field], TooSmall, Text(minMessage))] else [])
    + (if |s| > max then [Issue([field], TooBig, Text(maxMessage))] else [])
  }

  /** The issues a field check reported: none when it accepted its input. */
  function IssuesOf<T>(r: Result<T, seq<Issue>>): seq<Issue> {
    if r.Success? then [] else r.error
  }

  /** Every issue in `issues` is reported under the single field `field`. */
  predicate ReportedUnder(issues: seq<Issue>, field: string) {
    forall i :: i in issues ==> i.path == [field]
  }

  /** The issues of several checks, reported one check after another. */
  function Concat(parts: seq<seq<Issue>>): seq<Issue>
    decreases |parts|
  {
    if parts == [] then [] else Concat(parts[..|parts| - 1]) + parts[|parts| - 1]
  }

  /** An issue is reported in the concatenation exactly when one of the parts reports it. */
  lemma {:induction false} ConcatMembers(parts: seq<seq<Issue>>, i: Issue)
    ensures i in Concat(parts) <==> exists k :: 0 <= k < |parts| && i in parts[k]
    decreases |parts|
  {
    if parts != [] {
      var n := |parts| - 1;
      ConcatMembers(parts[..n], i);
      assert forall k :: 0 <= k < n ==> parts[..n][k] == parts[k];
    }
  }

  /** The issues of eight checks in a row, as the object schema reports them. */
  lemma ConcatEight(parts: seq<seq<Issue>>)
    requires |parts| == 8
    ensures Concat(parts) == parts[0] + parts[1] + parts[2] + parts[3] + parts[4] + parts[5] + parts[6] + parts[7]
  {
    assert Concat(parts[..1]) == parts[0] by { assert parts[..1][..0] == []; }
    assert Concat(parts[..2]) == Concat(parts[..1]) + parts[1] by { assert parts[..2][..1] == parts[..1]; }
    assert Concat(parts[..3]) == Concat(parts[..2]) + parts[2] by { assert parts[..3][..2] == parts[..2]; }
    assert Concat(parts[..4]) == Concat(parts[..3]) + parts[3] by { assert parts[..4][..3] == parts[..3]; }
    assert Concat(parts[..5]) == Concat(parts[..4]) + parts[4] by { assert parts[..5][..4] == parts[..4]; }
    assert Concat(parts[..6]) == Concat(parts[..5]) + parts[5] by { assert parts[..6][..5] == parts[..5]; }
    assert Concat(parts[..7]) == Concat(parts[..6]) + parts[6] by { assert parts[..7][..6] == parts[..6]; }
  }

  /** A failed check always names at least one issue. */
  predicate WellFormed<T>(r: Result<T, seq<Issue>>) {
    r.Failure? ==> r.error != []
  }
}
