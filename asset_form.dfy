/**
 * The submit handler of the asset form (`AssetForm.handleSubmit`): the
 * form's entries are converted into the object the asset schema validates,
 * a failed validation is collated into one message per field, and the
 * form's `errors` and `loading` state step through the submission.
 */
module AssetForm {

  import opened Common
  import opened Validation
  import opened AssetSchema

  /** `Object.fromEntries(formData.entries())`: every submitted field as text. */
  type FormData = map<string, string>

  /**
   * The runtime conversions the handler calls: `Number(s)` (`None` for NaN
   * and the infinities) and `new Date(s).toISOString()` (`None` where it
   * throws, on an invalid date).
   */
  datatype Conversions = Conversions(numberOf: string -> Option<real>, isoOf: string -> Option<string>)

  /** The three keys the handler rewrites; every other entry is passed on as text. */
  const RewrittenKeys: set<string> := {"value", "purchaseDate", "status"}

  /** An entry as the spread `...data` passes it on: its text, or `undefined` when missing. */
  function Entry(data: FormData, key: string): (v: Value)
    ensures key in data <==> v.Str?
    ensures key in data ==> v.s == data[key]
  {
    if key in data then Str(data[key]) else Undefined
  }

  /**
   * The converted `purchaseDate`: `undefined` for an empty field, otherwise
   * the ISO text of the date, or `None` when the conversion throws (a
   * missing field reaches `new Date(undefined)`, which throws too).
   */
  function PreparedDate(data: FormData, c: Conversions): Option<Value> {
    if "purchaseDate" !in data then None
    else if data["purchaseDate"] == "" then Some(Undefined)
    else if c.isoOf(data["purchaseDate"]).None? then None
    else Some(Str(c.isoOf(data["purchaseDate"]).value))
  }

  /** The converted `value`: `Number(data.value)`, NaN when the field is missing. */
  function PreparedValue(data: FormData, c: Conversions): Value {
    if "value" in data && c.numberOf(data["value"]).Some? then Num(c.numberOf(data["value"]).value) else NonFinite
  }

  /** The converted `status`: `data.status || undefined`. */
  function PreparedStatus(data: FormData): Value {
    if "status" in data && data["status"] != "" then Str(data["status"]) else Undefined
  }

  /**
   * `processedData`: the form's entries with `value` converted to a number,
   * an empty `purchaseDate` and an empty `status` made absent, and
   * `purchaseDate` converted to ISO text; `None` when that conversion
   * throws, which rejects the handler before validation.
   */
  function Prepare(data: FormData, c: Conversions): (r: Option<map<string, Value>>)
    ensures r.None? <==> !("purchaseDate" in data && (data["purchaseDate"] == "" || c.isoOf(data["purchaseDate"]).Some?))
    ensures r.Some? ==> forall k :: k !in RewrittenKeys ==> Field(r.value, k) == Entry(data, k)
    ensures r.Some? && "value" !in data ==> Field(r.value, "value") == NonFinite
    ensures r.Some? && "value" in data ==>
      Field(r.value, "value") == (if c.numberOf(data["value"]).Some? then Num(c.numberOf(data["value"]).value) else NonFinite)
    ensures r.Some? ==> (Field(r.value, "purchaseDate") == Undefined <==> data["purchaseDate"] == "")
    ensures r.Some? && data["purchaseDate"] != "" ==> Field(r.value, "purchaseDate") == Str(c.isoOf(data["purchaseDate"]).value)
    ensures r.Some? ==> (Field(r.value, "status") == Undefined <==> "status" !in data || data["status"] == "")
    ensures r.Some? && Field(r.value, "status") != Undefined ==> Field(r.value, "status") == Str(data["status"])
  {
    match PreparedDate(data, c)
    case None => None
    case Some(date) =>
      var spread := map k | k in data :: Str(data[k]);
      Some(spread["value" := PreparedValue(data, c)]["purchaseDate" := date]["status" := PreparedStatus(data)])
  }

  // ---------------------------------------------------------------------------
  // Collating the issues of a failed validation into one message per field.

  /** `if (issue.path[0])`: the issue is shown under field `key`, a non-empty first path element. */
  predicate RecordedAs(issue: Issue, key: string) {
    |issue.path| > 0 && issue.path[0] != "" && issue.path[0] == key
  }

  /**
   * The field-error map the `forEach` builds: each issue with a non-empty
   * first path element writes its message under that field, a later issue
   * overwriting an earlier one.
   */
  function Collate(issues: seq<Issue>): map<string, Message>
    decreases |issues|
  {
    if issues == [] then map[]
    else
      var last := issues[|issues| - 1];
      var before := Collate(issues[..|issues| - 1]);
      if |last.path| > 0 && last.path[0] != "" then before[last.path[0] := last.message] else before
  }

  /**
   * A field carries an error exactly when some issue is recorded under it,
   * and the message shown is that of the last such issue.
   */
  lemma {:induction false} CollateSpec(issues: seq<Issue>, key: string)
    ensures key in Collate(issues) <==> exists i :: 0 <= i < |issues| && RecordedAs(issues[i], key)
    ensures key in Collate(issues) ==>
      exists i :: 0 <= i < |issues| && RecordedAs(issues[i], key) && Collate(issues)[key] == issues[i].message &&
        forall j :: i < j < |issues| ==> !RecordedAs(issues[j], key)
    decreases |issues|
  {
    if issues != [] {
      var n := |issues| - 1;
      var init := issues[..n];
      CollateSpec(init, key);
      assert forall i :: 0 <= i < n ==> init[i] == issues[i];
      if RecordedAs(issues[n], key) {
        assert Collate(issues)[key] == issues[n].message;
      } else {
        assert Collate(issues) == Collate(init) || issues[n].path[0] != key;
        assert key in Collate(issues) <==> key in Collate(init);
        if key in Collate(issues) {
          assert Collate(issues)[key] == Collate(init)[key];
          var i :| 0 <= i < n && RecordedAs(init[i], key) && Collate(init)[key] == init[i].message &&
            forall j :: i < j < n ==> !RecordedAs(init[j], key);
          assert RecordedAs(issues[i], key);
        }
        if exists i :: 0 <= i < |issues| && RecordedAs(issues[i], key) {
          var i :| 0 <= i < |issues| && RecordedAs(issues[i], key);
          assert i < n && RecordedAs(init[i], key);
        }
      }
    }
  }

  /** The `forEach` over the issues, building the field-error map one issue at a time. */
  method CollateIssues(issues: seq<Issue>) returns (fieldErrors: map<string, Message>)
    ensures fieldErrors == Collate(issues)
  {
    fieldErrors := map[];
    var i := 0;
    while i < |issues|
      invariant 0 <= i <= |issues|
      invariant fieldErrors == Collate(issues[..i])
    {
      var issue := issues[i];
      assert issues[..i + 1][..i] == issues[..i];
      if |issue.path| > 0 && issue.path[0] != "" {
        fieldErrors := fieldErrors[issue.path[0] := issue.message];
      }
      i := i + 1;
    }
    assert issues[..i] == issues;
  }

  // ---------------------------------------------------------------------------
  // The handler.

  /**
   * How a submission ends: the date conversion threw before validation; the
   * input failed validation with these issues; or the record was handed to
   * `onSubmit`, which resolved (`saved`) or threw.
   */
  datatype SubmitOutcome =
    | DateThrew
    | Invalid(issues: seq<Issue>)
    | Submitted(asset: Asset, saved: bool)

  /** The form's state: the error shown under each field, and whether a submission is in progress. */
  class Form {
    var errors: map<string, Message>
    var loading: bool

    constructor()
      ensures errors == map[] && !loading
    {
      errors := map[];
      loading := false;
    }

    /**
     * `handleSubmit`: `loading` is set; a throwing date conversion leaves it
     * set and the errors as they were; a failed validation shows the
     * collated field errors, clears `loading` and does not submit; a valid
     * record clears the errors, is handed to `onSubmit` (whose outcome is
     * `submitThrows`) and `loading` is cleared either way. `freshId` and
     * `now` are the schema's defaults for this call.
     */
    method HandleSubmit(p: Platform, c: Conversions, data: FormData, freshId: string, now: string, submitThrows: bool)
      returns (outcome: SubmitOutcome)
      modifies this
      ensures Prepare(data, c).None? ==> outcome == DateThrew && loading && errors == old(errors)
      ensures Prepare(data, c).Some? ==> !loading
      ensures Prepare(data, c).Some? && Parse(p, Obj(Prepare(data, c).value), freshId, now).Failure? ==>
        outcome == Invalid(Parse(p, Obj(Prepare(data, c).value), freshId, now).error) && errors == Collate(outcome.issues)
      ensures Prepare(data, c).Some? && Parse(p, Obj(Prepare(data, c).value), freshId, now).Success? ==>
        outcome == Submitted(Parse(p, Obj(Prepare(data, c).value), freshId, now).value, !submitThrows) && errors == map[]
    {
      loading := true;
      var prepared := Prepare(data, c);
      if prepared.None? {
        return DateThrew;
      }
      var result := Parse(p, Obj(prepared.value), freshId, now);
      if result.Failure? {
        var fieldErrors := CollateIssues(result.error);
        errors := fieldErrors;
        loading := false;
        return Invalid(result.error);
      }
      errors := map[];
      loading := false;
      return Submitted(result.value, !submitThrows);
    }
  }

  // ---------------------------------------------------------------------------
  // Properties of the submission.

  /** The names of the schema's fields, under which its issues are reported. */
  const SchemaFields: set<string> := {"id", "userId", "name", "serialNumber", "category", "value", "status", "purchaseDate"}

  /** Every issue the schema reports on an object is reported under one of its fields. */
  lemma ObjectIssuesNameFields(p: Platform, o: map<string, Value>, freshId: string, now: string)
    ensures Parse(p, Obj(o), freshId, now).Failure? ==>
      forall issue :: issue in Parse(p, Obj(o), freshId, now).error ==> |issue.path| == 1 && issue.path[0] in SchemaFields
  {
    var id := CheckId(p, Field(o, "id"), freshId);
    var userId := CheckUserId(p, Field(o, "userId"));
    var name := CheckName(Field(o, "name"));
    var serialNumber := CheckSerialNumber(Field(o, "serialNumber"));
    var category := CheckCategory(Field(o, "category"));
    var value := CheckValue(Field(o, "value"));
    var status := CheckStatus(Field(o, "status"));
    var purchaseDate := CheckPurchaseDate(p, Field(o, "purchaseDate"), now);
    var issues :=
      IssuesOf(id) + IssuesOf(userId) + IssuesOf(name) + IssuesOf(serialNumber)
      + IssuesOf(category) + IssuesOf(value) + IssuesOf(status) + IssuesOf(purchaseDate);
    assert Parse(p, Obj(o), freshId, now).Failure? ==> Parse(p, Obj(o), freshId, now).error == issues;
    forall issue | issue in issues ensures |issue.path| == 1 && issue.path[0] in SchemaFields {
      assert issue.path in {["id"], ["userId"], ["name"], ["serialNumber"], ["category"], ["value"], ["status"], ["purchaseDate"]};
    }
  }

  /** A failed validation of the prepared form always shows at least one field error. */
  lemma InvalidShowsAnError(p: Platform, o: map<string, Value>, freshId: string, now: string)
    requires Parse(p, Obj(o), freshId, now).Failure?
    ensures Collate(Parse(p, Obj(o), freshId, now).error) != map[]
  {
    var issues := Parse(p, Obj(o), freshId, now).error;
    ObjectIssuesNameFields(p, o, freshId, now);
    assert issues[0] in issues;
    var key := issues[0].path[0];
    assert RecordedAs(issues[0], key);
    CollateSpec(issues, key);
  }

  /**
   * After a failed validation, the form shows an error on a schema field
   * exactly when that field's own check reported an issue, that is, exactly
   * when the field breaks its constraint (`ViolationsReported`).
   */
  lemma FieldErrorIffFieldFails(p: Platform, o: map<string, Value>, freshId: string, now: string, j: nat)
    requires j < |FieldOrder|
    requires Parse(p, Obj(o), freshId, now).Failure?
    ensures FieldOrder[j] in Collate(Parse(p, Obj(o), freshId, now).error) <==> FieldIssues(p, o, freshId, now)[j] != []
  {
    ObjectIssuesNameFields(p, o, freshId, now);
    FlagsIffFieldFails(p, o, freshId, now, j);
    CollateShowsFlagged(Parse(p, Obj(o), freshId, now), FieldOrder[j]);
  }

  /** When every issue names a single field, the form shows an error on a field exactly when the result flags it. */
  lemma CollateShowsFlagged(r: Result<Asset, seq<Issue>>, key: string)
    requires r.Failure? && key != ""
    requires forall issue :: issue in r.error ==> |issue.path| == 1
    ensures key in Collate(r.error) <==> Flags(r, key)
  {
    var issues := r.error;
    CollateSpec(issues, key);
    if key in Collate(issues) {
      var i :| 0 <= i < |issues| && RecordedAs(issues[i], key);
      assert issues[i] in issues && issues[i].path == [key];
    }
    if Flags(r, key) {
      var issue :| issue in issues && issue.path == [key];
      var i :| 0 <= i < |issues| && issues[i] == issue;
      assert RecordedAs(issues[i], key);
    }
  }

  /** An empty date field is made absent, so a valid submission is dated `now`, the schema's default. */
  lemma EmptyDateTakesDefault(p: Platform, c: Conversions, data: FormData, freshId: string, now: string)
    requires "purchaseDate" in data && data["purchaseDate"] == ""
    ensures Prepare(data, c).Some?
    ensures Parse(p, Obj(Prepare(data, c).value), freshId, now).Success? ==>
      Parse(p, Obj(Prepare(data, c).value), freshId, now).value.purchaseDate == now
  {
  }

  /** An empty or missing status field is made absent, so a valid submission is "active", the schema's default. */
  lemma EmptyStatusTakesActive(p: Platform, c: Conversions, data: FormData, freshId: string, now: string)
    requires "status" !in data || data["status"] == ""
    requires Prepare(data, c).Some?
    ensures Parse(p, Obj(Prepare(data, c).value), freshId, now).Success? ==>
      Parse(p, Obj(Prepare(data, c).value), freshId, now).value.status == Active
  {
  }
}
