/**
 * The asset record and its validator (`AssetSchema`): field constraints,
 * defaults for `id`, `status` and `purchaseDate`, and the issues reported
 * for each violated constraint. The generated UUID and the current time are
 * parameters (`freshId`, `now`); the UUID and ISO-datetime syntax checks
 * come from the `Platform`.
 */
module AssetSchema {

  import opened Common
  import opened Validation

  datatype Category =
    | Laptop | Desktop | Smartphone | Tablet | Monitor
    | Peripheral | Network | Server | Furniture | Other

  datatype Status = Active | Maintenance | Retired | Lost

  /** A validated asset: every field present, defaults already applied. */
  datatype Asset = Asset(
    id: string,
    userId: Option<string>,
    name: string,
    serialNumber: Option<string>,
    category: Category,
    value: real,
    status: Status,
    purchaseDate: string)

  const CategoryNames: seq<string> :=
    ["laptop", "desktop", "smartphone", "tablet", "monitor",
     "peripheral", "network", "server", "furniture", "other"]

  const StatusNames: seq<string> := ["active", "maintenance", "retired", "lost"]

  const NameTooShort := "Name must be at least 3 characters"
  const NameTooLong := "Name too long"
  const ValueNotPositive := "Value must be positive"

  function CategoryName(c: Category): string {
    match c
    case Laptop => "laptop"
    case Desktop => "desktop"
    case Smartphone => "smartphone"
    case Tablet => "tablet"
    case Monitor => "monitor"
    case Peripheral => "peripheral"
    case Network => "network"
    case Server => "server"
    case Furniture => "furniture"
    case Other => "other"
  }

  /** The category an enumeration string denotes, if it is one of the ten. */
  function CategoryNamed(s: string): (r: Option<Category>)
    ensures r.Some? <==> s in CategoryNames
    ensures r.Some? ==> CategoryName(r.value) == s
  {
    match s
    case "laptop" => Some(Laptop)
    case "desktop" => Some(Desktop)
    case "smartphone" => Some(Smartphone)
    case "tablet" => Some(Tablet)
    case "monitor" => Some(Monitor)
    case "peripheral" => Some(Peripheral)
    case "network" => Some(Network)
    case "server" => Some(Server)
    case "furniture" => Some(Furniture)
    case "other" => Some(Other)
    case _ => None
  }

  function StatusName(s: Status): string {
    match s
    case Active => "active"
    case Maintenance => "maintenance"
    case Retired => "retired"
    case Lost => "lost"
  }

  /** The status an enumeration string denotes, if it is one of the four. */
  function StatusNamed(s: string): (r: Option<Status>)
    ensures r.Some? <==> s in StatusNames
    ensures r.Some? ==> StatusName(r.value) == s
  {
    match s
    case "active" => Some(Active)
    case "maintenance" => Some(Maintenance)
    case "retired" => Some(Retired)
    case "lost" => Some(Lost)
    case _ => None
  }

  /** Naming an enumeration member and reading the name back gives the member. */
  lemma EnumNamesRoundTrip(c: Category, s: Status)
    ensures CategoryNamed(CategoryName(c)) == Some(c)
    ensures StatusNamed(StatusName(s)) == Some(s)
  {
    match c
    case Laptop => case Desktop => case Smartphone => case Tablet => case Monitor =>
    case Peripheral => case Network => case Server => case Furniture => case Other =>
  }

  // ---------------------------------------------------------------------------
  // The constraints, stated declaratively, field by field.

  /** Absent, or a string that `ok` accepts. */
  predicate AbsentOr(v: Value, ok: string -> bool) {
    Absent(v) || (v.Str? && ok(v.s))
  }

  /** The input is an object whose fields meet every constraint of the schema. */
  predicate Conforms(p: Platform, input: Value) {
    && input.Obj?
    && var o := input.fields;
    && AbsentOr(Field(o, "id"), p.isUuid)
    && AbsentOr(Field(o, "userId"), p.isUuid)
    && Field(o, "name").Str? && 3 <= |Field(o, "name").s| <= 50
    && AbsentOr(Field(o, "serialNumber"), _ => true)
    && Field(o, "category").Str? && Field(o, "category").s in CategoryNames
    && Field(o, "value").Num? && Field(o, "value").n > 0.0
    && AbsentOr(Field(o, "status"), s => s in StatusNames)
    && AbsentOr(Field(o, "purchaseDate"), p.isIsoDatetime)
  }

  /**
   * `a` is the record the schema makes of a conforming object `o`: each
   * present field copied, unknown keys dropped, and the defaults (`freshId`,
   * "active", `now`) in place of absent `id`, `status` and `purchaseDate`.
   */
  predicate Denotes(p: Platform, o: map<string, Value>, a: Asset, freshId: string, now: string)
    requires Conforms(p, Obj(o))
  {
    && a.id == (if Absent(Field(o, "id")) then freshId else Field(o, "id").s)
    && a.userId == (if Absent(Field(o, "userId")) then None else Some(Field(o, "userId").s))
    && a.name == Field(o, "name").s
    && a.serialNumber == (if Absent(Field(o, "serialNumber")) then None else Some(Field(o, "serialNumber").s))
    && CategoryNamed(Field(o, "category").s) == Some(a.category)
    && a.value == Field(o, "value").n
    && (if Absent(Field(o, "status")) then a.status == Active else StatusNamed(Field(o, "status").s) == Some(a.status))
    && a.purchaseDate == (if Absent(Field(o, "purchaseDate")) then now else Field(o, "purchaseDate").s)
  }

  // ---------------------------------------------------------------------------
  // The checks, field by field, as the schema runs them.

  function CheckId(p: Platform, v: Value, freshId: string): (r: Result<string, seq<Issue>>)
    ensures WellFormed(r)
    ensures r.Success? <==> AbsentOr(v, p.isUuid)
    ensures r.Success? ==> r.value == (if Absent(v) then freshId else v.s)
    ensures ReportedUnder(IssuesOf(r), "id")
  {
    match v
    case Undefined => Success(freshId)
    case Str(s) => if p.isUuid(s) then Success(s) else Failure([Issue(["id"], InvalidFormat, LibraryText)])
    case _ => Failure([Issue(["id"], InvalidType, LibraryText)])
  }

  function CheckUserId(p: Platform, v: Value): (r: Result<Option<string>, seq<Issue>>)
    ensures WellFormed(r)
    ensures r.Success? <==> AbsentOr(v, p.isUuid)
    ensures r.Success? ==> r.value == (if Absent(v) then None else Some(v.s))
    ensures ReportedUnder(IssuesOf(r), "userId")
  {
    match v
    case Undefined => Success(None)
    case Str(s) => if p.isUuid(s) then Success(Some(s)) else Failure([Issue(["userId"], InvalidFormat, LibraryText)])
    case _ => Failure([Issue(["userId"], InvalidType, LibraryText)])
  }

  function CheckName(v: Value): (r: Result<string, seq<Issue>>)
    ensures WellFormed(r)
    ensures r.Success? <==> v.Str? && 3 <= |v.s| <= 50
    ensures r.Success? ==> r.value == v.s
    ensures ReportedUnder(IssuesOf(r), "name")
  {
    match v
    case Str(s) =>
      var issues := LengthIssues("name", s, 3, NameTooShort, 50, NameTooLong);
      if issues == [] then Success(s) else Failure(issues)
    case _ => Failure([Issue(["name"], InvalidType, LibraryText)])
  }

  function CheckSerialNumber(v: Value): (r: Result<Option<string>, seq<Issue>>)
    ensures WellFormed(r)
    ensures r.Success? <==> AbsentOr(v, _ => true)
    ensures r.Success? ==> r.value == (if Absent(v) then None else Some(v.s))
    ensures ReportedUnder(IssuesOf(r), "serialNumber")
  {
    match v
    case Undefined => Success(None)
    case Str(s) => Success(Some(s))
    case _ => Failure([Issue(["serialNumber"], InvalidType, LibraryText)])
  }

  function CheckCategory(v: Value): (r: Result<Category, seq<Issue>>)
    ensures WellFormed(r)
    ensures r.Success? <==> v.Str? && v.s in CategoryNames
    ensures r.Success? ==> CategoryNamed(v.s) == Some(r.value)
    ensures ReportedUnder(IssuesOf(r), "category")
  {
    if v.Str? && CategoryNamed(v.s).Some? then Success(CategoryNamed(v.s).value)
    else Failure([Issue(["category"], InvalidValue, LibraryText)])
  }

  function CheckValue(v: Value): (r: Result<real, seq<Issue>>)
    ensures WellFormed(r)
    ensures r.Success? <==> v.Num? && v.n > 0.0
    ensures r.Success? ==> r.value == v.n
    ensures ReportedUnder(IssuesOf(r), "value")
  {
    match v
    case Num(n) => if n > 0.0 then Success(n) else Failure([Issue(["value"], TooSmall, Text(ValueNotPositive))])
    case _ => Failure([Issue(["value"], InvalidType, LibraryText)])
  }

  function CheckStatus(v: Value): (r: Result<Status, seq<Issue>>)
    ensures WellFormed(r)
    ensures r.Success? <==> AbsentOr(v, s => s in StatusNames)
    ensures r.Success? ==> r.value == (if Absent(v) then Active else StatusNamed(v.s).value)
    ensures ReportedUnder(IssuesOf(r), "status")
  {
    if v.Undefined? then Success(Active)
    else if v.Str? && StatusNamed(v.s).Some? then Success(StatusNamed(v.s).value)
    else Failure([Issue(["status"], InvalidValue, LibraryText)])
  }

  function CheckPurchaseDate(p: Platform, v: Value, now: string): (r: Result<string, seq<Issue>>)
    ensures WellFormed(r)
    ensures r.Success? <==> AbsentOr(v, p.isIsoDatetime)
    ensures r.Success? ==> r.value == (if Absent(v) then now else v.s)
    ensures ReportedUnder(IssuesOf(r), "purchaseDate")
  {
    match v
    case Undefined => Success(now)
    case Str(s) => if p.isIsoDatetime(s) then Success(s) else Failure([Issue(["purchaseDate"], InvalidFormat, LibraryText)])
    case _ => Failure([Issue(["purchaseDate"], InvalidType, LibraryText)])
  }

  /**
   * `AssetSchema.safeParse(input)`: every field is checked, the issues are
   * collected in the schema's field order, and the record is built only when
   * there are none. It never throws.
   */
  function Parse(p: Platform, input: Value, freshId: string, now: string): (r: Result<Asset, seq<Issue>>)
    ensures r.Success? <==> Conforms(p, input)
    ensures r.Failure? ==> r.error != []
    ensures r.Success? ==> Denotes(p, input.fields, r.value, freshId, now)
    ensures !input.Obj? ==> r == Failure([Issue([], InvalidType, LibraryText)])
  {
    if !input.Obj? then Failure([Issue([], InvalidType, LibraryText)])
    else
      var o := input.fields;
      var id := CheckId(p, Field(o, "id"), freshId);
      var userId := CheckUserId(p, Field(o, "userId"));
      var name := CheckName(Field(o, "name"));
      var serialNumber := CheckSerialNumber(Field(o, "serialNumber"));
      var category := CheckCategory(Field(o, "category"));
      var value := CheckValue(Field(o, "value"));
      var status := CheckStatus(Field(o, "status"));
      var purchaseDate := CheckPurchaseDate(p, Field(o, "purchaseDate"), now);
      var issues :=
        IssuesOf(id) + IssuesOf(userId) + IssuesOf(name) + IssuesOf(serialNumber)
        + IssuesOf(category) + IssuesOf(value) + IssuesOf(status) + IssuesOf(purchaseDate);
      if issues == [] then
        Success(Asset(id.value, userId.value, name.value, serialNumber.value,
                      category.value, value.value, status.value, purchaseDate.value))
      else
        Failure(issues)
  }

  // ---------------------------------------------------------------------------
  // Properties of the validator.

  /** The parse failed and one of its issues is reported under `field`. */
  predicate Flags(r: Result<Asset, seq<Issue>>, field: string) {
    r.Failure? && exists i :: i in r.error && i.path == [field]
  }

  /** The schema's keys, in the order its fields are checked. */
  const FieldOrder: seq<string> :=
    ["id", "userId", "name", "serialNumber", "category", "value", "status", "purchaseDate"]

  /** The issues of each field's check, in the order of `FieldOrder`. */
  function FieldIssues(p: Platform, o: map<string, Value>, freshId: string, now: string): seq<seq<Issue>> {
    [IssuesOf(CheckId(p, Field(o, "id"), freshId)),
     IssuesOf(CheckUserId(p, Field(o, "userId"))),
     IssuesOf(CheckName(Field(o, "name"))),
     IssuesOf(CheckSerialNumber(Field(o, "serialNumber"))),
     IssuesOf(CheckCategory(Field(o, "category"))),
     IssuesOf(CheckValue(Field(o, "value"))),
     IssuesOf(CheckStatus(Field(o, "status"))),
     IssuesOf(CheckPurchaseDate(p, Field(o, "purchaseDate"), now))]
  }

  /** The parse of an object fails exactly when some field reports issues, and then with all of them in field order. */
  lemma ParseIssues(p: Platform, o: map<string, Value>, freshId: string, now: string)
    ensures var parts := FieldIssues(p, o, freshId, now);
      && |parts| == |FieldOrder|
      && (forall k :: 0 <= k < |parts| ==> ReportedUnder(parts[k], FieldOrder[k]))
      && (Parse(p, Obj(o), freshId, now).Success? <==> Concat(parts) == [])
      && (Parse(p, Obj(o), freshId, now).Failure? ==> Parse(p, Obj(o), freshId, now).error == Concat(parts))
  {
    ConcatEight(FieldIssues(p, o, freshId, now));
  }

  /** The keys of the schema are pairwise distinct. */
  lemma FieldOrderDistinct(j: nat, k: nat)
    requires j < |FieldOrder| && k < |FieldOrder| && j != k
    ensures FieldOrder[j] != FieldOrder[k]
  {
  }

  /**
   * A parse whose issues are the parts of several checks, each reporting under
   * its own field, flags the `j`-th field exactly when its part is not empty.
   */
  lemma FlagsIffPart(r: Result<Asset, seq<Issue>>, parts: seq<seq<Issue>>, fields: seq<string>, j: nat)
    requires |parts| == |fields| && j < |parts|
    requires forall k :: 0 <= k < |parts| ==> ReportedUnder(parts[k], fields[k])
    requires forall k :: 0 <= k < |fields| && k != j ==> fields[k] != fields[j]
    requires r.Success? <==> Concat(parts) == []
    requires r.Failure? ==> r.error == Concat(parts)
    ensures Flags(r, fields[j]) <==> parts[j] != []
  {
    if parts[j] != [] {
      ConcatMembers(parts, parts[j][0]);
      assert parts[j][0] in parts[j];
    }
    if Flags(r, fields[j]) {
      var i :| i in r.error && i.path == [fields[j]];
      ConcatMembers(parts, i);
      var k :| 0 <= k < |parts| && i in parts[k];
      assert [fields[k]] == [fields[j]];
    }
  }

  /** The parse flags the `j`-th field of the schema exactly when that field's own check reports an issue. */
  lemma FlagsIffFieldFails(p: Platform, o: map<string, Value>, freshId: string, now: string, j: nat)
    requires j < |FieldOrder|
    ensures Flags(Parse(p, Obj(o), freshId, now), FieldOrder[j]) <==> FieldIssues(p, o, freshId, now)[j] != []
  {
    ParseIssues(p, o, freshId, now);
    forall k | 0 <= k < |FieldOrder| && k != j ensures FieldOrder[k] != FieldOrder[j] {
      FieldOrderDistinct(k, j);
    }
    FlagsIffPart(Parse(p, Obj(o), freshId, now), FieldIssues(p, o, freshId, now), FieldOrder, j);
  }

  /**
   * Every violated constraint is reported under its own field, and only
   * those: for an object input, the parse names a field in its issues exactly
   * when that field breaks the constraint `Conforms` states for it.
   */
  lemma ViolationsReported(p: Platform, o: map<string, Value>, freshId: string, now: string)
    ensures Flags(Parse(p, Obj(o), freshId, now), "id") <==> !AbsentOr(Field(o, "id"), p.isUuid)
    ensures Flags(Parse(p, Obj(o), freshId, now), "userId") <==> !AbsentOr(Field(o, "userId"), p.isUuid)
    ensures Flags(Parse(p, Obj(o), freshId, now), "name") <==> !(Field(o, "name").Str? && 3 <= |Field(o, "name").s| <= 50)
    ensures Flags(Parse(p, Obj(o), freshId, now), "serialNumber") <==> !AbsentOr(Field(o, "serialNumber"), _ => true)
    ensures Flags(Parse(p, Obj(o), freshId, now), "category") <==> !(Field(o, "category").Str? && Field(o, "category").s in CategoryNames)
    ensures Flags(Parse(p, Obj(o), freshId, now), "value") <==> !(Field(o, "value").Num? && Field(o, "value").n > 0.0)
    ensures Flags(Parse(p, Obj(o), freshId, now), "status") <==> !AbsentOr(Field(o, "status"), s => s in StatusNames)
    ensures Flags(Parse(p, Obj(o), freshId, now), "purchaseDate") <==> !AbsentOr(Field(o, "purchaseDate"), p.isIsoDatetime)
  {
    FlagsIffFieldFails(p, o, freshId, now, 0);
    FlagsIffFieldFails(p, o, freshId, now, 1);
    FlagsIffFieldFails(p, o, freshId, now, 2);
    FlagsIffFieldFails(p, o, freshId, now, 3);
    FlagsIffFieldFails(p, o, freshId, now, 4);
    FlagsIffFieldFails(p, o, freshId, now, 5);
    FlagsIffFieldFails(p, o, freshId, now, 6);
    FlagsIffFieldFails(p, o, freshId, now, 7);
  }

  /**
   * The messages the schema attaches to its own checks: a name outside 3..50
   * characters and a value that is not positive are reported on their field
   * with the schema's text, and the parse fails.
   */
  lemma SchemaMessages(p: Platform, o: map<string, Value>, freshId: string, now: string)
    ensures Field(o, "name").Str? && |Field(o, "name").s| < 3 ==>
      Parse(p, Obj(o), freshId, now).Failure? &&
      Issue(["name"], TooSmall, Text(NameTooShort)) in Parse(p, Obj(o), freshId, now).error
    ensures Field(o, "name").Str? && |Field(o, "name").s| > 50 ==>
      Parse(p, Obj(o), freshId, now).Failure? &&
      Issue(["name"], TooBig, Text(NameTooLong)) in Parse(p, Obj(o), freshId, now).error
    ensures Field(o, "value").Num? && Field(o, "value").n <= 0.0 ==>
      Parse(p, Obj(o), freshId, now).Failure? &&
      Issue(["value"], TooSmall, Text(ValueNotPositive)) in Parse(p, Obj(o), freshId, now).error
  {
  }

  /**
   * The generated defaults never decide the outcome: whether a parse succeeds,
   * and the issues of a failed one, are the same for every `freshId` and `now`.
   */
  lemma IssuesIgnoreDefaults(p: Platform, input: Value, freshId: string, now: string, freshId': string, now': string)
    ensures Parse(p, input, freshId, now).Success? == Parse(p, input, freshId', now').Success?
    ensures Parse(p, input, freshId, now).Failure? ==> Parse(p, input, freshId, now) == Parse(p, input, freshId', now')
  {
  }

  /** A record meets every constraint of the schema. */
  predicate Valid(p: Platform, a: Asset) {
    && p.isUuid(a.id)
    && (a.userId.Some? ==> p.isUuid(a.userId.value))
    && 3 <= |a.name| <= 50
    && a.value > 0.0
    && p.isIsoDatetime(a.purchaseDate)
  }

  /** The plain object of a record, as `result.data` and as `JSON.stringify` writes it: absent options have no key. */
  function Encode(a: Asset): Value {
    Obj(map[
          "id" := Str(a.id),
          "name" := Str(a.name),
          "category" := Str(CategoryName(a.category)),
          "value" := Num(a.value),
          "status" := Str(StatusName(a.status)),
          "purchaseDate" := Str(a.purchaseDate)]
        + (if a.userId.Some? then map["userId" := Str(a.userId.value)] else map[])
        + (if a.serialNumber.Some? then map["serialNumber" := Str(a.serialNumber.value)] else map[]))
  }

  /**
   * A parsed record is valid, provided the generated defaults are themselves
   * a UUID and an ISO datetime (as `randomUUID` and `toISOString` produce).
   */
  lemma ParsedIsValid(p: Platform, input: Value, freshId: string, now: string)
    requires p.isUuid(freshId) && p.isIsoDatetime(now)
    requires Parse(p, input, freshId, now).Success?
    ensures Valid(p, Parse(p, input, freshId, now).value)
  {
  }

  /** The fields of a record's plain object. */
  lemma EncodeFields(a: Asset)
    ensures Encode(a).Obj?
    ensures Field(Encode(a).fields, "id") == Str(a.id)
    ensures Field(Encode(a).fields, "name") == Str(a.name)
    ensures Field(Encode(a).fields, "category") == Str(CategoryName(a.category))
    ensures Field(Encode(a).fields, "value") == Num(a.value)
    ensures Field(Encode(a).fields, "status") == Str(StatusName(a.status))
    ensures Field(Encode(a).fields, "purchaseDate") == Str(a.purchaseDate)
    ensures Field(Encode(a).fields, "userId") == if a.userId.Some? then Str(a.userId.value) else Undefined
    ensures Field(Encode(a).fields, "serialNumber") == if a.serialNumber.Some? then Str(a.serialNumber.value) else Undefined
  {
    var required := map[
          "id" := Str(a.id),
          "name" := Str(a.name),
          "category" := Str(CategoryName(a.category)),
          "value" := Num(a.value),
          "status" := Str(StatusName(a.status)),
          "purchaseDate" := Str(a.purchaseDate)];
    var user: map<string, Value> := if a.userId.Some? then map["userId" := Str(a.userId.value)] else map[];
    var serial: map<string, Value> := if a.serialNumber.Some? then map["serialNumber" := Str(a.serialNumber.value)] else map[];
    assert Encode(a).fields == required + user + serial;
    assert "userId" !in required && "serialNumber" !in required && "serialNumber" !in user;
    assert user.Keys <= {"userId"} && serial.Keys <= {"serialNumber"};
  }

  /** A valid record, written out as a plain object, parses back to itself whatever the defaults. */
  lemma {:induction false} EncodeParses(p: Platform, a: Asset, freshId: string, now: string)
    requires Valid(p, a)
    ensures Parse(p, Encode(a), freshId, now) == Success(a)
  {
    EnumNamesRoundTrip(a.category, a.status);
    EncodeFields(a);
    assert Conforms(p, Encode(a));
  }

  /**
   * Re-validating a parsed record succeeds and returns it unchanged: the
   * defaults only fill absent fields, and a parsed record has none absent.
   */
  lemma ReparseIsIdentity(p: Platform, input: Value, freshId: string, now: string, freshId': string, now': string)
    requires p.isUuid(freshId) && p.isIsoDatetime(now)
    requires Parse(p, input, freshId, now).Success?
    ensures Parse(p, Encode(Parse(p, input, freshId, now).value), freshId', now') == Parse(p, input, freshId, now)
  {
    ParsedIsValid(p, input, freshId, now);
    EncodeParses(p, Parse(p, input, freshId, now).value, freshId', now');
  }

  /**
   * The schema's own test inputs. "Lo" fails with the short-name message as
   * its first issue; {name: "Monitor 4K", category: "electronics",
   * value: 450.99} fails, because "electronics" is not in the enumeration.
   */
  lemma SchemaTestRejections(p: Platform, freshId: string, now: string)
    ensures Parse(p, Obj(map["name" := Str("Lo"), "category" := Str("other"), "value" := Num(10.0)]), freshId, now)
            .error[0].message == Text(NameTooShort)
    ensures Parse(p, Obj(map["name" := Str("Monitor 4K"), "category" := Str("electronics"), "value" := Num(450.99)]), freshId, now)
            .Failure?
  {
    var short := map["name" := Str("Lo"), "category" := Str("other"), "value" := Num(10.0)];
    assert Field(short, "id") == Undefined && Field(short, "userId") == Undefined;
    assert CheckName(Field(short, "name")) == Failure([Issue(["name"], TooSmall, Text(NameTooShort))]);
    var electronics := map["name" := Str("Monitor 4K"), "category" := Str("electronics"), "value" := Num(450.99)];
    assert "electronics" !in CategoryNames;
    assert !Conforms(p, Obj(electronics));
  }

  /** With category "monitor" the same input succeeds: a generated id, status "active", the current time. */
  lemma SchemaTestDefaults(p: Platform, freshId: string, now: string)
    ensures Parse(p, Obj(map["name" := Str("Monitor 4K"), "category" := Str("monitor"), "value" := Num(450.99)]), freshId, now)
            == Success(Asset(freshId, None, "Monitor 4K", None, Monitor, 450.99, Active, now))
  {
    var monitor := map["name" := Str("Monitor 4K"), "category" := Str("monitor"), "value" := Num(450.99)];
    assert Field(monitor, "id") == Undefined && Field(monitor, "userId") == Undefined;
    assert Field(monitor, "serialNumber") == Undefined && Field(monitor, "status") == Undefined;
    assert Field(monitor, "purchaseDate") == Undefined;
    assert |Field(monitor, "name").s| == 10;
    assert Conforms(p, Obj(monitor));
  }
}
