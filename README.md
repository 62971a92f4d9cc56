# Nexus Inventory: a verified model of the asset pipeline

This project is a Dafny model of the logic at the centre of the Nexus Inventory web app. The app is a single-user asset register. An asset is a laptop, a chair or a server, with a name, category, value, status and purchase date.

The model follows a record through the app:

- **Asset validator** (`AssetSchema`). Checks field constraints, fills in defaults for `id`, `status` and `purchaseDate`, and reports issues per field.
- **Login validator** (`AuthSchema`).
- **`handleAsync` wrapper** (`AsyncResults`). Turns a settled promise into an `[err, data]` pair.
- **Local persistence service** (`AssetService`).
  - It keeps the records under one key of the browser's storage.
  - `getAssets` drops stored entries that fail the validator.
  - `saveAsset` validates, reads, appends and writes back.
- **Session state controller** (`Inventory`). Holds `assets`, `loading` and `error`.
- **Search-and-category view filter** (`AssetFilter`).
- **Asset form's submit handler** (`AssetForm`). Preprocesses the form, collates issues per field, and steps `loading`/`errors` through a submission.
- **Dashboard figures** (`Dashboard`). Record count, total value and active count.
- **Category donut chart's bucketing and colours** (`DonutChart`).
- **Status badge** (`StatusBadge`). The status-to-variant mapping and the guarded status change.

Shared vocabulary:

- `Common`: Option and Result.
- `Seqs`: the order-preserving `Array.prototype.filter` and its lemmas.
- `Validation`: untyped JavaScript values, validation issues, and a `Platform` record. `Platform` collects the behaviour the source relies on but does not define: the UUID, ISO-datetime and email syntax checks, the validation library's rendering of an issue list, and `String(v)`.

The validator follows the validation library's object semantics:

- every field is checked, and issues are collected in the schema's field order;
- a default stands in for an absent field without further checks;
- unknown keys are dropped;
- a missing key and a key bound to `undefined` read the same.

The generated UUID and the current time are parameters (`freshId`, `now`).

### Where the code and its tests differ

The model follows the code in each case.

- The service file defines only `getAssets` and `saveAsset`.
  - The controller also calls `AssetService.updateAsset` and `AssetService.deleteAsset` (src/hooks/useInventory.ts:57 and :72).
  - Neither is defined in the service file, so neither is part of this model. The controller's update and delete therefore take the service's answer as an arbitrary input.
- The schema test that expects `{name: "Monitor 4K", category: "electronics", value: 450.99}` to pass cannot pass: "electronics" is not one of the ten categories.
  - `SchemaTestRejections` proves that this input is rejected.
  - `SchemaTestDefaults` proves the defaults the test expects, with the category "monitor".
- The donut chart's buckets "electronics" and "vehicles" are never schema categories. With the schema's records, only "Furniture" and "Other" slices ever appear (`SchemaBuckets`).

## Model

| member | source | states |
|---|---|---|
| Validation.Field | src/schemas/asset.schema.ts:3-42 | Reading a key of an object gives the bound value, or `undefined` when the key is missing. |
| Validation.LengthIssues | src/schemas/asset.schema.ts:10-13 | A min/max length check reports no issue exactly when the length is in range. Below the minimum it reports one too-small issue with the minimum's message; above the maximum, one too-big issue with the maximum's message. |
| Seqs.Filter | src/hooks/useAssetFilter.ts:11-25 | `filter` keeps no more than its input, and everything kept is from the input and satisfies the predicate. |
| Seqs.FilterComplete | src/hooks/useAssetFilter.ts:11-25 | Every element of the input that satisfies the predicate is in the result (membership; `FilterCount` states occurrences). |
| Seqs.FilterCount | src/hooks/useAssetFilter.ts:11-25 | Every occurrence of a passing element is kept and no occurrence of a failing one: each element occurs in the result exactly as often as in the input when it passes, and not at all otherwise. |
| Seqs.FilterIsSubsequence | src/hooks/useAssetFilter.ts:11-25 | What `filter` keeps is a subsequence of its input, in the input's order. |
| Seqs.FilterAppend | src/pages/Dashboard.tsx:8 | Filtering a concatenation is the concatenation of the filtered parts. |
| Seqs.FilterKeepsAll | src/api/asset.service.ts:12-14 | When every element satisfies the predicate, `filter` returns its input unchanged. |
| Seqs.FilterDropsAll | src/hooks/useAssetFilter.ts:11-25 | When no element satisfies the predicate, `filter` returns the empty list. |
| Seqs.FilterIdempotent | src/hooks/useAssetFilter.ts:11-25 | Filtering the result again with the same predicate changes nothing. |
| AssetSchema.Conforms | src/schemas/asset.schema.ts:3-42 | The declarative statement of the schema's constraints, field by field: an object whose fields are absent or well formed as each field demands. `Parse` succeeds exactly on these (its ensures). |
| AssetSchema.Denotes | src/schemas/asset.schema.ts:3-42 | The record a conforming object stands for: present fields copied, unknown keys dropped, the three defaults in place of absent fields. `Parse` returns exactly this record (its ensures). |
| AssetSchema.Encode | src/api/asset.service.ts:35-38 | The plain object of a record as `JSON.stringify` writes it into the store, with no key for an absent option. Its fields are stated by `EncodeFields`, and `EncodeParses` proves it parses back to the record. |
| AssetSchema.CategoryNamed | src/schemas/asset.schema.ts:19-30 | A text denotes a category exactly when it is one of the ten listed names, and that category's name is the text. |
| AssetSchema.StatusNamed | src/schemas/asset.schema.ts:34-35 | A text denotes a status exactly when it is one of the four listed names, and that status's name is the text. |
| AssetSchema.EnumNamesRoundTrip | src/schemas/asset.schema.ts:19-36 | The name of each category and status reads back as that member. |
| AssetSchema.CheckId | src/schemas/asset.schema.ts:5 | `id` passes exactly when it is absent or a UUID. An absent id becomes the fresh UUID and a present one is kept. Failures name at least one issue, all under `id`. |
| AssetSchema.CheckUserId | src/schemas/asset.schema.ts:8 | `userId` passes exactly when it is absent or a UUID, and is kept when present. Issues are reported under `userId`. |
| AssetSchema.CheckName | src/schemas/asset.schema.ts:10-13 | `name` passes exactly when it is a string of 3 to 50 characters, and is kept unchanged. Issues are reported under `name`. |
| AssetSchema.CheckSerialNumber | src/schemas/asset.schema.ts:16 | `serialNumber` passes exactly when it is absent or a string, and is kept when present. Issues are reported under `serialNumber`. |
| AssetSchema.CheckCategory | src/schemas/asset.schema.ts:19-30 | `category` passes exactly when it is one of the ten names, and yields the category it names. Issues are reported under `category`. |
| AssetSchema.CheckValue | src/schemas/asset.schema.ts:32 | `value` passes exactly when it is a number greater than 0, and is kept. Issues are reported under `value`. |
| AssetSchema.CheckStatus | src/schemas/asset.schema.ts:34-36 | `status` passes exactly when it is absent or one of the four names. An absent status becomes "active", and a present one yields the status it names. Issues are reported under `status`. |
| AssetSchema.CheckPurchaseDate | src/schemas/asset.schema.ts:38-41 | `purchaseDate` passes exactly when it is absent or an ISO datetime. An absent date becomes `now` and a present one is kept. Issues are reported under `purchaseDate`. |
| AssetSchema.Parse | src/schemas/asset.schema.ts:3-42 | `safeParse` succeeds exactly when the input is an object meeting every field constraint. A failure always carries at least one issue, and a non-object input gives a single root issue. For an object, which fields the issues name is stated by `ViolationsReported`. A success is the record the object denotes: present fields copied, unknown keys dropped, defaults in place of an absent `id`, `status` and `purchaseDate`. |
| AssetSchema.ViolationsReported | src/schemas/asset.schema.ts:3-42 | For an object input, each of the eight fields appears in the path of an issue exactly when that field breaks its constraint. So every violated constraint is reported under its own field, and no field that meets its constraint is reported. |
| AssetSchema.FieldIssues | src/schemas/asset.schema.ts:3-42 | The issues of each field's own check, in the schema's field order. `ParseIssues` states that the parse fails exactly when one of them is non-empty, with all of them in that order, and that each reports only under its own field. |
| AssetSchema.ParseIssues | src/schemas/asset.schema.ts:3-42 | The issues of a failed object parse are the issues of the eight field checks in schema order, each part under its own field, and the parse succeeds exactly when all eight parts are empty. |
| AssetSchema.FieldOrderDistinct | src/schemas/asset.schema.ts:3-42 | The schema's eight keys are pairwise distinct, so an issue's path identifies the check that reported it. |
| AssetSchema.FlagsIffPart | src/schemas/asset.schema.ts:3-42 | When a result's issues are several parts, each reported under its own distinct field, the result names a field exactly when that field's part is non-empty. |
| AssetSchema.FlagsIffFieldFails | src/schemas/asset.schema.ts:3-42 | The parse of an object names the j-th schema field exactly when that field's own check reports an issue. |
| Validation.ConcatMembers | src/schemas/asset.schema.ts:3-42 | An issue is among the concatenated issues of several checks exactly when one of the checks reports it. |
| Validation.ConcatEight | src/schemas/asset.schema.ts:3-42 | The concatenation of eight checks' issues is those issues one check after another, as the object schema collects them. |
| AssetSchema.SchemaMessages | src/schemas/asset.schema.ts:10-32 | A name under 3 characters fails with "Name must be at least 3 characters" under `name`, one over 50 fails with "Name too long", and a value that is not positive fails with "Value must be positive" under `value`. |
| AssetSchema.IssuesIgnoreDefaults | src/schemas/asset.schema.ts:5 | The generated UUID and the current time never decide whether a parse succeeds, nor which issues a failure reports. |
| AssetSchema.ParsedIsValid | src/schemas/asset.schema.ts:3-42 | A parsed record meets every constraint, provided the generated id is a UUID and the generated time an ISO datetime. |
| AssetSchema.EncodeFields | src/api/asset.service.ts:35-38 | The plain object of a record carries each field under its own key, and an absent optional field has no key. |
| AssetSchema.EncodeParses | src/schemas/asset.schema.ts:3-42 | A valid record, written out as a plain object, parses back to itself whatever the defaults. |
| AssetSchema.ReparseIsIdentity | src/schemas/asset.schema.ts:34-41 | Re-validating a parsed record succeeds and returns it unchanged: defaults only fill absent fields. |
| AssetSchema.SchemaTestRejections | src/schemas/asset.schema.test.ts:5-38 | The test's name "Lo" fails, with the short-name message as its first issue. The test's "electronics" input is rejected. |
| AssetSchema.SchemaTestDefaults | src/schemas/asset.schema.test.ts:5-23 | A name, category and value alone parse to a record with the fresh id, no user or serial number, status "active" and the current time. |
| AuthSchema.CheckEmail | src/schemas/auth.schema.ts:4 | The email passes exactly when it is a string the platform accepts, and is kept. A rejected string fails with "Please enter a valid email address" under `email`. |
| AuthSchema.CheckPassword | src/schemas/auth.schema.ts:5-8 | The password passes exactly when it is a string of 6 to 100 characters, and is kept. A failure always names an issue. |
| AuthSchema.ParseLogin | src/schemas/auth.schema.ts:3-9 | Login input is accepted exactly when it is an object with an email the platform accepts and a password of 6 to 100 characters. The credentials are then those two strings, and a failure names at least one issue. |
| AuthSchema.LoginMessages | src/schemas/auth.schema.ts:4-8 | A rejected email is the first issue, with "Please enter a valid email address". A short password fails with "Password must be at least 6 characters" (code too-small, first when the email is fine), and a long one with "Password is too long". |
| AuthSchema.LoginTestInputs | src/schemas/auth.schema.test.ts:5-48 | An accepted email with "password123" passes as those credentials. Password "123" fails, and an empty email and password fail. |
| AsyncResults.HandleAsync | src/utils/handle-async.ts:7-16 | A resolved promise gives `[null, data]`. A rejection with an Error gives that same Error and null. Any other rejection gives `new Error(String(v))` and null. |
| AsyncResults.ExactlyOneSlot | src/utils/handle-async.ts:7-16 | The error slot is null exactly when the promise resolved, and exactly one slot is filled. |
| AsyncResults.StringRejection | src/utils/handle-async.test.ts:26-34 | A rejection with the string "String error" gives an Error with message "String error". |
| AssetService.ValidEntries | src/api/asset.service.ts:12-14 | The stored entries the schema accepts, in stored order: every occurrence of an accepted entry kept, as often as it is stored, and every rejected one dropped. An all-valid list comes back unchanged. |
| AssetService.Encodings | src/api/asset.service.ts:35 | A list of records, written out element by element as plain objects. |
| AssetService.ReadAction | src/api/asset.service.ts:8-16 | How the promise built inside `getAssets` settles: resolved with no records for an absent or empty entry, with the schema-accepted entries for an array, and rejected with the thrown error otherwise. `ReadStore` states the wrapped result. |
| AssetService.ReadStore | src/api/asset.service.ts:7-18 | An absent or empty entry reads as no records. An unreadable one is reported as an error, not thrown. Otherwise the result is exactly the stored entries that pass the schema, as stored (not their default-filled parse). |
| AssetService.LocalAssetService.constructor | src/api/asset.service.ts:4 | The service starts from whatever the storage key holds. |
| AssetService.LocalAssetService.GetAssets | src/api/asset.service.ts:7-18 | `getAssets` only reads the store, and returns what the store holds as `ReadStore` describes it. |
| AssetService.LocalAssetService.SaveAsset | src/api/asset.service.ts:20-45 | Invalid input fails with "Validation failed: " plus the issues' text, and the store is untouched. A failed read is returned as it is, and nothing is written. When `localStorage.setItem` throws (`writeFailure`, such as a full store's `QuotaExceededError`), the call fails with that error and the store keeps its old entry. Otherwise the store becomes the earlier valid entries followed by the new record, which is the parsed input with defaults, and reading the store back gives exactly that list. |
| AssetService.SaveReadsBack | src/api/asset.service.ts:32-38 | What `saveAsset` writes passes the schema again entry by entry, and the new record parses to itself. |
| AssetService.ValidRecordsReadBack | src/api/asset.service.ts:12-14 | A store of valid records' plain objects reads back as exactly those objects. |
| Inventory.Replaced | src/hooks/useInventory.ts:64-66 | The update's `map`: same length, every record with the id replaced by the new one, every other record kept in its place. |
| Inventory.Removed | src/hooks/useInventory.ts:79 | The delete's `filter`: a subsequence in order, no record with the id left, every occurrence of a record with another id kept. |
| Inventory.MissingIdChangesNothing | src/hooks/useInventory.ts:64-79 | Updating or deleting an id no record carries leaves the list as it is. |
| Inventory.ReplacedKeepsIds | src/hooks/useInventory.ts:64-66 | An update whose record keeps the id changes no record's id, so deleting afterwards removes the same records as before. |
| Inventory.SessionScenario | src/hooks/useInventory.ts:10-81 | A client session checked step by step by the method contracts: loading an empty store, adding a record (the list is that record), changing its status to maintenance (the list is that record with the new status and every other field unchanged), deleting it (the list is empty). |
| Inventory.ReplacedFiltersAlike | src/hooks/useInventory.ts:65-79 | Helper of `ReplacedKeepsIds`: the delete's `filter` gives the same list before and after an update whose record keeps the id. |
| Inventory.InventoryState.constructor | src/hooks/useInventory.ts:6-8 | The first state: no records, loading, no error. |
| Inventory.InventoryState.RefreshAssets | src/hooks/useInventory.ts:10-24 | A failed read sets the error to its message and empties the list. A successful one sets the list to the result and clears the error. Loading ends false. |
| Inventory.InventoryState.AddAsset | src/hooks/useInventory.ts:32-50 | On success the returned record is appended, earlier records are unchanged, the error is cleared and it answers true. On failure the list is unchanged, the error is the message and it answers false. Loading ends false. |
| Inventory.InventoryState.UpdateAsset | src/hooks/useInventory.ts:52-69 | On success every record with the id is replaced by the returned record, and it answers true. On failure the list is unchanged, the error is the message and it answers false. Loading is never touched. |
| Inventory.InventoryState.DeleteAsset | src/hooks/useInventory.ts:71-81 | On success every record with the id is removed, the others kept in order, and it answers true. On failure the list is unchanged, the error is the message and it answers false. Loading is never touched. |
| AssetFilter.Includes | src/hooks/useAssetFilter.ts:13-15 | `includes`, defined by scanning for a prefix match. `IncludesAt` proves it equals "occurs at some position". |
| AssetFilter.MatchesSearch | src/hooks/useAssetFilter.ts:13-15 | The lower-cased name includes the lower-cased search text. |
| AssetFilter.MatchesCategory | src/hooks/useAssetFilter.ts:19-22 | The selection is "all" or "", or equals the record's category name. |
| AssetFilter.Matches | src/hooks/useAssetFilter.ts:11-24 | Both conditions hold; the filter's predicate, whose effect `FilterAssets` states. |
| AssetFilter.Lower | src/hooks/useAssetFilter.ts:13-15 | `toLowerCase`: same length, each ASCII capital lowered and every other character kept. |
| AssetFilter.IncludesAt | src/hooks/useAssetFilter.ts:13-15 | `includes` holds exactly when the text occurs at some position. |
| AssetFilter.OccursLater | src/hooks/useAssetFilter.ts:13-15 | Helper of `IncludesAt`: an occurrence in the name's tail is an occurrence one position further on in the name. |
| AssetFilter.OccursEarlier | src/hooks/useAssetFilter.ts:13-15 | Helper of `IncludesAt`: an occurrence that is not at the start is an occurrence in the tail, one position earlier. |
| AssetFilter.IncludesEmpty | src/hooks/useAssetFilter.ts:13-15 | An empty search text occurs in every name. |
| AssetFilter.IncludesChars | src/hooks/useAssetFilter.ts:13-15 | Every character of an occurring text is a character of the name. |
| AssetFilter.FilterAssets | src/hooks/useAssetFilter.ts:9-26 | The view is a subsequence of the records in order. Every kept record's lower-cased name contains the lower-cased search, and its category equals the selected one (or the selection is "all" or ""). Every record meeting both conditions is kept, as many times as it occurs in the input. |
| AssetFilter.NoCriteriaKeepsAll | src/hooks/useAssetFilter.ts:13-22 | An empty search with category "all" or "" shows every record, in order. |
| AssetFilter.FilterIsIdempotent | src/hooks/useAssetFilter.ts:11-24 | Filtering the view again with the same criteria changes nothing. |
| AssetFilter.LowerTestNames | src/hooks/useAssetFilter.test.ts:6-31 | The test records' names lower-case to "macbook pro", "office chair" and "iphone". |
| AssetFilter.LowerTestSearches | src/hooks/useAssetFilter.test.ts:57-70 | Helper of `PhoneTestInput` and `NoMatchTestInput`: the test searches "phone" and "xyz" are already lower case. |
| AssetFilter.MissingChar | src/hooks/useAssetFilter.ts:13-15 | A name lacking some character of the search text does not contain it. |
| AssetFilter.PhoneTestInput | src/hooks/useAssetFilter.test.ts:57-63 | "iPhone" contains "phone" ignoring case, and "MacBook Pro" does not. |
| AssetFilter.NoMatchTestInput | src/hooks/useAssetFilter.test.ts:65-70 | No test record's name contains "xyz". |
| AssetFilter.NoMatchFilterTest | src/hooks/useAssetFilter.test.ts:65-70 | The search "xyz" keeps none of the test records. |
| AssetFilter.PhoneMatchesOnly | src/hooks/useAssetFilter.test.ts:57-63 | Of the test records, only the iPhone matches "phone" in category "laptop". |
| AssetFilter.ChairIsNoLaptop | src/hooks/useAssetFilter.test.ts:15-22 | The office chair is not in category "laptop". |
| AssetFilter.PhoneFilterTest | src/hooks/useAssetFilter.test.ts:57-63 | The search "phone" in category "laptop" keeps exactly the iPhone. |
| AssetFilter.SingleSubsequence | src/hooks/useAssetFilter.test.ts:57-63 | Helper of `PhoneFilterTest`: a subsequence of three records made only of the last, which differs from the other two, is that record once. |
| AssetForm.Entry | src/components/assets/AssetForm.tsx:22-25 | A form entry is passed on as its text, or `undefined` when the field is missing. |
| AssetForm.PreparedDate | src/components/assets/AssetForm.tsx:27-30 | The converted date: absent for an empty field, the ISO text otherwise, and a throw (`None`) for a missing field or an invalid date. Stated field by field in `Prepare`'s ensures. |
| AssetForm.PreparedValue | src/components/assets/AssetForm.tsx:26 | `Number(data.value)`: the number, or NaN for a missing field or unconvertible text. Stated in `Prepare`'s ensures. |
| AssetForm.PreparedStatus | src/components/assets/AssetForm.tsx:31 | `data.status \|\| undefined`: absent for an empty or missing status, the text otherwise. Stated in `Prepare`'s ensures. |
| AssetForm.Prepare | src/components/assets/AssetForm.tsx:24-32 | The prepared object is missing exactly when the date conversion throws. Otherwise: every other entry is passed on as text; `value` is the number of its text (NaN when missing or not finite); an empty `purchaseDate` is absent and a non-empty one is its ISO text; an empty or missing `status` is absent, and any other status is kept as text. |
| AssetForm.Collate | src/components/assets/AssetForm.tsx:37-42 | The field-error map after the `forEach`, as a fold over the issues. Its meaning (a field per recorded issue, last writer wins) is `CollateSpec`. |
| AssetForm.CollateSpec | src/components/assets/AssetForm.tsx:36-42 | A field carries an error exactly when some issue has it as a non-empty first path element. Its message is that of the last such issue, so later issues overwrite earlier ones, and issues without a first path element are never recorded. |
| AssetForm.CollateIssues | src/components/assets/AssetForm.tsx:37-42 | The `forEach` builds exactly the collated map described by `CollateSpec`. |
| AssetForm.Form.constructor | src/components/assets/AssetForm.tsx:12-13 | A new form shows no errors and is not loading. |
| AssetForm.Form.HandleSubmit | src/components/assets/AssetForm.tsx:17-62 | A throwing date conversion ends the handler with loading still set and the errors as they were. A failed validation shows the collated field errors, clears loading and submits nothing. A valid record clears the errors, is handed to `onSubmit`, and loading is cleared whether `onSubmit` resolves or throws. |
| AssetForm.ObjectIssuesNameFields | src/schemas/asset.schema.ts:3-42 | Every issue the schema reports for an object names one of the schema's eight fields as its only path element. |
| AssetForm.FieldErrorIffFieldFails | src/components/assets/AssetForm.tsx:34-43 | After a failed validation, the form shows an error on a schema field exactly when that field's own check reported an issue; with `ViolationsReported`, exactly when the field breaks its constraint. |
| AssetForm.CollateShowsFlagged | src/components/assets/AssetForm.tsx:36-42 | When every issue names a single field, the collected errors hold a field exactly when some issue is reported under it. |
| AssetForm.InvalidShowsAnError | src/components/assets/AssetForm.tsx:36-44 | A failed validation of the form always shows at least one field error. |
| AssetForm.EmptyDateTakesDefault | src/components/assets/AssetForm.tsx:27-30 | An empty date field becomes absent, so a valid submission is dated with the schema's default, the current time. |
| AssetForm.EmptyStatusTakesActive | src/components/assets/AssetForm.tsx:31 | An empty or missing status becomes absent, so a valid submission is "active", the schema's default. |
| Dashboard.TotalAssets | src/pages/Dashboard.tsx:27 | The "Total Assets" card: `assets.length`. |
| Dashboard.TotalValue | src/pages/Dashboard.tsx:7 | `reduce((sum, a) => sum + a.value, 0)`: the left fold from 0. Its meaning as a sum is stated by `TotalValueAppend`, `TotalValueFirst` and `TotalValuePositive`. |
| Dashboard.IsActive | src/pages/Dashboard.tsx:8 | The record's status is "active". |
| Dashboard.ActiveCount | src/pages/Dashboard.tsx:8 | The number of active records, the length of the filtered list. Bounded by `ActiveCountBounded`. |
| Dashboard.TotalValueAppend | src/pages/Dashboard.tsx:7 | The left reduction of values adds over concatenation: it is the sum of the records' values. |
| Dashboard.TotalValueFirst | src/pages/Dashboard.tsx:7 | The total is the first value plus the total of the rest. |
| Dashboard.TotalValuePositive | src/pages/Dashboard.tsx:7 | With schema-valid (positive) values, the total is 0 for no records and positive otherwise. |
| Dashboard.ActiveCountBounded | src/pages/Dashboard.tsx:8 | The active count never exceeds `assets.length`, and equals it exactly when every record is active. |
| Dashboard.ActiveCountAppend | src/pages/Dashboard.tsx:8 | Active counts add over concatenated lists. |
| Dashboard.DashboardTestInputs | src/pages/Dashboard.test.tsx:20-116 | The three test records give count 3, total 1700 and 2 active. No records give 0, 0 and 0. |
| DonutChart.BucketOf | src/components/charts/CategoryDonutChart.tsx:33-37 | A category counts in its own bucket when that is one of the four keys, and in "other" otherwise. |
| DonutChart.AssetBucket | src/components/charts/CategoryDonutChart.tsx:32-38 | Every record falls into one of the four buckets. |
| DonutChart.Tally | src/components/charts/CategoryDonutChart.tsx:25-38 | The counting record always has exactly the four bucket keys. |
| DonutChart.CountBuckets | src/components/charts/CategoryDonutChart.tsx:25-38 | The counting loop, starting from four zeros, yields exactly `Tally`: each record increments its bucket once. |
| DonutChart.BucketStep | src/components/charts/CategoryDonutChart.tsx:33-37 | Both branches of the loop body increment the category's bucket. |
| DonutChart.TallyNext | src/components/charts/CategoryDonutChart.tsx:32-38 | Counting one more record increments exactly that record's bucket. |
| DonutChart.InBucket | src/components/charts/CategoryDonutChart.tsx:32-38 | The number of records whose bucket is the key, counted independently of the counting record. `TallyCounts` proves the counts equal it. |
| DonutChart.TallyCounts | src/components/charts/CategoryDonutChart.tsx:32-38 | Each count is the number of records in that bucket, and the four counts sum to the number of records. |
| DonutChart.SchemaBuckets | src/components/charts/CategoryDonutChart.tsx:25-38 | With the schema's categories, "electronics" and "vehicles" stay 0, "furniture" counts the furniture and "other" counts everything else. |
| DonutChart.CategoryBucket | src/schemas/asset.schema.ts:19-30 | Of the ten categories, only furniture has a bucket of its own. |
| DonutChart.Capitalize | src/components/charts/CategoryDonutChart.tsx:42 | Same length: the first letter is upper-cased and the rest kept. |
| DonutChart.AllSlices | src/components/charts/CategoryDonutChart.tsx:40-45 | One slice per bucket in key order, with its key, its count and its capitalised key as name. |
| DonutChart.ChartData | src/components/charts/CategoryDonutChart.tsx:24-47 | The slices are those of buckets with a positive count, in the fixed order, each with its bucket's count and capitalised name. A bucket is shown whenever its count is positive. |
| DonutChart.ShownTotal | src/components/charts/CategoryDonutChart.tsx:46 | Dropping empty slices does not change the total of non-negative counts. |
| DonutChart.ChartAccountsForAll | src/components/charts/CategoryDonutChart.tsx:32-46 | The shown slices' counts sum to the number of records. |
| DonutChart.ColorOf | src/components/charts/CategoryDonutChart.tsx:16-21 | A key of the palette gets its own colour. A key that is neither in the palette nor inherited from the object's prototype gets the slate of "other" (the fallback on line 76). |
| DonutChart.SlicesHaveOwnColors | src/components/charts/CategoryDonutChart.tsx:73-79 | Every slice of the chart gets its own bucket's colour, so the fallback is never reached. |
| DonutChart.Render | src/components/charts/CategoryDonutChart.tsx:49-55 | "No data available" is shown exactly when there are no records. |
| DonutChart.DonutNeverEmpty | src/components/charts/CategoryDonutChart.tsx:40-57 | Whenever the donut is drawn, it has at least one slice. |
| DonutChart.ChartTestCounts | src/components/charts/CategoryDonutChart.test.tsx:50-82 | Two laptops and a chair count as furniture 1 and other 2, with electronics and vehicles 0. |
| DonutChart.BucketLabels | src/components/charts/CategoryDonutChart.tsx:42 | The four labels are "Electronics", "Furniture", "Vehicles" and "Other". |
| DonutChart.FourSlices | src/components/charts/CategoryDonutChart.test.tsx:50-82 | Helper of `ChartTestInputs`: of four slices, the empty first and third are dropped and the others kept in order. |
| DonutChart.ChartTestInputs | src/components/charts/CategoryDonutChart.test.tsx:50-82 | Two laptops and a chair chart as a "Furniture" slice of 1 followed by an "Other" slice of 2. |
| StatusBadge.GetVariant | src/components/assets/AssetStatusBadge.tsx:18-30 | "active" is success, "maintenance" warning and "lost" destructive, each exactly. Everything else, "retired" included, is default. |
| StatusBadge.StatusVariant | src/components/assets/AssetStatusBadge.tsx:39 | The variant of a record's status, `getVariant(status)`. Its values are stated by `StatusVariants`. |
| StatusBadge.StatusVariants | src/components/assets/AssetStatusBadge.tsx:18-30 | The mapping is total over the four statuses, and distinct statuses other than "retired" get distinct variants. |
| StatusBadge.HandleChange | src/components/assets/AssetStatusBadge.tsx:32-36 | An update is issued exactly when the callback is given and the asset id is present and non-empty, and it carries that id and the selected status. |
| StatusBadge.Render | src/components/assets/AssetStatusBadge.tsx:38-57 | Both forms of the badge show the status's variant and the status text. |
| StatusBadge.ReadOnlyIffNoUpdate | src/components/assets/AssetStatusBadge.tsx:38-40 | The badge is read-only exactly when no selection could issue an update. |
| StatusBadge.BadgeTestInputs | src/components/assets/AssetStatusBadge.test.tsx:10-28 | The test's active, maintenance and retired badges are success, warning and default, captioned with the status. |

## Left out

- Browser storage is modelled as the class field `stored`, holding the document `JSON.parse` reads. The JSON text itself is not modelled:
  - the round trip through `JSON.stringify`/`JSON.parse` is taken as the identity on plain objects;
  - parse errors and non-array documents are modelled as one `Unreadable` case, carrying the error thrown.
- The service's `updateAsset` and `deleteAsset` are not part of this model. The controller's `UpdateAsset` and `DeleteAsset` take the service's answer as an input.
- The controller holds records (`Asset`), as its declared type says. `getAssets` returns the raw stored objects; `ValidRecordsReadBack` connects the two for stored valid records.
- Asynchrony is not modelled: promise interleaving, overlapping calls, React's batched and functional state updates, `useMemo`/`useCallback`/`useEffect`. Each operation is one atomic step from the service's settled answer.
- Numbers are exact reals: floating-point rounding is not modelled.
- Dashboard.TotalValueAppend: holds for the real sum. Floating-point addition is not associative, so it does not state the source's rounding.
- Dashboard.TotalValuePositive: holds for the real sum. Floating-point rounding is not modelled.
- NaN and the infinities are one `NonFinite` value.
- `crypto.randomUUID`, `new Date().toISOString()`, `Number(s)` and `new Date(s).toISOString()` are parameters (`freshId`, `now`, `Conversions`).
- The library's UUID, ISO-datetime and email syntax checks are parameters, in `Platform`. So are the library's wording of its own messages (`LibraryText`) and of an issue list, and `String(v)`.
- `toLowerCase` and the chart's `toUpperCase` are modelled on ASCII letters only. Strings are sequences of characters, without UTF-16 surrogates.
- Validation.LengthIssues: counts characters, not the UTF-16 code units JavaScript's `.length` counts. A text with characters outside the Basic Multilingual Plane is measured shorter than the source measures it.
- AssetSchema.CheckName: the 3 to 50 bound is on characters, not UTF-16 code units; "😀😀" is rejected here, but its length in JavaScript is 4 and the source accepts it.
- AuthSchema.CheckPassword: the 6 to 100 bound is on characters, not UTF-16 code units, with the same consequence for text outside the Basic Multilingual Plane.
- AsyncResults.HandleAsync: `String(v)` is assumed not to throw (`stringOf` is total). In JavaScript it throws for a rejection value such as `Object.create(null)` or an object whose `toString` throws, and then the wrapper's own promise rejects; the model does not capture that case.
- AsyncResults.ExactlyOneSlot: holds under the same assumption that `String(v)` does not throw.
- The chart's `counts[key] !== undefined` lookup is modelled on the counting record's own four keys. Inherited keys such as "constructor" are never schema categories.
- DonutChart.ColorOf: the `COLORS[key] || COLORS.other` lookup is modelled on the palette's own keys. An inherited key such as "toString" finds a truthy value in JavaScript and skips the fallback, while the model gives it the slate; no slice carries such a key (`SlicesHaveOwnColors`).
- AssetForm.Form.HandleSubmit:
  - toasts, `form.reset()`, `console.error` and `preventDefault` are left out;
  - the outcome of `onSubmit` is the parameter `submitThrows`;
  - a throwing date conversion (an invalid or missing date) leaves `loading` set, as the code does.
- The form's QR scanning, its rendering, the login page, the authentication context, the inventory context, and every presentational component are not part of this model.
- The tail of the "Validation failed: " message is the library's rendering of the issues. This model leaves it abstract (`issuesText`).
