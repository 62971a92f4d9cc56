/**
 * The local persistence service (`AssetService`). The store is one entry of
 * the browser's key-value storage, under the key "nexus_assets_data", held
 * here as the class field `stored`: absent, or the JSON document it holds,
 * read as a sequence of untyped records. `getAssets` keeps the stored
 * entries that pass the schema; `saveAsset` validates its input, then reads
 * the valid entries, appends the new record and writes the list back.
 */
module AssetService {

  import opened Common
  import opened Seqs
  import opened Validation
  import opened AssetSchema
  import opened AsyncResults

  const StorageKey := "nexus_assets_data"

  /** The text under the storage key, as `JSON.parse` reads it. */
  datatype Stored =
    | Blank                       // the empty string: falsy, read as an empty list
    | Records(items: seq<Value>)  // a JSON array, element by element
    | Unreadable(failure: Error)  // text `JSON.parse` rejects, or a document that is not an array: the error thrown

  /** `data.filter(item => AssetSchema.safeParse(item).success)`: every occurrence of the entries the schema accepts, untouched, in order. */
  function ValidEntries(p: Platform, items: seq<Value>): (r: seq<Value>)
    ensures IsSubsequence(r, items)
    ensures forall x :: x in r ==> Conforms(p, x)
    ensures forall x :: x in items && Conforms(p, x) ==> x in r
    ensures (forall x :: x in items ==> Conforms(p, x)) ==> r == items
    ensures forall x :: multiset(r)[x] == if Conforms(p, x) then multiset(items)[x] else 0
  {
    var keep := (x: Value) => Conforms(p, x);
    FilterIsSubsequence(items, keep);
    forall x ensures multiset(Filter(items, keep))[x] == if Conforms(p, x) then multiset(items)[x] else 0 {
      FilterCount(items, keep, x);
    }
    assert forall x :: x in items && Conforms(p, x) ==> x in Filter(items, keep) by {
      forall x | x in items && Conforms(p, x) ensures x in Filter(items, keep) {
        FilterComplete(items, keep, x);
      }
    }
    assert (forall x :: x in items ==> Conforms(p, x)) ==> Filter(items, keep) == items by {
      if forall x :: x in items ==> Conforms(p, x) {
        FilterKeepsAll(items, keep);
      }
    }
    Filter(items, keep)
  }

  /** How the promise inside `getAssets` settles for a given store. */
  function ReadAction(p: Platform, stored: Option<Stored>): Outcome<seq<Value>, Value> {
    match stored
    case None => Resolved([])
    case Some(Blank) => Resolved([])
    case Some(Records(items)) => Resolved(ValidEntries(p, items))
    case Some(Unreadable(e)) => Rejected(ThrewError(e))
  }

  /** The plain objects of a list of records. */
  function Encodings(assets: seq<Asset>): (r: seq<Value>)
    ensures |r| == |assets|
    ensures forall i :: 0 <= i < |assets| ==> r[i] == Encode(assets[i])
  {
    seq(|assets|, i requires 0 <= i < |assets| => Encode(assets[i]))
  }

  /**
   * What `getAssets` returns for the stored entry `s`. An absent or empty
   * entry reads as no records; an unreadable one is reported as an error,
   * not thrown; otherwise exactly the stored entries that pass the schema,
   * in stored order, as they are stored (not their parse with defaults
   * filled in).
   */
  function ReadStore(p: Platform, s: Option<Stored>): (r: AsyncResult<seq<Value>>)
    ensures s.None? || s == Some(Blank) ==> r == Fulfilled([])
    ensures s.Some? && s.value.Unreadable? ==> r == Failed(s.value.failure)
    ensures s.Some? && s.value.Records? ==> r == Fulfilled(ValidEntries(p, s.value.items))
  {
    HandleAsync(ReadAction(p, s), p.stringOf)
  }

  class LocalAssetService {

    /** `localStorage.getItem(STORAGE_KEY)`: `None` when the key is absent. */
    var stored: Option<Stored>

    constructor (initial: Option<Stored>)
      ensures stored == initial
    {
      stored := initial;
    }

    /** `getAssets()`: the read of the current entry; it only reads the store. */
    function GetAssets(p: Platform): (r: AsyncResult<seq<Value>>)
      reads this
      ensures r == ReadStore(p, stored)
    {
      ReadStore(p, stored)
    }

    /**
     * `saveAsset(input)`. Invalid input fails with "Validation failed: "
     * followed by the library's rendering of the issues, and the store is not
     * touched; a failed read of the store is returned as it is and nothing is
     * written; otherwise the store becomes the valid entries followed by the
     * new record, and the result is the parsed record with defaults applied.
     * `writeFailure` is what `localStorage.setItem` throws, if anything (a full
     * store throws a `QuotaExceededError`): the call then fails with it and the
     * store keeps its old entry.
     */
    method SaveAsset(p: Platform, input: Value, freshId: string, now: string, writeFailure: Option<Error>)
      returns (r: AsyncResult<Asset>)
      modifies this
      ensures Parse(p, input, freshId, now).Failure? ==>
        && r == Failed(Error("Validation failed: " + p.issuesText(Parse(p, input, freshId, now).error)))
        && stored == old(stored)
      ensures Parse(p, input, freshId, now).Success? && ReadStore(p, old(stored)).Failed? ==>
        && r == Failed(ReadStore(p, old(stored)).error)
        && stored == old(stored)
      ensures Parse(p, input, freshId, now).Success? && ReadStore(p, old(stored)).Fulfilled? && writeFailure.Some? ==>
        && r == Failed(writeFailure.value)
        && stored == old(stored)
      ensures Parse(p, input, freshId, now).Success? && ReadStore(p, old(stored)).Fulfilled? && writeFailure.None? ==>
        && r == Fulfilled(Parse(p, input, freshId, now).value)
        && stored == Some(Records(ReadStore(p, old(stored)).data + [Encode(r.data)]))
      ensures r.Fulfilled? && p.isUuid(freshId) && p.isIsoDatetime(now) ==>
        GetAssets(p) == Fulfilled(ReadStore(p, old(stored)).data + [Encode(r.data)])
    {
      var result := Parse(p, input, freshId, now);
      if result.Failure? {
        var thrown := Error("Validation failed: " + p.issuesText(result.error));
        r := HandleAsync(Rejected(ThrewError(thrown)), p.stringOf);
        assert r == Failed(thrown);
        return;
      }
      var current := GetAssets(p);
      if current.Failed? {
        r := HandleAsync(Rejected(ThrewError(current.error)), p.stringOf);
        assert r == Failed(current.error);
        return;
      }
      var updated := current.data + [Encode(result.value)];
      if writeFailure.Some? {
        r := HandleAsync(Rejected(ThrewError(writeFailure.value)), p.stringOf);
        assert r == Failed(writeFailure.value);
        return;
      }
      stored := Some(Records(updated));
      r := HandleAsync(Resolved(result.value), p.stringOf);
      assert r == Fulfilled(result.value);
      if p.isUuid(freshId) && p.isIsoDatetime(now) {
        SaveReadsBack(p, current.data, result.value, input, freshId, now);
        assert ReadStore(p, stored) == Fulfilled(ValidEntries(p, updated));
      }
    }
  }

  /**
   * What `saveAsset` writes reads back unchanged: the earlier valid entries
   * and the new record all pass the schema again, and the new record parses
   * to itself. Invalid entries that were stored before the write are gone.
   */
  lemma SaveReadsBack(p: Platform, current: seq<Value>, a: Asset, input: Value, freshId: string, now: string)
    requires forall x :: x in current ==> Conforms(p, x)
    requires p.isUuid(freshId) && p.isIsoDatetime(now)
    requires Parse(p, input, freshId, now) == Success(a)
    ensures ValidEntries(p, current + [Encode(a)]) == current + [Encode(a)]
    ensures Parse(p, Encode(a), freshId, now) == Success(a)
  {
    ParsedIsValid(p, input, freshId, now);
    EncodeParses(p, a, freshId, now);
  }

  /** A store holding the plain objects of valid records reads back as exactly those objects. */
  lemma ValidRecordsReadBack(p: Platform, assets: seq<Asset>)
    requires forall a :: a in assets ==> Valid(p, a)
    ensures ValidEntries(p, Encodings(assets)) == Encodings(assets)
  {
    forall x | x in Encodings(assets) ensures Conforms(p, x) {
      var i :| 0 <= i < |assets| && Encodings(assets)[i] == x;
      EncodeParses(p, assets[i], "", "");
    }
  }
}
