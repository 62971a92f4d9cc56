/**
 * The data behind the dashboard's category donut chart: the records are
 * counted into four fixed buckets (a category that is not a bucket counts
 * as "other"), and every bucket with a positive count becomes a slice
 * named after its key, coloured from a fixed palette.
 */
module DonutChart {

  import opened Seqs
  import opened AssetSchema

  /** The buckets, in the order the counting record is written and its keys are listed. */
  const BucketKeys: seq<string> := ["electronics", "furniture", "vehicles", "other"]

  /** The counting record: a count per bucket key. */
  type Counts = map<string, int>

  /** Every bucket starts at zero. */
  const InitialCounts: Counts := map["electronics" := 0, "furniture" := 0, "vehicles" := 0, "other" := 0]

  /** `counts[key] !== undefined`: `key` is one of the counting record's own keys. */
  predicate IsBucketKey(key: string) {
    key == "electronics" || key == "furniture" || key == "vehicles" || key == "other"
  }

  /** The bucket a category counts in: itself when it is a bucket key, "other" otherwise. */
  function BucketOf(category: string): (b: string)
    ensures IsBucketKey(b)
    ensures b == category || b == "other"
  {
    if IsBucketKey(category) then category else "other"
  }

  /** The bucket a record counts in. */
  function AssetBucket(a: Asset): (b: string)
    ensures IsBucketKey(b)
  {
    BucketOf(CategoryName(a.category))
  }

  /** The counts after the `forEach`, as a fold over the records in order. */
  function Tally(assets: seq<Asset>): (r: Counts)
    ensures r.Keys == InitialCounts.Keys
    decreases |assets|
  {
    if assets == [] then InitialCounts
    else
      var before := Tally(assets[..|assets| - 1]);
      var b := AssetBucket(assets[|assets| - 1]);
      before[b := before[b] + 1]
  }

  /** The `useMemo` counting loop: each record increments exactly one bucket. */
  method CountBuckets(assets: seq<Asset>) returns (counts: Counts)
    ensures counts == Tally(assets)
  {
    counts := InitialCounts;
    var i := 0;
    while i < |assets|
      invariant 0 <= i <= |assets|
      invariant counts == Tally(assets[..i])
    {
      var category := CategoryName(assets[i].category);
      assert AssetBucket(assets[i]) == BucketOf(category);
      TallyNext(assets, i);
      BucketStep(counts, category);
      if category in counts {
        counts := counts[category := counts[category] + 1];
      } else {
        counts := counts["other" := counts["other"] + 1];
      }
      i := i + 1;
    }
    assert assets[..i] == assets;
  }

  /** The two branches of the loop body increment the bucket of the category. */
  lemma BucketStep(counts: Counts, category: string)
    requires counts.Keys == InitialCounts.Keys
    ensures category in counts ==> counts[category := counts[category] + 1] == counts[BucketOf(category) := counts[BucketOf(category)] + 1]
    ensures category !in counts ==> counts["other" := counts["other"] + 1] == counts[BucketOf(category) := counts[BucketOf(category)] + 1]
  {
    assert category in counts <==> category in InitialCounts;
  }

  /** Counting one more record increments its bucket. */
  lemma TallyNext(assets: seq<Asset>, i: nat)
    requires i < |assets|
    ensures Tally(assets[..i + 1]) == Tally(assets[..i])[AssetBucket(assets[i]) := Tally(assets[..i])[AssetBucket(assets[i])] + 1]
  {
    assert assets[..i + 1][..i] == assets[..i];
  }

  /** The sum of the four counts. */
  function BucketTotal(counts: Counts): int
    requires counts.Keys == InitialCounts.Keys
  {
    counts["electronics"] + counts["furniture"] + counts["vehicles"] + counts["other"]
  }

  /** The number of records in the bucket `key`. */
  function InBucket(assets: seq<Asset>, key: string): nat
    decreases |assets|
  {
    if assets == [] then 0
    else InBucket(assets[..|assets| - 1], key) + (if AssetBucket(assets[|assets| - 1]) == key then 1 else 0)
  }

  /**
   * Each count is the number of records in its bucket, and the counts add
   * up to the number of records: every record is counted exactly once.
   */
  lemma {:induction false} TallyCounts(assets: seq<Asset>)
    ensures forall k :: k in BucketKeys ==> Tally(assets)[k] == InBucket(assets, k)
    ensures BucketTotal(Tally(assets)) == |assets|
    decreases |assets|
  {
    if assets != [] {
      TallyCounts(assets[..|assets| - 1]);
    }
  }

  /**
   * The schema's categories include none of "electronics" and "vehicles":
   * those buckets stay empty, "furniture" counts the furniture and "other"
   * everything else.
   */
  lemma {:induction false} SchemaBuckets(assets: seq<Asset>)
    ensures Tally(assets)["electronics"] == 0 && Tally(assets)["vehicles"] == 0
    ensures Tally(assets)["furniture"] == |Filter(assets, IsFurniture)|
    ensures Tally(assets)["other"] == |assets| - |Filter(assets, IsFurniture)|
    decreases |assets|
  {
    if assets != [] {
      var n := |assets| - 1;
      SchemaBuckets(assets[..n]);
      assert assets == assets[..n] + [assets[n]];
      FilterAppend(assets[..n], [assets[n]], IsFurniture);
      CategoryBucket(assets[n].category);
    }
  }

  /** Of the schema's categories, only "furniture" is a bucket of its own; the rest count as "other". */
  lemma CategoryBucket(c: Category)
    ensures BucketOf(CategoryName(c)) == (if c == Furniture then "furniture" else "other")
  {
    match c
    case Laptop => case Desktop => case Smartphone => case Tablet => case Monitor =>
    case Peripheral => case Network => case Server => case Furniture => case Other =>
  }

  predicate IsFurniture(a: Asset) {
    a.category == Furniture
  }

  // ---------------------------------------------------------------------------
  // From counts to slices.

  /** One slice: its label, its count and the bucket key it stands for. */
  datatype Slice = Slice(name: string, value: int, key: string)

  function UpperChar(c: char): char {
    if 'a' <= c <= 'z' then (c as int - 32) as char else c
  }

  /** `key.charAt(0).toUpperCase() + key.slice(1)`, for ASCII letters. */
  function Capitalize(key: string): (r: string)
    ensures |r| == |key|
    ensures key != [] ==> r[0] == UpperChar(key[0]) && r[1..] == key[1..]
  {
    if key == [] then [] else [UpperChar(key[0])] + key[1..]
  }

  /** `Object.keys(counts).map(..)`: a slice per bucket, in key order. */
  function AllSlices(counts: Counts): (r: seq<Slice>)
    requires counts.Keys == InitialCounts.Keys
    ensures |r| == |BucketKeys|
    ensures forall i :: 0 <= i < |r| ==>
      r[i].key == BucketKeys[i] && r[i].value == counts[BucketKeys[i]] && r[i].name == Capitalize(BucketKeys[i])
  {
    seq(|BucketKeys|, i requires 0 <= i < |BucketKeys| =>
      Slice(Capitalize(BucketKeys[i]), counts[BucketKeys[i]], BucketKeys[i]))
  }

  predicate Shown(s: Slice) {
    s.value > 0
  }

  /**
   * The chart data: the slices with a positive count, in the fixed bucket
   * order; a bucket appears exactly when its count is positive, under its
   * capitalised key.
   */
  function ChartData(assets: seq<Asset>): (r: seq<Slice>)
    ensures IsSubsequence(r, AllSlices(Tally(assets)))
    ensures forall s :: s in r ==> s.value > 0 && s.key in BucketKeys && s.value == Tally(assets)[s.key] && s.name == Capitalize(s.key)
    ensures forall k :: k in BucketKeys && Tally(assets)[k] > 0 ==> Slice(Capitalize(k), Tally(assets)[k], k) in r
  {
    var all := AllSlices(Tally(assets));
    FilterIsSubsequence(all, Shown);
    forall k | k in BucketKeys && Tally(assets)[k] > 0
      ensures Slice(Capitalize(k), Tally(assets)[k], k) in Filter(all, Shown)
    {
      var i :| 0 <= i < |BucketKeys| && BucketKeys[i] == k;
      assert all[i] == Slice(Capitalize(k), Tally(assets)[k], k);
      FilterComplete(all, Shown, all[i]);
    }
    Filter(all, Shown)
  }

  /** The sum of the slices' counts. */
  function SliceTotal(slices: seq<Slice>): int
    decreases |slices|
  {
    if slices == [] then 0 else slices[0].value + SliceTotal(slices[1..])
  }

  /** Dropping the slices of empty buckets does not change the total when no count is negative. */
  lemma {:induction false} ShownTotal(slices: seq<Slice>)
    requires forall s :: s in slices ==> s.value >= 0
    ensures SliceTotal(Filter(slices, Shown)) == SliceTotal(slices)
    decreases |slices|
  {
    if slices != [] {
      assert forall s :: s in slices[1..] ==> s in slices;
      assert slices[0] in slices;
      ShownTotal(slices[1..]);
      var head := if Shown(slices[0]) then [slices[0]] else [];
      var rest := Filter(slices[1..], Shown);
      assert Filter(slices, Shown) == head + rest;
      if Shown(slices[0]) {
        assert (head + rest)[1..] == rest;
      } else {
        assert head + rest == rest;
      }
    }
  }

  /** The slices of the chart account for every record. */
  lemma ChartAccountsForAll(assets: seq<Asset>)
    ensures SliceTotal(ChartData(assets)) == |assets|
  {
    var counts := Tally(assets);
    TallyCounts(assets);
    var all := AllSlices(counts);
    assert all[1..][1..][1..][1..] == [];
    assert SliceTotal(all[1..][1..][1..]) == counts["other"];
    assert SliceTotal(all[1..][1..]) == counts["vehicles"] + counts["other"];
    assert SliceTotal(all) == BucketTotal(counts);
    ShownTotal(all);
  }

  /**
   * The palette, and the slate of "other" for a key it lacks
   * (`COLORS[key] || COLORS.other`). Only the palette's own keys are modelled:
   * a key inherited from the object's prototype, such as "toString", finds a
   * truthy value in JavaScript and skips the fallback, but no slice carries one
   * (`SlicesHaveOwnColors`).
   */
  const Colors: map<string, string> :=
    map["electronics" := "#0ea5e9", "furniture" := "#f59e0b", "vehicles" := "#ef4444", "other" := "#64748b"]

  function ColorOf(key: string): (color: string)
    ensures key in Colors ==> color == Colors[key]
    ensures key !in Colors ==> color == "#64748b"
  {
    if key in Colors && Colors[key] != "" then Colors[key] else Colors["other"]
  }

  /** Every slice is coloured as its own bucket: the fallback is never reached by chart data. */
  lemma SlicesHaveOwnColors(assets: seq<Asset>)
    ensures forall s :: s in ChartData(assets) ==> s.key in Colors && ColorOf(s.key) == Colors[s.key]
  {
  }

  /** What the chart shows: the "No data available" notice, or the donut of these slices. */
  datatype ChartView = NoData | Donut(slices: seq<Slice>)

  function Render(assets: seq<Asset>): (v: ChartView)
    ensures v == NoData <==> assets == []
  {
    if |assets| == 0 then NoData else Donut(ChartData(assets))
  }

  /** Whenever the donut is drawn it has at least one slice. */
  lemma DonutNeverEmpty(assets: seq<Asset>)
    requires Render(assets).Donut?
    ensures Render(assets).slices != []
  {
    ChartAccountsForAll(assets);
  }

  /** The counts of the chart test's records, two laptops and a chair. */
  lemma ChartTestCounts(a: Asset, b: Asset, chair: Asset)
    requires a.category == Laptop && b.category == Laptop && chair.category == Furniture
    ensures Tally([a, b, chair])["electronics"] == 0 && Tally([a, b, chair])["furniture"] == 1
    ensures Tally([a, b, chair])["vehicles"] == 0 && Tally([a, b, chair])["other"] == 2
  {
    var assets := [a, b, chair];
    SchemaBuckets(assets);
    assert assets[1..] == [b, chair] && assets[1..][1..] == [chair] && [chair][1..] == [];
    assert !IsFurniture(a) && !IsFurniture(b) && IsFurniture(chair);
    assert Filter([chair], IsFurniture) == [chair];
    assert Filter(assets[1..], IsFurniture) == [chair];
    assert Filter(assets, IsFurniture) == [chair];
  }

  /** The labels of the four buckets. */
  lemma BucketLabels()
    ensures Capitalize("electronics") == "Electronics" && Capitalize("furniture") == "Furniture"
    ensures Capitalize("vehicles") == "Vehicles" && Capitalize("other") == "Other"
  {
  }

  /** Of four slices, the empty first and third are dropped. */
  lemma FourSlices(slices: seq<Slice>)
    requires |slices| == 4 && !Shown(slices[0]) && Shown(slices[1]) && !Shown(slices[2]) && Shown(slices[3])
    ensures Filter(slices, Shown) == [slices[1], slices[3]]
  {
    assert slices[1..][1..] == slices[2..] && slices[2..][1..] == slices[3..] && slices[3..][1..] == [];
    assert Filter(slices[3..], Shown) == [slices[3]];
    assert Filter(slices[2..], Shown) == [slices[3]];
    assert Filter(slices[1..], Shown) == [slices[1], slices[3]];
  }

  /** The chart test's records give one "Furniture" slice of 1 and one "Other" slice of 2. */
  lemma ChartTestInputs(a: Asset, b: Asset, chair: Asset)
    requires a.category == Laptop && b.category == Laptop && chair.category == Furniture
    ensures ChartData([a, b, chair]) == [Slice("Furniture", 1, "furniture"), Slice("Other", 2, "other")]
  {
    ChartTestCounts(a, b, chair);
    var all := AllSlices(Tally([a, b, chair]));
    assert all[0].value == 0 && all[1].value == 1 && all[2].value == 0 && all[3].value == 2;
    FourSlices(all);
    BucketLabels();
    assert all[1] == Slice("Furniture", 1, "furniture");
    assert all[3] == Slice("Other", 2, "other");
  }
}
