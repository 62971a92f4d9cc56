/**
 * The dashboard's summary figures: the number of records, the sum of their
 * values (`assets.reduce((sum, a) => sum + a.value, 0)`) and the number of
 * active records (`assets.filter(a => a.status === "active").length`).
 * Values are exact reals; floating-point rounding is not modelled.
 */
module Dashboard {

  import opened Common
  import opened Seqs
  import opened AssetSchema

  /** The "Total Assets" card: `assets.length`. */
  function TotalAssets(assets: seq<Asset>): nat {
    |assets|
  }

  /** The reduction from the left, starting at 0, adding each record's value in turn. */
  function TotalValue(assets: seq<Asset>): real
    decreases |assets|
  {
    if assets == [] then 0.0 else TotalValue(assets[..|assets| - 1]) + assets[|assets| - 1].value
  }

  predicate IsActive(a: Asset) {
    a.status == Active
  }

  /** The "Active Assets" card: the number of records whose status is "active". */
  function ActiveCount(assets: seq<Asset>): nat {
    |Filter(assets, IsActive)|
  }

  /** The total of a concatenation is the sum of the totals: the reduction is a sum over the records. */
  lemma {:induction false} TotalValueAppend(a: seq<Asset>, b: seq<Asset>)
    ensures TotalValue(a + b) == TotalValue(a) + TotalValue(b)
    decreases |b|
  {
    if b != [] {
      var n := |b| - 1;
      assert (a + b)[..|a + b| - 1] == a + b[..n];
      assert (a + b)[|a + b| - 1] == b[n];
      TotalValueAppend(a, b[..n]);
    } else {
      assert a + b == a;
    }
  }

  /** The total adds the first record to the total of the rest, whichever end the reduction starts from. */
  lemma TotalValueFirst(assets: seq<Asset>)
    requires assets != []
    ensures TotalValue(assets) == assets[0].value + TotalValue(assets[1..])
  {
    assert assets == [assets[0]] + assets[1..];
    TotalValueAppend([assets[0]], assets[1..]);
  }

  /**
   * Records accepted by the schema have positive values, so the total of
   * such records is positive whenever there is one, and 0 only for none.
   */
  lemma {:induction false} TotalValuePositive(assets: seq<Asset>)
    requires forall a :: a in assets ==> a.value > 0.0
    ensures assets == [] ==> TotalValue(assets) == 0.0
    ensures assets != [] ==> TotalValue(assets) > 0.0
    decreases |assets|
  {
    if assets != [] {
      var init := assets[..|assets| - 1];
      assert forall a :: a in init ==> a in assets;
      assert assets[|assets| - 1] in assets;
      TotalValuePositive(init);
    }
  }

  /**
   * The active count never exceeds the record count, and equals it exactly
   * when every record is active.
   */
  lemma {:induction false} ActiveCountBounded(assets: seq<Asset>)
    ensures ActiveCount(assets) <= TotalAssets(assets)
    ensures ActiveCount(assets) == TotalAssets(assets) <==> forall a :: a in assets ==> IsActive(a)
    decreases |assets|
  {
    if assets != [] {
      ActiveCountBounded(assets[1..]);
      assert forall a :: a in assets <==> a == assets[0] || a in assets[1..];
    }
  }

  /** The counts add up over a concatenation of record lists. */
  lemma ActiveCountAppend(a: seq<Asset>, b: seq<Asset>)
    ensures ActiveCount(a + b) == ActiveCount(a) + ActiveCount(b)
  {
    FilterAppend(a, b, IsActive);
  }

  const LaptopRecord := Asset("1", None, "Laptop", None, Laptop, 1000.0, Active, "")
  const PhoneRecord := Asset("2", None, "Phone", None, Smartphone, 500.0, Active, "")
  const OldPcRecord := Asset("3", None, "Old PC", None, Desktop, 200.0, Retired, "")

  /** The page's test records: three assets worth 1700 in all, two of them active; none gives zeros. */
  lemma DashboardTestInputs()
    ensures TotalAssets([LaptopRecord, PhoneRecord, OldPcRecord]) == 3
    ensures TotalValue([LaptopRecord, PhoneRecord, OldPcRecord]) == 1700.0
    ensures ActiveCount([LaptopRecord, PhoneRecord, OldPcRecord]) == 2
    ensures TotalAssets([]) == 0 && TotalValue([]) == 0.0 && ActiveCount([]) == 0
  {
    var assets := [LaptopRecord, PhoneRecord, OldPcRecord];
    assert assets[..2] == [LaptopRecord, PhoneRecord] && assets[..2][..1] == [LaptopRecord];
    assert [LaptopRecord][..0] == [];
    assert TotalValue([LaptopRecord]) == 1000.0;
    assert TotalValue(assets[..2]) == 1500.0;
    assert assets[1..] == [PhoneRecord, OldPcRecord] && assets[1..][1..] == [OldPcRecord];
    assert [OldPcRecord][1..] == [];
    assert Filter([OldPcRecord], IsActive) == [];
    assert Filter(assets[1..], IsActive) == [PhoneRecord];
    assert Filter(assets, IsActive) == [LaptopRecord, PhoneRecord];
  }
}
