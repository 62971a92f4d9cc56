/**
 * The derived view filter (`useAssetFilter`): the records whose name
 * contains the search text, ignoring case, and whose category is the
 * selected one, "all" and "" selecting every category. Case folding is
 * modelled for ASCII letters.
 */
module AssetFilter {

  import opened Common
  import opened Seqs
  import opened AssetSchema

  datatype FilterState = FilterState(search: string, category: string)

  function LowerChar(c: char): char {
    if 'A' <= c <= 'Z' then (c as int + 32) as char else c
  }

  /** `s.toLowerCase()` on ASCII letters. */
  function Lower(s: string): (r: string)
    ensures |r| == |s|
    ensures forall i :: 0 <= i < |s| ==> r[i] == LowerChar(s[i])
  {
    seq(|s|, i requires 0 <= i < |s| => LowerChar(s[i]))
  }

  /** `h.includes(n)`: `n` occurs in `h` at some position. */
  predicate Includes(h: string, n: string)
    decreases |h|
  {
    (|n| <= |h| && h[..|n|] == n) || (h != [] && Includes(h[1..], n))
  }

  /** `n` occurs in `h` starting at position `i`. */
  predicate OccursAt(h: string, n: string, i: int) {
    0 <= i && i + |n| <= |h| && h[i..i + |n|] == n
  }

  /** `Includes` is the usual notion of a substring occurrence. */
  lemma {:induction false} IncludesAt(h: string, n: string)
    ensures Includes(h, n) <==> exists i :: OccursAt(h, n, i)
    decreases |h|
  {
    if |n| <= |h| && h[..|n|] == n {
      assert OccursAt(h, n, 0);
    } else if h != [] {
      IncludesAt(h[1..], n);
      if Includes(h[1..], n) {
        var j :| OccursAt(h[1..], n, j);
        OccursLater(h, n, j);
      }
      if exists i :: OccursAt(h, n, i) {
        var i :| OccursAt(h, n, i);
        OccursEarlier(h, n, i);
      }
    } else {
      assert forall i :: !OccursAt(h, n, i);
    }
  }

  /** An occurrence in the tail is an occurrence one position further on. */
  lemma OccursLater(h: string, n: string, j: int)
    requires h != [] && OccursAt(h[1..], n, j)
    ensures OccursAt(h, n, j + 1)
  {
    assert h[j + 1..j + 1 + |n|] == h[1..][j..j + |n|];
  }

  /** An occurrence past the start, when the text does not begin there, is an occurrence in the tail. */
  lemma OccursEarlier(h: string, n: string, i: int)
    requires h != [] && OccursAt(h, n, i) && !(|n| <= |h| && h[..|n|] == n)
    ensures OccursAt(h[1..], n, i - 1)
  {
    assert i != 0;
    assert h[1..][i - 1..i - 1 + |n|] == h[i..i + |n|];
  }

  /** The empty text occurs in every string. */
  lemma IncludesEmpty(h: string)
    ensures Includes(h, "")
  {
  }

  /** A character of an occurring text is a character of the text it occurs in. */
  lemma {:induction false} IncludesChars(h: string, n: string, c: char)
    requires Includes(h, n) && c in n
    ensures c in h
    decreases |h|
  {
    if |n| <= |h| && h[..|n|] == n {
      var k :| 0 <= k < |n| && n[k] == c;
      assert h[k] == c;
    } else {
      IncludesChars(h[1..], n, c);
    }
  }

  predicate MatchesSearch(a: Asset, search: string) {
    Includes(Lower(a.name), Lower(search))
  }

  predicate MatchesCategory(a: Asset, category: string) {
    category == "all" || category == "" || CategoryName(a.category) == category
  }

  predicate Matches(a: Asset, f: FilterState) {
    MatchesSearch(a, f.search) && MatchesCategory(a, f.category)
  }

  /**
   * `useAssetFilter(assets, filters)`: a subsequence of the input in its
   * original order, every kept record matching both conditions, and every
   * record that matches both kept, as many times as it occurs.
   */
  function FilterAssets(assets: seq<Asset>, f: FilterState): (r: seq<Asset>)
    ensures IsSubsequence(r, assets)
    ensures forall a :: a in r ==> MatchesSearch(a, f.search) && MatchesCategory(a, f.category)
    ensures forall a :: a in assets && MatchesSearch(a, f.search) && MatchesCategory(a, f.category) ==> a in r
    ensures forall a :: multiset(r)[a] == if MatchesSearch(a, f.search) && MatchesCategory(a, f.category) then multiset(assets)[a] else 0
  {
    var keep := (a: Asset) => Matches(a, f);
    FilterIsSubsequence(assets, keep);
    forall a ensures multiset(Filter(assets, keep))[a] == if Matches(a, f) then multiset(assets)[a] else 0 {
      FilterCount(assets, keep, a);
    }
    assert forall a :: a in assets && Matches(a, f) ==> a in Filter(assets, keep) by {
      forall a | a in assets && Matches(a, f) ensures a in Filter(assets, keep) {
        FilterComplete(assets, keep, a);
      }
    }
    Filter(assets, keep)
  }

  /** An empty search with category "all" (or "") shows every record, in order. */
  lemma NoCriteriaKeepsAll(assets: seq<Asset>, category: string)
    requires category == "all" || category == ""
    ensures FilterAssets(assets, FilterState("", category)) == assets
  {
    forall a | a in assets ensures Matches(a, FilterState("", category)) {
      IncludesEmpty(Lower(a.name));
    }
    FilterKeepsAll(assets, (a: Asset) => Matches(a, FilterState("", category)));
  }

  /** Filtering the filtered view again with the same criteria changes nothing. */
  lemma FilterIsIdempotent(assets: seq<Asset>, f: FilterState)
    ensures FilterAssets(FilterAssets(assets, f), f) == FilterAssets(assets, f)
  {
    FilterIdempotent(assets, (a: Asset) => Matches(a, f));
  }

  const MacBook := Asset("1", None, "MacBook Pro", None, Laptop, 2000.0, Active, "2024-01-01")
  const Chair := Asset("2", None, "Office Chair", None, Furniture, 150.0, Active, "2024-01-01")
  const IPhone := Asset("3", None, "iPhone", None, Laptop, 1000.0, Active, "2024-01-01")

  /** The test records' names and the test searches, lower-cased. */
  lemma LowerTestNames()
    ensures Lower(MacBook.name) == "macbook pro" && Lower(Chair.name) == "office chair"
    ensures Lower(IPhone.name) == "iphone"
  {
  }

  lemma LowerTestSearches()
    ensures Lower("phone") == "phone" && Lower("xyz") == "xyz"
  {
  }

  /** A text that holds no `c` does not contain any text that does. */
  lemma MissingChar(h: string, n: string, c: char)
    requires c in n && c !in h
    ensures !Includes(h, n)
  {
    if Includes(h, n) {
      IncludesChars(h, n, c);
    }
  }

  /** Of the hook's test records, only the iPhone's name contains "phone". */
  lemma PhoneTestInput()
    ensures MatchesSearch(IPhone, "phone") && !MatchesSearch(MacBook, "phone")
  {
    LowerTestNames();
    LowerTestSearches();
    var iphone := "iphone";
    assert iphone[1..][..5] == "phone";
    assert Includes(iphone[1..], "phone");
    MissingChar("macbook pro", "phone", 'h');
  }

  /** None of the hook's test records has a name containing "xyz". */
  lemma NoMatchTestInput(a: Asset)
    requires a in [MacBook, Chair, IPhone]
    ensures !MatchesSearch(a, "xyz")
  {
    LowerTestNames();
    LowerTestSearches();
    if a == MacBook {
      MissingChar("macbook pro", "xyz", 'x');
    } else if a == Chair {
      MissingChar("office chair", "xyz", 'x');
    } else {
      MissingChar("iphone", "xyz", 'x');
    }
  }

  /** The hook's test input "xyz" in every category keeps none of the test records. */
  lemma NoMatchFilterTest()
    ensures FilterAssets([MacBook, Chair, IPhone], FilterState("xyz", "all")) == []
  {
    var assets := [MacBook, Chair, IPhone];
    forall a | a in assets ensures !MatchesSearch(a, "xyz") {
      NoMatchTestInput(a);
    }
    FilterDropsAll(assets, (a: Asset) => Matches(a, FilterState("xyz", "all")));
  }

  /** Among the test records, only the iPhone matches "phone" in category "laptop". */
  lemma PhoneMatchesOnly(a: Asset)
    requires a in [MacBook, Chair, IPhone] && Matches(a, FilterState("phone", "laptop"))
    ensures a == IPhone
  {
    PhoneTestInput();
    ChairIsNoLaptop();
    assert MatchesSearch(a, "phone") && MatchesCategory(a, "laptop");
    assert a != Chair && a != MacBook;
  }

  lemma ChairIsNoLaptop()
    ensures !MatchesCategory(Chair, "laptop")
  {
    assert CategoryName(Furniture) == "furniture";
  }

  /** The hook's test input "phone" in category "laptop" keeps only the iPhone. */
  lemma PhoneFilterTest()
    ensures FilterAssets([MacBook, Chair, IPhone], FilterState("phone", "laptop")) == [IPhone]
  {
    var assets := [MacBook, Chair, IPhone];
    var f := FilterState("phone", "laptop");
    var kept := FilterAssets(assets, f);
    forall a | a in kept ensures a == IPhone {
      PhoneMatchesOnly(a);
    }
    PhoneTestInput();
    assert Matches(IPhone, f);
    SingleSubsequence(kept, MacBook, Chair, IPhone);
  }

  /** A subsequence of three records, made only of the last, which the others differ from, is at most that record once. */
  lemma SingleSubsequence(r: seq<Asset>, x: Asset, y: Asset, z: Asset)
    requires x != z && y != z
    requires IsSubsequence(r, [x, y, z])
    requires z in r && forall a :: a in r ==> a == z
    ensures r == [z]
  {
    var b := [x, y, z];
    assert r != [] && r[0] in r;
    assert r[0] == z && r[0] != b[0];
    assert IsSubsequence(r, b[1..]);
    assert b[1..] == [y, z] && [y, z][1..] == [z] && [z][1..] == [];
    assert IsSubsequence(r, [z]);
    assert !IsSubsequence(r, []);
    assert IsSubsequence(r[1..], [z][1..]);
    assert r == [r[0]] + r[1..];
  }
}
