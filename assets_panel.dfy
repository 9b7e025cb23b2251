/** The asset ledger panel: a type selector and a search box narrow the list
    that the table shows, while the header cards (asset count, total value,
    assets under maintenance) always describe the whole list. The selector
    value and the search text are the panel's state; here they are the
    parameters of the functions that read them. */
module Assets {
  import opened Types
  import opened Strings
  import opened MockData

  /** The type selector: "ALL" or a type spelled exactly as the asset's. */
  predicate MatchesType(a: Asset, filterType: string)
  {
    filterType == "ALL" || a.assetType == filterType
  }

  /** The search box: a case-insensitive substring of the name or of the
      model, or a case-sensitive substring of the serial number. */
  predicate MatchesSearch(a: Asset, term: string)
  {
    Includes(ToLower(a.name), ToLower(term)) ||
    Includes(ToLower(a.model), ToLower(term)) ||
    Includes(a.serialNumber, term)
  }

  predicate Shown(a: Asset, filterType: string, term: string)
  {
    MatchesType(a, filterType) && MatchesSearch(a, term)
  }

  /** `filteredAssets`. */
  function FilterAssets(assets: seq<Asset>, filterType: string, term: string): (r: seq<Asset>)
    ensures |r| <= |assets|
    ensures forall a :: a in r <==> a in assets && Shown(a, filterType, term)
  {
    if assets == [] then []
    else if Shown(assets[0], filterType, term) then [assets[0]] + FilterAssets(assets[1..], filterType, term)
    else FilterAssets(assets[1..], filterType, term)
  }

  /** The search test, stated by positions: the lowered term occurs somewhere
      in the lowered name or model, or the term itself in the serial. */
  lemma MatchesSearchIff(a: Asset, term: string)
    ensures MatchesSearch(a, term) <==>
      Occurs(ToLower(a.name), ToLower(term)) ||
      Occurs(ToLower(a.model), ToLower(term)) ||
      Occurs(a.serialNumber, term)
  {
    IncludesIff(ToLower(a.name), ToLower(term));
    IncludesIff(ToLower(a.model), ToLower(term));
    IncludesIff(a.serialNumber, term);
  }

  /** An empty search box hides nothing. */
  lemma EmptyTermMatches(a: Asset)
    ensures MatchesSearch(a, "")
  {
    IncludesEmpty(ToLower(a.name));
  }

  /** With "ALL" and an empty search box the table shows the whole list, in
      its order. */
  lemma {:induction false} NoFilterShowsAll(assets: seq<Asset>)
    ensures FilterAssets(assets, "ALL", "") == assets
  {
    if assets != [] {
      EmptyTermMatches(assets[0]);
      NoFilterShowsAll(assets[1..]);
    }
  }

  /** The table keeps the list's order: filtering distributes over
      concatenation. */
  lemma {:induction false} FilterAssetsConcat(a: seq<Asset>, b: seq<Asset>, filterType: string, term: string)
    ensures FilterAssets(a + b, filterType, term) == FilterAssets(a, filterType, term) + FilterAssets(b, filterType, term)
  {
    if a != [] {
      assert (a + b)[0] == a[0];
      assert (a + b)[1..] == a[1..] + b;
      FilterAssetsConcat(a[1..], b, filterType, term);
      if Shown(a[0], filterType, term) {
        assert FilterAssets(a + b, filterType, term) == [a[0]] + FilterAssets(a[1..] + b, filterType, term);
      } else {
        assert FilterAssets(a + b, filterType, term) == FilterAssets(a[1..] + b, filterType, term);
      }
    } else {
      assert a + b == b;
    }
  }

  /** Case never matters for the name and model: two terms that lower-case
      alike select the same assets through those two fields. */
  lemma NameModelIgnoreCase(a: Asset, t1: string, t2: string)
    requires ToLower(t1) == ToLower(t2)
    ensures Includes(ToLower(a.name), ToLower(t1)) == Includes(ToLower(a.name), ToLower(t2))
    ensures Includes(ToLower(a.model), ToLower(t1)) == Includes(ToLower(a.model), ToLower(t2))
  {
  }

  /** ...but it does matter for the serial number: an asset whose serial is
      "AB1" and whose name and model do not contain the letters is found by
      "AB" and not by "ab". */
  lemma SerialIsCaseSensitive()
    ensures var a := Asset("A-1", "x", "HAAS", "y", "AB1", "A区-01", "", Active, 0, "");
      MatchesSearch(a, "AB") && !MatchesSearch(a, "ab")
  {
    var a := Asset("A-1", "x", "HAAS", "y", "AB1", "A区-01", "", Active, 0, "");
    assert OccursAt(a.serialNumber, "AB", 0);
    IncludesAt(a.serialNumber, "AB", 0);
    assert ToLower("ab") == "ab";
    assert ToLower("x") == "x";
    assert ToLower("y") == "y";
    assert !Includes(a.serialNumber, "ab") by {
      assert "AB1"[..2] != "ab";
      assert "AB1"[1..] == "B1";
      assert "B1"[..2] != "ab";
      assert "B1"[1..] == "1";
    }
  }

  /** `assets.reduce((sum, asset) => sum + asset.value, 0)`. */
  function TotalValue(assets: seq<Asset>): int
  {
    if assets == [] then 0 else assets[0].value + TotalValue(assets[1..])
  }

  lemma {:induction false} TotalValueConcat(a: seq<Asset>, b: seq<Asset>)
    ensures TotalValue(a + b) == TotalValue(a) + TotalValue(b)
  {
    if a != [] {
      assert (a + b)[0] == a[0];
      assert (a + b)[1..] == a[1..] + b;
      TotalValueConcat(a[1..], b);
    } else {
      assert a + b == b;
    }
  }

  /** For a generated list the total lies between 500000 and 1499999 per
      asset. */
  lemma {:induction false} TotalValueBounds(assets: seq<Asset>)
    requires forall k :: 0 <= k < |assets| ==> WellFormedAsset(assets[k])
    ensures 500000 * |assets| <= TotalValue(assets) <= 1499999 * |assets|
  {
    if assets != [] {
      TotalValueBounds(assets[1..]);
    }
  }

  /** `assets.filter((a) => a.status === "MAINTENANCE").length`. */
  function MaintenanceCount(assets: seq<Asset>): (n: nat)
    ensures n <= |assets|
  {
    if assets == [] then 0
    else (if assets[0].status == Maintenance then 1 else 0) + MaintenanceCount(assets[1..])
  }

  function ActiveCount(assets: seq<Asset>): nat
  {
    if assets == [] then 0
    else (if assets[0].status == Active then 1 else 0) + ActiveCount(assets[1..])
  }

  /** Every asset is either active or under maintenance, so the card's count
      and the active assets make up the whole list. */
  lemma {:induction false} StatusCountsAddUp(assets: seq<Asset>)
    ensures MaintenanceCount(assets) + ActiveCount(assets) == |assets|
  {
    if assets != [] {
      StatusCountsAddUp(assets[1..]);
    }
  }

  /** The count is zero exactly when no asset is under maintenance. */
  lemma {:induction false} MaintenanceCountZero(assets: seq<Asset>)
    ensures MaintenanceCount(assets) == 0 <==> forall k :: 0 <= k < |assets| ==> assets[k].status == Active
  {
    if assets != [] {
      MaintenanceCountZero(assets[1..]);
      assert forall k :: 1 <= k < |assets| ==> assets[k] == assets[1..][k - 1];
    }
  }
}
