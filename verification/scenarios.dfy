/**
 * Worked examples of the directory index: a scan, the two reading modes,
 * and a snapshot that a later edit does not disturb.
 */
module Scenarios {
  import opened Wrappers
  import opened Ids
  import opened StringLists
  import opened AssetCaches
  import opened CachedDirs
  import opened Readers

  /** A listing of `a.json`, `b.json` and `c.txt`, all regular files. */
  function ItemsListing(): seq<Entry>
  {
    [ Listed(Some(Utf8("json")), Some(Utf8("a")), true),
      Listed(Some(Utf8("json")), Some(Utf8("b")), true),
      Listed(Some(Utf8("txt")), Some(Utf8("c")), true) ]
  }

  /** Scanning it for `json` under `items` records `items.a` then `items.b`. */
  lemma ScanItems()
    ensures ScanIds(ItemsListing(), ["json"], "items") == ["items.a", "items.b"]
  {
    var es, acc := ItemsListing(), ["json"];
    assert ScanIds(es[1..][1..], acc, "items") == [] by {
      assert !Admitted(es[2], acc);
      assert es[1..][1..][1..] == [];
    }
    assert Admitted(es[0], acc) && Admitted(es[1], acc);
    assert Joined("items", "a") == "items.a" && Joined("items", "b") == "items.b";
  }

  /**
   * With `items.a` cached and `items.b` failing to load, the cached-only
   * mode yields only the value of `items.a`, while the all-mode yields
   * both identifiers with their outcomes, in order.
   */
  lemma ReadItems<V, E>(c: AssetCache<V, E>, v: V, e: E)
    requires Coherent(c)
    requires c.cached == map["items.a" := v]
    requires c.load("items.b") == Err(e)
    ensures CachedValues(["items.a", "items.b"], c.cached) == [v]
    ensures LoadAll(["items.a", "items.b"], c.load) == [("items.a", Ok(v)), ("items.b", Err(e))]
  {
  }

  /**
   * A cursor's copy of the list stands for the read guard it holds, so an
   * identifier added or removed after the cursor was created is ordered
   * after the snapshot and does not change what the cursor yields.
   */
  method EditAfterSnapshot(dir: CachedDir, added: string, removed: string) returns (it: StringIter)
    modifies dir.assets
    ensures fresh(it) && it.Valid()
    ensures dir.assets.list == RemoveFirst(old(dir.assets.list) + [added], removed)
    ensures it.Remaining() == old(dir.assets.list)
  {
    it := dir.assets.IntoIter();
    dir.Add(added);
    dir.Remove(removed);
  }
}
