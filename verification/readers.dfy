/**
 * The directory reader and its two iterators (`DirReader`, `ReadDir`,
 * `ReadAllDir`, src/dirs.rs lines 191-347). Each iterator walks its own
 * snapshot of the identifier list.
 */
module Readers {
  import opened Wrappers
  import opened StringLists
  import opened AssetCaches

  /** The cached values of `ids`, in order, skipping identifiers with none. */
  function CachedValues<V>(ids: seq<string>, cached: map<string, V>): (r: seq<V>)
    ensures |r| <= |ids|
  {
    if ids == [] then []
    else (if ids[0] in cached then [cached[ids[0]]] else []) + CachedValues(ids[1..], cached)
  }

  /** Every identifier of `ids` with the outcome of loading it, in order. */
  function LoadAll<V, E>(ids: seq<string>, load: string -> Result<V, E>): (r: seq<(string, Result<V, E>)>)
    ensures |r| == |ids|
    ensures forall i :: 0 <= i < |ids| ==> r[i] == (ids[i], load(ids[i]))
  {
    if ids == [] then [] else [(ids[0], load(ids[0]))] + LoadAll(ids[1..], load)
  }

  /** The cached values of a concatenation are those of its parts, in turn. */
  lemma {:induction false} CachedValuesAppend<V>(a: seq<string>, b: seq<string>, cached: map<string, V>)
    ensures CachedValues(a + b, cached) == CachedValues(a, cached) + CachedValues(b, cached)
  {
    if a == [] {
      assert a + b == b;
    } else {
      assert (a + b)[1..] == a[1..] + b;
      CachedValuesAppend(a[1..], b, cached);
    }
  }

  /** No value is skipped exactly when every identifier is cached. */
  lemma {:induction false} CachedValuesComplete<V>(ids: seq<string>, cached: map<string, V>)
    ensures |CachedValues(ids, cached)| == |ids| <==> forall id :: id in ids ==> id in cached
  {
    if ids != [] {
      CachedValuesComplete(ids[1..], cached);
      assert forall id :: id in ids <==> id == ids[0] || id in ids[1..];
    }
  }

  /** Nothing is yielded exactly when no identifier is cached. */
  lemma {:induction false} CachedValuesEmpty<V>(ids: seq<string>, cached: map<string, V>)
    ensures CachedValues(ids, cached) == [] <==> forall id :: id in ids ==> id !in cached
  {
    if ids != [] {
      CachedValuesEmpty(ids[1..], cached);
      assert forall id :: id in ids <==> id == ids[0] || id in ids[1..];
    }
  }

  /**
   * With a coherent cache that holds every identifier, the two iteration
   * modes agree: the all-mode outcome of each identifier is the value the
   * cached-only mode yields at the same position.
   */
  lemma {:induction false} CachedAgreesWithLoad<V, E>(ids: seq<string>, c: AssetCache<V, E>)
    requires Coherent(c)
    requires forall id :: id in ids ==> id in c.cached
    ensures |CachedValues(ids, c.cached)| == |ids|
    ensures forall i :: 0 <= i < |ids| ==> LoadAll(ids, c.load)[i] == (ids[i], Ok(CachedValues(ids, c.cached)[i]))
  {
    if ids != [] {
      CachedAgreesWithLoad(ids[1..], c);
      var rest := CachedValues(ids[1..], c.cached);
      assert CachedValues(ids, c.cached) == [c.cached[ids[0]]] + rest;
      forall i | 0 <= i < |ids|
        ensures LoadAll(ids, c.load)[i] == (ids[i], Ok(CachedValues(ids, c.cached)[i]))
      {
        if i > 0 {
          assert ids[i] == ids[1..][i - 1];
        }
      }
    }
  }

  /** `ReadDir`: the cached values of a snapshot, looked up without I/O. */
  class ReadDir<V, E> {
    const cache: AssetCache<V, E>
    const iter: StringIter

    ghost predicate Valid()
      reads this, iter
    {
      iter.Valid()
    }

    /** The values still to be yielded. */
    ghost function Pending(): seq<V>
      reads this, iter
      requires Valid()
    {
      CachedValues(iter.Remaining(), cache.cached)
    }

    constructor (cache: AssetCache<V, E>, iter: StringIter)
      requires iter.Valid()
      ensures this.cache == cache && this.iter == iter && Valid()
    {
      this.cache := cache;
      this.iter := iter;
    }

    /**
     * `ReadDir::next`: advances the snapshot cursor past identifiers that
     * have no cached value and yields the first cached one; yields nothing
     * once the snapshot is used up, and from then on.
     */
    method Next() returns (r: Option<V>)
      requires Valid()
      modifies iter
      ensures Valid()
      ensures r.None? <==> old(Pending()) == []
      ensures r.None? ==> Pending() == [] && iter.Remaining() == []
      ensures r.Some? ==> r.value == old(Pending())[0] && Pending() == old(Pending())[1..]
      ensures r.Some? ==>
                old(iter.current) < iter.current
                && iter.snapshot[iter.current - 1] in cache.cached
                && r.value == cache.cached[iter.snapshot[iter.current - 1]]
                && CachedValues(iter.snapshot[old(iter.current)..iter.current - 1], cache.cached) == []
    {
      while true
        invariant iter.Valid()
        invariant Pending() == old(Pending())
        invariant old(iter.current) <= iter.current
        invariant CachedValues(iter.snapshot[old(iter.current)..iter.current], cache.cached) == []
        decreases iter.Len()
      {
        ghost var before := iter.current;
        var id := iter.Next();
        if id.Some? {
          assert iter.snapshot[old(iter.current)..iter.current]
            == iter.snapshot[old(iter.current)..before] + [id.value];
          CachedValuesAppend(iter.snapshot[old(iter.current)..before], [id.value], cache.cached);
        }
        match id {
          case None =>
            return None;
          case Some(x) =>
            if x in cache.cached {
              return Some(cache.cached[x]);
            }
        }
      }
    }

    /** `ReadDir::size_hint`: between none and what is left of the snapshot. */
    function SizeHint(): (hint: (nat, Option<nat>))
      reads this, iter
      requires Valid()
      ensures hint.0 == 0 && hint.0 <= |Pending()|
      ensures hint.1.Some? && |Pending()| <= hint.1.value
      ensures hint.1.value == |iter.Remaining()|
    {
      (0, iter.SizeHint().1)
    }
  }

  /** `ReadAllDir`: every identifier of a snapshot with its load outcome. */
  class ReadAllDir<V, E> {
    const cache: AssetCache<V, E>
    const iter: StringIter

    ghost predicate Valid()
      reads this, iter
    {
      iter.Valid()
    }

    /** The pairs still to be yielded. */
    ghost function Pending(): seq<(string, Result<V, E>)>
      reads this, iter
      requires Valid()
    {
      LoadAll(iter.Remaining(), cache.load)
    }

    constructor (cache: AssetCache<V, E>, iter: StringIter)
      requires iter.Valid()
      ensures this.cache == cache && this.iter == iter && Valid()
    {
      this.cache := cache;
      this.iter := iter;
    }

    /**
     * `ReadAllDir::next`: yields the next identifier of the snapshot with
     * the outcome of loading it; nothing once the snapshot is used up.
     */
    method Next() returns (r: Option<(string, Result<V, E>)>)
      requires Valid()
      modifies iter
      ensures Valid()
      ensures r.None? <==> old(Pending()) == []
      ensures r.None? ==> Pending() == []
      ensures r.Some? ==> r.value == old(Pending())[0] && Pending() == old(Pending())[1..]
    {
      var id := iter.Next();
      match id {
        case None =>
          r := None;
        case Some(x) =>
          r := Some((x, cache.load(x)));
      }
    }

    /** `ReadAllDir::len`: exactly the number of identifiers left in the snapshot. */
    function Len(): (n: nat)
      reads this, iter
      requires Valid()
      ensures n == |Pending()| == |iter.Remaining()|
    {
      iter.Len()
    }

    /** `ReadAllDir::size_hint`: the exact length, as both bounds. */
    function SizeHint(): (hint: (nat, Option<nat>))
      reads this, iter
      requires Valid()
      ensures hint.0 == |Pending()| && hint.1 == Some(|Pending()|)
    {
      iter.SizeHint()
    }
  }

  /** `DirReader`: a directory's identifier list bound to a cache. */
  datatype DirReader<V, E> = DirReader(cache: AssetCache<V, E>, assets: StringList)
  {
    /**
     * `DirReader::iter`: a cached-only iterator over a fresh snapshot; it
     * will yield the cached values of the listed identifiers, in order.
     */
    method Iter() returns (rd: ReadDir<V, E>)
      ensures fresh(rd) && fresh(rd.iter) && rd.Valid() && rd.cache == cache
      ensures rd.iter.snapshot == assets.list && rd.iter.Remaining() == assets.list
      ensures rd.Pending() == CachedValues(assets.list, cache.cached)
    {
      var it := assets.IntoIter();
      rd := new ReadDir(cache, it);
    }

    /**
     * `DirReader::iter_all`: an all-mode iterator over a fresh snapshot;
     * it will yield each listed identifier with its load outcome, in
     * order, and exactly as many pairs as there are identifiers.
     */
    method IterAll() returns (ra: ReadAllDir<V, E>)
      ensures fresh(ra) && fresh(ra.iter) && ra.Valid() && ra.cache == cache
      ensures ra.iter.snapshot == assets.list && ra.iter.Remaining() == assets.list
      ensures ra.Pending() == LoadAll(assets.list, cache.load)
      ensures ra.Len() == |assets.list|
    {
      var it := assets.IntoIter();
      ra := new ReadAllDir(cache, it);
    }
  }
}
