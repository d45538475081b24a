/**
 * The directory index (`CachedDir`, src/dirs.rs lines 114-183): the scan
 * that fills it and the hot-reload edits of its identifier list.
 */
module CachedDirs {
  import opened Wrappers
  import opened Ids
  import opened StringLists
  import opened AssetCaches

  /** Why a directory could not be listed. */
  datatype IoError = IoError(kind: string)

  /**
   * One item of a directory listing: an entry that could not be read, or
   * the parts of an entry's path the scan inspects.
   */
  datatype Entry =
    | Unreadable
    | Listed(extension: Option<OsStr>, stem: Option<OsStr>, isFile: bool)

  /** The file stem of an entry as text, when it has one that is UTF-8. */
  function StemText(e: Entry): Option<string>
  {
    if e.Unreadable? || e.stem.None? then None else ToStr(e.stem.value)
  }

  /** The four conditions under which the scan records an entry. */
  predicate Admitted(e: Entry, accepted: seq<string>)
  {
    e.Listed? && HasExtension(e.extension, accepted) && StemText(e).Some? && e.isFile
  }

  /** The identifiers a scan of `entries` records under `parent`, in listing order. */
  function ScanIds(entries: seq<Entry>, accepted: seq<string>, parent: string): (r: seq<string>)
    ensures |r| <= |entries|
  {
    if entries == [] then []
    else
      (if Admitted(entries[0], accepted) then [Joined(parent, StemText(entries[0]).value)] else [])
      + ScanIds(entries[1..], accepted, parent)
  }

  /** Scanning a listing in two parts records the two parts' identifiers in turn. */
  lemma {:induction false} ScanIdsAppend(a: seq<Entry>, b: seq<Entry>, accepted: seq<string>, parent: string)
    ensures ScanIds(a + b, accepted, parent) == ScanIds(a, accepted, parent) + ScanIds(b, accepted, parent)
  {
    if a != [] {
      assert (a + b)[1..] == a[1..] + b;
      ScanIdsAppend(a[1..], b, accepted, parent);
    } else {
      assert a + b == b;
    }
  }

  /** Entry `e` is admitted and records the identifier `x` under `parent`. */
  predicate Records(e: Entry, accepted: seq<string>, parent: string, x: string)
  {
    Admitted(e, accepted) && x == Joined(parent, StemText(e).value)
  }

  /**
   * An identifier is recorded exactly when some admitted entry's stem,
   * joined to the parent, gives it.
   */
  lemma {:induction false} ScanIdsMember(entries: seq<Entry>, accepted: seq<string>, parent: string, x: string)
    ensures x in ScanIds(entries, accepted, parent) <==>
      exists i :: 0 <= i < |entries| && Records(entries[i], accepted, parent, x)
  {
    if entries != [] {
      ScanIdsMember(entries[1..], accepted, parent, x);
      assert forall i :: 0 <= i < |entries[1..]| ==> entries[1..][i] == entries[i + 1];
      if exists i :: 0 <= i < |entries| && Records(entries[i], accepted, parent, x) {
        var i :| 0 <= i < |entries| && Records(entries[i], accepted, parent, x);
        if i > 0 {
          assert Records(entries[1..][i - 1], accepted, parent, x);
        }
      }
    }
  }

  /** When every entry is admitted, every entry yields one identifier. */
  lemma {:induction false} ScanIdsAllAdmitted(entries: seq<Entry>, accepted: seq<string>, parent: string)
    requires forall i :: 0 <= i < |entries| ==> Admitted(entries[i], accepted)
    ensures |ScanIds(entries, accepted, parent)| == |entries|
  {
    if entries != [] {
      assert forall i :: 0 <= i < |entries[1..]| ==> entries[1..][i] == entries[i + 1];
      ScanIdsAllAdmitted(entries[1..], accepted, parent);
    }
  }

  /** The index of one directory. */
  class CachedDir {
    const assets: StringList

    constructor (ids: seq<string>)
      ensures fresh(assets) && assets.list == ids
    {
      assets := new StringList(ids);
    }

    /**
     * `CachedDir::load`: lists the directory and records, in listing
     * order, the identifier of every readable regular file with an
     * accepted extension and a UTF-8 stem. Each such identifier is first
     * handed to the cache for a best-effort load whose outcome is
     * ignored, so it is recorded whether or not the load succeeds. Only a
     * directory that cannot be listed is an error.
     */
    static method Load<V, E>(cache: AssetCache<V, E>, listing: Result<seq<Entry>, IoError>,
                             accepted: seq<string>, id: string)
      returns (r: Result<CachedDir, IoError>)
      ensures listing.Err? ==> r == Err(listing.error)
      ensures listing.Ok? ==> r.Ok? && fresh(r.value) && fresh(r.value.assets)
      ensures listing.Ok? ==> r.value.assets.list == ScanIds(listing.value, accepted, id)
    {
      if listing.Err? {
        return Err(listing.error);
      }
      var entries := listing.value;
      var loaded: seq<string> := [];
      for i := 0 to |entries|
        invariant loaded == ScanIds(entries[..i], accepted, id)
      {
        assert entries[..i + 1] == entries[..i] + [entries[i]];
        ScanIdsAppend(entries[..i], [entries[i]], accepted, id);
        var entry := entries[i];
        if entry.Unreadable? {
          continue;
        }
        if !HasExtension(entry.extension, accepted) {
          continue;
        }
        var name;
        match StemText(entry) {
          case Some(n) => name := n;
          case None => continue;
        }
        if entry.isFile {
          var thisId := IdPush(id, name);
          var _ := cache.load(thisId);
          loaded := loaded + [thisId];
        }
      }
      assert entries[..|entries|] == entries;
      var dir := new CachedDir(loaded);
      return Ok(dir);
    }

    /** `CachedDir::contains`: a linear search through a snapshot of the list. */
    method Contains(id: string) returns (found: bool)
      ensures found <==> id in assets.list
    {
      var it := assets.IntoIter();
      while true
        invariant fresh(it) && it.Valid() && it.snapshot == assets.list
        invariant id !in it.snapshot[..it.current]
        decreases it.Len()
      {
        ghost var before := it.current;
        var s := it.Next();
        match s {
          case None =>
            assert it.snapshot[..it.current] == it.snapshot;
            return false;
          case Some(x) =>
            assert it.snapshot[..it.current] == it.snapshot[..before] + [x];
            if x == id {
              return true;
            }
        }
      }
    }

    /** `CachedDir::add`: appends the identifier, even if it is already listed. */
    method Add(id: string)
      modifies assets
      ensures assets.list == old(assets.list) + [id]
      ensures id in assets.list
      ensures multiset(assets.list)[id] == multiset(old(assets.list))[id] + 1
    {
      assets.list := assets.list + [id];
    }

    /**
     * `CachedDir::remove`: takes out the first occurrence of the
     * identifier; an identifier that is not listed is ignored.
     */
    method Remove(id: string)
      modifies assets
      ensures assets.list == RemoveFirst(old(assets.list), id)
      ensures id !in old(assets.list) ==> assets.list == old(assets.list)
      ensures multiset(assets.list) == multiset(old(assets.list)) - multiset{id}
    {
      RemoveFirstMultiset(assets.list, id);
      var pos := 0;
      while pos < |assets.list| && assets.list[pos] != id
        invariant 0 <= pos <= |assets.list|
        invariant id !in assets.list[..pos]
      {
        pos := pos + 1;
      }
      if pos < |assets.list| {
        RemoveFirstAt(assets.list, id, pos);
        assets.list := assets.list[..pos] + assets.list[pos + 1..];
      } else {
        assert assets.list[..pos] == assets.list;
        RemoveFirstAbsent(assets.list, id);
      }
    }
  }
}
