# Directory index of an asset cache, in Dafny

This project models the directory index of the `assets_manager` Rust crate
(`src/dirs.rs`). For one asset directory the index keeps an ordered list of
asset identifiers. It fills that list by scanning the directory. Hot reload
edits it with `add` and `remove`. Two iterators read it through a snapshot:

- a cached-only one (`ReadDir`) that yields the values already in the cache;
- an all-mode one (`ReadAllDir`) that yields every identifier with the outcome of loading it.

Modules:

- `Wrappers` (wrappers.dfy): `Option` and `Result`.
- `Ids` (ids.dfy): `extension_of`, `has_extension` and `id_push`. A path is reduced to its
  extension, which may be absent or not UTF-8.
- `StringLists` (string_list.dfy): the identifier list `StringList` and the cursor `StringIter`,
  both as classes. A cursor copies the list when it is created and keeps an index into the copy.
  `RemoveFirst` is the specification of `remove`.
- `AssetCaches` (asset_cache.dfy): the cache as the index sees it. It is a map for `load_cached`
  and a function for `load`. `Coherent` says that `load` returns the cached value when there is one.
- `CachedDirs` (cached_dir.dfy): directory entries, the scan specification `ScanIds`, and the
  class `CachedDir` with `Load`, `Contains`, `Add` and `Remove`.
- `Readers` (readers.dfy): `DirReader`, `ReadDir` and `ReadAllDir`. Their specifications are
  `CachedValues` (a filter-map over the snapshot) and `LoadAll` (a map over it).
- `Scenarios` (scenarios.dfy): the example of a scan of `a.json`, `b.json` and `c.txt`, the two
  reading modes over it, and an edit that a live cursor does not see.

The lock around the list only makes each call atomic. Each call is therefore one sequential
step, and a snapshot is an immutable copy.

Two facts about the code that the model keeps:

- `remove(id)` followed by `contains(id)` is not always false: `add` keeps duplicates and `remove`
  takes out only the first, so `RemoveFirstStillContains` proves the identifier stays exactly when
  it was listed twice or more.
- `id_push` does not check that segments are non-empty, and neither does the model.

## Model

| member | source | states |
|---|---|---|
| `Ids.ExtensionOf` | src/dirs.rs:18-24 | a missing extension reads as `""`; the result is absent exactly when the extension is not UTF-8; otherwise it is the extension's text |
| `Ids.HasExtension` | src/dirs.rs:26-32 | a missing extension is accepted iff `""` is accepted; a UTF-8 one iff its text is accepted; a non-UTF-8 one never; equivalently, iff `ExtensionOf` gives a text in the accepted list |
| `Ids.Joined` | src/dirs.rs:34-40 | an empty parent gives just the name; otherwise the result is the parent, a `.` at index `\|parent\|`, then the name; the parent is always a prefix and the name a suffix |
| `Ids.IdPush` | src/dirs.rs:34-40 | pushing the separator (only onto a non-empty buffer) and then the name yields `Joined(id, name)` |
| `Ids.JoinedInjective` | src/dirs.rs:138-139 | under one parent, two different stems never give the same identifier |
| `StringLists.StringIter.Next` | src/dirs.rs:84-95 | yields the first remaining snapshot element and drops it from what remains; yields nothing exactly when nothing remains, and then nothing remains still (fused) |
| `StringLists.StringIter.Len` | src/dirs.rs:104-110 | equals the number of snapshot elements still to be yielded |
| `StringLists.StringIter.SizeHint` | src/dirs.rs:97-101 | both bounds equal the number of remaining elements |
| `StringLists.StringList.constructor` | src/dirs.rs:46-53 | the new list holds the given identifiers |
| `StringLists.StringList.IntoIter` | src/dirs.rs:59-71 | a fresh cursor whose snapshot is the list as it is now, with nothing yet yielded |
| `StringLists.RemoveFirstAbsent` | src/dirs.rs:170 | removing an identifier that is not listed leaves the list unchanged |
| `StringLists.RemoveFirstAt` | src/dirs.rs:170-171 | when `pos` is the first index holding the identifier, exactly that element goes and all others stay in order |
| `StringLists.RemoveFirstMultiset` | src/dirs.rs:167-173 | a removal takes out one occurrence if there is one, and nothing else |
| `StringLists.RemoveFirstStillContains` | src/dirs.rs:167-173 | after a removal the identifier is still listed iff it was listed at least twice |
| `StringLists.RemoveFirstAfterAppend` | src/dirs.rs:160-173 | adding a new identifier and then removing it restores the list |
| `CachedDirs.ScanIds` | src/dirs.rs:124-145 | a scan records at most one identifier per listed entry |
| `CachedDirs.ScanIdsAppend` | src/dirs.rs:124-145 | the scan goes through the listing in order: two consecutive parts record their identifiers one after the other |
| `CachedDirs.ScanIdsMember` | src/dirs.rs:124-145 | an identifier is recorded iff some entry is readable, has an accepted extension, has a UTF-8 stem, is a file, and its stem joined to the parent gives that identifier |
| `CachedDirs.ScanIdsAllAdmitted` | src/dirs.rs:124-145 | when every entry passes the four checks, the scan records one identifier per entry |
| `CachedDirs.CachedDir.Load` | src/dirs.rs:119-150 | a listing error is returned as is; otherwise the new index holds exactly `ScanIds` of the listing, so every admitted identifier is kept whatever the cache load does |
| `CachedDirs.CachedDir.Contains` | src/dirs.rs:152-156 | true iff the identifier is in the list |
| `CachedDirs.CachedDir.Add` | src/dirs.rs:158-163 | the list becomes the old list followed by the identifier; duplicates are kept, and the identifier is then contained |
| `CachedDirs.CachedDir.Remove` | src/dirs.rs:165-173 | the list becomes `RemoveFirst` of the old list, which is unchanged when the identifier is absent and loses exactly one occurrence otherwise |
| `Readers.CachedValues` | src/dirs.rs:286-295 | the cached-only sequence is never longer than the snapshot |
| `Readers.LoadAll` | src/dirs.rs:325-329 | the all-mode sequence has one pair per snapshot identifier: the identifier at the same position and its load outcome |
| `Readers.CachedValuesAppend` | src/dirs.rs:286-295 | the cached-only sequence follows snapshot order: two consecutive parts yield their values one after the other |
| `Readers.CachedValuesComplete` | src/dirs.rs:286-295 | nothing is skipped iff every identifier is cached |
| `Readers.CachedValuesEmpty` | src/dirs.rs:286-295 | nothing is yielded iff no identifier is cached |
| `Readers.CachedAgreesWithLoad` | src/dirs.rs:286-329 | with a coherent cache that holds every identifier, each all-mode outcome is `Ok` of the value the cached-only mode yields at the same position |
| `Readers.ReadDir.Next` | src/dirs.rs:286-295 | yields the first value still pending in `CachedValues` of the remaining snapshot and drops it, leaving the cursor just past that value's identifier with only misses skipped; nothing exactly when none is pending, and then the cursor is used up |
| `Readers.ReadDir.SizeHint` | src/dirs.rs:297-300 | lower bound 0, upper bound the remaining snapshot length, and the pending count lies between them |
| `Readers.ReadAllDir.Next` | src/dirs.rs:325-329 | yields the next identifier with its load outcome and drops it from what is pending; nothing exactly when the snapshot is used up |
| `Readers.ReadAllDir.Len` | src/dirs.rs:341-344 | equals the number of pending pairs, which is the number of remaining snapshot identifiers |
| `Readers.ReadAllDir.SizeHint` | src/dirs.rs:331-334 | both bounds are the exact number of pending pairs |
| `Readers.DirReader.Iter` | src/dirs.rs:228-235 | a fresh cached-only iterator whose cursor starts at the first element of a new snapshot of the list, pending `CachedValues` of the whole list |
| `Readers.DirReader.IterAll` | src/dirs.rs:243-250 | a fresh all-mode iterator over a new snapshot, pending `LoadAll` of the whole list, with length equal to the list's |
| `Scenarios.ScanItems` | src/dirs.rs:119-150 | scanning `a.json`, `b.json`, `c.txt` for `json` under `items` records `items.a` then `items.b` |
| `Scenarios.ReadItems` | src/dirs.rs:286-329 | with `items.a` cached and `items.b` failing to load, cached-only yields only `items.a`'s value, and all-mode yields both pairs in order |
| `Scenarios.EditAfterSnapshot` | src/dirs.rs:59-71 | the cursor's copy stands for its read guard, so an `add` and a `remove` are ordered after the snapshot: they change the list but not what the cursor yields |

## Left out

- The read-write lock, blocking and writer starvation: each call is modelled as one atomic step, and a live cursor as an immutable copy of the list.
- The raw-pointer cursor (`current`/`end` pointers and the byte-difference length): replaced by an index into the copied sequence.
- `CachedDir::read` and its unchecked lifetime extension: a `DirReader` is built directly from the index's list and the cache.
- `impl IntoIterator for &DirReader`: it only calls `iter`, which is modelled.
- The filesystem: `fs::read_dir`, `is_file` and the extension/stem parsing of `Path` are inputs, as a listing result of entry records.
- The asset cache's internals and decoding: `load_cached` is a fixed map and `load` a fixed function.
- The cache's change of state when `load` succeeds during the scan is not modelled, because the cache is an input value. The call is made and its result ignored.
- Readers.ReadDir.Next: looks up one fixed cache map for the iterator's whole life. The real cache can change between calls.
- The `hot-reloading` feature flag: `Contains`, `Add` and `Remove` are always present.
- The `Debug` implementations, which only format.
- `src/loader.rs`: its loaders only wrap foreign parsing code.
