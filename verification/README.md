# LSH duplicate cache, modelled in Dafny

This project models the `Cache` class of the LSH library (`lsh/cache.py`): a
locality-sensitive-hashing index over MinHash fingerprints used to find
near-duplicate documents without comparing every pair.

The cache state is an immutable record (`LshCache.Cache`) with these parts:

- the hasher;
- the band signature function;
- `numBands` and `bandWidth`;
- `bins`, one bucket map per band, from band signature to a set of document ids;
- `fingerprints`, the fingerprint store, from document id to fingerprint.

Files:

- `wrappers.dfy`: `Option` and `Result`. Python's exceptions become `Failure(e)`.
- `banding.dfy`: `bins_`. It cuts a fingerprint into `num_bands` contiguous sections, sized the way numpy's `array_split` sizes them.
- `cache.dfy`: the state, the constructor (`Configure`), `update` (`Update`) and `clear` (`Clear`), plus the invariant that every bucketed id has a stored fingerprint.
- `queries.dfy`: `get_all_duplicates`, `filter_candidates`, `get_duplicates_of` and `is_duplicate`. These are methods whose loops follow the source's loops. Python iterates sets and dicts in an order the model leaves open, so each loop picks its next element by choice (`:|`). Every contract holds for any iteration order.
- `history.dfy`: sequences of registrations and clears, replayed from a cache. Lemmas here cover every reachable state.
- `scenario.dfy`: a worked example with ten seeds in five bands.

Outside collaborators are parameters:

- The MinHash hasher is a `Hasher` value. It holds a seed count, a fingerprint function and a Jaccard estimate (a `real`). Nothing is assumed about these functions.
- Python's `hash(tuple(band))` is the `sig` field. It is deterministic because it is a function, and it is not assumed injective.

Python's `None` is a legal document id: `update(doc, None)` stores it like any other key. Ids are therefore `Option<Id>` throughout, and `None` stands for Python's `None`.

Three behaviours of the code are modelled as written:

- Bands are cut by `array_split` for a fingerprint of any length. Nothing requires the fingerprint's length to equal the seed count. `bandWidth` is computed but never used for cutting.
- Signatures come from Python's tuple hash, not from a stable seeded hash.
- `get_all_duplicates` returns oriented pairs, in the orientation `itertools.combinations` yields them. It does not return unordered pairs. A pair found in several buckets can appear in both orientations.

## Model

| member | source | states |
|---|---|---|
| LshCache.Configure | lsh/cache.py:25-39 | Construction succeeds exactly when the band count is positive and divides the seed count. Then `bandWidth * numBands == numSeeds`, there are `numBands` empty bucket maps, the store is empty and the invariant holds. A zero band count fails with the division error, and a non-dividing count fails with the assertion error. |
| LshCache.Update | lsh/cache.py:95-106 | After registration the store maps the id to the hasher's fingerprint of the document (last write wins), and no other store entry changes. In every band, exactly the bucket of that band's signature gains the id, and every other bucket keeps its members. The id is then indexed under its new fingerprint, a later registration of a non-null id would warn, and the invariant is preserved. |
| LshCache.Clear | lsh/cache.py:44-46 | Every band's bucket map is empty afterwards. The store and the configuration are untouched, and the invariant is preserved. |
| LshCache.UpdateIdempotent | lsh/cache.py:101-106 | Registering the same document under the same id a second time leaves the buckets and the store exactly as the first registration left them. |
| LshCache.UpdateKeepsIndexed | lsh/cache.py:101-106 | Registering one id never un-indexes another id. |
| LshCache.ValidBandWidth | lsh/cache.py:35-42 | In a valid cache, a fingerprint of the hasher's length is cut into bands of exactly `band_width` values. |
| Banding.Bands | lsh/cache.py:41-42 | `bins_` yields exactly `num_bands` sections. A section's position in the sequence is its band index. |
| Banding.BandSize | lsh/cache.py:41-42 | Section `i` has `len / n` values, plus one when `i < len % n` (the `array_split` sizing). |
| Banding.BandsEqualWidth | lsh/cache.py:41-42 | A fingerprint of `n * w` values is cut into `n` sections of exactly `w` values. |
| Banding.BandsConcat | lsh/cache.py:41-42 | The sections are contiguous and in order: concatenated, they give back the fingerprint. |
| Queries.Combinations | lsh/cache.py:127 | The 2-combinations of a bucket hold every unordered pair of distinct members in exactly one orientation, and nothing else. |
| Queries.BandPairs | lsh/cache.py:125-128 | One band contributes only distinct pairs that share one of its buckets, and every such pair in at least one orientation. |
| Queries.CandidatePairs | lsh/cache.py:123-128 | The candidate set holds only distinct ids that share a bucket in some band. Every distinct pair sharing a bucket appears in at least one orientation. |
| Queries.FilterCandidates | lsh/cache.py:108-120 | The filter fails with a lookup error exactly when some candidate names an id with no stored fingerprint. Otherwise it keeps exactly the candidates whose Jaccard estimate is strictly above the threshold. |
| Queries.CoLocatedStored | lsh/cache.py:114-115 | Under the invariant, both ids of a co-located pair have stored fingerprints, so the filter's lookups succeed. |
| Queries.GetAllDuplicates | lsh/cache.py:122-132 | Without a threshold the call succeeds with only distinct co-located pairs, and every such pair appears in some orientation. With a threshold the result is still a set of co-located pairs, and each kept pair passes the Jaccard test. The call fails only by a lookup error, and never under the invariant. |
| Queries.BandMates | lsh/cache.py:142-145 | The candidate set is exactly the union, over the bands of the query fingerprint, of the bucket each band is filed under. |
| Queries.KeepSimilar | lsh/cache.py:150-152 | The filter fails exactly when some candidate has no stored fingerprint. Otherwise it keeps exactly the candidates whose estimate against the query fingerprint exceeds the threshold. |
| Queries.GetDuplicatesOf | lsh/cache.py:134-152 | With neither a known id nor a document, the call fails with the missing-document error. Otherwise the result is the band mates of the resolved fingerprint. With a threshold, the call fails exactly when a band mate is unstored, and otherwise keeps the band mates above the threshold. Under the invariant it never fails once a fingerprint resolves. |
| Queries.IsDuplicate | lsh/cache.py:154-158 | The result is false for an id that is already known. Without a document the call fails. Otherwise the result is true exactly when some id other than `doc_id` is a band mate of the document's fingerprint. |
| Queries.IndexedFindsItself | lsh/cache.py:142-145 | An indexed id is a band mate of its own stored fingerprint, so a query by its id returns it. |
| Queries.SharedBandFound | lsh/cache.py:142-145 | Two indexed ids whose fingerprints agree on some band are band mates of each other's fingerprint and share a bucket. |
| Queries.ClearForgetsBuckets | lsh/cache.py:44-46 | After `clear`, no two ids share a bucket and no fingerprint has band mates. So `get_all_duplicates()` returns the empty set. |
| History.ReplayValid | lsh/cache.py:101-106 | Any sequence of registrations and clears preserves the invariant that every bucketed id has a stored fingerprint. |
| History.ConstructedCachesStayValid | lsh/cache.py:31-39 | Every cache the constructor builds satisfies the invariant after any sequence of registrations and clears. |
| History.ReplayNeverRemoves | lsh/cache.py:103-106 | Without a `clear`, no id ever leaves a bucket. |
| History.ReplayKeepsStoredIds | lsh/cache.py:44-46 | No operation removes an id from the fingerprint store. |
| History.ReplayIndexes | lsh/cache.py:101-106 | An id registered with no later `clear` is filed under every band of its current fingerprint, even after other ids are registered or it is re-registered. |
| History.RegisteredAgreeingFound | lsh/cache.py:134-145 | Take two ids registered with no later `clear`. Each is a band mate of its own fingerprint. If their fingerprints agree on some band, each is a band mate of the other's fingerprint and they share a bucket. |
| Scenario.Example | lsh/cache.py:122-152 | The worked example registers "a" as 1, "b" as 2 and "c" as 3. The duplicates of id 1 are exactly {1, 2}. All pairs, and the pairs above Jaccard 0.8, are (1, 2) in one or both orientations. |
| Scenario.ExampleUnrelatedAndClear | lsh/cache.py:154-158 | On the example cache, an unrelated document with no shared band is not a duplicate. After `clear`, `get_all_duplicates()` is empty and id 1's fingerprint is still stored. |

## Left out

- Persistence (`to_json`, `from_json`, `jsonable`) is not modelled: it is file I/O, JSON and a reflective copy of the object's fields. As written, `from_json` re-keys each fingerprint by the first character of its key (lsh/cache.py:72). So a save/load round trip does not reproduce the store, and no round-trip property is claimed.
- The MinHash hasher's internals (fingerprinting, Jaccard estimation, the memoisation that `clear` resets) are left out. They appear only as the `Hasher` parameter. Resetting the memo cannot change a deterministic function, so `Clear` does not model it. The `MinHasher` source is not part of this model.
- Python's tuple hash, which can vary between runs, is an arbitrary fixed function `sig`. No property relies on it being injective.
- Logging (the duplicate-id warning and the info counts) has no effect on state. The warning's condition is the predicate `LshCache.IsKnown`.
- Numpy arrays are `seq<int>`, floats are `real`, and Jaccard values are only compared with the threshold.
- In `get_duplicates_of`, each `defaultdict` lookup inserts an empty bucket for a signature it does not find. The model's lookups are pure. No query result depends on empty buckets, because `get_all_duplicates` skips buckets with fewer than two ids.
- LshCache.Configure: a negative band count is refused with `NegativeBands`. In Python, floor modulo can accept it and build a cache with no bands, whose first `update` then fails inside `array_split`. The model does not reproduce that.
- LshCache.Configure: the constructor's `assert` disappears under `python -O`. The model always checks it.
- Queries.GetAllDuplicates: with a threshold, completeness is stated only for pairs whose Jaccard estimate passes in both orientations. The candidate orientation is chosen by set iteration order, and the estimate is not assumed symmetric.
- Scenario.Example: the expected result `{(1, 2)}` is stated as "(1, 2) or (2, 1), possibly both". The model does not fix CPython's set iteration order.
- Thread safety and concurrent use are not modelled: the class has no locking, and the model is sequential.
