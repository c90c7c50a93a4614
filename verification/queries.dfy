/**
 The duplicate queries of the LSH cache: `get_all_duplicates`,
 `filter_candidates`, `get_duplicates_of` and `is_duplicate`.

 Python iterates sets and dicts in an order the model does not fix; the loops
 below pick the next element with `:|`, so every contract holds whatever that
 order is.
 */
module Queries {
  import opened Wrappers
  import opened Banding
  import opened LshCache

  /** A candidate duplicate pair, oriented as it was produced. */
  type Pair<Id> = (DocId<Id>, DocId<Id>)

  /** `a` and `b` are filed in the same bucket of some band. */
  ghost predicate CoLocated<Id>(bins: seq<Bucket<Id>>, a: DocId<Id>, b: DocId<Id>)
  {
    exists i, s :: 0 <= i < |bins| && s in bins[i] && a in bins[i][s] && b in bins[i][s]
  }

  /** Every pair is two distinct ids sharing a bucket. */
  ghost predicate PairsSound<Id>(bins: seq<Bucket<Id>>, pairs: set<Pair<Id>>)
  {
    forall p :: p in pairs ==> p.0 != p.1 && CoLocated(bins, p.0, p.1)
  }

  /** `x` is filed under the signature of some band of `fp`. */
  ghost predicate BandMate<Doc, Id>(c: Cache<Doc, Id>, fp: Fingerprint, x: DocId<Id>)
    requires WellFormed(c)
  {
    exists i :: 0 <= i < c.numBands && x in Members(c.bins[i], BucketKey(c, fp, i))
  }

  /** Both ids are stored and the Jaccard estimate of their fingerprints exceeds `t`. */
  ghost predicate Similar<Doc, Id>(c: Cache<Doc, Id>, a: DocId<Id>, b: DocId<Id>, t: real)
  {
    a in c.fingerprints && b in c.fingerprints && c.hasher.jaccard(c.fingerprints[a], c.fingerprints[b]) > t
  }

  /** Some element of a non-empty set: the next one an iteration visits. */
  method Pick<T>(s: set<T>) returns (x: T)
    requires s != {}
    ensures x in s
  {
    x :| x in s;
  }

  lemma TwoMembers<T>(s: set<T>, a: T, b: T)
    requires a in s && b in s && a != b
    ensures |s| > 1
  {
    assert s == (s - {a}) + {a};
    assert b in s - {a};
  }

  /**
   The 2-combinations of a bucket, as `itertools.combinations(bucket, r=2)`
   yields them: every unordered pair of distinct members exactly once, in the
   orientation the iteration order of the set gives it.
   */
  method Combinations<T(==)>(s: set<T>) returns (pairs: set<(T, T)>)
    ensures forall p :: p in pairs ==> p.0 in s && p.1 in s && p.0 != p.1
    ensures forall a, b :: a in s && b in s && a != b ==> ((a, b) in pairs <==> (b, a) !in pairs)
  {
    pairs := {};
    var rest := s;
    while rest != {}
      invariant rest <= s
      invariant forall p :: p in pairs ==> p.0 in s - rest && p.1 in s && p.0 != p.1
      invariant forall a, b :: a in s - rest && b in rest ==> (a, b) in pairs
      invariant forall a, b :: a in s - rest && b in s - rest && a != b ==> ((a, b) in pairs <==> (b, a) !in pairs)
      decreases rest
    {
      var x :| x in rest;
      pairs := pairs + set y | y in rest - {x} :: (x, y);
      rest := rest - {x};
    }
  }

  /** The pairs one band contributes: the 2-combinations of each of its buckets holding more than one id. */
  method BandPairs<Id(==)>(band: Bucket<Id>) returns (pairs: set<Pair<Id>>)
    ensures forall p :: p in pairs ==> p.0 != p.1 && exists s :: s in band && p.0 in band[s] && p.1 in band[s]
    ensures forall s, a, b :: s in band && a in band[s] && b in band[s] && a != b ==> (a, b) in pairs || (b, a) in pairs
  {
    pairs := {};
    var keys := band.Keys;
    while keys != {}
      invariant keys <= band.Keys
      invariant forall p :: p in pairs ==> p.0 != p.1 && exists s :: s in band && p.0 in band[s] && p.1 in band[s]
      invariant forall s, a, b :: s in band.Keys - keys && a in band[s] && b in band[s] && a != b ==>
        (a, b) in pairs || (b, a) in pairs
      decreases keys
    {
      var s := Pick(keys);
      if |band[s]| > 1 {
        var combos := Combinations(band[s]);
        pairs := pairs + combos;
      } else {
        forall a, b | a in band[s] && b in band[s] && a != b
          ensures false
        {
          TwoMembers(band[s], a, b);
        }
      }
      keys := keys - {s};
    }
  }

  /**
   The candidate pairs of `get_all_duplicates`: for every band and every
   bucket with more than one id, all its 2-combinations, collected in a set.
   */
  method CandidatePairs<Doc, Id(==)>(c: Cache<Doc, Id>) returns (pairs: set<Pair<Id>>)
    ensures PairsSound(c.bins, pairs)
    ensures forall a, b :: a != b && CoLocated(c.bins, a, b) ==> (a, b) in pairs || (b, a) in pairs
  {
    pairs := {};
    var i := 0;
    while i < |c.bins|
      invariant 0 <= i <= |c.bins|
      invariant PairsSound(c.bins, pairs)
      invariant forall j, s, a, b :: 0 <= j < i && s in c.bins[j] && a in c.bins[j][s] && b in c.bins[j][s] && a != b ==>
        (a, b) in pairs || (b, a) in pairs
    {
      var more := BandPairs(c.bins[i]);
      forall p | p in more
        ensures CoLocated(c.bins, p.0, p.1)
      {
        var s :| s in c.bins[i] && p.0 in c.bins[i][s] && p.1 in c.bins[i][s];
      }
      pairs := pairs + more;
      i := i + 1;
    }
    forall a, b | a != b && CoLocated(c.bins, a, b)
      ensures (a, b) in pairs || (b, a) in pairs
    {
      var j, s :| 0 <= j < |c.bins| && s in c.bins[j] && a in c.bins[j][s] && b in c.bins[j][s];
    }
  }

  /**
   `filter_candidates`: keeps the pairs whose stored fingerprints have a
   Jaccard estimate above the threshold; a pair naming an id with no stored
   fingerprint raises.
   */
  method FilterCandidates<Doc, Id(==)>(c: Cache<Doc, Id>, candidates: set<Pair<Id>>, minJaccard: real)
    returns (r: Result<set<Pair<Id>>, Error>)
    ensures r.Success? <==> forall p :: p in candidates ==> p.0 in c.fingerprints && p.1 in c.fingerprints
    ensures r.Failure? ==> r.error == UnknownId
    ensures r.Success? ==> forall p :: p in r.value <==> p in candidates && Similar(c, p.0, p.1, minJaccard)
  {
    var kept := {};
    var rest := candidates;
    while rest != {}
      invariant rest <= candidates
      invariant forall p :: p in candidates - rest ==> p.0 in c.fingerprints && p.1 in c.fingerprints
      invariant forall p :: p in kept <==> p in candidates - rest && Similar(c, p.0, p.1, minJaccard)
      decreases rest
    {
      var p :| p in rest;
      if p.0 !in c.fingerprints || p.1 !in c.fingerprints {
        return Failure(UnknownId);
      }
      if c.hasher.jaccard(c.fingerprints[p.0], c.fingerprints[p.1]) > minJaccard {
        kept := kept + {p};
      }
      rest := rest - {p};
    }
    return Success(kept);
  }

  /** Ids that share a bucket are stored, in a cache where every bucketed id is. */
  lemma CoLocatedStored<Doc, Id>(c: Cache<Doc, Id>, a: DocId<Id>, b: DocId<Id>)
    requires BucketedAreStored(c) && CoLocated(c.bins, a, b)
    ensures a in c.fingerprints && b in c.fingerprints
  {
    var i, s :| 0 <= i < |c.bins| && s in c.bins[i] && a in c.bins[i][s] && b in c.bins[i][s];
  }

  /**
   `get_all_duplicates`: the distinct pairs sharing a bucket in some band,
   each in at least one orientation, optionally narrowed by the Jaccard filter.
   */
  method GetAllDuplicates<Doc, Id(==)>(c: Cache<Doc, Id>, minJaccard: Option<real>)
    returns (r: Result<set<Pair<Id>>, Error>)
    ensures minJaccard.None? || BucketedAreStored(c) ==> r.Success?
    ensures r.Failure? ==> r.error == UnknownId
    ensures r.Success? ==> PairsSound(c.bins, r.value)
    ensures r.Success? && minJaccard.None? ==>
      forall a, b :: a != b && CoLocated(c.bins, a, b) ==> (a, b) in r.value || (b, a) in r.value
    ensures r.Success? && minJaccard.Some? ==>
      forall p :: p in r.value ==> Similar(c, p.0, p.1, minJaccard.value)
    ensures r.Success? && minJaccard.Some? ==>
      forall a, b :: a != b && CoLocated(c.bins, a, b) && Similar(c, a, b, minJaccard.value) && Similar(c, b, a, minJaccard.value) ==>
        (a, b) in r.value || (b, a) in r.value
  {
    var candidates := CandidatePairs(c);
    if minJaccard.None? {
      return Success(candidates);
    }
    if BucketedAreStored(c) {
      forall p | p in candidates
        ensures p.0 in c.fingerprints && p.1 in c.fingerprints
      {
        CoLocatedStored(c, p.0, p.1);
      }
    }
    r := FilterCandidates(c, candidates, minJaccard.value);
  }

  /** The fingerprint a duplicate query runs on: the stored one for a known id, else the document's own. */
  function ResolveFingerprint<Doc, Id(==)>(c: Cache<Doc, Id>, doc: Option<Doc>, docId: DocId<Id>): Result<Fingerprint, Error>
  {
    if IsKnown(c, docId) then Success(c.fingerprints[docId])
    else if doc.Some? then Success(c.hasher.fingerprint(doc.value))
    else Failure(MissingDocument)
  }

  /** The union, over the bands of `fp`, of the bucket each band is filed under. */
  method BandMates<Doc, Id(==)>(c: Cache<Doc, Id>, fp: Fingerprint) returns (mates: set<DocId<Id>>)
    requires WellFormed(c)
    ensures forall x :: x in mates <==> BandMate(c, fp, x)
  {
    var bands := Bands(fp, c.numBands);
    mates := {};
    var i := 0;
    while i < c.numBands
      invariant 0 <= i <= c.numBands
      invariant forall x :: x in mates <==> exists j :: 0 <= j < i && x in Members(c.bins[j], BucketKey(c, fp, j))
    {
      mates := mates + Members(c.bins[i], c.sig(bands[i]));
      i := i + 1;
    }
  }

  /** Keeps the candidates whose stored fingerprint's Jaccard estimate against `fp` exceeds `t`; an unknown candidate raises. */
  method KeepSimilar<Doc, Id(==)>(c: Cache<Doc, Id>, fp: Fingerprint, candidates: set<DocId<Id>>, t: real)
    returns (r: Result<set<DocId<Id>>, Error>)
    ensures r.Success? <==> candidates <= c.fingerprints.Keys
    ensures r.Failure? ==> r.error == UnknownId
    ensures r.Success? ==> forall x :: x in r.value <==> x in candidates && c.hasher.jaccard(fp, c.fingerprints[x]) > t
  {
    var kept := {};
    var rest := candidates;
    while rest != {}
      invariant rest <= candidates
      invariant candidates - rest <= c.fingerprints.Keys
      invariant forall x :: x in kept <==> x in candidates - rest && c.hasher.jaccard(fp, c.fingerprints[x]) > t
      decreases rest
    {
      var x :| x in rest;
      if x !in c.fingerprints {
        return Failure(UnknownId);
      }
      if c.hasher.jaccard(fp, c.fingerprints[x]) > t {
        kept := kept + {x};
      }
      rest := rest - {x};
    }
    return Success(kept);
  }

  /**
   `get_duplicates_of`: the ids filed under some band of the query's
   fingerprint (the stored one for a known id, else the document's),
   optionally narrowed to those whose Jaccard estimate exceeds the threshold.
   */
  method GetDuplicatesOf<Doc, Id(==)>(c: Cache<Doc, Id>, doc: Option<Doc>, docId: DocId<Id>, minJaccard: Option<real>)
    returns (r: Result<set<DocId<Id>>, Error>)
    requires WellFormed(c)
    ensures !IsKnown(c, docId) && doc.None? ==> r == Failure(MissingDocument)
    ensures r.Failure? ==> r.error == MissingDocument || (r.error == UnknownId && minJaccard.Some?)
    ensures (IsKnown(c, docId) || doc.Some?) && BucketedAreStored(c) ==> r.Success?
    ensures ResolveFingerprint(c, doc, docId).Success? && minJaccard.None? ==>
      var fp := ResolveFingerprint(c, doc, docId).value;
      r.Success? && forall x :: x in r.value <==> BandMate(c, fp, x)
    ensures ResolveFingerprint(c, doc, docId).Success? && minJaccard.Some? ==>
      var fp := ResolveFingerprint(c, doc, docId).value;
      (r.Success? <==> forall x :: BandMate(c, fp, x) ==> x in c.fingerprints)
    ensures ResolveFingerprint(c, doc, docId).Success? && minJaccard.Some? && r.Success? ==>
      var fp := ResolveFingerprint(c, doc, docId).value;
      forall x :: x in r.value <==> BandMate(c, fp, x) && c.hasher.jaccard(fp, c.fingerprints[x]) > minJaccard.value
  {
    var fp :- ResolveFingerprint(c, doc, docId);
    var candidates := BandMates(c, fp);
    if minJaccard.None? {
      return Success(candidates);
    }
    if BucketedAreStored(c) {
      forall x | x in candidates
        ensures x in c.fingerprints
      {
        var i :| 0 <= i < c.numBands && x in Members(c.bins[i], BucketKey(c, fp, i));
        assert BucketKey(c, fp, i) in c.bins[i];
      }
    }
    r := KeepSimilar(c, fp, candidates, minJaccard.value);
  }

  /**
   `is_duplicate`: false for an id that is already known; otherwise whether
   some id other than `docId` shares a bucket with a band of the document.
   */
  method IsDuplicate<Doc, Id(==)>(c: Cache<Doc, Id>, doc: Option<Doc>, docId: DocId<Id>) returns (r: Result<bool, Error>)
    requires WellFormed(c)
    ensures IsKnown(c, docId) ==> r == Success(false)
    ensures !IsKnown(c, docId) && doc.None? ==> r == Failure(MissingDocument)
    ensures !IsKnown(c, docId) && doc.Some? ==>
      r.Success? && (r.value <==> exists x :: x != docId && BandMate(c, c.hasher.fingerprint(doc.value), x))
  {
    if IsKnown(c, docId) {
      return Success(false);
    }
    var dups :- GetDuplicatesOf(c, doc, None, None);
    var others := dups - {docId};
    if others != {} {
      var x :| x in others;
    }
    return Success(|others| > 0);
  }

  /** An indexed id is among the band mates of its own stored fingerprint, so a query by its id returns it. */
  lemma IndexedFindsItself<Doc, Id>(c: Cache<Doc, Id>, x: DocId<Id>)
    requires WellFormed(c) && Indexed(c, x)
    ensures BandMate(c, c.fingerprints[x], x)
  {
    assert x in Members(c.bins[0], BucketKey(c, c.fingerprints[x], 0));
  }

  /**
   Banding correctness: two indexed ids whose fingerprints agree on band `i`
   are each a band mate of the other's fingerprint, and share a bucket.
   */
  lemma SharedBandFound<Doc, Id>(c: Cache<Doc, Id>, a: DocId<Id>, b: DocId<Id>, i: nat)
    requires WellFormed(c) && Indexed(c, a) && Indexed(c, b) && i < c.numBands
    requires Bands(c.fingerprints[a], c.numBands)[i] == Bands(c.fingerprints[b], c.numBands)[i]
    ensures BandMate(c, c.fingerprints[a], b) && BandMate(c, c.fingerprints[b], a)
    ensures CoLocated(c.bins, a, b)
  {
    var s := BucketKey(c, c.fingerprints[a], i);
    assert s == BucketKey(c, c.fingerprints[b], i);
    assert a in Members(c.bins[i], s) && b in Members(c.bins[i], s);
    assert s in c.bins[i] && a in c.bins[i][s] && b in c.bins[i][s];
  }

  /** After `clear` no two ids share a bucket and no fingerprint has band mates. */
  lemma ClearForgetsBuckets<Doc, Id>(c: Cache<Doc, Id>, fp: Fingerprint, a: DocId<Id>, b: DocId<Id>)
    requires WellFormed(c)
    ensures !CoLocated(Clear(c).bins, a, b)
    ensures !BandMate(Clear(c), fp, a)
  {
  }
}
