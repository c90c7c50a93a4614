/**
 The state of an LSH cache (`Cache` in lsh/cache.py) and its transitions:
 construction, registration of a document (`update`) and `clear`.

 The MinHash hasher and Python's tuple hash are outside the model: they are
 function-valued fields of the state, about which nothing is assumed (in
 particular the band signature `sig` is not assumed injective).
 */
module LshCache {
  import opened Wrappers
  import opened Banding

  /** A MinHash fingerprint: the ordered values of the hasher's seeds. */
  type Fingerprint = seq<int>

  /** A document id as callers pass it; `None` is Python's `None`, which `update` files like any other key. */
  type DocId<Id> = Option<Id>

  /** One band's buckets: band signature to the ids filed under it. */
  type Bucket<Id(==)> = map<int, set<DocId<Id>>>

  /** The MinHash hasher, seen from the cache: its seed count, fingerprinting and Jaccard estimate. */
  datatype Hasher<!Doc> = Hasher(
    numSeeds: nat,
    fingerprint: Doc -> Fingerprint,
    jaccard: (Fingerprint, Fingerprint) -> real)

  /** The exceptions the cache's operations raise. */
  datatype Error =
    | ZeroBands        // `num_seeds % 0`: ZeroDivisionError at construction
    | NegativeBands    // a negative band count (refused by the model, see README)
    | NotDivisible     // the constructor's divisibility assertion
    | MissingDocument  // ValueError: neither a document nor a known id
    | UnknownId        // KeyError: a candidate id has no stored fingerprint

  datatype Cache<!Doc, Id(==)> = Cache(
    hasher: Hasher<Doc>,
    sig: Fingerprint -> int,
    numBands: nat,
    bandWidth: nat,
    bins: seq<Bucket<Id>>,
    fingerprints: map<DocId<Id>, Fingerprint>)

  /** The ids in bucket `s` of a band; a missing bucket reads as empty, as with `defaultdict(set)`. */
  function Members<Id(==)>(b: Bucket<Id>, s: int): set<DocId<Id>>
  {
    if s in b then b[s] else {}
  }

  /** Adds `x` to bucket `s` of a band. */
  function AddMember<Id(==)>(b: Bucket<Id>, s: int, x: DocId<Id>): Bucket<Id>
  {
    b[s := Members(b, s) + {x}]
  }

  /** The shape every constructed cache has: one bucket map per band. */
  predicate WellFormed<Doc, Id(==)>(c: Cache<Doc, Id>)
  {
    0 < c.numBands && |c.bins| == c.numBands
  }

  /** The signature under which band `i` of `fp` is filed. */
  function BucketKey<Doc, Id(==)>(c: Cache<Doc, Id>, fp: Fingerprint, i: nat): int
    requires 0 < c.numBands && i < c.numBands
  {
    c.sig(Bands(fp, c.numBands)[i])
  }

  /** Every id filed in some bucket has a stored fingerprint. */
  ghost predicate BucketedAreStored<Doc, Id>(c: Cache<Doc, Id>)
  {
    forall i, s, x :: 0 <= i < |c.bins| && s in c.bins[i] && x in c.bins[i][s] ==> x in c.fingerprints
  }

  /** The invariant of every cache built by construction, `update` and `clear`. */
  ghost predicate Valid<Doc, Id>(c: Cache<Doc, Id>)
  {
    && WellFormed(c)
    && c.hasher.numSeeds == c.numBands * c.bandWidth
    && BucketedAreStored(c)
  }

  /** The configuration fields, which no operation after construction changes. */
  ghost predicate SameConfig<Doc, Id>(c: Cache<Doc, Id>, d: Cache<Doc, Id>)
  {
    && d.hasher == c.hasher
    && d.sig == c.sig
    && d.numBands == c.numBands
    && d.bandWidth == c.bandWidth
  }

  /** Id `x` is stored, and filed under every band of its stored fingerprint. */
  ghost predicate Indexed<Doc, Id>(c: Cache<Doc, Id>, x: DocId<Id>)
    requires WellFormed(c)
  {
    && x in c.fingerprints
    && forall i :: 0 <= i < c.numBands ==> x in Members(c.bins[i], BucketKey(c, c.fingerprints[x], i))
  }

  /** A non-null id with a stored fingerprint: the test behind the duplicate-id warning of `update` and the stored-fingerprint branches of the queries. */
  predicate IsKnown<Doc, Id(==)>(c: Cache<Doc, Id>, docId: DocId<Id>)
  {
    docId.Some? && docId in c.fingerprints
  }

  /**
   Builds an empty cache: `num_bands` empty bucket maps and no fingerprints,
   provided the hasher's seed count divides evenly into bands.
   */
  function Configure<Doc, Id(==)>(hasher: Hasher<Doc>, sig: Fingerprint -> int, numBands: int): (r: Result<Cache<Doc, Id>, Error>)
    ensures r.Success? <==> 0 < numBands && hasher.numSeeds % numBands == 0
    ensures numBands == 0 ==> r.Failure? && r.error == ZeroBands
    ensures numBands < 0 ==> r.Failure? && r.error == NegativeBands
    ensures 0 < numBands && hasher.numSeeds % numBands != 0 ==> r.Failure? && r.error == NotDivisible
    ensures r.Success? ==>
      && Valid(r.value)
      && r.value.hasher == hasher && r.value.sig == sig && r.value.numBands == numBands
      && r.value.bandWidth * numBands == hasher.numSeeds
      && (forall i :: 0 <= i < numBands ==> r.value.bins[i] == map[])
      && r.value.fingerprints == map[]
  {
    if numBands == 0 then Failure(ZeroBands)
    else if numBands < 0 then Failure(NegativeBands)
    else if hasher.numSeeds % numBands != 0 then Failure(NotDivisible)
    else Success(Cache(hasher, sig, numBands, hasher.numSeeds / numBands, seq(numBands, _ => map[]), map[]))
  }

  /**
   Registers document `doc` under `docId`: its fingerprint is stored (last
   write wins) and the id is added to one bucket per band. Nothing is ever
   removed, so a stale fingerprint's buckets keep the id.
   */
  function Update<Doc, Id(==)>(c: Cache<Doc, Id>, doc: Doc, docId: DocId<Id>): (r: Cache<Doc, Id>)
    requires WellFormed(c)
    ensures WellFormed(r) && SameConfig(c, r)
    ensures docId in r.fingerprints && r.fingerprints[docId] == c.hasher.fingerprint(doc)
    ensures r.fingerprints - {docId} == c.fingerprints - {docId}
    ensures forall i, s :: 0 <= i < c.numBands ==>
      Members(r.bins[i], s) == Members(c.bins[i], s) + (if s == BucketKey(c, c.hasher.fingerprint(doc), i) then {docId} else {})
    ensures forall i :: 0 <= i < c.numBands ==> r.bins[i].Keys == c.bins[i].Keys + {BucketKey(c, c.hasher.fingerprint(doc), i)}
    ensures Indexed(r, docId)
    ensures docId.Some? ==> IsKnown(r, docId)
    ensures Valid(c) ==> Valid(r)
  {
    var fp := c.hasher.fingerprint(doc);
    c.(fingerprints := c.fingerprints[docId := fp],
       bins := seq(c.numBands, i requires 0 <= i < c.numBands => AddMember(c.bins[i], BucketKey(c, fp, i), docId)))
  }

  /** Empties every band's buckets; the stored fingerprints are left as they are. */
  function Clear<Doc, Id(==)>(c: Cache<Doc, Id>): (r: Cache<Doc, Id>)
    ensures SameConfig(c, r) && r.fingerprints == c.fingerprints
    ensures |r.bins| == c.numBands && forall i :: 0 <= i < |r.bins| ==> r.bins[i] == map[]
    ensures forall x, i, s :: 0 <= i < |r.bins| ==> x !in Members(r.bins[i], s)
    ensures Valid(c) ==> Valid(r)
  {
    c.(bins := seq(c.numBands, _ => map[]))
  }

  /** Registering a document leaves every other indexed id indexed. */
  lemma UpdateKeepsIndexed<Doc, Id>(c: Cache<Doc, Id>, doc: Doc, docId: DocId<Id>, x: DocId<Id>)
    requires WellFormed(c) && Indexed(c, x) && x != docId
    ensures Indexed(Update(c, doc, docId), x)
  {
    var r := Update(c, doc, docId);
    assert r.fingerprints[x] == c.fingerprints[x] by {
      assert x in c.fingerprints - {docId};
    }
  }

  lemma AddMemberPresent<Id>(b: Bucket<Id>, s: int, x: DocId<Id>)
    requires x in Members(b, s)
    ensures AddMember(b, s, x) == b
  {
    assert Members(b, s) + {x} == b[s];
  }

  /** Registering the same document under the same id twice changes nothing the second time. */
  lemma UpdateIdempotent<Doc, Id>(c: Cache<Doc, Id>, doc: Doc, docId: DocId<Id>)
    requires WellFormed(c)
    ensures Update(Update(c, doc, docId), doc, docId).bins == Update(c, doc, docId).bins
    ensures Update(Update(c, doc, docId), doc, docId).fingerprints == Update(c, doc, docId).fingerprints
  {
    var once := Update(c, doc, docId);
    var twice := Update(once, doc, docId);
    var fp := c.hasher.fingerprint(doc);
    forall i | 0 <= i < c.numBands
      ensures twice.bins[i] == once.bins[i]
    {
      assert BucketKey(once, fp, i) == BucketKey(c, fp, i);
      AddMemberPresent(once.bins[i], BucketKey(c, fp, i), docId);
    }
  }

  /** In a valid cache a fingerprint of the hasher's length is cut into bands of exactly `band_width` values. */
  lemma ValidBandWidth<Doc, Id>(c: Cache<Doc, Id>, fp: Fingerprint)
    requires Valid(c) && |fp| == c.hasher.numSeeds
    ensures forall i :: 0 <= i < c.numBands ==> |Bands(fp, c.numBands)[i]| == c.bandWidth
  {
    BandsEqualWidth(fp, c.numBands, c.bandWidth);
  }
}
