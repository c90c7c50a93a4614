/**
 A worked example: ten seeds in five bands of two; documents "a" and "b"
 agree on every band's signature, "c" shares none with them, and any other
 document shares none with any of the three.
 */
module Scenario {
  import opened Wrappers
  import opened Banding
  import opened LshCache
  import opened Queries

  const FingerprintA: Fingerprint := [1, 2, 3, 4, 5, 6, 7, 8, 9, 10]
  const FingerprintB: Fingerprint := [1, 2, 3, 4, 5, 6, 7, 8, 9, 11]
  const FingerprintC: Fingerprint := [21, 22, 23, 24, 25, 26, 27, 28, 29, 30]
  const FingerprintD: Fingerprint := [41, 42, 43, 44, 45, 46, 47, 48, 49, 50]

  function ExampleFingerprint(doc: string): Fingerprint
  {
    if doc == "a" then FingerprintA else if doc == "b" then FingerprintB else if doc == "c" then FingerprintC else FingerprintD
  }

  /** A stand-in estimate: 1 for equal fingerprints, 0.9 when the first nine values agree, else 0. */
  function ExampleJaccard(x: Fingerprint, y: Fingerprint): real
  {
    if x == y then 1.0 else if |x| >= 9 && |y| >= 9 && x[..9] == y[..9] then 0.9 else 0.0
  }

  /** A (non-injective) band signature: the band's first value. */
  function FirstValue(band: seq<int>): int
  {
    if band == [] then 0 else band[0]
  }

  lemma TenInFive(fp: Fingerprint)
    requires |fp| == 10
    ensures forall i :: 0 <= i < 5 ==> Bands(fp, 5)[i] == fp[2 * i..2 * i + 2]
  {
    forall i | 0 <= i < 5
      ensures Bands(fp, 5)[i] == fp[2 * i..2 * i + 2]
    {
      OffsetClosedForm(2, 0, i);
      OffsetClosedForm(2, 0, i + 1);
    }
  }

  const ExampleHasher: Hasher<string> := Hasher(10, ExampleFingerprint, ExampleJaccard)

  /** The example's configuration: the example hasher, five bands, first-value signatures. */
  ghost predicate ExampleConfig(c: Cache<string, int>)
  {
    Valid(c) && c.numBands == 5 && c.sig == FirstValue && c.hasher == ExampleHasher
  }

  /** Bucket `2i+1` of band `i` holds `low`, bucket `2i+21` holds `high`, every other bucket is empty. */
  ghost predicate Filed(c: Cache<string, int>, low: set<DocId<int>>, high: set<DocId<int>>)
    requires ExampleConfig(c)
  {
    forall i, s :: 0 <= i < 5 ==>
      Members(c.bins[i], s) == (if s == 2 * i + 1 then low else if s == 2 * i + 21 then high else {})
  }

  /** Band `i` of a ten-value fingerprint is filed under its value at `2 * i`. */
  lemma ExampleKey(c: Cache<string, int>, fp: Fingerprint, i: nat)
    requires c.numBands == 5 && c.sig == FirstValue && |fp| == 10 && i < 5
    ensures BucketKey(c, fp, i) == fp[2 * i]
  {
    TenInFive(fp);
  }

  lemma Configured()
    ensures Configure<string, int>(ExampleHasher, FirstValue, 5).Success?
    ensures var c := Configure<string, int>(ExampleHasher, FirstValue, 5).value;
      ExampleConfig(c) && Filed(c, {}, {}) && c.fingerprints == map[]
  {
  }

  lemma RegisterA(c: Cache<string, int>)
    requires ExampleConfig(c) && Filed(c, {}, {}) && c.fingerprints == map[]
    ensures var d := Update(c, "a", Some(1));
      ExampleConfig(d) && Filed(d, {Some(1)}, {}) && d.fingerprints == map[Some(1) := FingerprintA]
  {
    var d := Update(c, "a", Some(1));
    forall i | 0 <= i < 5 ensures BucketKey(c, FingerprintA, i) == 2 * i + 1 {
      ExampleKey(c, FingerprintA, i);
    }
    assert d.fingerprints.Keys == {Some(1)};
  }

  lemma RegisterB(c: Cache<string, int>)
    requires ExampleConfig(c) && Filed(c, {Some(1)}, {}) && c.fingerprints == map[Some(1) := FingerprintA]
    ensures var d := Update(c, "b", Some(2));
      ExampleConfig(d) && Filed(d, {Some(1), Some(2)}, {})
      && d.fingerprints == map[Some(1) := FingerprintA, Some(2) := FingerprintB]
  {
    var d := Update(c, "b", Some(2));
    forall i | 0 <= i < 5 ensures BucketKey(c, FingerprintB, i) == 2 * i + 1 {
      ExampleKey(c, FingerprintB, i);
    }
    assert d.fingerprints.Keys == {Some(1), Some(2)};
    assert Some(1) in d.fingerprints - {Some(2)};
  }

  lemma RegisterC(c: Cache<string, int>)
    requires ExampleConfig(c) && Filed(c, {Some(1), Some(2)}, {})
    requires c.fingerprints == map[Some(1) := FingerprintA, Some(2) := FingerprintB]
    ensures var d := Update(c, "c", Some(3));
      ExampleConfig(d) && Filed(d, {Some(1), Some(2)}, {Some(3)})
      && d.fingerprints == map[Some(1) := FingerprintA, Some(2) := FingerprintB, Some(3) := FingerprintC]
  {
    var d := Update(c, "c", Some(3));
    forall i | 0 <= i < 5 ensures BucketKey(c, FingerprintC, i) == 2 * i + 21 {
      ExampleKey(c, FingerprintC, i);
    }
    assert d.fingerprints.Keys == {Some(1), Some(2), Some(3)};
    assert Some(1) in d.fingerprints - {Some(3)} && Some(2) in d.fingerprints - {Some(3)};
  }

  /** Only ids 1 and 2 share a bucket. */
  lemma OnlyOnePair(c: Cache<string, int>, a: DocId<int>, b: DocId<int>)
    requires ExampleConfig(c) && Filed(c, {Some(1), Some(2)}, {Some(3)})
    requires a != b && CoLocated(c.bins, a, b)
    ensures (a, b) in {(Some(1), Some(2)), (Some(2), Some(1))}
  {
    var i, s :| 0 <= i < |c.bins| && s in c.bins[i] && a in c.bins[i][s] && b in c.bins[i][s];
    assert Members(c.bins[i], s) == c.bins[i][s];
  }

  /** The band mates of "a"'s fingerprint are ids 1 and 2. */
  lemma MatesOfA(c: Cache<string, int>, x: DocId<int>)
    requires ExampleConfig(c) && Filed(c, {Some(1), Some(2)}, {Some(3)})
    ensures BandMate(c, FingerprintA, x) <==> x in {Some(1), Some(2)}
  {
    if BandMate(c, FingerprintA, x) {
      var i :| 0 <= i < 5 && x in Members(c.bins[i], BucketKey(c, FingerprintA, i));
      ExampleKey(c, FingerprintA, i);
    } else {
      ExampleKey(c, FingerprintA, 0);
    }
  }

  /** No band of an unrelated document is filed anywhere. */
  lemma NoMatesOfD(c: Cache<string, int>, x: DocId<int>)
    requires ExampleConfig(c) && Filed(c, {Some(1), Some(2)}, {Some(3)})
    ensures !BandMate(c, FingerprintD, x)
  {
    if BandMate(c, FingerprintD, x) {
      var i :| 0 <= i < 5 && x in Members(c.bins[i], BucketKey(c, FingerprintD, i));
      ExampleKey(c, FingerprintD, i);
    }
  }

  /** Builds the example cache: "a" registered as 1, "b" as 2 and "c" as 3. */
  method ExampleCache() returns (c: Cache<string, int>)
    ensures ExampleConfig(c) && Filed(c, {Some(1), Some(2)}, {Some(3)})
    ensures c.fingerprints == map[Some(1) := FingerprintA, Some(2) := FingerprintB, Some(3) := FingerprintC]
  {
    Configured();
    c := Configure<string, int>(ExampleHasher, FirstValue, 5).value;
    RegisterA(c);
    c := Update(c, "a", Some(1));
    RegisterB(c);
    c := Update(c, "b", Some(2));
    RegisterC(c);
    c := Update(c, "c", Some(3));
  }

  /**
   Queries the example cache: the duplicates of id 1, all duplicate pairs,
   and all pairs above a Jaccard of 0.8.
   */
  method Example() returns (dupsOf1: set<DocId<int>>, all: set<Pair<int>>, similar: set<Pair<int>>)
    ensures dupsOf1 == {Some(1), Some(2)}
    ensures all <= {(Some(1), Some(2)), (Some(2), Some(1))} && ((Some(1), Some(2)) in all || (Some(2), Some(1)) in all)
    ensures similar <= {(Some(1), Some(2)), (Some(2), Some(1))} && ((Some(1), Some(2)) in similar || (Some(2), Some(1)) in similar)
  {
    var c := ExampleCache();

    var q := GetDuplicatesOf(c, None, Some(1), None);
    dupsOf1 := q.value;
    forall x ensures x in dupsOf1 <==> x in {Some(1), Some(2)} {
      MatesOfA(c, x);
    }

    assert CoLocated(c.bins, Some(1), Some(2)) by {
      assert Members(c.bins[0], 1) == {Some(1), Some(2)};
      assert 1 in c.bins[0] && c.bins[0][1] == {Some(1), Some(2)};
    }
    var pairsOrError := GetAllDuplicates(c, None);
    all := pairsOrError.value;
    forall p | p in all ensures p in {(Some(1), Some(2)), (Some(2), Some(1))} {
      OnlyOnePair(c, p.0, p.1);
    }

    assert Similar(c, Some(1), Some(2), 0.8) && Similar(c, Some(2), Some(1), 0.8);
    var kept := GetAllDuplicates(c, Some(0.8));
    similar := kept.value;
    forall p | p in similar ensures p in {(Some(1), Some(2)), (Some(2), Some(1))} {
      OnlyOnePair(c, p.0, p.1);
    }
  }

  /**
   On the example cache: whether the unrelated document "d" is a duplicate,
   then all pairs and id 1's stored fingerprint after a `clear`.
   */
  method ExampleUnrelatedAndClear() returns (unrelated: Result<bool, Error>, afterClear: Result<set<Pair<int>>, Error>, kept1: Fingerprint)
    ensures unrelated == Success(false)
    ensures afterClear == Success({}) && kept1 == FingerprintA
  {
    var c := ExampleCache();
    unrelated := IsDuplicate(c, Some("d"), None);
    forall x ensures !BandMate(c, FingerprintD, x) {
      NoMatesOfD(c, x);
    }

    var cleared := Clear(c);
    afterClear := GetAllDuplicates(cleared, None);
    forall p | p in afterClear.value
      ensures false
    {
      ClearForgetsBuckets(c, FingerprintA, p.0, p.1);
    }
    assert afterClear.value == {};
    kept1 := cleared.fingerprints[Some(1)];
  }
}
