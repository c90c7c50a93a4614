/**
 Sequences of operations on a cache: registrations and clears, replayed in
 order. States reached this way are the caches the source can hold.
 */
module History {
  import opened Wrappers
  import opened Banding
  import opened LshCache
  import opened Queries

  /** A state-changing call on the cache: `update(doc, doc_id)` or `clear()`. */
  datatype Op<Doc, Id> = Register(doc: Doc, docId: DocId<Id>) | ClearAll

  function Apply<Doc, Id(==)>(c: Cache<Doc, Id>, op: Op<Doc, Id>): (r: Cache<Doc, Id>)
    requires WellFormed(c)
  {
    match op
    case Register(doc, docId) => Update(c, doc, docId)
    case ClearAll => Clear(c)
  }

  /** The cache after performing `ops` in order, starting from `c`. */
  function Replay<Doc, Id(==)>(c: Cache<Doc, Id>, ops: seq<Op<Doc, Id>>): (r: Cache<Doc, Id>)
    requires WellFormed(c)
    ensures WellFormed(r) && SameConfig(c, r)
    decreases |ops|
  {
    if ops == [] then c else Apply(Replay(c, ops[..|ops| - 1]), ops[|ops| - 1])
  }

  /** `ops` contains no `clear`. */
  ghost predicate NoClear<Doc, Id>(ops: seq<Op<Doc, Id>>)
  {
    forall j :: 0 <= j < |ops| ==> ops[j].Register?
  }

  /** `x` was registered by one of `ops`, and no `clear` came after. */
  ghost predicate RegisteredSinceClear<Doc, Id>(ops: seq<Op<Doc, Id>>, x: DocId<Id>)
  {
    exists k :: 0 <= k < |ops| && ops[k].Register? && ops[k].docId == x && NoClear(ops[k + 1..])
  }

  /** The invariant (every bucketed id is stored) holds in every state reached from a valid one. */
  lemma {:induction false} ReplayValid<Doc, Id>(c: Cache<Doc, Id>, ops: seq<Op<Doc, Id>>)
    requires Valid(c)
    ensures Valid(Replay(c, ops))
  {
    if ops != [] {
      ReplayValid(c, ops[..|ops| - 1]);
    }
  }

  /** Every cache the constructor builds stays valid under any sequence of registrations and clears. */
  lemma ConstructedCachesStayValid<Doc, Id>(hasher: Hasher<Doc>, sig: Fingerprint -> int, numBands: int, ops: seq<Op<Doc, Id>>)
    requires Configure<Doc, Id>(hasher, sig, numBands).Success?
    ensures Valid(Replay(Configure<Doc, Id>(hasher, sig, numBands).value, ops))
  {
    ReplayValid(Configure<Doc, Id>(hasher, sig, numBands).value, ops);
  }

  /** Without a `clear`, no id ever leaves a bucket. */
  lemma {:induction false} ReplayNeverRemoves<Doc, Id>(c: Cache<Doc, Id>, ops: seq<Op<Doc, Id>>)
    requires WellFormed(c) && NoClear(ops)
    ensures forall i, s :: 0 <= i < c.numBands ==> Members(c.bins[i], s) <= Members(Replay(c, ops).bins[i], s)
  {
    if ops != [] {
      var prefix := ops[..|ops| - 1];
      assert NoClear(prefix) by {
        forall j | 0 <= j < |prefix| ensures prefix[j].Register? {
          assert prefix[j] == ops[j];
        }
      }
      ReplayNeverRemoves(c, prefix);
      assert ops[|ops| - 1].Register?;
    }
  }

  /** The store only grows: `clear` keeps it and registration overwrites or adds. */
  lemma {:induction false} ReplayKeepsStoredIds<Doc, Id>(c: Cache<Doc, Id>, ops: seq<Op<Doc, Id>>)
    requires WellFormed(c)
    ensures c.fingerprints.Keys <= Replay(c, ops).fingerprints.Keys
  {
    if ops != [] {
      ReplayKeepsStoredIds(c, ops[..|ops| - 1]);
    }
  }

  /** An id registered with no later `clear` is indexed under its current fingerprint. */
  lemma {:induction false} ReplayIndexes<Doc, Id>(c: Cache<Doc, Id>, ops: seq<Op<Doc, Id>>, x: DocId<Id>)
    requires WellFormed(c) && RegisteredSinceClear(ops, x)
    ensures Indexed(Replay(c, ops), x)
  {
    var n := |ops|;
    var prefix := ops[..n - 1];
    var last := ops[n - 1];
    var k :| 0 <= k < n && ops[k].Register? && ops[k].docId == x && NoClear(ops[k + 1..]);
    if k < n - 1 {
      assert last.Register? by {
        assert ops[k + 1..][n - 1 - (k + 1)] == last;
      }
      assert RegisteredSinceClear(prefix, x) by {
        assert prefix[k] == ops[k];
        var tail, opsTail := prefix[k + 1..], ops[k + 1..];
        forall j | 0 <= j < |tail| ensures tail[j].Register? {
          assert tail[j] == opsTail[j];
        }
      }
      ReplayIndexes(c, prefix, x);
      if last.docId != x {
        UpdateKeepsIndexed(Replay(c, prefix), last.doc, last.docId, x);
      }
    }
  }

  /**
   Two documents registered with no later `clear` whose current fingerprints
   agree on some band find each other, and each finds itself.
   */
  lemma RegisteredAgreeingFound<Doc, Id>(c: Cache<Doc, Id>, ops: seq<Op<Doc, Id>>, a: DocId<Id>, b: DocId<Id>)
    requires WellFormed(c) && RegisteredSinceClear(ops, a) && RegisteredSinceClear(ops, b)
    ensures var d := Replay(c, ops);
      && a in d.fingerprints && b in d.fingerprints
      && BandMate(d, d.fingerprints[a], a)
      && forall i :: 0 <= i < d.numBands && Bands(d.fingerprints[a], d.numBands)[i] == Bands(d.fingerprints[b], d.numBands)[i] ==>
           BandMate(d, d.fingerprints[a], b) && BandMate(d, d.fingerprints[b], a) && CoLocated(d.bins, a, b)
  {
    var d := Replay(c, ops);
    ReplayIndexes(c, ops, a);
    ReplayIndexes(c, ops, b);
    IndexedFindsItself(d, a);
    forall i | 0 <= i < d.numBands && Bands(d.fingerprints[a], d.numBands)[i] == Bands(d.fingerprints[b], d.numBands)[i]
      ensures BandMate(d, d.fingerprints[a], b) && BandMate(d, d.fingerprints[b], a) && CoLocated(d.bins, a, b)
    {
      SharedBandFound(d, a, b, i);
    }
  }
}
