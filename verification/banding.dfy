/**
 Splitting a fingerprint into bands, as numpy's `array_split(fingerprint, n)`
 does: `n` contiguous sections, the first `len % n` of them one element longer
 than the rest, so that every section has `len / n` or `len / n + 1` elements.
 */
module Banding {

  /** Start of section `i` when every section has `q` elements and the first `r` get one more. */
  function Offset(q: nat, r: nat, i: nat): nat
  {
    if i == 0 then 0 else Offset(q, r, i - 1) + q + (if i - 1 < r then 1 else 0)
  }

  /** Offset at which section `i` of a length-`len` sequence split `n` ways starts. */
  function Cut(len: nat, n: nat, i: nat): nat
    requires 0 < n
  {
    Offset(len / n, len % n, i)
  }

  lemma {:induction false} OffsetClosedForm(q: nat, r: nat, i: nat)
    ensures Offset(q, r, i) == i * q + (if i < r then i else r)
  {
    if i > 0 {
      OffsetClosedForm(q, r, i - 1);
      assert i * q == (i - 1) * q + q;
    }
  }

  lemma {:induction false} OffsetMonotone(q: nat, r: nat, i: nat, j: nat)
    requires i <= j
    ensures Offset(q, r, i) <= Offset(q, r, j)
  {
    if i < j {
      OffsetMonotone(q, r, i, j - 1);
    }
  }

  /** Sections start inside the sequence, and the last one ends at its end. */
  lemma CutWithin(len: nat, n: nat, i: nat)
    requires 0 < n && i <= n
    ensures Cut(len, n, i) <= Cut(len, n, n) == len
  {
    OffsetClosedForm(len / n, len % n, n);
    OffsetMonotone(len / n, len % n, i, n);
  }

  /** Section `i` of `fp` split `n` ways. */
  function Band(fp: seq<int>, n: nat, i: nat): seq<int>
    requires 0 < n && i < n
  {
    CutWithin(|fp|, n, i + 1);
    fp[Cut(|fp|, n, i)..Cut(|fp|, n, i + 1)]
  }

  /** All `n` sections of `fp`, in order; the position in the sequence is the band index. */
  function Bands(fp: seq<int>, n: nat): (bands: seq<seq<int>>)
    requires 0 < n
    ensures |bands| == n
  {
    seq(n, i requires 0 <= i < n => Band(fp, n, i))
  }

  /** Concatenation of a sequence of sequences, left to right. */
  function Concat<T>(ss: seq<seq<T>>): seq<T>
  {
    if ss == [] then [] else Concat(ss[..|ss| - 1]) + ss[|ss| - 1]
  }

  /** Every section has `len / n` elements, plus one for the first `len % n` sections. */
  lemma BandSize(fp: seq<int>, n: nat, i: nat)
    requires 0 < n && i < n
    ensures |Bands(fp, n)[i]| == |fp| / n + (if i < |fp| % n then 1 else 0)
  {
    CutWithin(|fp|, n, i + 1);
    assert Bands(fp, n)[i] == fp[Cut(|fp|, n, i)..Cut(|fp|, n, i + 1)];
  }

  lemma {:induction false} MulAtLeast(n: nat, d: nat)
    requires 1 <= d
    ensures n <= n * d
  {
    if d > 1 {
      MulAtLeast(n, d - 1);
      assert n * d == n * (d - 1) + n;
    }
  }

  /** Division of `n * w` by `n` is exact. */
  lemma ExactDivision(n: nat, w: nat)
    requires 0 < n
    ensures (n * w) / n == w && (n * w) % n == 0
  {
    var q, r := (n * w) / n, (n * w) % n;
    assert n * w == n * q + r && 0 <= r < n;
    if q < w {
      assert n * (w - q) == n * w - n * q;
      MulAtLeast(n, w - q);
    } else if q > w {
      assert n * (q - w) == n * q - n * w;
      MulAtLeast(n, q - w);
    }
  }

  /** A fingerprint of `n * w` values is cut into `n` bands of exactly `w` values. */
  lemma BandsEqualWidth(fp: seq<int>, n: nat, w: nat)
    requires 0 < n && |fp| == n * w
    ensures forall i :: 0 <= i < n ==> |Bands(fp, n)[i]| == w
  {
    ExactDivision(n, w);
    forall i | 0 <= i < n
      ensures |Bands(fp, n)[i]| == w
    {
      BandSize(fp, n, i);
    }
  }

  lemma {:induction false} ConcatPrefix(fp: seq<int>, n: nat, k: nat)
    requires 0 < n && k <= n
    ensures Cut(|fp|, n, k) <= |fp| && Concat(Bands(fp, n)[..k]) == fp[..Cut(|fp|, n, k)]
  {
    var bands := Bands(fp, n);
    CutWithin(|fp|, n, k);
    if k == 0 {
      assert bands[..0] == [];
    } else {
      var lo, hi := Cut(|fp|, n, k - 1), Cut(|fp|, n, k);
      CutWithin(|fp|, n, k - 1);
      OffsetMonotone(|fp| / n, |fp| % n, k - 1, k);
      ConcatPrefix(fp, n, k - 1);
      var prefix := bands[..k];
      assert prefix[..k - 1] == bands[..k - 1];
      assert prefix[k - 1] == Band(fp, n, k - 1) == fp[lo..hi];
      calc {
        Concat(prefix);
        Concat(prefix[..k - 1]) + prefix[k - 1];
        fp[..lo] + fp[lo..hi];
        { assert fp[..lo] + fp[lo..hi] == fp[..hi]; }
        fp[..hi];
      }
    }
  }

  /** The bands are contiguous and together give back the whole fingerprint. */
  lemma {:induction false} BandsConcat(fp: seq<int>, n: nat)
    requires 0 < n
    ensures Concat(Bands(fp, n)) == fp
  {
    ConcatPrefix(fp, n, n);
    CutWithin(|fp|, n, n);
    assert Bands(fp, n)[..n] == Bands(fp, n);
    assert fp[..|fp|] == fp;
  }
}
