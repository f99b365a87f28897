/** Which delivered batches were acknowledged, and how far the contiguous prefix reaches
    (toAckMap in s2-bentobox/stream_input.go). */
module AckTracking {
  /** A tracked batch with the sequence numbers it spans. */
  datatype Entry = Entry(first: nat, last: nat, acked: bool)

  /** Setting a key of the ordered map: replace it or insert it in order. */
  function Put(es: seq<Entry>, e: Entry): seq<Entry> {
    if es == [] then [e]
    else if es[0].first == e.first then [e] + es[1..]
    else if e.first < es[0].first then [e] + es
    else [es[0]] + Put(es[1..], e)
  }

  /** The place of a key, or the length. */
  function Find(es: seq<Entry>, first: nat): (i: nat)
    ensures i <= |es|
    ensures i < |es| ==> es[i].first == first
    ensures forall j | 0 <= j < i :: es[j].first != first
  {
    if es == [] then 0 else if es[0].first == first then 0 else 1 + Find(es[1..], first)
  }

  /** Batches in order without gaps, covering [lo, hi). */
  ghost predicate Chain(es: seq<Entry>, lo: nat, hi: nat) {
    && (es == [] ==> lo == hi)
    && (es != [] ==> es[0].first == lo && es[|es| - 1].last + 1 == hi)
    && (forall i | 0 <= i < |es| :: es[i].first <= es[i].last)
    && (forall i | 0 < i < |es| :: es[i].first == es[i - 1].last + 1)
  }

  /** How many batches the scan takes: acknowledged, and each right after the one before. */
  function AckedPrefix(es: seq<Entry>): (n: nat)
    ensures n <= |es|
  {
    PrefixFrom(es, 0)
  }

  function PrefixFrom(es: seq<Entry>, k: nat): (n: nat)
    requires k <= |es|
    ensures k <= n <= |es|
    decreases |es| - k
  {
    if k == |es| || !es[k].acked || (k > 0 && es[k].first != es[k - 1].last + 1) then k else PrefixFrom(es, k + 1)
  }

  lemma {:induction false} PrefixAcked(es: seq<Entry>, k: nat)
    requires k <= |es| && forall i | 0 <= i < k :: es[i].acked
    ensures forall i | 0 <= i < PrefixFrom(es, k) :: es[i].acked
    decreases |es| - k
  {
    if k < |es| && es[k].acked && (k > 0 ==> es[k].first == es[k - 1].last + 1) { PrefixAcked(es, k + 1); }
  }

  /** In a chain the scan stops only at a batch that is not acknowledged. */
  lemma {:induction false} PrefixMaximal(es: seq<Entry>, lo: nat, hi: nat, k: nat)
    requires Chain(es, lo, hi) && k <= |es|
    ensures var n := PrefixFrom(es, k); n < |es| ==> !es[n].acked
    decreases |es| - k
  {
    if k < |es| && es[k].acked { PrefixMaximal(es, lo, hi, k + 1); }
  }

  lemma {:induction false} ChainOrdered(es: seq<Entry>, lo: nat, hi: nat, i: nat, j: nat)
    requires Chain(es, lo, hi) && i < j < |es|
    ensures es[i].last < es[j].first
    decreases j
  {
    if i < j - 1 { ChainOrdered(es, lo, hi, i, j - 1); }
  }

  lemma ChainBounds(es: seq<Entry>, lo: nat, hi: nat, i: nat)
    requires Chain(es, lo, hi) && i < |es|
    ensures lo <= es[i].first <= es[i].last < hi
  {
    if i > 0 { ChainOrdered(es, lo, hi, 0, i); }
    if i < |es| - 1 { ChainOrdered(es, lo, hi, i, |es| - 1); }
  }

  /** A batch after everything tracked goes to the end. */
  lemma {:induction false} PutNew(es: seq<Entry>, e: Entry)
    requires forall i | 0 <= i < |es| :: es[i].first < e.first
    ensures Put(es, e) == es + [e]
    decreases |es|
  {
    if es != [] {
      PutNew(es[1..], e);
      assert [es[0]] + (es[1..] + [e]) == es + [e];
    }
  }

  lemma {:induction false} PutSame(es: seq<Entry>, k: nat, e: Entry)
    requires k < |es| && es[k].first == e.first && forall i | 0 <= i < k :: es[i].first < e.first
    ensures Put(es, e) == es[k := e]
    decreases |es|
  {
    if k > 0 {
      PutSame(es[1..], k - 1, e);
      assert [es[0]] + es[1..][k - 1 := e] == es[k := e];
    }
  }

  lemma ChainPutNew(es: seq<Entry>, lo: nat, hi: nat, e: Entry)
    requires Chain(es, lo, hi) && e.first == hi <= e.last
    ensures Put(es, e) == es + [e] && Chain(Put(es, e), lo, e.last + 1)
  {
    forall i | 0 <= i < |es| ensures es[i].first < e.first { ChainBounds(es, lo, hi, i); }
    PutNew(es, e);
  }

  lemma ChainPutSame(es: seq<Entry>, lo: nat, hi: nat, k: nat, e: Entry)
    requires Chain(es, lo, hi) && k < |es| && e.first == es[k].first && e.last == es[k].last
    ensures Put(es, e) == es[k := e] && Chain(Put(es, e), lo, hi) && Find(es, e.first) == k
  {
    forall i | 0 <= i < k ensures es[i].first < e.first { ChainOrdered(es, lo, hi, i, k); }
    PutSame(es, k, e);
  }

  /** What is left once the scanned prefix is deleted. */
  lemma ChainSweep(es: seq<Entry>, lo: nat, hi: nat, n: nat)
    requires Chain(es, lo, hi) && 0 < n <= |es|
    ensures Chain(es[n..], es[n - 1].last + 1, hi)
  {
    if n < |es| {
      assert es[n].first == es[n - 1].last + 1;
      var rest := es[n..];
      forall i | 0 < i < |rest| ensures rest[i].first == rest[i - 1].last + 1 {
        assert rest[i] == es[n + i] && rest[i - 1] == es[n + i - 1];
      }
    }
  }

  /** Every sequence number of a chain lies in one of its batches. */
  lemma {:induction false} ChainCovers(es: seq<Entry>, lo: nat, hi: nat, x: nat) returns (i: nat)
    requires Chain(es, lo, hi) && lo <= x < hi
    ensures i < |es| && es[i].first <= x <= es[i].last
  {
    i := 0;
    while es[i].last < x
      invariant i < |es| && es[i].first <= x
      decreases |es| - i
    {
      i := i + 1;
    }
  }
}
