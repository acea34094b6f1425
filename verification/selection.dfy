// The scan of `get_endpoint_for` (src/backend/mod.rs), over the availability of a service's
// endpoints in hash map order.
module Selection {
  import opened Wrappers

  /** First available position in [lo, hi). */
  function FirstIn(avail: seq<bool>, lo: nat, hi: nat): (r: Option<nat>)
    requires lo <= hi <= |avail|
    ensures r.None? ==> forall k | lo <= k < hi :: !avail[k]
    ensures r.Some? ==> lo <= r.value < hi && avail[r.value] && forall k | lo <= k < r.value :: !avail[k]
    decreases hi - lo
  {
    if lo == hi then None
    else if avail[lo] then Some(lo)
    else FirstIn(avail, lo + 1, hi)
  }

  /** As written: positions from `i` on, then the first n - i positions. */
  function Scan(avail: seq<bool>, i: nat): Option<nat>
    requires i < |avail|
  {
    var r := FirstIn(avail, i, |avail|);
    if r.Some? then r else FirstIn(avail, 0, |avail| - i)
  }

  /** As evidently intended: positions from `i` on, then the first i positions. */
  function IntendedScan(avail: seq<bool>, i: nat): Option<nat>
    requires i < |avail|
  {
    var r := FirstIn(avail, i, |avail|);
    if r.Some? then r else FirstIn(avail, 0, i)
  }

  /** The position `d` steps after `i`, going round. */
  function Around(n: nat, i: nat, d: nat): (k: nat)
    requires i < n && d < n
    ensures k < n
  {
    if i + d < n then i + d else i + d - n
  }

  /** `k` is the first available position in cyclic order from `i`. */
  ghost predicate IsCyclicFirst(avail: seq<bool>, i: nat, k: nat)
    requires i < |avail|
  {
    exists d: nat :: d < |avail| && k == Around(|avail|, i, d) && avail[k]
      && forall e: nat | e < d :: !avail[Around(|avail|, i, e)]
  }

  /** Any answer is the first available endpoint in cyclic order; there is none exactly when no
      probed position is available. */
  lemma ScanFindsCyclicFirst(avail: seq<bool>, i: nat)
    requires i < |avail|
    ensures Scan(avail, i).None? <==> forall k | i <= k < |avail| || 0 <= k < |avail| - i :: !avail[k]
    ensures Scan(avail, i).Some? ==> IsCyclicFirst(avail, i, Scan(avail, i).value)
  {
    var n := |avail|;
    if Scan(avail, i).Some? {
      var k := Scan(avail, i).value;
      var d := if i <= k then k - i else k + n - i;
      assert k == Around(n, i, d);
    }
  }

  /** The written scan finds an endpoint whenever there is one, whatever is available, exactly
      when i is in the first half: otherwise positions [n - i, i) are never probed. */
  lemma ScanCompleteIff(n: nat, i: nat)
    requires i < n
    ensures 2 * i <= n <==>
            forall avail: seq<bool> | |avail| == n :: true in avail ==> Scan(avail, i).Some?
  {
    if 2 * i <= n {
      forall avail: seq<bool> | |avail| == n && true in avail
        ensures Scan(avail, i).Some?
      {
        ScanFindsCyclicFirst(avail, i);
        var k :| 0 <= k < n && avail[k];
      }
    } else {
      var avail := seq(n, k => k == n - i);
      assert avail[n - i];
      ScanFindsCyclicFirst(avail, i);
      assert |avail| == n && true in avail && Scan(avail, i).None?;
    }
  }

  /** Input by input: the written scan misses an available endpoint iff all of them lie in the
      unprobed gap. */
  lemma ScanMissesIff(avail: seq<bool>, i: nat)
    requires i < |avail|
    ensures (true in avail && Scan(avail, i).None?) <==>
            (true in avail && forall k | 0 <= k < |avail| && avail[k] :: |avail| - i <= k < i)
  {
    ScanFindsCyclicFirst(avail, i);
  }

  /** The smallest miss: three endpoints, only the second available, starting from the third. */
  lemma ScanMissesExample()
    ensures Scan([false, true, false], 2) == None && IntendedScan([false, true, false], 2) == Some(1)
  {
    ScanFindsCyclicFirst([false, true, false], 2);
  }

  /** The intended scan is complete for every start, and agrees with the written one wherever that
      one answers. */
  lemma IntendedScanComplete(avail: seq<bool>, i: nat)
    requires i < |avail|
    ensures IntendedScan(avail, i).Some? <==> true in avail
    ensures IntendedScan(avail, i).Some? ==> IsCyclicFirst(avail, i, IntendedScan(avail, i).value)
    ensures Scan(avail, i).Some? ==> Scan(avail, i) == IntendedScan(avail, i)
  {
    var n := |avail|;
    var r := IntendedScan(avail, i);
    if r.Some? {
      var k := r.value;
      var d := if i <= k then k - i else k + n - i;
      assert k == Around(n, i, d);
    } else {
      forall k | 0 <= k < n
        ensures !avail[k]
      {}
    }
  }

  /** Where the scan starts: `index %= n_endpoints`. */
  function Start(index: nat, n: nat): (i: nat)
    requires n > 0
    ensures i < n
  {
    index % n
  }

  lemma {:induction false} MulGap(n: nat, a: nat, b: nat)
    requires a < b
    ensures n * a + n <= n * b
    decreases b
  {
    assert n * b == n * (b - 1) + n;
    if a < b - 1 {
      MulGap(n, a, b - 1);
    }
  }

  lemma RemainderIs(n: nat, x: nat, q: nat, r: nat)
    requires r < n && x == n * q + r
    ensures x % n == r
  {
    var q', r' := x / n, x % n;
    assert x == n * q' + r';
    if q < q' { MulGap(n, q, q'); }
    if q' < q { MulGap(n, q', q); }
  }

  lemma StartMoves(index: nat, n: nat, d: nat)
    requires d < n
    ensures Start(index + d, n) == Around(n, Start(index, n), d)
  {
    var q, i := index / n, index % n;
    assert index == n * q + i;
    if i + d < n {
      RemainderIs(n, index + d, q, i + d);
    } else {
      assert n * (q + 1) == n * q + n;
      RemainderIs(n, index + d, q + 1, i + d - n);
    }
  }

  /** The scan started by `index` ends at position k. */
  predicate Selects(avail: seq<bool>, index: nat, k: nat)
    requires avail != []
  {
    Scan(avail, Start(index, |avail|)) == Some(k)
  }

  lemma ScanTakesStart(avail: seq<bool>, i: nat)
    requires i < |avail| && false !in avail
    ensures Scan(avail, i) == Some(i)
  {
    assert avail[i] != false;
  }

  /** While all n endpoints stay available, any n consecutive indices select each exactly once. */
  lemma EvenSpreading(avail: seq<bool>, index: nat, k: nat) returns (d: nat)
    requires k < |avail| && false !in avail
    ensures d < |avail| && Selects(avail, index + d, k)
    ensures forall x: nat | index <= x < index + |avail| && Selects(avail, x, k) :: x == index + d
  {
    var n, i := |avail|, Start(index, |avail|);
    d := if i <= k then k - i else k + n - i;
    StartMoves(index, n, d);
    ScanTakesStart(avail, k);
    forall x: nat | index <= x < index + n && Selects(avail, x, k)
      ensures x == index + d
    {
      StartMoves(index, n, x - index);
      ScanTakesStart(avail, Start(x, n));
    }
  }
}
