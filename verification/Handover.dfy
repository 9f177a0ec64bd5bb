/**
 * Leader handover on the writing side. Entry heights that are multiples of the rotation interval
 * are where leadership may pass on; a leader must stop writing at the first one not scheduled to it.
 */
module Handover {
  import opened Base

  /** A height at which this node, as leader, must stop. */
  predicate Bad(interval: nat, mine: nat -> bool, height: nat)
    requires interval > 0
  {
    height % interval == 0 && !mine(height)
  }

  /** Reference definition: how many of `n` entries may be written from height `h`, and whether a stop was met. */
  function AllowedFrom(interval: nat, mine: nat -> bool, h: nat, n: nat): (r: (nat, bool))
    requires interval > 0
    ensures r.0 <= n
    decreases n
  {
    if Bad(interval, mine, h) then (0, true)
    else if n == 0 then (0, false)
    else
      var (k, stop) := AllowedFrom(interval, mine, h + 1, n - 1);
      (k + 1, stop)
  }

  lemma {:induction false} AllowedIsFirstBad(interval: nat, mine: nat -> bool, h: nat, n: nat)
    requires interval > 0
    ensures var (k, stop) := AllowedFrom(interval, mine, h, n);
      (stop <==> Bad(interval, mine, h + k)) && (!stop ==> k == n) &&
      forall x: nat :: h <= x < h + k ==> !Bad(interval, mine, x)
    decreases n
  {
    hide Bad;
    if !Bad(interval, mine, h) && n > 0 {
      AllowedIsFirstBad(interval, mine, h + 1, n - 1);
    }
  }

  /** So writing goes up to the first multiple of the interval that is not this node's, and stops just there. */
  lemma {:induction false} AllowedMeans(interval: nat, mine: nat -> bool, h: nat, n: nat)
    requires interval > 0
    ensures var (k, stop) := AllowedFrom(interval, mine, h, n);
      (forall x: nat :: h <= x < h + k && x % interval == 0 ==> mine(x)) &&
      (stop <==> (h + k) % interval == 0 && !mine(h + k)) && (!stop ==> k == n)
  {
    hide AllowedFrom;
    AllowedIsFirstBad(interval, mine, h, n);
    var k := AllowedFrom(interval, mine, h, n).0;
    forall x: nat | h <= x < h + k && x % interval == 0 ensures mine(x) {
      assert !Bad(interval, mine, x);
    }
  }

  /** The stride of the search: the distance from `h` to the next rotation height, never recomputed. */
  function Stride(interval: nat, h: nat): (d: nat)
    requires interval > 0
    ensures 1 <= d <= interval && (h + d) % interval == 0
  {
    var q := h / interval;
    assert h == q * interval + h % interval;
    assert h + (interval - h % interval) == (q + 1) * interval;
    MultipleIsZero(q + 1, interval);
    interval - h % interval
  }

  lemma AtLeastOnce(d: nat, m: nat)
    requires d >= 1
    ensures d * m >= m
  {
  }

  /** Division with remainder has one answer. */
  lemma Remainder(x: nat, q: nat, r: nat, m: nat)
    requires m > 0 && r < m && x == q * m + r
    ensures x % m == r
  {
    var q' := x / m;
    assert x == q' * m + x % m;
    assert (q - q') * m == q * m - q' * m;
    assert (q' - q) * m == q' * m - q * m;
    if q > q' {
      AtLeastOnce(q - q', m);
    } else if q < q' {
      AtLeastOnce(q' - q, m);
    }
  }

  lemma MultipleIsZero(q: nat, m: nat)
    requires m > 0
    ensures (q * m) % m == 0
  {
    Remainder(q * m, q, 0, m);
  }

  lemma AddMod(a: nat, m: nat)
    requires m > 0
    ensures (a + m) % m == a % m
  {
    var q := a / m;
    assert a == q * m + a % m;
    assert a + m == (q + 1) * m + a % m;
    Remainder(a + m, q + 1, a % m, m);
  }

  /** What the search does, on values: it looks at `h + i`, `h + i + d`, ... and at the end. */
  function SearchFrom(interval: nat, mine: nat -> bool, h: nat, n: nat, i: nat): (r: (nat, bool))
    requires interval > 0 && i <= n
    ensures r.0 <= n
    decreases n - i
  {
    if Bad(interval, mine, h + i) then (i, true)
    else if i == n then (n, false)
    else
      var d := Stride(interval, h);
      SearchFrom(interval, mine, h, n, if d < n - i then i + d else n)
  }

  /** `find_leader_rotation_index`. */
  method FindLeaderRotationIndex<E>(interval: nat, mine: nat -> bool, h: nat, newEntries: seq<E>)
    returns (entries: seq<E>, isLeaderRotation: bool)
    requires interval > 0
    ensures var (i, stop) := SearchFrom(interval, mine, h, |newEntries|, 0);
      entries == newEntries[..i] && isLeaderRotation == stop
  {
    var n := |newEntries|;
    var i := 0;
    isLeaderRotation := false;
    while true
      invariant 0 <= i <= n && !isLeaderRotation
      invariant SearchFrom(interval, mine, h, n, 0) == SearchFrom(interval, mine, h, n, i)
      decreases n - i
    {
      if (h + i) % interval == 0 && !mine(h + i) {
        isLeaderRotation := true;
        break;
      }
      if i == n {
        break;
      }
      var entriesUntilLeaderRotation := interval - h % interval;
      i := i + if entriesUntilLeaderRotation < n - i then entriesUntilLeaderRotation else n - i;
    }
    entries := newEntries[..i];
  }

  // ---- When the search is right ------------------------------------------------------------------

  /** The search looks at offset `j`. */
  predicate Visits(interval: nat, h: nat, n: nat, j: nat)
    requires interval > 0
  {
    j == n || (j < n && j % Stride(interval, h) == 0)
  }

  lemma MultipleStep(i: nat, d: nat)
    requires d > 0 && i % d == 0
    ensures (i + d) % d == 0
    ensures forall j: nat :: i < j < i + d ==> j % d != 0
  {
    AddMod(i, d);
    forall j: nat | i < j < i + d ensures j % d != 0 {
      SmallRemainder(i, j - i, d);
    }
  }

  lemma SmallRemainder(i: nat, r: nat, d: nat)
    requires d > 0 && i % d == 0 && r < d
    ensures (i + r) % d == r
  {
    var q := i / d;
    assert i == q * d;
    Remainder(i + r, q, r, d);
  }

  lemma Below(r: nat, d: nat)
    requires r < d
    ensures r % d == r
  {
  }

  /** The search returns the first bad offset it looks at. */
  lemma {:induction false} SearchFindsFirstVisited(interval: nat, mine: nat -> bool, h: nat, n: nat, i: nat)
    requires interval > 0 && Visits(interval, h, n, i)
    ensures var (k, stop) := SearchFrom(interval, mine, h, n, i);
      i <= k <= n && Visits(interval, h, n, k) && (stop <==> Bad(interval, mine, h + k)) && (!stop ==> k == n) &&
      forall j: nat :: i <= j < k && Visits(interval, h, n, j) ==> !Bad(interval, mine, h + j)
    decreases n - i
  {
    hide Stride; hide Bad;
    if !Bad(interval, mine, h + i) && i < n {
      var d := Stride(interval, h);
      MultipleStep(i, d);
      var next := if d < n - i then i + d else n;
      assert SearchFrom(interval, mine, h, n, i) == SearchFrom(interval, mine, h, n, next);
      SearchFindsFirstVisited(interval, mine, h, n, next);
    }
  }

  /**
   * The search is right for one schedule exactly when the first bad offset, if any, is one it looks at.
   */
  lemma {:induction false} SearchIsRightWhenVisited(interval: nat, mine: nat -> bool, h: nat, n: nat)
    requires interval > 0
    ensures var (k, stop) := AllowedFrom(interval, mine, h, n);
      SearchFrom(interval, mine, h, n, 0) == (k, stop) <==> Visits(interval, h, n, k)
  {
    hide Bad; hide Stride;
    Below(0, Stride(interval, h));
    SearchFindsFirstVisited(interval, mine, h, n, 0);
    AllowedIsFirstBad(interval, mine, h, n);
    var (k, stop) := AllowedFrom(interval, mine, h, n);
    var (k', stop') := SearchFrom(interval, mine, h, n, 0);
  }

  /** Offsets of rotation heights: the stride, then every interval after it. */
  lemma RotationOffsets(interval: nat, h: nat, j: nat)
    requires interval > 0 && (h + j) % interval == 0
    ensures j == 0 || j >= Stride(interval, h)
    ensures j == 0 ==> Stride(interval, h) == interval
    ensures j >= Stride(interval, h) ==> (j - Stride(interval, h)) % interval == 0
  {
    var d := Stride(interval, h);
    if j < d {
      if j > 0 {
        SmallRemainderBack(h + d, d - j, interval);
      }
    } else {
      RemainderOfDifference(h + d, j - d, interval);
    }
  }

  lemma SmallRemainderBack(a: nat, r: nat, m: nat)
    requires m > 0 && a % m == 0 && 0 < r < m && r <= a
    ensures (a - r) % m != 0
  {
    if (a - r) % m == 0 {
      SmallRemainder(a - r, r, m);
    }
  }

  lemma RemainderOfDifference(a: nat, b: nat, m: nat)
    requires m > 0 && a % m == 0 && (a + b) % m == 0
    ensures b % m == 0
    decreases b
  {
    if b < m {
      SmallRemainder(a, b, m);
      Below(b, m);
    } else {
      AddMod(a + b - m, m);
      RemainderOfDifference(a, b - m, m);
      AddMod(b - m, m);
    }
  }

  lemma MultipleOfMultiple(a: nat, m: nat, d: nat)
    requires d > 0 && m > 0 && a % m == 0 && m % d == 0
    ensures a % d == 0
    decreases a
  {
    if a >= m {
      AddMod(a - m, m);
      MultipleOfMultiple(a - m, m, d);
      SumOfMultiples(a - m, m, d);
    } else {
      Below(a, m);
      Below(0, d);
    }
  }

  lemma SumOfMultiples(a: nat, b: nat, d: nat)
    requires d > 0 && a % d == 0 && b % d == 0
    ensures (a + b) % d == 0
    decreases b
  {
    if b >= d {
      AddMod(b - d, d);
      SumOfMultiples(a, b - d, d);
      AddMod(a + b - d, d);
    } else {
      Below(b, d);
    }
  }

  /** Short batches, and strides that divide the interval, are searched without missing a height. */
  predicate SafeBatch(interval: nat, h: nat, n: nat)
    requires interval > 0
  {
    n <= Stride(interval, h) + interval || interval % Stride(interval, h) == 0
  }

  lemma SafeBatchVisitsRotations(interval: nat, h: nat, n: nat, j: nat)
    requires interval > 0 && SafeBatch(interval, h, n) && j <= n && (h + j) % interval == 0
    ensures Visits(interval, h, n, j)
  {
    hide Stride;
    var d := Stride(interval, h);
    RotationOffsets(interval, h, j);
    Below(0, d);
    if d <= j < n {
      AddMod(0, d);
      if interval % d == 0 {
        MultipleOfMultiple(j - d, interval, d);
        AddMod(j - d, d);
      } else {
        Below(j - d, interval);
      }
    }
  }

  /** A schedule that is this node's except at one height. */
  function MineExcept(height: nat): nat -> bool {
    x => x != height
  }

  /**
   * Handover on writing: whatever the schedule, the search stops exactly at the first height not
   * scheduled to this node, if and only if the batch reaches no further than the second rotation
   * height above `h` or the distance to the first divides the interval.
   */
  lemma {:induction false} SearchIsRightForAllSchedules(interval: nat, h: nat, n: nat)
    requires interval > 0
    ensures (forall mine: nat -> bool :: SearchFrom(interval, mine, h, n, 0) == AllowedFrom(interval, mine, h, n))
      <==> SafeBatch(interval, h, n)
  {
    hide SearchFrom; hide AllowedFrom;
    var d := Stride(interval, h);
    if SafeBatch(interval, h, n) {
      forall mine: nat -> bool ensures SearchFrom(interval, mine, h, n, 0) == AllowedFrom(interval, mine, h, n) {
        SafeSearch(interval, mine, h, n);
      }
    } else {
      MissedHeight(interval, h, n);
      var mine := MineExcept(h + d + interval);
      assert SearchFrom(interval, mine, h, n, 0) != AllowedFrom(interval, mine, h, n);
    }
  }

  lemma {:induction false} SafeSearch(interval: nat, mine: nat -> bool, h: nat, n: nat)
    requires interval > 0 && SafeBatch(interval, h, n)
    ensures SearchFrom(interval, mine, h, n, 0) == AllowedFrom(interval, mine, h, n)
  {
    hide SearchFrom; hide SafeBatch;
    var (k, stop) := AllowedFrom(interval, mine, h, n);
    AllowedIsFirstBad(interval, mine, h, n);
    SearchIsRightWhenVisited(interval, mine, h, n);
    if stop {
      SafeBatchVisitsRotations(interval, h, n, k);
    }
  }

  /** Outside the safe batches, the second rotation height above `h` is stepped over. */
  lemma {:induction false} MissedHeight(interval: nat, h: nat, n: nat)
    requires interval > 0 && !SafeBatch(interval, h, n)
    ensures
      var mine := MineExcept(h + Stride(interval, h) + interval);
      SearchFrom(interval, mine, h, n, 0) != AllowedFrom(interval, mine, h, n)
  {
    hide SearchFrom;
    var d := Stride(interval, h);
    var mine := MineExcept(h + d + interval);
    AddMod(h + d, interval);
    AllowedIsFirstBad(interval, mine, h, n);
    var (k, stop) := AllowedFrom(interval, mine, h, n);
    var bad := h + d + interval;
    assert Bad(interval, mine, bad) && forall x: nat :: x != bad ==> !Bad(interval, mine, x);
    assert k == d + interval;
    AddMod(interval, d);
    SearchIsRightWhenVisited(interval, mine, h, n);
  }

  // ---- Batches in sequence -----------------------------------------------------------------------

  /** Every batch, at the height it would be written from, is one the search handles. */
  ghost predicate AllSafe<E>(interval: nat, h: nat, batches: seq<seq<E>>)
    requires interval > 0
    decreases |batches|
  {
    batches == [] || (SafeBatch(interval, h, |batches[0]|) && AllSafe(interval, h + |batches[0]|, batches[1..]))
  }

  /** The allowed count over two batches: the second is reached only if the first met no stop. */
  lemma {:induction false} AllowedSplit(interval: nat, mine: nat -> bool, h: nat, a: nat, b: nat)
    requires interval > 0
    ensures
      var (k, stop) := AllowedFrom(interval, mine, h, a);
      var (k', stop') := AllowedFrom(interval, mine, h + a, b);
      AllowedFrom(interval, mine, h, a + b) == if stop then (k, true) else (a + k', stop')
    decreases a
  {
    hide Bad;
    if a > 0 && !Bad(interval, mine, h) {
      AllowedSplit(interval, mine, h + 1, a - 1, b);
    }
  }

  /** One batch through the search, and what remains allowed after it. */
  lemma OneBatch(interval: nat, mine: nat -> bool, h: nat, a: nat, b: nat)
    requires interval > 0 && SafeBatch(interval, h, a)
    ensures
      var (i, stop) := SearchFrom(interval, mine, h, a, 0);
      (!stop ==> i == a && !Bad(interval, mine, h + a)) &&
      AllowedFrom(interval, mine, h, a + b) ==
        if stop then (i, true) else Shifted(a, AllowedFrom(interval, mine, h + a, b))
  {
    hide SearchFrom; hide SafeBatch; hide Bad; hide AllowedFrom;
    SafeSearch(interval, mine, h, a);
    AllowedIsFirstBad(interval, mine, h, a);
    AllowedSplit(interval, mine, h, a, b);
  }

  function Shifted(n: nat, r: (nat, bool)): (nat, bool) {
    (n + r.0, r.1)
  }

  /** What the searches over successive batches let through, and whether one of them stopped. */
  function SearchBatches<E>(interval: nat, mine: nat -> bool, h: nat, batches: seq<seq<E>>): (r: (nat, bool))
    requires interval > 0
    ensures r.0 <= |Flatten(batches)|
    decreases |batches|
  {
    if batches == [] then (0, false) else
    var n := |batches[0]|;
    var (i, stop) := SearchFrom(interval, mine, h, n, 0);
    if stop then (i, true) else Shifted(n, SearchBatches(interval, mine, h + n, batches[1..]))
  }

  /** Over safe batches that is everything up to the first height not scheduled to this node. */
  lemma {:induction false} SafeBatchesAreRight<E>(interval: nat, mine: nat -> bool, h: nat, batches: seq<seq<E>>)
    requires interval > 0 && AllSafe(interval, h, batches) && (batches == [] ==> !Bad(interval, mine, h))
    ensures SearchBatches(interval, mine, h, batches) == AllowedFrom(interval, mine, h, |Flatten(batches)|)
    decreases |batches|
  {
    hide AllowedFrom; hide SearchFrom; hide SafeBatch; hide Bad;
    if batches == [] {
      NoneAllowedFromGood(interval, mine, h);
    } else {
      var n := |batches[0]|;
      OneBatch(interval, mine, h, n, |Flatten(batches[1..])|);
      if !SearchFrom(interval, mine, h, n, 0).1 {
        SafeBatchesAreRight(interval, mine, h + n, batches[1..]);
      }
    }
  }

  /** With some batch unsafe, a schedule exists whose one stop the searches step over. */
  lemma {:induction false} UnsafeBatchMisses<E>(interval: nat, h: nat, batches: seq<seq<E>>) returns (bad: nat)
    requires interval > 0 && !AllSafe(interval, h, batches)
    ensures bad > h
    ensures SearchBatches(interval, MineExcept(bad), h, batches) != AllowedFrom(interval, MineExcept(bad), h, |Flatten(batches)|)
    decreases |batches|
  {
    hide AllowedFrom; hide SearchFrom;
    var n, rest := |batches[0]|, |Flatten(batches[1..])|;
    if SafeBatch(interval, h, n) {
      bad := UnsafeBatchMisses(interval, h + n, batches[1..]);
      var mine := MineExcept(bad);
      OneBatch(interval, mine, h, n, rest);
      NoStopBefore(interval, bad, h, n);
      SafeSearch(interval, mine, h, n);
    } else {
      bad := h + Stride(interval, h) + interval;
      var mine := MineExcept(bad);
      MissedHeight(interval, h, n);
      AllowedSplit(interval, mine, h, n, rest);
      AllowedIsFirstBad(interval, mine, h, n);
      SecondIsBad(interval, h);
      var (k, stop) := AllowedFrom(interval, mine, h, n);
      assert k < n && stop;
    }
  }

  lemma {:induction false} NoStopBefore(interval: nat, bad: nat, h: nat, n: nat)
    requires interval > 0 && bad > h + n
    ensures AllowedFrom(interval, MineExcept(bad), h, n) == (n, false)
  {
    AllowedIsFirstBad(interval, MineExcept(bad), h, n);
  }

  lemma SecondIsBad(interval: nat, h: nat)
    requires interval > 0
    ensures var bad := h + Stride(interval, h) + interval; Bad(interval, MineExcept(bad), bad)
  {
    AddMod(h + Stride(interval, h), interval);
  }

  /** Handover on writing, over any batches: right for every schedule exactly when every batch is safe. */
  lemma {:induction false} BatchesAreRightForAllSchedules<E>(interval: nat, h: nat, batches: seq<seq<E>>)
    requires interval > 0 && batches != []
    ensures AllSafe(interval, h, batches) <==>
      forall mine: nat -> bool :: SearchBatches(interval, mine, h, batches) == AllowedFrom(interval, mine, h, |Flatten(batches)|)
  {
    hide SearchBatches; hide AllowedFrom;
    if AllSafe(interval, h, batches) {
      forall mine: nat -> bool
        ensures SearchBatches(interval, mine, h, batches) == AllowedFrom(interval, mine, h, |Flatten(batches)|)
      {
        SafeBatchesAreRight(interval, mine, h, batches);
      }
    } else {
      var bad := UnsafeBatchMisses(interval, h, batches);
      var mine := MineExcept(bad);
      assert SearchBatches(interval, mine, h, batches) != AllowedFrom(interval, mine, h, |Flatten(batches)|);
    }
  }

  /**
   * `write_and_send_entries` over the batches waiting in the channel: what is written is the prefix
   * the searches let through, and the height advances by exactly that many. Over safe batches that
   * is exactly the entries up to the first height not scheduled to this node.
   */
  method WriteBatches<E>(interval: nat, mine: nat -> bool, entryHeight: nat, batches: seq<seq<E>>)
    returns (written: seq<E>, height: nat, rotation: bool)
    requires interval > 0 && batches != []
    ensures var (k, stop) := SearchBatches(interval, mine, entryHeight, batches);
      written == Flatten(batches)[..k] && rotation == stop && height == entryHeight + k
    ensures AllSafe(interval, entryHeight, batches) ==>
      var (k, stop) := AllowedFrom(interval, mine, entryHeight, |Flatten(batches)|);
      written == Flatten(batches)[..k] && rotation == stop && height == entryHeight + k
  {
    hide AllowedFrom; hide SearchFrom; hide SafeBatch; hide Bad; hide AllSafe; hide SearchBatches; hide Flatten;
    if AllSafe(interval, entryHeight, batches) {
      SafeBatchesAreRight(interval, mine, entryHeight, batches);
    }
    ghost var all, later := Flatten(batches), Flatten(batches);
    ghost var total := SearchBatches(interval, mine, entryHeight, batches);
    ghost var ahead := total;
    assert batches[0..] == batches;
    written, rotation := [], false;
    var i := 0;
    while i < |batches|
      invariant 0 <= i <= |batches| && !rotation
      invariant all == written + later && later == Flatten(batches[i..])
      invariant ahead == SearchBatches(interval, mine, entryHeight + |written|, batches[i..])
      invariant total == Shifted(|written|, ahead)
    {
      var h := entryHeight + |written|;
      BatchStep(interval, mine, h, batches, i);
      var entries, isLeaderRotation := FindLeaderRotationIndex(interval, mine, h, batches[i]);
      later := Flatten(batches[i + 1..]);
      PrefixOfRest(all, written, batches[i], later, |entries|);
      written := written + entries;
      if isLeaderRotation {
        rotation := true;
        assert written == all[..|written|];
        break;
      }
      i := i + 1;
      ahead := SearchBatches(interval, mine, entryHeight + |written|, batches[i..]);
    }
    if !rotation {
      AfterLastBatch(interval, mine, entryHeight + |written|, batches);
      assert written == all[..|written|];
    }
    height := entryHeight + |written|;
  }

  /** One turn of the loop, on values. */
  lemma {:induction false} BatchStep<E>(interval: nat, mine: nat -> bool, h: nat, batches: seq<seq<E>>, i: nat)
    requires interval > 0 && i < |batches|
    ensures Flatten(batches[i..]) == batches[i] + Flatten(batches[i + 1..])
    ensures
      var n := |batches[i]|;
      var (k, stop) := SearchFrom(interval, mine, h, n, 0);
      (!stop ==> k == n) && SearchBatches(interval, mine, h, batches[i..]) ==
        if stop then (k, true) else Shifted(n, SearchBatches(interval, mine, h + n, batches[i + 1..]))
  {
    hide SearchFrom;
    var rest := batches[i..];
    assert rest[0] == batches[i] && rest[1..] == batches[i + 1..];
    WholeUnlessStopped(interval, mine, h, |batches[i]|);
  }

  lemma PrefixOfRest<E>(all: seq<E>, done: seq<E>, batch: seq<E>, later: seq<E>, k: nat)
    requires all == done + (batch + later) && k <= |batch|
    ensures all[..|done| + k] == done + batch[..k] && all == (done + batch) + later
  {
  }

  lemma {:induction false} AfterLastBatch<E>(interval: nat, mine: nat -> bool, h: nat, batches: seq<seq<E>>)
    requires interval > 0
    ensures Flatten(batches[|batches|..]) == [] && SearchBatches(interval, mine, h, batches[|batches|..]) == (0, false)
  {
  }

  lemma {:induction false} WholeUnlessStopped(interval: nat, mine: nat -> bool, h: nat, n: nat)
    requires interval > 0
    ensures var (i, stop) := SearchFrom(interval, mine, h, n, 0); !stop ==> i == n
  {
    hide SearchFrom; hide Bad;
    Below(0, Stride(interval, h));
    SearchFindsFirstVisited(interval, mine, h, n, 0);
  }

  lemma {:induction false} NoneAllowedFromGood(interval: nat, mine: nat -> bool, h: nat)
    requires interval > 0 && !Bad(interval, mine, h)
    ensures AllowedFrom(interval, mine, h, 0) == (0, false)
  {
  }

  /** The recorder hands over one entry at a time, and one entry is always safe. */
  lemma {:induction false} SingleEntriesAreSafe<E>(interval: nat, h: nat, batches: seq<seq<E>>)
    requires interval > 0 && forall i :: 0 <= i < |batches| ==> |batches[i]| <= 1
    ensures AllSafe(interval, h, batches)
    decreases |batches|
  {
    if batches != [] {
      SingleEntriesAreSafe(interval, h + |batches[0]|, batches[1..]);
    }
  }
}
