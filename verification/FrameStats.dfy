/** Frame-time statistics per interval: the growing buffer, the bookkeeping that makes
    the stored frame times add up, and the "1% low" against the average. Rates are
    exact real numbers; the rounding of doubles is not modelled. */
module FrameStats {
  import opened Options

  const U64 := 0x1_0000_0000_0000_0000
  const NS_PER_SECOND := 1_000_000_000
  const FIRST_CAPACITY := 8192

  function Sum(s: seq<nat>): nat {
    if s == [] then 0 else s[0] + Sum(s[1..])
  }

  lemma {:induction false} SumConcat(a: seq<nat>, b: seq<nat>)
    ensures Sum(a + b) == Sum(a) + Sum(b)
  {
    if a == [] {
      assert a + b == b;
    } else {
      assert (a + b)[1..] == a[1..] + b;
      SumConcat(a[1..], b);
    }
  }

  lemma SumEmpty()
    ensures Sum([]) == 0
  {
  }

  lemma SumSnoc(s: seq<nat>, x: nat)
    ensures Sum(s + [x]) == Sum(s) + x
  {
    SumConcat(s, [x]);
    assert Sum([x]) == x + Sum([]);
  }

  // ---------------------------------------------------------------------------
  // Sorting.

  predicate Ascending(s: seq<nat>) {
    forall i, j :: 0 <= i < j < |s| ==> s[i] <= s[j]
  }

  function Insert(x: nat, s: seq<nat>): (r: seq<nat>)
    ensures multiset(r) == multiset(s) + multiset{x} && |r| == |s| + 1 && Sum(r) == Sum(s) + x
  {
    if s == [] || x <= s[0] then
      assert ([x] + s)[1..] == s;
      [x] + s
    else
      var tail := Insert(x, s[1..]);
      assert s == [s[0]] + s[1..];
      assert ([s[0]] + tail)[1..] == tail;
      [s[0]] + tail
  }

  lemma {:induction false} InsertAscending(x: nat, s: seq<nat>)
    requires Ascending(s)
    ensures Ascending(Insert(x, s))
    ensures forall i :: 0 <= i < |Insert(x, s)| ==> x <= Insert(x, s)[i] || (s != [] && s[0] <= Insert(x, s)[i])
  {
    if s != [] && x > s[0] {
      InsertAscending(x, s[1..]);
    }
  }

  /** What the C library's sort leaves in place of `s`. */
  function Sort(s: seq<nat>): (r: seq<nat>)
    ensures multiset(r) == multiset(s) && |r| == |s| && Sum(r) == Sum(s)
  {
    if s == [] then []
    else
      assert s == [s[0]] + s[1..];
      Insert(s[0], Sort(s[1..]))
  }

  lemma {:induction false} SortAscending(s: seq<nat>)
    ensures Ascending(Sort(s))
  {
    if s != [] {
      SortAscending(s[1..]);
      InsertAscending(s[0], Sort(s[1..]));
    }
  }

  // ---------------------------------------------------------------------------
  // The slowest hundredth is at least as slow as the rest.

  /** One in a hundred, rounded up. */
  function SlowCount(n: nat): (k: nat)
    ensures n > 0 ==> 0 < k <= n
  {
    (n + 99) / 100
  }

  lemma {:induction false} SumAtLeast(s: seq<nat>, m: nat)
    requires forall i :: 0 <= i < |s| ==> s[i] >= m
    ensures Sum(s) >= |s| * m
  {
    if s != [] {
      SumAtLeast(s[1..], m);
      assert |s| * m == (|s| - 1) * m + m;
    }
  }

  lemma {:induction false} SumAtMost(s: seq<nat>, m: nat)
    requires forall i :: 0 <= i < |s| ==> s[i] <= m
    ensures Sum(s) <= |s| * m
  {
    if s != [] {
      SumAtMost(s[1..], m);
      assert |s| * m == (|s| - 1) * m + m;
    }
  }

  /** The mean of the last `k` of an ascending list is at least the mean of all. */
  lemma TopMeanAtLeastMean(s: seq<nat>, k: nat)
    requires Ascending(s) && 0 < k <= |s|
    ensures Sum(s[|s| - k..]) * |s| >= k * Sum(s)
  {
    var m, low, top, d := SplitSums(s, k);
    Weigh(low, top, m, k, d);
  }

  lemma SplitSums(s: seq<nat>, k: nat) returns (m: nat, low: nat, top: nat, d: nat)
    requires Ascending(s) && 0 < k <= |s|
    ensures |s| == k + d && Sum(s) == low + top && top == Sum(s[|s| - k..])
    ensures top >= k * m && low <= d * m
  {
    d := |s| - k;
    m := s[d];
    low, top := Sum(s[..d]), Sum(s[d..]);
    assert s == s[..d] + s[d..];
    SumConcat(s[..d], s[d..]);
    SumAtLeast(s[d..], m);
    SumAtMost(s[..d], m);
  }

  lemma Weigh(low: nat, top: nat, m: nat, k: nat, d: nat)
    requires top >= k * m && low <= d * m
    ensures top * (k + d) >= k * (low + top)
  {
    calc {
      top * (k + d);
    ==
      top * d + top * k;
    >= { Times(top, k * m, d); }
      k * m * d + top * k;
    == { assert k * m * d == k * (d * m); }
      k * (d * m) + top * k;
    >= { Times(d * m, low, k); }
      k * low + top * k;
    ==
      k * (low + top);
    }
  }

  lemma Times(a: nat, b: nat, c: nat)
    requires a >= b
    ensures a * c >= b * c && c * a >= c * b
  {
  }

  /** Frames per second over `n` frames that took `total` nanoseconds. */
  function Rate(n: nat, total: nat): real {
    if total == 0 then 0.0 else (n * NS_PER_SECOND) as real / total as real
  }

  lemma RateFalls(n: nat, total: nat, k: nat, slow: nat)
    requires slow * n >= k * total && (total > 0 ==> slow > 0) && slow <= total
    ensures Rate(k, slow) <= Rate(n, total)
  {
    if slow > 0 {
      var a, b := (k * NS_PER_SECOND) as real, (n * NS_PER_SECOND) as real;
      CrossMultiply(k, total, n, slow);
      Divide(a, slow as real, b, total as real);
    }
  }

  lemma CrossMultiply(k: nat, total: nat, n: nat, slow: nat)
    requires slow * n >= k * total
    ensures (k * NS_PER_SECOND) as real * total as real <= (n * NS_PER_SECOND) as real * slow as real
  {
    assert (k * NS_PER_SECOND) * total == (k * total) * NS_PER_SECOND;
    assert (n * NS_PER_SECOND) * slow == (slow * n) * NS_PER_SECOND;
    Products(k * NS_PER_SECOND, total);
    Products(n * NS_PER_SECOND, slow);
  }

  lemma Products(a: nat, b: nat)
    ensures a as real * b as real == (a * b) as real
  {
  }

  lemma Divide(a: real, x: real, b: real, y: real)
    requires x > 0.0 && y > 0.0 && a * y <= b * x
    ensures a / x <= b / y
  {
    assert a / x == (a * y) / (x * y);
    assert b / y == (b * x) / (x * y);
  }

  // ---------------------------------------------------------------------------
  // The collector.

  datatype Report = Report(average: real, low: real, frames: nat, elapsed: nat)

  /** What is printed for the frame times `s`. */
  function ReportOf(s: seq<nat>, elapsed: nat): Report {
    var k := SlowCount(|s|);
    var sorted := Sort(s);
    Report(Rate(|s|, Sum(s)), Rate(k, if k <= |sorted| then Sum(sorted[|sorted| - k..]) else 0), |s|, elapsed)
  }

  /** What a timed frame brings about: a report when the interval is over, unless the frame
      could not be stored. */
  function Outcome(s: seq<nat>, t: nat, elapsed: nat, interval: nat, stored: bool): Option<Report> {
    if stored && elapsed >= interval then Some(ReportOf(s + [t], elapsed)) else None
  }

  /** The 1% low never exceeds the average. */
  lemma LowAtMostAverage(s: seq<nat>, elapsed: nat)
    requires s != []
    ensures ReportOf(s, elapsed).low <= ReportOf(s, elapsed).average
  {
    var k, sorted := SlowCount(|s|), Sort(s);
    var slow := Sum(sorted[|s| - k..]);
    SortAscending(s);
    assert sorted == sorted[..|s| - k] + sorted[|s| - k..];
    SumConcat(sorted[..|s| - k], sorted[|s| - k..]);
    TopMeanAtLeastMean(sorted, k);
    NotAllZero(slow, |s|, k, Sum(s));
    RateFalls(|s|, Sum(s), k, slow);
  }

  lemma NotAllZero(slow: nat, n: nat, k: nat, total: nat)
    requires slow * n >= k * total && k > 0
    ensures total > 0 ==> slow > 0
  {
    if total > 0 {
      Times(total, 1, k);
      assert slow * n > 0;
    }
  }

  class Collector {
    var frames: array<nat>           // frame_times_ns; its length is frame_capacity
    var count: nat
    var warmup: nat
    var interval: nat
    var first: nat
    var previous: nat
    var start: nat

    constructor (warmup: nat, interval: nat)
      ensures Valid() && previous == 0 && first == 0 && fresh(frames)
      ensures this.warmup == warmup && this.interval == interval
    {
      this.warmup, this.interval := warmup, interval;
      frames, count, first, previous, start := new nat[0], 0, 0, 0, 0;
    }

    ghost function Contents(): seq<nat>
      requires count <= frames.Length
      reads this, frames
    {
      frames[..count]
    }

    /** The stored frame times add up to the time since the interval began; until the
        first frame is timed nothing is stored. */
    ghost predicate Valid()
      reads this, frames
    {
      && count <= frames.Length && previous < U64
      && (if previous == 0 then count == 0
          else first != 0 && first <= previous && start <= previous && Sum(frames[..count]) == previous - start)
    }

    /** append_frame_time; `granted` says whether a needed allocation succeeds. */
    method Append(t: nat, granted: bool) returns (ok: bool)
      requires count <= frames.Length
      modifies this`frames, this`count, frames
      ensures count <= frames.Length && (frames == old(frames) || fresh(frames))
      ensures ok <==> old(count) < old(frames.Length) || granted
      ensures Contents() == if ok then old(Contents()) + [t] else old(Contents())
      ensures frames.Length == if ok && old(count) == old(frames.Length)
                               then (if old(frames.Length) == 0 then FIRST_CAPACITY else 2 * old(frames.Length))
                               else old(frames.Length)
    {
      ghost var was := Contents();
      if count == frames.Length {
        var capacity := if frames.Length == 0 then FIRST_CAPACITY else frames.Length * 2;
        if !granted {
          return false;
        }
        var resized := new nat[capacity];
        for i := 0 to count
          invariant fresh(resized) && resized.Length == capacity && resized[..i] == was[..i]
          invariant frames == old(frames) && count == old(count) && frames[..count] == was
        {
          resized[i] := frames[i];
        }
        frames := resized;
      }
      assert frames[..count] == was;
      frames[count] := t;
      count := count + 1;
      ok := true;
    }

    /** The summing loops of print_interval_stats; no partial sum overflows. */
    method Total(lo: nat, hi: nat) returns (total: nat)
      requires lo <= hi <= frames.Length && Sum(frames[lo..hi]) < U64
      ensures total == Sum(frames[lo..hi])
    {
      total := 0;
      for i := lo to hi
        invariant total == Sum(frames[lo..i])
      {
        assert frames[lo..i + 1] == frames[lo..i] + [frames[i]];
        SumSnoc(frames[lo..i], frames[i]);
        assert frames[lo..hi] == frames[lo..i + 1] + frames[i + 1..hi];
        SumConcat(frames[lo..i + 1], frames[i + 1..hi]);
        assert total + frames[i] < U64;
        total := total + frames[i];
      }
    }

    /** qsort on the used part of the buffer. */
    method SortFrames()
      requires count <= frames.Length
      modifies frames
      ensures frames[..count] == Sort(old(frames[..count]))
    {
      var sorted := Sort(frames[..count]);
      for i := 0 to count
        invariant frames[..i] == sorted[..i]
      {
        frames[i] := sorted[i];
      }
    }

    /** print_interval_stats on a non-empty interval. */
    method PrintStats(now: nat) returns (r: Report)
      requires Valid() && 0 < count && now == previous
      modifies this`count, this`start, frames
      ensures Valid() && count == 0 && start == now
      ensures r == ReportOf(old(Contents()), now - old(start)) && r.low <= r.average
      ensures r.average == Rate(r.frames, r.elapsed)
    {
      ghost var was := Contents();
      var total := Total(0, count);
      SortFrames();
      var slow := SlowCount(count);
      ghost var sorted := Sort(was);
      assert frames[count - slow..count] == sorted[|sorted| - slow..];
      assert sorted == sorted[..|sorted| - slow] + sorted[|sorted| - slow..];
      SumConcat(sorted[..|sorted| - slow], sorted[|sorted| - slow..]);
      var slowTotal := Total(count - slow, count);
      r := Report(Rate(count, total), Rate(slow, slowTotal), count, now - start);
      LowAtMostAverage(was, now - start);
      count, start := 0, now;
    }

    /** record_swap. */
    method RecordSwap(now: nat, granted: bool) returns (r: Option<Report>)
      requires Valid() && 0 < now < U64 && first <= now && previous <= now
      modifies this, frames
      ensures Valid() && (frames == old(frames) || fresh(frames))
      ensures warmup == old(warmup) && interval == old(interval)
      ensures first == (if old(first) == 0 then now else old(first))
      ensures now - first < warmup ==> r == None && previous == old(previous) && start == old(start)
                                       && Contents() == old(Contents())
      ensures now - first >= warmup ==> previous == now
      ensures now - first >= warmup && old(previous) == 0 ==> r == None && start == now && count == 0
      ensures now - first >= warmup && old(previous) != 0 ==>
                && r == Outcome(old(Contents()), now - old(previous), now - old(start), interval,
                                old(count) < old(frames.Length) || granted)
                && start == (if r.Some? || !(old(count) < old(frames.Length) || granted) then now else old(start))
                && Contents() == (if r.Some? || !(old(count) < old(frames.Length) || granted) then []
                                  else old(Contents()) + [now - old(previous)])
      ensures r.Some? ==> r.value.low <= r.value.average && r.value.average == Rate(r.value.frames, r.value.elapsed)
    {
      hide Sum, ReportOf, Outcome;
      SumEmpty();
      r := None;
      if first == 0 {
        first := now;
      }
      if now - first < warmup {
        return;
      }
      if previous == 0 {
        previous, start := now, now;
        assert frames[..0] == [];
        return;
      }
      r := RecordFrame(now, granted);
    }

    /** The part of record_swap that times a frame. */
    method RecordFrame(now: nat, granted: bool) returns (r: Option<Report>)
      requires Valid() && 0 < previous <= now < U64
      modifies this`frames, this`count, this`previous, this`start, frames
      ensures Valid() && (frames == old(frames) || fresh(frames)) && previous == now
      ensures r == Outcome(old(Contents()), now - old(previous), now - old(start), interval,
                           old(count) < old(frames.Length) || granted)
      ensures r.Some? ==> r.value.low <= r.value.average && count == 0
      ensures r.Some? ==> r.value.average == Rate(r.value.frames, r.value.elapsed)
      ensures start == if r.Some? || !(old(count) < old(frames.Length) || granted) then now else old(start)
      ensures Contents() == if r.Some? || !(old(count) < old(frames.Length) || granted) then []
                            else old(Contents()) + [now - old(previous)]
    {
      hide Sum, ReportOf;
      r := None;
      var t := now - previous;
      SumSnoc(Contents(), t);
      SumEmpty();
      var ok := Append(t, granted);
      previous := now;
      if !ok {
        count, start := 0, now;
        assert frames[..0] == [];
      } else if now - start >= interval {
        var report := PrintStats(now);
        r := Some(report);
      }
    }
  }

  /** The frame times between consecutive swaps. */
  function Diffs(s: seq<nat>): (d: seq<nat>)
    requires Ascending(s)
    ensures |d| == if s == [] then 0 else |s| - 1
  {
    if |s| < 2 then [] else Diffs(s[..|s| - 1]) + [s[|s| - 1] - s[|s| - 2]]
  }

  lemma DiffsSnoc(times: seq<nat>, a: nat, i: nat)
    requires Ascending(times) && a < i < |times|
    ensures Ascending(times[a..i]) && Ascending(times[a..i + 1])
    ensures Diffs(times[a..i + 1]) == Diffs(times[a..i]) + [times[i] - times[i - 1]]
  {
    var s := times[a..i + 1];
    assert s[..|s| - 1] == times[a..i];
    assert s[|s| - 1] == times[i] && s[|s| - 2] == times[i - 1];
  }

  /** A report on the frames between swap `a` and swap `b`, which lie after the warm-up and
      at least an interval apart. */
  ghost predicate Covers(r: Report, times: seq<nat>, a: nat, b: nat, warmup: nat, interval: nat) {
    && a < b < |times| && Ascending(times[a..b + 1]) && times[0] <= times[a] <= times[b]
    && times[a] - times[0] >= warmup && times[b] - times[a] >= interval
    && r == ReportOf(Diffs(times[a..b + 1]), times[b] - times[a])
    && r.frames == b - a && r.elapsed == times[b] - times[a] && r.average == Rate(b - a, times[b] - times[a])
    && r.low <= r.average
  }

  /** Every report covers swaps of its own, one after the other. */
  ghost predicate AllCover(reports: seq<Report>, spans: seq<(nat, nat)>, times: seq<nat>, warmup: nat, interval: nat) {
    && |spans| == |reports|
    && (forall k :: 0 <= k < |reports| ==> Covers(reports[k], times, spans[k].0, spans[k].1, warmup, interval))
    && (forall j, k :: 0 <= j < k < |spans| ==> spans[j].1 <= spans[k].0)
  }

  ghost predicate EndBy(spans: seq<(nat, nat)>, a: nat) {
    forall k :: 0 <= k < |spans| ==> spans[k].1 <= a
  }

  /** After the swaps before `i`, the interval under way began at swap `a`. */
  ghost predicate Timing(c: Collector, times: seq<nat>, a: nat, i: nat)
    requires Ascending(times)
    reads c, c.frames
  {
    && a < i <= |times| && c.count <= c.frames.Length && Ascending(times[a..i])
    && c.first == times[0] && c.previous == times[i - 1] && c.start == times[a] && times[a] - times[0] >= c.warmup
    && c.Contents() == Diffs(times[a..i])
  }

  /** For every non-decreasing sequence of non-zero swap times and every pattern of failed
      allocations, the stored frame times add up after each swap, and each report tells of
      the frames between two swaps. */
  method Collect(times: seq<nat>, granted: seq<bool>, warmup: nat, interval: nat)
    returns (c: Collector, reports: seq<Report>, ghost spans: seq<(nat, nat)>)
    requires |granted| == |times|
    requires forall i :: 0 <= i < |times| ==> 0 < times[i] < U64
    requires Ascending(times)
    ensures c.Valid()
    ensures AllCover(reports, spans, times, warmup, interval)
  {
    hide Sum, ReportOf, Diffs, Covers, Outcome, AllCover, EndBy;
    NothingReported(times, warmup, interval);
    c := new Collector(warmup, interval);
    reports, spans := [], [];
    ghost var a := 0;
    for i := 0 to |times|
      invariant fresh(c) && fresh(c.frames) && c.Valid() && c.warmup == warmup && c.interval == interval
      invariant c.first == if i == 0 then 0 else times[0]
      invariant c.previous != 0 ==> Timing(c, times, a, i)
      invariant AllCover(reports, spans, times, warmup, interval) && EndBy(spans, a) && a <= i
    {
      if c.previous != 0 {
        DiffsSnoc(times, a, i);
        OutcomeGives(c.Contents(), times[i] - c.previous, times[i] - c.start, interval,
                     c.count < c.frames.Length || granted[i]);
      }
      SingleSwap(times, i);
      EndsLater(spans, a, i);
      var r := c.RecordSwap(times[i], granted[i]);
      if r.Some? {
        Reported(r.value, times, a, i, warmup, interval);
        OneMoreReport(reports, spans, times, warmup, interval, r.value, a, i);
        reports, spans := reports + [r.value], spans + [(a, i)];
        a := i;
      } else if c.previous != 0 && c.count == 0 {
        a := i;
      }
    }
  }

  lemma NothingReported(times: seq<nat>, warmup: nat, interval: nat)
    ensures AllCover([], [], times, warmup, interval) && EndBy([], 0)
  {
  }

  lemma OutcomeGives(s: seq<nat>, t: nat, elapsed: nat, interval: nat, stored: bool)
    ensures Outcome(s, t, elapsed, interval, stored).Some? ==>
              elapsed >= interval && Outcome(s, t, elapsed, interval, stored).value == ReportOf(s + [t], elapsed)
  {
  }

  lemma EndsLater(spans: seq<(nat, nat)>, a: nat, b: nat)
    requires EndBy(spans, a) && a <= b
    ensures EndBy(spans, b) && EndBy(spans + [(a, b)], b)
  {
  }

  lemma OneMoreReport(reports: seq<Report>, spans: seq<(nat, nat)>, times: seq<nat>, warmup: nat, interval: nat,
                      r: Report, a: nat, b: nat)
    requires AllCover(reports, spans, times, warmup, interval) && EndBy(spans, a)
    requires Covers(r, times, a, b, warmup, interval)
    ensures AllCover(reports + [r], spans + [(a, b)], times, warmup, interval)
  {
    hide Covers;
  }

  lemma SingleSwap(times: seq<nat>, i: nat)
    requires i < |times|
    ensures Ascending(times[i..i + 1]) && Diffs(times[i..i + 1]) == []
  {
  }

  lemma Reported(r: Report, times: seq<nat>, a: nat, b: nat, warmup: nat, interval: nat)
    requires Ascending(times) && a < b < |times| && Ascending(times[a..b + 1])
    requires times[0] <= times[a] <= times[b] && times[a] - times[0] >= warmup && times[b] - times[a] >= interval
    requires r == ReportOf(Diffs(times[a..b + 1]), times[b] - times[a])
    requires r.low <= r.average && r.average == Rate(r.frames, r.elapsed)
    ensures Covers(r, times, a, b, warmup, interval)
  {
  }
}
