/** Approval latency on the usage dashboard (summarizeLatency and percentile in
    pkg/api/dashboard_usage.go), over the reals. */
module Percentile {
  import StableSort

  predicate Ascending(s: seq<real>) {
    forall i, j | 0 <= i < j < |s| :: s[i] <= s[j]
  }

  /** q * n, as a sum: multiplication by a count. */
  function Times(q: real, n: nat): real {
    if n == 0 then 0.0 else Times(q, n - 1) + q
  }

  lemma {:induction false} TimesIsProduct(q: real, n: nat)
    ensures Times(q, n) == q * n as real
  {
    if n > 0 {
      TimesIsProduct(q, n - 1);
      assert q * n as real == q * ((n - 1) as real) + q;
    }
  }

  lemma {:induction false} TimesRises(p: real, q: real, n: nat)
    requires p <= q
    ensures Times(p, n) <= Times(q, n)
    ensures Times(0.0, n) == 0.0 && Times(1.0, n) == n as real
  {
    if n > 0 {
      TimesRises(p, q, n - 1);
    }
  }

  /** percentile, branch by branch. */
  function Percentile(sorted: seq<real>, q: real): real {
    if |sorted| == 0 then 0.0
    else if q <= 0.0 then sorted[0]
    else if q >= 1.0 then sorted[|sorted| - 1]
    else if |sorted| == 1 then sorted[0]
    else
      TimesRises(0.0, q, |sorted| - 1);
      TimesRises(q, 1.0, |sorted| - 1);
      At(sorted, Times(q, |sorted| - 1))
  }

  lemma MulNonNegative(x: real, y: real)
    requires 0.0 <= x && 0.0 <= y
    ensures 0.0 <= x * y
  {}

  /** The samples joined by straight lines, at any position from the first to the last. */
  function At(sorted: seq<real>, pos: real): real
    requires sorted != [] && 0.0 <= pos <= (|sorted| - 1) as real
  {
    var low := pos.Floor;
    var high := low + 1;
    if high >= |sorted| then sorted[|sorted| - 1]
    else Line(sorted[low], sorted[high], pos - low as real)
  }

  function Line(a: real, b: real, weight: real): real {
    a + (b - a) * weight
  }

  /** A line does not leave the span of its ends, and rises when they do. */
  lemma LineRises(a: real, b: real, v: real, w: real)
    requires a <= b && 0.0 <= v <= w <= 1.0
    ensures a <= Line(a, b, v) <= Line(a, b, w) <= b
  {
    MulNonNegative(b - a, v);
    MulNonNegative(b - a, w - v);
    MulNonNegative(b - a, 1.0 - w);
  }

  lemma LineStarts(a: real, b: real)
    ensures Line(a, b, 0.0) == a
  {}

  /** Between two neighbouring samples. */
  lemma AtBetween(sorted: seq<real>, pos: real)
    requires sorted != [] && Ascending(sorted) && 0.0 <= pos <= (|sorted| - 1) as real
    ensures 0 <= pos.Floor < |sorted| && sorted[pos.Floor] <= At(sorted, pos)
    ensures pos.Floor + 1 < |sorted| ==> At(sorted, pos) <= sorted[pos.Floor + 1]
    ensures pos.Floor + 1 == |sorted| ==> At(sorted, pos) == sorted[pos.Floor]
  {
    var low := pos.Floor;
    if low + 1 < |sorted| {
      LineRises(sorted[low], sorted[low + 1], pos - low as real, pos - low as real);
    }
  }

  /** Joining the samples keeps their order, within one gap and across any number of them. */
  lemma AtMonotone(sorted: seq<real>, x: real, y: real)
    requires sorted != [] && Ascending(sorted) && 0.0 <= x <= y <= (|sorted| - 1) as real
    ensures At(sorted, x) <= At(sorted, y)
  {
    AtBetween(sorted, x);
    AtBetween(sorted, y);
    var low := x.Floor;
    if low < y.Floor {
      assert sorted[low + 1] <= sorted[y.Floor];
    } else if low + 1 < |sorted| {
      LineRises(sorted[low], sorted[low + 1], x - low as real, y - low as real);
    }
  }

  function Clip(q: real): real {
    if q <= 0.0 then 0.0 else if q >= 1.0 then 1.0 else q
  }

  lemma AtSample(sorted: seq<real>, k: nat)
    requires k < |sorted|
    ensures At(sorted, k as real) == sorted[k]
  {
    assert (k as real).Floor == k;
    if k + 1 < |sorted| {
      LineStarts(sorted[k], sorted[k + 1]);
    }
  }

  /** The shortcuts agree with the line through the samples. */
  lemma PercentileIsOnTheLine(sorted: seq<real>, q: real)
    requires sorted != []
    ensures 0.0 <= Times(Clip(q), |sorted| - 1) <= (|sorted| - 1) as real
    ensures Percentile(sorted, q) == At(sorted, Times(Clip(q), |sorted| - 1))
  {
    TimesRises(0.0, Clip(q), |sorted| - 1);
    TimesRises(Clip(q), 1.0, |sorted| - 1);
    AtSample(sorted, 0);
    AtSample(sorted, |sorted| - 1);
  }

  /** A higher percentile is never smaller. */
  lemma PercentileMonotone(sorted: seq<real>, p: real, q: real)
    requires Ascending(sorted) && p <= q
    ensures Percentile(sorted, p) <= Percentile(sorted, q)
  {
    if sorted != [] {
      PercentileIsOnTheLine(sorted, p);
      PercentileIsOnTheLine(sorted, q);
      TimesRises(Clip(p), Clip(q), |sorted| - 1);
      AtMonotone(sorted, Times(Clip(p), |sorted| - 1), Times(Clip(q), |sorted| - 1));
    }
  }

  /** It lies between the smallest sample and the largest. */
  lemma PercentileInRange(sorted: seq<real>, q: real)
    requires sorted != [] && Ascending(sorted)
    ensures sorted[0] <= Percentile(sorted, q) <= sorted[|sorted| - 1]
  {
    PercentileMonotone(sorted, if q < 0.0 then q else 0.0, q);
    PercentileMonotone(sorted, q, if q > 1.0 then q else 1.0);
  }

  /** At every k-th of n-1 equal steps it is the k-th sample itself. */
  lemma PercentileHitsSamples(sorted: seq<real>, k: nat, q: real)
    requires k < |sorted| && 0.0 <= q <= 1.0 && Times(q, |sorted| - 1) == k as real
    ensures Percentile(sorted, q) == sorted[k]
  {
    PercentileIsOnTheLine(sorted, q);
    AtSample(sorted, k);
  }

  /** And between two samples it shares the gap out evenly: at low and a fraction of it, the two
      samples count with the fraction and its complement. */
  lemma PercentileSharesTheGap(sorted: seq<real>, q: real, low: nat, fraction: real)
    requires low + 1 < |sorted| && 0.0 <= q <= 1.0 && 0.0 <= fraction < 1.0
    requires q * (|sorted| - 1) as real == low as real + fraction
    ensures Percentile(sorted, q) == sorted[low] * (1.0 - fraction) + sorted[low + 1] * fraction
  {
    TimesIsProduct(q, |sorted| - 1);
    PercentileIsOnTheLine(sorted, q);
    var pos := Times(Clip(q), |sorted| - 1);
    assert Clip(q) == q;
    assert pos == low as real + fraction && pos.Floor == low;
    assert At(sorted, pos) == Line(sorted[low], sorted[low + 1], fraction);
    Shared(sorted[low], sorted[low + 1], fraction);
  }

  lemma Shared(a: real, b: real, w: real)
    ensures Line(a, b, w) == a * (1.0 - w) + b * w
  {
    assert (b - a) * w == b * w - a * w;
    assert a * (1.0 - w) == a - a * w;
  }

  // ---------- the summary ----------

  datatype Latency = Latency(size: nat, average: real, p50: real, p95: real)

  function Sum(s: seq<real>): real {
    if s == [] then 0.0 else Sum(s[..|s| - 1]) + s[|s| - 1]
  }

  lemma {:induction false} SumBetween(s: seq<real>, low: real, high: real)
    requires forall i | 0 <= i < |s| :: low <= s[i] <= high
    ensures Times(low, |s|) <= Sum(s) <= Times(high, |s|)
  {
    if s != [] {
      SumBetween(s[..|s| - 1], low, high);
    }
  }

  predicate Below(a: real, b: real) {
    a < b
  }

  function Sorted(samples: seq<real>): seq<real> {
    StableSort.Sort(samples, Below)
  }

  lemma SortedIsAscending(samples: seq<real>)
    ensures Ascending(Sorted(samples)) && multiset(Sorted(samples)) == multiset(samples)
    ensures |Sorted(samples)| == |samples|
  {
    StableSort.SortSorts(samples, Below);
    StableSort.SortPermutes(samples, Below);
    var s := Sorted(samples);
    assert |s| == |multiset(s)| && |samples| == |multiset(samples)|;
    forall i, j | 0 <= i < j < |s| ensures s[i] <= s[j] {
      assert !Below(s[j], s[i]);
    }
  }

  lemma SortedInRange(samples: seq<real>, low: real, high: real)
    requires forall x | x in samples :: low <= x <= high
    ensures |Sorted(samples)| == |samples|
    ensures forall i | 0 <= i < |samples| :: low <= Sorted(samples)[i] <= high
  {
    SortedIsAscending(samples);
    forall i | 0 <= i < |samples| ensures Sorted(samples)[i] in samples {
      assert Sorted(samples)[i] in multiset(Sorted(samples));
    }
  }

  method Total(samples: seq<real>) returns (sum: real)
    ensures sum == Sum(samples)
  {
    sum := 0.0;
    for i := 0 to |samples|
      invariant sum == Sum(samples[..i])
    {
      assert samples[..i + 1][..i] == samples[..i];
      sum := sum + samples[i];
    }
    assert samples[..|samples|] == samples;
  }

  lemma Quotient(sum: real, n: nat)
    requires n > 0
    ensures Times(sum / n as real, n) == sum
  {
    TimesIsProduct(sum / n as real, n);
  }

  method SummarizeLatency(samples: seq<real>) returns (r: Latency)
    ensures samples == [] ==> r == Latency(0, 0.0, 0.0, 0.0)
    ensures samples != [] ==>
              && r.size == |samples| && Times(r.average, |samples|) == Sum(Sorted(samples))
              && r.p50 == Percentile(Sorted(samples), 0.5) && r.p95 == Percentile(Sorted(samples), 0.95)
  {
    if |samples| == 0 {
      return Latency(0, 0.0, 0.0, 0.0);
    }
    var sorted := Sorted(samples);
    var sum := Total(sorted);
    var average := sum / |samples| as real;
    Quotient(sum, |samples|);
    r := Latency(|samples|, average, Percentile(sorted, 0.5), Percentile(sorted, 0.95));
  }

  /** The summary's figures are in order and in range, whatever order the samples came in. */
  lemma PercentilesInRange(samples: seq<real>, low: real, high: real)
    requires samples != [] && forall x | x in samples :: low <= x <= high
    ensures low <= Percentile(Sorted(samples), 0.5) <= Percentile(Sorted(samples), 0.95) <= high
  {
    var s := Sorted(samples);
    SortedIsAscending(samples);
    SortedInRange(samples, low, high);
    PercentileInRange(s, 0.5);
    PercentileInRange(s, 0.95);
    PercentileMonotone(s, 0.5, 0.95);
  }

  lemma AverageInRange(samples: seq<real>, average: real, low: real, high: real)
    requires samples != [] && forall x | x in samples :: low <= x <= high
    requires Times(average, |samples|) == Sum(Sorted(samples))
    ensures low <= average <= high
  {
    var s := Sorted(samples);
    SortedInRange(samples, low, high);
    SumBetween(s, low, high);
    TimesReflects(average, low, |s|);
    TimesReflects(high, average, |s|);
  }

  lemma {:induction false} TimesReflects(p: real, q: real, n: nat)
    requires n > 0 && Times(p, n) >= Times(q, n)
    ensures p >= q
  {
    if n > 1 && Times(p, n - 1) >= Times(q, n - 1) {
      TimesReflects(p, q, n - 1);
    }
  }

  lemma HeadIsLeast(a: seq<real>, x: real)
    requires Ascending(a) && x in multiset(a)
    ensures a[0] <= x && a[0] in multiset(a)
    ensures multiset(a[1..]) == multiset(a) - multiset{a[0]} && Ascending(a[1..])
  {
    assert a == [a[0]] + a[1..];
    var i :| 0 <= i < |a| && a[i] == x;
  }

  /** Ascending sequences of the same samples are the same sequence. */
  lemma {:induction false} AscendingIsUnique(a: seq<real>, b: seq<real>)
    requires Ascending(a) && Ascending(b) && multiset(a) == multiset(b)
    ensures a == b
  {
    assert a == [] || a[0] in multiset(b);
    assert b == [] || b[0] in multiset(a);
    if a != [] && b != [] {
      TailsMatch(a, b);
      AscendingIsUnique(a[1..], b[1..]);
      assert a == [a[0]] + a[1..] && b == [b[0]] + b[1..];
    }
  }

  lemma TailsMatch(a: seq<real>, b: seq<real>)
    requires Ascending(a) && Ascending(b) && multiset(a) == multiset(b) && a != [] && b != []
    ensures a[0] == b[0] && multiset(a[1..]) == multiset(b[1..])
    ensures Ascending(a[1..]) && Ascending(b[1..])
  {
    assert a[0] in multiset(a) && b[0] in multiset(b);
    HeadIsLeast(a, b[0]);
    HeadIsLeast(b, a[0]);
  }

  lemma OrderDoesNotMatter(a: seq<real>, b: seq<real>)
    requires multiset(a) == multiset(b)
    ensures Sorted(a) == Sorted(b)
  {
    SortedIsAscending(a);
    SortedIsAscending(b);
    AscendingIsUnique(Sorted(a), Sorted(b));
  }
}
