/** The statistics screens. The current one (`cordis/Views/StatsView.swift`) restricts
    the measurements, newest first, to a chosen period and shows their mean, smallest and
    largest BPM and a chart whose vertical scale leaves ten BPM of room on either side;
    the earlier one (`cordis/StatsView.swift`) shows the mean of all measurements and a
    chart when there is anything to draw. `monthAgo` is what the calendar answers for one
    month before now. */
module Stats {
  import opened Wrappers
  import opened Seqs
  import opened Classification
  import opened Entries

  datatype Period = Week | Month | AllTime

  /** `filteredEntries`. */
  function Filtered(entries: seq<StressEntry>, period: Period, now: int, monthAgo: int): (r: seq<StressEntry>)
    ensures period == AllTime ==> r == entries
    ensures period == Week ==> forall e :: e in r <==> e in entries && e.timestamp >= now - SevenDays
    ensures period == Month ==> forall e :: e in r <==> e in entries && e.timestamp >= monthAgo
  {
    match period
    case Week => Since(entries, now - SevenDays)
    case Month => Since(entries, monthAgo)
    case AllTime => entries
  }

  /** A longer period never shows fewer measurements: with a month reaching back at least
      a week, the week's entries are among the month's, and those among all. */
  lemma PeriodsNest(entries: seq<StressEntry>, now: int, monthAgo: int, e: StressEntry)
    requires monthAgo <= now - SevenDays
    ensures e in Filtered(entries, Week, now, monthAgo) ==> e in Filtered(entries, Month, now, monthAgo)
    ensures e in Filtered(entries, Month, now, monthAgo) ==> e in Filtered(entries, AllTime, now, monthAgo)
  {
  }

  /** Every period keeps the newest-first order of the query. */
  lemma FilteredKeepsNewestFirst(entries: seq<StressEntry>, period: Period, now: int, monthAgo: int)
    requires SortedBy(entries, NegTimestamp)
    ensures SortedBy(Filtered(entries, period, now, monthAgo), NegTimestamp)
  {
    match period
    case Week => SinceKeepsNewestFirst(entries, now - SevenDays);
    case Month => SinceKeepsNewestFirst(entries, monthAgo);
    case AllTime =>
  }

  /** `promedio`: the mean BPM as a `Double`, 0 with no entries. It lies between the
      smallest and the largest BPM. */
  function Average(entries: seq<StressEntry>): (a: real)
    ensures |entries| == 0 ==> a == 0.0
  {
    if |entries| == 0 then 0.0 else Mean(Bpms(entries))
  }

  /** The real mean of a non-empty list of integers. */
  function Mean(b: seq<int>): real
    requires |b| > 0
  {
    Sum(b) as real / |b| as real
  }

  /** The average of a non-empty list lies between its smallest and largest BPM. */
  lemma AverageBetween(entries: seq<StressEntry>)
    ensures |entries| > 0 ==> MinOf(Bpms(entries)) as real <= Average(entries) <= MaxOf(Bpms(entries)) as real
  {
    if |entries| > 0 {
      MeanBetween(Bpms(entries));
    }
  }

  /** The average is the mean: times the number of measurements it gives their total. */
  lemma AverageTimesCount(entries: seq<StressEntry>)
    ensures Average(entries) * |entries| as real == Sum(Bpms(entries)) as real
  {
    var b := Bpms(entries);
    if |entries| == 0 {
      assert b == [];
    } else {
      DivTimes(Mean(b), Sum(b), |b|);
    }
  }

  lemma DivTimes(a: real, s: int, n: int)
    requires 0 < n && a == s as real / n as real
    ensures a * n as real == s as real
  {
  }

  lemma MeanBetween(b: seq<int>)
    requires |b| > 0
    ensures MinOf(b) as real <= Sum(b) as real / |b| as real <= MaxOf(b) as real
  {
    SumBetweenExtremes(b);
    RealMeanBetween(MinOf(b), Sum(b), MaxOf(b), |b|);
  }

  lemma RealMeanBetween(lo: int, s: int, hi: int, n: int)
    requires 0 < n && lo * n <= s <= hi * n
    ensures lo as real <= s as real / n as real <= hi as real
  {
    CastBounds(lo, s, hi, n);
    DivBounds(lo as real, s as real, hi as real, n as real);
  }

  lemma CastBounds(lo: int, s: int, hi: int, n: int)
    requires lo * n <= s <= hi * n
    ensures lo as real * n as real <= s as real <= hi as real * n as real
  {
    CastMul(lo, n);
    CastMul(hi, n);
  }

  lemma CastMul(x: int, y: int)
    ensures (x * y) as real == x as real * y as real
  {
  }

  lemma DivBounds(lo: real, s: real, hi: real, n: real)
    requires 0.0 < n && lo * n <= s <= hi * n
    ensures lo <= s / n <= hi
  {
    assert s / n - lo == (s - lo * n) / n;
    assert hi - s / n == (hi * n - s) / n;
  }

  /** `minBPM`: the smallest BPM shown, 0 with none. */
  function MinBpm(entries: seq<StressEntry>): (m: int)
    ensures |entries| == 0 ==> m == 0
    ensures |entries| > 0 ==> m in Bpms(entries) && forall e :: e in entries ==> m <= e.bpm
  {
    if |entries| == 0 then 0 else MinOf(Bpms(entries))
  }

  /** `maxBPM`: the largest BPM shown, 0 with none. */
  function MaxBpm(entries: seq<StressEntry>): (m: int)
    ensures |entries| == 0 ==> m == 0
    ensures |entries| > 0 ==> m in Bpms(entries) && forall e :: e in entries ==> e.bpm <= m
  {
    if |entries| == 0 then 0 else MaxOf(Bpms(entries))
  }

  /** The vertical scale of the chart: drawn only when there are entries, and then every
      point sits at least ten BPM inside it, the extreme ones exactly ten. */
  function ChartDomain(entries: seq<StressEntry>): (d: Option<(int, int)>)
    ensures d.Some? <==> |entries| > 0
    ensures d.Some? ==> forall e :: e in entries ==> d.value.0 + 10 <= e.bpm <= d.value.1 - 10
    ensures d.Some? ==> (d.value.0 + 10) in Bpms(entries) && (d.value.1 - 10) in Bpms(entries)
  {
    if |entries| == 0 then None else Some((MinBpm(entries) - 10, MaxBpm(entries) + 10))
  }

  /** What the current screen shows. The entry count is of all measurements, whatever
      the period. */
  datatype Summary = Summary(average: real, minBpm: int, maxBpm: int, domain: Option<(int, int)>, total: nat)

  function Summarize(entries: seq<StressEntry>, period: Period, now: int, monthAgo: int): (s: Summary)
    ensures var f := Filtered(entries, period, now, monthAgo);
      && s.average == Average(f) && s.minBpm == MinBpm(f) && s.maxBpm == MaxBpm(f)
      && s.domain == ChartDomain(f)
    ensures s.total == |entries|
    ensures s.domain.Some? ==> s.minBpm as real <= s.average <= s.maxBpm as real
  {
    var f := Filtered(entries, period, now, monthAgo);
    AverageBetween(f);
    Summary(Average(f), MinBpm(f), MaxBpm(f), ChartDomain(f), |entries|)
  }

  /** The earlier screen: the mean of all measurements and whether a chart is drawn. */
  datatype LegacySummary = LegacySummary(average: real, chart: bool)

  function LegacySummarize(entries: seq<StressEntry>): (s: LegacySummary)
    ensures s.chart <==> |entries| > 0
    ensures !s.chart ==> s.average == 0.0
  {
    LegacySummary(Average(entries), |entries| > 0)
  }

  /** The earlier screen shows what the current one shows for the whole history. */
  lemma LegacyIsAllTime(entries: seq<StressEntry>, now: int, monthAgo: int)
    ensures LegacySummarize(entries).average == Summarize(entries, AllTime, now, monthAgo).average
    ensures LegacySummarize(entries).chart <==> Summarize(entries, AllTime, now, monthAgo).domain.Some?
  {
  }
}
