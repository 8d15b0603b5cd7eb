/** The history screens (`cordis/Views/HistoryView.swift` and the earlier
    `cordis/HistoryView.swift`, whose windows, grouping and key order are the same).
    The measurements, newest first, are restricted to a time window, grouped by the
    start of their week and listed week by week, latest week first; a measurement can be
    deleted. The calendar is a parameter: `Clock` holds what it answers for the moment
    of reading, and `weekOf` is its start-of-week computation, left uninterpreted. */
module History {
  import opened Wrappers
  import opened Text
  import opened Seqs
  import opened Classification
  import opened Streak
  import opened Entries
  import opened Home
  import opened LegacyHome

  datatype RangeFilter = Last7Days | LastMonth | LastYear | All

  /** The start of today, one month ago and one year ago, as the calendar gives them. */
  datatype Clock = Clock(todayStart: int, monthAgo: int, yearAgo: int)

  /** The window's first instant: six days before the start of today, a month or a year
      back, or no bound. */
  function WindowStart(f: RangeFilter, c: Clock): (r: Option<int>)
    ensures f == All <==> r.None?
    ensures f == Last7Days ==> r == Some(c.todayStart - 6 * SecondsPerDay)
  {
    match f
    case Last7Days => Some(c.todayStart - 6 * SecondsPerDay)
    case LastMonth => Some(c.monthAgo)
    case LastYear => Some(c.yearAgo)
    case All => None
  }

  /** `filteredEntries`. */
  function Filtered(entries: seq<StressEntry>, f: RangeFilter, c: Clock): (r: seq<StressEntry>)
    ensures f == All ==> r == entries
    ensures f != All ==> forall e :: e in r <==> e in entries && e.timestamp >= WindowStart(f, c).value
    ensures multiset(r) <= multiset(entries)
  {
    match WindowStart(f, c)
    case None => entries
    case Some(from) => Since(entries, from)
  }

  /** The windows are nested when the calendar's answers are: the week lies in the
      month, the month in the year. */
  lemma WindowsNest(entries: seq<StressEntry>, c: Clock, e: StressEntry)
    requires c.yearAgo <= c.monthAgo <= c.todayStart - 6 * SecondsPerDay
    ensures e in Filtered(entries, Last7Days, c) ==> e in Filtered(entries, LastMonth, c)
    ensures e in Filtered(entries, LastMonth, c) ==> e in Filtered(entries, LastYear, c)
    ensures e in Filtered(entries, LastYear, c) ==> e in Filtered(entries, All, c)
  {
  }

  /** Every window keeps the newest-first order of the query. */
  lemma FilteredKeepsNewestFirst(entries: seq<StressEntry>, f: RangeFilter, c: Clock)
    requires SortedBy(entries, NegTimestamp)
    ensures SortedBy(Filtered(entries, f, c), NegTimestamp)
  {
    match WindowStart(f, c)
    case None =>
    case Some(from) => SinceKeepsNewestFirst(entries, from);
  }

  /** One week's measurements, newest first. */
  function Group(entries: seq<StressEntry>, weekOf: int -> int, k: int): (r: seq<StressEntry>)
    ensures SortedBy(r, NegTimestamp)
    ensures forall e :: multiset(r)[e] == if weekOf(e.timestamp) == k then multiset(entries)[e] else 0
  {
    SortBy(Filter(entries, (e: StressEntry) => weekOf(e.timestamp) == k), NegTimestamp)
  }

  /** The weeks that hold at least one measurement. */
  function Weeks(entries: seq<StressEntry>, weekOf: int -> int): set<int> {
    set e | e in entries :: weekOf(e.timestamp)
  }

  /** `groupedByWeek`: one group per week that has measurements, keyed by its start. */
  function Grouped(entries: seq<StressEntry>, weekOf: int -> int): (g: map<int, seq<StressEntry>>)
    ensures forall k :: k in g <==> exists e :: e in entries && weekOf(e.timestamp) == k
    ensures forall k :: k in g ==> g[k] == Group(entries, weekOf, k)
  {
    map k | k in Weeks(entries, weekOf) :: Group(entries, weekOf, k)
  }

  /** Every measurement appears in exactly one group, its own week's, as often as it is
      stored; no group is empty. */
  lemma EachEntryInOneGroup(entries: seq<StressEntry>, weekOf: int -> int, e: StressEntry)
    requires e in entries
    ensures weekOf(e.timestamp) in Grouped(entries, weekOf)
    ensures multiset(Grouped(entries, weekOf)[weekOf(e.timestamp)])[e] == multiset(entries)[e]
    ensures forall k :: k in Grouped(entries, weekOf) && e in Grouped(entries, weekOf)[k] ==> k == weekOf(e.timestamp)
    ensures forall k :: k in Grouped(entries, weekOf) ==> |Grouped(entries, weekOf)[k]| > 0
  {
    var g := Grouped(entries, weekOf);
    forall k | k in g && e in g[k]
      ensures k == weekOf(e.timestamp)
    {
      assert multiset(g[k])[e] > 0;
    }
    forall k | k in g
      ensures |g[k]| > 0
    {
      var x :| x in entries && weekOf(x.timestamp) == k;
      assert multiset(g[k])[x] == multiset(entries)[x] > 0;
    }
  }

  /** Strictly decreasing: the order of `sorted(by: >)` over distinct keys. */
  ghost predicate Descending(s: seq<int>) {
    forall i, j :: 0 <= i < j < |s| ==> s[i] > s[j]
  }

  /** Adds a key to a descending list unless it is there already. */
  function InsertDescending(x: int, s: seq<int>): (r: seq<int>)
    requires Descending(s)
    ensures Descending(r)
    ensures forall y :: y in r <==> y == x || y in s
  {
    if |s| == 0 then [x]
    else if x == s[0] then s
    else if x > s[0] then [x] + s
    else
      var tail := s[1..];
      assert Descending(tail) by {
        forall i, j | 0 <= i < j < |tail|
          ensures tail[i] > tail[j]
        {
          assert tail[i] == s[i + 1] && tail[j] == s[j + 1];
        }
      }
      var rest := InsertDescending(x, tail);
      forall j | 0 <= j < |rest|
        ensures s[0] > rest[j]
      {
        if rest[j] != x {
          assert rest[j] in tail;
          var i :| 0 <= i < |tail| && tail[i] == rest[j];
          assert tail[i] == s[i + 1];
        }
      }
      var r := [s[0]] + rest;
      assert forall i, j :: 0 < i < j < |r| ==> r[i] == rest[i - 1] && r[j] == rest[j - 1];
      r
  }

  /** The distinct weeks of the given measurements, latest first. */
  function SortedWeeks(entries: seq<StressEntry>, weekOf: int -> int): (r: seq<int>)
    ensures Descending(r)
    ensures forall k :: k in r <==> exists e :: e in entries && weekOf(e.timestamp) == k
  {
    if |entries| == 0 then []
    else
      var rest := SortedWeeks(entries[1..], weekOf);
      assert forall e :: e in entries <==> e == entries[0] || e in entries[1..];
      InsertDescending(weekOf(entries[0].timestamp), rest)
  }

  /** `weekKeys`: the keys of the grouping, each once, latest week first. */
  function WeekKeys(entries: seq<StressEntry>, weekOf: int -> int): (r: seq<int>)
    ensures Descending(r)
    ensures forall k :: k in r <==> k in Grouped(entries, weekOf)
  {
    SortedWeeks(entries, weekOf)
  }

  /** The empty state is shown exactly when the window holds no measurement, which is
      exactly when there is no week to list. */
  function ShowsEmptyState(entries: seq<StressEntry>, f: RangeFilter, c: Clock): bool {
    |Filtered(entries, f, c)| == 0
  }

  lemma EmptyStateIffNoWeeks(entries: seq<StressEntry>, f: RangeFilter, c: Clock, weekOf: int -> int)
    ensures ShowsEmptyState(entries, f, c) <==> |WeekKeys(Filtered(entries, f, c), weekOf)| == 0
  {
    var fl := Filtered(entries, f, c);
    if |fl| > 0 {
      assert weekOf(fl[0].timestamp) in WeekKeys(fl, weekOf);
    }
  }

  /** `weekHeader(for:)`: the week runs from its start to the day six days later. */
  function WeekEnd(weekStart: int): (r: int)
    ensures DayOf(r) == DayOf(weekStart) + 6
    ensures r - weekStart == 6 * SecondsPerDay
  {
    weekStart + 6 * SecondsPerDay
  }

  /** The localisation key of a stored label on the current history screen. */
  function HistoryKey(l: Level): string {
    match l
    case Excellent => "stress_excellent"
    case Normal => "stress_normal"
    case Elevated => "stress_elevated"
    case Arrhythmia => "stress_very_high"
    case CardiacArrest => "stress_very_low"
  }

  /** `localizedStressLevel(_:)` of the current history screen: case-insensitive, with
      "muy elevado" and "muy bajo" accepted beside the five stored labels. */
  function HistoryLevel(raw: string): (r: ShownLevel)
    ensures forall l :: raw == LevelText(l) ==> r == Keyed(HistoryKey(l))
    ensures Lowercase(raw) == "muy elevado" ==> r == Keyed("stress_very_high")
    ensures Lowercase(raw) == "muy bajo" ==> r == Keyed("stress_very_low")
    ensures r.Raw? ==> r.text == raw
    ensures r.Raw? <==>
              && (forall l :: Lowercase(raw) != Lowercase(LevelText(l)))
              && Lowercase(raw) != "muy elevado" && Lowercase(raw) != "muy bajo"
  {
    LabelsLowercase();
    assert LevelText(Excellent) == "Excelente" && LevelText(Normal) == "Normal";
    assert LevelText(Elevated) == "Elevado" && LevelText(Arrhythmia) == "arritmia";
    assert LevelText(CardiacArrest) == "paro cardiaco";
    match Lowercase(raw)
    case "excelente" => Keyed("stress_excellent")
    case "normal" => Keyed("stress_normal")
    case "elevado" => Keyed("stress_elevated")
    case "muy elevado" => Keyed("stress_very_high")
    case "arritmia" => Keyed("stress_very_high")
    case "muy bajo" => Keyed("stress_very_low")
    case "paro cardiaco" => Keyed("stress_very_low")
    case _ => Raw(raw)
  }

  /** The lookup ignores case: two texts that lower-case alike get the same result,
      unless neither is a known label, when each is shown as it is. */
  lemma HistoryLevelIgnoresCase(a: string, b: string)
    requires Lowercase(a) == Lowercase(b)
    ensures HistoryLevel(a).Keyed? <==> HistoryLevel(b).Keyed?
    ensures HistoryLevel(a).Keyed? ==> HistoryLevel(a) == HistoryLevel(b)
  {
  }

  /** The home screen and the history screen agree on the three in-range labels but
      name the two out-of-range ones differently. */
  lemma HomeAndHistoryLabels(l: Level)
    ensures l in {Excellent, Normal, Elevated} <==>
              HistoryLevel(LevelText(l)) == LocalizedStressLevel(LevelText(l))
  {
  }

  /** The earlier history screen shows the same capitalised words as the earlier home
      screen, whatever the case the label was stored in. */
  lemma LegacyHistoryLabels(raw: string, l: Level)
    requires Lowercase(raw) == Lowercase(LevelText(l))
    ensures LegacyLocalizedStressLevel(raw) == LevelWord(l)
  {
    LabelsLowercase();
  }

  /** Removes the first copy of `e`; a measurement not stored changes nothing. */
  function RemoveOne(store: seq<StressEntry>, e: StressEntry): (r: seq<StressEntry>)
    ensures multiset(r) == multiset(store) - multiset{e}
    ensures e in store ==> |r| == |store| - 1
    ensures e !in store ==> r == store
  {
    if |store| == 0 then []
    else if store[0] == e then
      assert store == [e] + store[1..];
      store[1..]
    else
      assert store == [store[0]] + store[1..];
      [store[0]] + RemoveOne(store[1..], e)
  }

  /** Removes one copy of each of `sel`. */
  function RemoveAll(store: seq<StressEntry>, sel: seq<StressEntry>): (r: seq<StressEntry>)
    ensures multiset(r) == multiset(store) - multiset(sel)
    decreases |sel|
  {
    if |sel| == 0 then store
    else
      assert sel == [sel[0]] + sel[1..];
      RemoveAll(RemoveOne(store, sel[0]), sel[1..])
  }

  /** The swiped rows' positions in a week's list, in increasing order (how an
      `IndexSet` is iterated). */
  ghost predicate ValidIndices(idx: seq<int>, n: int) {
    && (forall k :: 0 <= k < |idx| ==> 0 <= idx[k] < n)
    && (forall a, b :: 0 <= a < b < |idx| ==> idx[a] < idx[b])
  }

  function Select(arr: seq<StressEntry>, idx: seq<int>): (r: seq<StressEntry>)
    requires forall k :: 0 <= k < |idx| ==> 0 <= idx[k] < |arr|
    ensures |r| == |idx| && forall k :: 0 <= k < |idx| ==> r[k] == arr[idx[k]]
  {
    seq(|idx|, k requires 0 <= k < |idx| => arr[idx[k]])
  }

  /** Distinct positions pick out a sub-multiset of the list. */
  lemma {:induction false} SelectIsSubMultiset(arr: seq<StressEntry>, idx: seq<int>)
    requires ValidIndices(idx, |arr|)
    ensures multiset(Select(arr, idx)) <= multiset(arr)
    decreases |idx|
  {
    if |idx| > 0 {
      var n := |idx| - 1;
      var j := idx[n];
      var front := idx[..n];
      assert ValidIndices(front, j);
      SelectIsSubMultiset(arr[..j], front);
      assert Select(arr[..j], front) == Select(arr, front);
      assert Select(arr, idx) == Select(arr, front) + [arr[j]];
      assert arr[..j + 1] == arr[..j] + [arr[j]];
      assert arr == arr[..j + 1] + arr[j + 1..];
    }
  }

  /** The earlier screen's `onDelete`: deletes the measurements at the swiped positions
      of a week's list. When that list is drawn from the store, exactly those are
      removed and nothing else. */
  function OnDelete(store: seq<StressEntry>, arr: seq<StressEntry>, idx: seq<int>): (r: seq<StressEntry>)
    requires ValidIndices(idx, |arr|)
    ensures multiset(r) == multiset(store) - multiset(Select(arr, idx))
    ensures multiset(arr) <= multiset(store) ==>
              multiset(r) + multiset(Select(arr, idx)) == multiset(store) && |r| == |store| - |idx|
  {
    var sel := Select(arr, idx);
    SelectIsSubMultiset(arr, idx);
    assert multiset(arr) <= multiset(store) ==> multiset(sel) <= multiset(store);
    RemoveAll(store, sel)
  }

  /** Every week's list is drawn from the store. */
  lemma GroupDrawnFromStore(store: seq<StressEntry>, f: RangeFilter, c: Clock, weekOf: int -> int, k: int)
    ensures multiset(Group(Filtered(Newest(store), f, c), weekOf, k)) <= multiset(store)
  {
    var fl := Filtered(Newest(store), f, c);
    var arr := Group(fl, weekOf, k);
    forall e
      ensures multiset(arr)[e] <= multiset(fl)[e]
    {
    }
    assert multiset(fl) <= multiset(Newest(store));
  }

  /** So a swipe on a week's list removes exactly the swiped measurements from the store. */
  lemma SwipeDeletesExactly(store: seq<StressEntry>, f: RangeFilter, c: Clock, weekOf: int -> int, k: int, idx: seq<int>)
    requires k in Grouped(Filtered(Newest(store), f, c), weekOf)
    requires ValidIndices(idx, |Grouped(Filtered(Newest(store), f, c), weekOf)[k]|)
    ensures var arr := Grouped(Filtered(Newest(store), f, c), weekOf)[k];
      && multiset(OnDelete(store, arr, idx)) + multiset(Select(arr, idx)) == multiset(store)
      && |OnDelete(store, arr, idx)| == |store| - |idx|
  {
    GroupDrawnFromStore(store, f, c, weekOf, k);
  }

  /** The current screen's context-menu delete removes that one measurement. */
  function DeleteEntry(store: seq<StressEntry>, e: StressEntry): (r: seq<StressEntry>)
    requires e in store
    ensures multiset(r) + multiset{e} == multiset(store)
    ensures |r| == |store| - 1
  {
    RemoveOne(store, e)
  }
}
