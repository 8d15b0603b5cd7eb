/** The day streak kept in `UserStats` by both home screens. Days are numbered by
    `DayOf`, the start of the day a timestamp falls in; the streak grows by one when a
    measurement is saved on the day after the last streak day, stays put on the same
    day and restarts at one after a gap. */
module Streak {
  import opened Wrappers
  import opened Records

  const SecondsPerDay: int := 86400

  /** `Calendar.startOfDay(for:)` as a day number, for a calendar whose days all last
      86400 seconds. */
  function DayOf(t: int): (d: int)
    ensures d * SecondsPerDay <= t < (d + 1) * SecondsPerDay
  {
    t / SecondsPerDay
  }

  /** `updateStreak(for:)` once the stats record is at hand: no last day starts the
      streak, the same day changes nothing, the day after extends it, and any other
      day restarts it. In every case the last streak day ends up being `today`. */
  function UpdateStreak(stats: UserStats, today: int): (r: UserStats)
    ensures r.lastStreakDay == Some(today)
    ensures stats.lastStreakDay == Some(today) ==> r == stats
    ensures stats.lastStreakDay == Some(today - 1) ==> r.streakDays == stats.streakDays + 1
    ensures stats.lastStreakDay != Some(today) && stats.lastStreakDay != Some(today - 1) ==>
              r.streakDays == 1
  {
    match stats.lastStreakDay
    case None => UserStats(1, Some(today))
    case Some(last) =>
      if last == today then stats
      else if last == today - 1 then UserStats(stats.streakDays + 1, Some(today))
      else UserStats(1, Some(today))
  }

  /** `updateStreak` returns at once when the store holds no stats record. */
  function UpdateStoredStreak(stats: Option<UserStats>, today: int): (r: Option<UserStats>)
    ensures r.Some? <==> stats.Some?
    ensures r.Some? ==> r.value.lastStreakDay == Some(today)
  {
    match stats
    case None => None
    case Some(s) => Some(UpdateStreak(s, today))
  }

  /** The stats after a fresh record sees measurements on the given days, in order. */
  function Replay(days: seq<int>): UserStats {
    if |days| == 0 then NewStats else UpdateStreak(Replay(days[..|days| - 1]), days[|days| - 1])
  }

  ghost predicate NonDecreasing(days: seq<int>) {
    forall i, j :: 0 <= i < j < |days| ==> days[i] <= days[j]
  }

  /** The number of consecutive days in `s` ending with day `d`: the reference meaning
      of a streak. */
  function RunEndingAt(s: set<int>, d: int): nat
    decreases s
  {
    if d in s then 1 + RunEndingAt(s - {d}, d - 1) else 0
  }

  /** The days on which a measurement was saved. */
  function DaySet(days: seq<int>): set<int> {
    set d | d in days
  }

  /** Replaying measurements in time order leaves the streak equal to the number of
      consecutive measured days ending with the last one, and the last streak day equal
      to that day. */
  lemma {:induction false} ReplayCountsConsecutiveDays(days: seq<int>)
    requires |days| > 0 && NonDecreasing(days)
    ensures Replay(days).lastStreakDay == Some(days[|days| - 1])
    ensures Replay(days).streakDays == RunEndingAt(DaySet(days), days[|days| - 1])
  {
    var n := |days|;
    var d := days[n - 1];
    var pre := days[..n - 1];
    DaySetSnoc(days);
    if n == 1 {
      assert DaySet(pre) == {} by { assert pre == []; }
      RunRestarts(DaySet(pre), d - 2, d);
    } else {
      var p := pre[n - 2];
      PrefixBounded(days);
      ReplayCountsConsecutiveDays(pre);
      assert Replay(days) == UpdateStreak(Replay(pre), d);
      if d == p {
        assert DaySet(days) == DaySet(pre);
      } else if d == p + 1 {
        RunExtends(DaySet(pre), p);
      } else {
        RunRestarts(DaySet(pre), p, d);
      }
    }
  }

  lemma DaySetSnoc(days: seq<int>)
    requires |days| > 0
    ensures DaySet(days) == DaySet(days[..|days| - 1]) + {days[|days| - 1]}
  {
    assert days == days[..|days| - 1] + [days[|days| - 1]];
  }

  /** In a time-ordered list of at least two days, the earlier ones are in order too and
      none comes after the second-to-last, which is at most the last. */
  lemma PrefixBounded(days: seq<int>)
    requires |days| > 1 && NonDecreasing(days)
    ensures var pre := days[..|days| - 1];
      && NonDecreasing(pre)
      && pre[|pre| - 1] in DaySet(pre)
      && (forall x :: x in DaySet(pre) ==> x <= pre[|pre| - 1])
      && pre[|pre| - 1] <= days[|days| - 1]
  {
  }

  /** Adding the day after the latest day extends the run ending there by one. */
  lemma RunExtends(s: set<int>, p: int)
    requires forall x :: x in s ==> x <= p
    ensures RunEndingAt(s + {p + 1}, p + 1) == 1 + RunEndingAt(s, p)
  {
    assert (s + {p + 1}) - {p + 1} == s;
  }

  /** Adding a day after a gap starts a run of one. */
  lemma RunRestarts(s: set<int>, p: int, d: int)
    requires forall x :: x in s ==> x <= p
    requires d > p + 1
    ensures RunEndingAt(s + {d}, d) == 1
  {
    assert (s + {d}) - {d} == s;
    assert d - 1 !in s;
  }
}
