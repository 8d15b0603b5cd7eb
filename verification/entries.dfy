/** The stored measurements as the views see them. The store is a sequence in
    insertion order; every view reads it through `@Query(sort: \.timestamp, order:
    .reverse)`, modelled by `Newest`: a stable sort, latest timestamp first. */
module Entries {
  import opened Seqs
  import opened Classification
  import opened Streak

  /** Seven days back, as `Calendar.date(byAdding: .day, value: -7, to:)` with days of
      fixed length. */
  const SevenDays: int := 7 * SecondsPerDay

  /** The sort key that puts later timestamps first. */
  function NegTimestamp(e: StressEntry): int {
    -e.timestamp
  }

  /** The entries newest first, as the query delivers them. */
  function Newest(store: seq<StressEntry>): (r: seq<StressEntry>)
    ensures SortedBy(r, NegTimestamp)
    ensures multiset(r) == multiset(store)
    ensures |r| == |store|
  {
    SortBy(store, NegTimestamp)
  }

  /** An entry strictly later than everything already stored comes first in the query. */
  lemma LatestComesFirst(store: seq<StressEntry>, e: StressEntry)
    requires forall i :: 0 <= i < |store| ==> store[i].timestamp < e.timestamp
    ensures Newest(store + [e])[0] == e
  {
    var q := Newest(store + [e]);
    assert multiset(store + [e]) == multiset(store) + multiset{e};
    assert e in multiset(q);
    var k :| 0 <= k < |q| && q[k] == e;
    assert NegTimestamp(q[0]) <= NegTimestamp(e);
    assert forall y :: y in multiset(store) ==> NegTimestamp(e) < NegTimestamp(y) by {
      forall y | y in multiset(store)
        ensures NegTimestamp(e) < NegTimestamp(y)
      {
        assert y in store;
      }
    }
    assert q[0] in multiset(store) + multiset{e};
  }

  /** The BPM of each entry, in order (`map(\.bpm)`). */
  function Bpms(entries: seq<StressEntry>): (r: seq<int>)
    ensures |r| == |entries| && forall i :: 0 <= i < |r| ==> r[i] == entries[i].bpm
  {
    seq(|entries|, i requires 0 <= i < |entries| => entries[i].bpm)
  }

  /** The entries at or after `from`, in their order (`filter { $0.timestamp >= from }`). */
  function Since(entries: seq<StressEntry>, from: int): (r: seq<StressEntry>)
    ensures forall e :: e in r <==> e in entries && e.timestamp >= from
  {
    Filter(entries, (e: StressEntry) => e.timestamp >= from)
  }

  /** Filtering the query's result keeps it newest first. */
  lemma SinceKeepsNewestFirst(entries: seq<StressEntry>, from: int)
    requires SortedBy(entries, NegTimestamp)
    ensures SortedBy(Since(entries, from), NegTimestamp)
  {
    FilterKeepsSorted(entries, (e: StressEntry) => e.timestamp >= from, NegTimestamp);
  }
}
