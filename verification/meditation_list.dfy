/** The guided-meditation list (`cordis/Views/GuidedMeditationListView.swift`): while the
    catalogue loads with nothing to show a spinner, an empty state when there is nothing,
    otherwise one row per meditation with its length and whether its audio is cached,
    and a notice when the list shown is the saved one because the fetch failed. */
module MeditationList {
  import opened Wrappers
  import opened Numeric
  import opened Text
  import opened Seqs
  import C = CloudCache

  /** `formatDuration`: whole minutes as "N min", otherwise minutes, a colon and two-digit
      seconds. Every non-negative length reads back from its text. */
  function FormatDuration(seconds: int): (r: string)
    ensures 0 <= seconds <= IntMax ==> ReadDuration(r) == Some(seconds)
    ensures 0 <= seconds <= IntMax ==> (IsMinutesText(r) <==> seconds % 60 == 0)
  {
    var mins := Quot(seconds, 60);
    var secs := Rem(seconds, 60);
    var r := if secs == 0 then IntDescription(mins) + " min" else IntDescription(mins) + ":" + PadTwo(secs);
    if 0 <= seconds <= IntMax then
      FormatDurationReadsBack(seconds, mins, secs, r);
      r
    else r
  }

  predicate IsMinutesText(s: string) {
    |s| >= 4 && s[|s| - 4..] == " min"
  }

  /** Reads a length back from "N min" or "M:SS". */
  function ReadDuration(s: string): Option<int> {
    if IsMinutesText(s) then
      match ParseInt(s[..|s| - 4])
      case Some(m) => Some(m * 60)
      case None => None
    else if |s| >= 4 && s[|s| - 3] == ':' && AllDigits(s[|s| - 2..]) then
      match ParseInt(s[..|s| - 3])
      case Some(m) => Some(m * 60 + DigitsValue(s[|s| - 2..]))
      case None => None
    else None
  }

  lemma FormatDurationReadsBack(seconds: int, mins: int, secs: int, r: string)
    requires 0 <= seconds <= IntMax && mins == Quot(seconds, 60) && secs == Rem(seconds, 60)
    requires r == if secs == 0 then IntDescription(mins) + " min" else IntDescription(mins) + ":" + PadTwo(secs)
    ensures ReadDuration(r) == Some(seconds)
    ensures IsMinutesText(r) <==> seconds % 60 == 0
  {
    assert mins == seconds / 60 && secs == seconds % 60;
    ParseIntDescription(mins);
    if secs == 0 {
      WholeMinutesReadBack(mins);
    } else {
      MinutesSecondsReadBack(mins, secs);
    }
  }

  lemma WholeMinutesReadBack(mins: nat)
    requires ParseInt(IntDescription(mins)) == Some(mins)
    ensures var r := IntDescription(mins) + " min";
      ReadDuration(r) == Some(mins * 60) && IsMinutesText(r)
  {
    var r := IntDescription(mins) + " min";
    assert r[..|r| - 4] == IntDescription(mins);
  }

  lemma MinutesSecondsReadBack(mins: nat, secs: int)
    requires ParseInt(IntDescription(mins)) == Some(mins) && 0 < secs < 60
    ensures var r := IntDescription(mins) + ":" + PadTwo(secs);
      ReadDuration(r) == Some(mins * 60 + secs) && !IsMinutesText(r)
  {
    var p := PadTwo(secs);
    var r := IntDescription(mins) + ":" + p;
    assert r[|r| - 2..] == p && r[..|r| - 3] == IntDescription(mins);
    assert r[|r| - 1] == p[1] && IsDigit(p[1]);
  }

  /** What the guided section shows. */
  datatype Section = LoadingSection | EmptySection | ListSection

  function SectionOf(c: C.CloudState): (s: Section)
    ensures s == LoadingSection <==> c.isLoading && |c.meditations| == 0
    ensures s == EmptySection <==> !c.isLoading && |c.meditations| == 0
    ensures s == ListSection <==> |c.meditations| > 0
  {
    if c.isLoading && |c.meditations| == 0 then LoadingSection
    else if |c.meditations| == 0 then EmptySection
    else ListSection
  }

  /** The "showing saved version" notice. */
  function ShowsSavedNotice(c: C.CloudState): (b: bool)
    ensures b <==> c.errorMessage.Some? && SectionOf(c) == ListSection
  {
    c.errorMessage.Some? && |c.meditations| > 0
  }

  /** The retry button. */
  function OffersRetry(c: C.CloudState): (b: bool)
    ensures b <==> c.errorMessage.Some? && SectionOf(c) == EmptySection
  {
    SectionOf(c) == EmptySection && c.errorMessage.Some?
  }

  /** A failed fetch is explained exactly once once loading is over: by the notice over
      a list or by the retry button, never both. */
  lemma ErrorShownOnce(c: C.CloudState)
    requires c.errorMessage.Some? && !c.isLoading
    ensures ShowsSavedNotice(c) != OffersRetry(c)
  {
  }

  /** The row's cached mark. */
  function Downloaded(it: C.Item): (b: bool)
    ensures b <==> it.localFile.Some?
  {
    it.localFile.Some?
  }

  /** Opening the screen with nothing listed shows the spinner, and when the fetch then
      fails the saved meditations are listed with the notice if there are any, and the
      retry button if not. */
  lemma OfflineOpening(c: C.CloudState, message: string, listing: seq<string>)
    requires |c.meditations| == 0
    ensures SectionOf(C.BeginFetch(c)) == LoadingSection
    ensures var r := C.EndFetch(C.BeginFetch(c), C.FetchFailed(message), Some(listing));
      && (|C.CachedItems(listing, 0)| > 0 ==> SectionOf(r) == ListSection && ShowsSavedNotice(r))
      && (|C.CachedItems(listing, 0)| == 0 ==> SectionOf(r) == EmptySection && OffersRetry(r))
  {
  }

  /** After a successful fetch a row is marked cached exactly when its file is there. */
  lemma FetchedMarksMatchCache(c: C.CloudState, results: seq<Option<C.Record>>, listing: Option<seq<string>>, it: C.Item)
    requires it in C.EndFetch(c, C.Fetched(results), listing).meditations
    ensures Downloaded(it) <==> C.LocalFile(it.name) in c.files
  {
    var r := C.EndFetch(c, C.Fetched(results), listing);
    assert it in multiset(r.meditations);
    assert it in C.ItemsOf(results, c.files);
  }
}
