/** The guided-meditation catalogue and audio cache (`cordis/Services/CloudKitService.swift`).
    The catalogue is fetched from the public database and sorted by `sortOrder`; when the
    fetch fails and nothing is listed yet, the cache directory is scanned instead. Audio
    files are cached under `<record name>.m4a`, and the change tag of the record each was
    downloaded from is kept in the user defaults under `ck_tag_<record name>`.

    The cache directory is a map from file name to contents, the user defaults a map
    from key to tag. Remote calls are inputs: the outcome of a fetch or a download is a
    parameter. `Download` replaces the cached file by deleting it before copying the new
    one, so a failed copy loses the old file; `SafeDownload` is a corrected version that
    keeps it. */
module CloudCache {
  import opened Wrappers
  import opened Seqs

  datatype Item = Item(
    name: string,
    title: string,
    duration: int,
    description: string,
    sortOrder: int,
    changeTag: Option<string>,
    localFile: Option<string>)

  datatype CloudState = CloudState(
    meditations: seq<Item>,
    isLoading: bool,
    errorMessage: Option<string>,
    files: map<string, int>,
    tags: map<string, string>)

  const Extension: string := ".m4a"
  const TagPrefix: string := "ck_tag_"

  /** `localAudioURL(for:)`: the cache file of a record. */
  function LocalFile(name: string): (f: string)
    ensures IsAudioFile(f) && Stem(f) == name
  {
    var f := name + Extension;
    assert |Extension| == 4 && f[..|f| - 4] == name && f[|f| - 4..] == Extension;
    f
  }

  /** A file whose extension is `m4a`. */
  predicate IsAudioFile(f: string) {
    |f| >= |Extension| && f[|f| - |Extension|..] == Extension
  }

  /** The file name without its extension. */
  function Stem(f: string): string
    requires IsAudioFile(f)
  {
    f[..|f| - |Extension|]
  }

  /** Different records never share a cache file. */
  lemma LocalFileInjective(a: string, b: string)
    ensures LocalFile(a) == LocalFile(b) <==> a == b
  {
    if LocalFile(a) == LocalFile(b) {
      assert Stem(LocalFile(a)) == a && Stem(LocalFile(b)) == b;
    }
  }

  /** The user-defaults key of a record's stored tag. */
  function TagKey(name: string): (k: string)
    ensures |k| == |TagPrefix| + |name| && k[..|TagPrefix|] == TagPrefix && k[|TagPrefix|..] == name
  {
    TagPrefix + name
  }

  /** Different records never share a tag key. */
  lemma TagKeyInjective(a: string, b: string)
    ensures TagKey(a) == TagKey(b) <==> a == b
  {
    if TagKey(a) == TagKey(b) {
      assert TagKey(a)[|TagPrefix|..] == TagKey(b)[|TagPrefix|..];
    }
  }

  /** A fetched record's fields, each missing or of the wrong type as `None`. */
  datatype Record = Record(
    name: string,
    title: Option<string>,
    duration: Option<int>,
    description: Option<string>,
    sortOrder: Option<int>,
    changeTag: Option<string>)

  /** A record as a list item: defaults for missing fields, and the cache file when it
      exists. */
  function ItemOf(r: Record, files: map<string, int>): (it: Item)
    ensures it.name == r.name && it.changeTag == r.changeTag
    ensures it.localFile.Some? <==> LocalFile(r.name) in files
    ensures it.localFile.Some? ==> it.localFile.value == LocalFile(r.name)
  {
    Item(r.name, r.title.GetOr(""), r.duration.GetOr(0), r.description.GetOr(""),
         r.sortOrder.GetOr(0), r.changeTag,
         if LocalFile(r.name) in files then Some(LocalFile(r.name)) else None)
  }

  /** The results of a fetch, a failed result as `None`, turned into items in order. */
  function ItemsOf(results: seq<Option<Record>>, files: map<string, int>): (items: seq<Item>)
    ensures |items| <= |results|
    ensures forall r :: Some(r) in results ==> ItemOf(r, files) in items
    ensures forall it :: it in items ==> exists r :: Some(r) in results && it == ItemOf(r, files)
  {
    if |results| == 0 then []
    else
      var rest := ItemsOf(results[1..], files);
      assert forall x :: x in results <==> x == results[0] || x in results[1..];
      match results[0]
      case None => rest
      case Some(r) => [ItemOf(r, files)] + rest
  }

  /** When every record came back, the items are the records' items in fetch order. */
  lemma {:induction false} ItemsOfInOrder(results: seq<Option<Record>>, files: map<string, int>)
    requires forall i :: 0 <= i < |results| ==> results[i].Some?
    ensures |ItemsOf(results, files)| == |results|
    ensures forall i :: 0 <= i < |results| ==> ItemsOf(results, files)[i] == ItemOf(results[i].value, files)
  {
    if |results| > 0 {
      ItemsOfInOrder(results[1..], files);
    }
  }

  function SortKey(it: Item): int {
    it.sortOrder
  }

  /** The outcome of the catalogue query. */
  datatype FetchOutcome = Fetched(results: seq<Option<Record>>) | FetchFailed(message: string)

  /** The start of `fetchMeditations`: loading, with no error shown. */
  function BeginFetch(c: CloudState): (r: CloudState)
    ensures r.isLoading && r.errorMessage.None?
    ensures r.meditations == c.meditations && r.files == c.files && r.tags == c.tags
  {
    c.(isLoading := true, errorMessage := None)
  }

  /** The end of `fetchMeditations`. On success the list is the fetched items in
      ascending `sortOrder`; on failure the cache is scanned only when the list is empty,
      and the error is shown. Loading ends either way; files and tags are untouched. */
  function EndFetch(c: CloudState, outcome: FetchOutcome, listing: Option<seq<string>>): (r: CloudState)
    ensures !r.isLoading && r.files == c.files && r.tags == c.tags
    ensures outcome.Fetched? ==>
              && SortedBy(r.meditations, SortKey)
              && multiset(r.meditations) == multiset(ItemsOf(outcome.results, c.files))
              && r.errorMessage == c.errorMessage
    ensures outcome.FetchFailed? ==> r.errorMessage == Some(outcome.message)
    ensures outcome.FetchFailed? && |c.meditations| > 0 ==> r.meditations == c.meditations
    ensures outcome.FetchFailed? && |c.meditations| == 0 ==>
              r.meditations == LoadCached(c.meditations, listing)
  {
    match outcome
    case Fetched(results) =>
      c.(meditations := SortBy(ItemsOf(results, c.files), SortKey), isLoading := false)
    case FetchFailed(message) =>
      var list := if |c.meditations| == 0 then LoadCached(c.meditations, listing) else c.meditations;
      c.(meditations := list, errorMessage := Some(message), isLoading := false)
  }

  /** The items made from the audio files of a directory listing, numbered in order. */
  function CachedItems(files: seq<string>, start: int): (items: seq<Item>)
    ensures forall i :: 0 <= i < |items| ==> items[i].sortOrder == start + i
    ensures forall i :: 0 <= i < |items| ==> items[i].changeTag.None? && items[i].duration == 0 && items[i].description == ""
    ensures forall i :: 0 <= i < |items| ==>
              && items[i].localFile.Some? && IsAudioFile(items[i].localFile.value)
              && items[i].localFile.value in files
              && items[i].name == Stem(items[i].localFile.value) == items[i].title
    ensures forall f :: f in files && IsAudioFile(f) ==> exists i :: 0 <= i < |items| && items[i].localFile == Some(f)
    ensures |items| == 0 <==> forall f :: f in files ==> !IsAudioFile(f)
  {
    if |files| == 0 then []
    else
      var f := files[0];
      if IsAudioFile(f) then
        var rest := CachedItems(files[1..], start + 1);
        var items := [CachedItem(f, start)] + rest;
        CachedConsFound(files, start, rest);
        items
      else
        var rest := CachedItems(files[1..], start);
        CachedConsSkipped(files, start, rest);
        rest
  }

  /** The item for a cached file. */
  function CachedItem(f: string, order: int): Item
    requires IsAudioFile(f)
  {
    Item(Stem(f), Stem(f), 0, "", order, None, Some(f))
  }

  /** An audio file at the head of the listing comes first, ahead of the rest's items. */
  lemma CachedConsFound(files: seq<string>, start: int, rest: seq<Item>)
    requires |files| > 0 && IsAudioFile(files[0])
    requires forall i :: 0 <= i < |rest| ==> rest[i].sortOrder == start + 1 + i
    requires forall i :: 0 <= i < |rest| ==> rest[i].changeTag.None? && rest[i].duration == 0 && rest[i].description == ""
    requires forall i :: 0 <= i < |rest| ==>
               && rest[i].localFile.Some? && IsAudioFile(rest[i].localFile.value)
               && rest[i].localFile.value in files[1..]
               && rest[i].name == Stem(rest[i].localFile.value) == rest[i].title
    requires forall g :: g in files[1..] && IsAudioFile(g) ==> exists i :: 0 <= i < |rest| && rest[i].localFile == Some(g)
    ensures var items := [CachedItem(files[0], start)] + rest;
      && (forall i :: 0 <= i < |items| ==> items[i].sortOrder == start + i)
      && (forall i :: 0 <= i < |items| ==> items[i].changeTag.None? && items[i].duration == 0 && items[i].description == "")
      && (forall i :: 0 <= i < |items| ==>
            && items[i].localFile.Some? && IsAudioFile(items[i].localFile.value)
            && items[i].localFile.value in files
            && items[i].name == Stem(items[i].localFile.value) == items[i].title)
      && (forall g :: g in files && IsAudioFile(g) ==> exists i :: 0 <= i < |items| && items[i].localFile == Some(g))
      && |items| > 0
  {
    var f := files[0];
    var items := [CachedItem(f, start)] + rest;
    assert files == [f] + files[1..];
    assert forall i :: 1 <= i < |items| ==> items[i] == rest[i - 1];
    assert items[0].localFile == Some(f);
    forall g | g in files && IsAudioFile(g)
      ensures exists i :: 0 <= i < |items| && items[i].localFile == Some(g)
    {
      if g != f {
        var j :| 0 <= j < |rest| && rest[j].localFile == Some(g);
        assert items[j + 1] == rest[j];
      }
    }
  }

  /** A head that is not an audio file adds nothing. */
  lemma CachedConsSkipped(files: seq<string>, start: int, rest: seq<Item>)
    requires |files| > 0 && !IsAudioFile(files[0])
    requires forall i :: 0 <= i < |rest| ==> rest[i].localFile.Some? ==> rest[i].localFile.value in files[1..]
    requires forall g :: g in files[1..] && IsAudioFile(g) ==> exists i :: 0 <= i < |rest| && rest[i].localFile == Some(g)
    requires |rest| == 0 <==> forall g :: g in files[1..] ==> !IsAudioFile(g)
    ensures forall i :: 0 <= i < |rest| ==> rest[i].localFile.Some? ==> rest[i].localFile.value in files
    ensures forall g :: g in files && IsAudioFile(g) ==> exists i :: 0 <= i < |rest| && rest[i].localFile == Some(g)
    ensures |rest| == 0 <==> forall g :: g in files ==> !IsAudioFile(g)
  {
    assert files == [files[0]] + files[1..];
  }

  /** `loadCachedMeditations`: the list becomes the cached audio files, numbered from 0
      in listing order with no change tag, but only if there is at least one; an
      unreadable directory changes nothing. */
  function LoadCached(list: seq<Item>, listing: Option<seq<string>>): (r: seq<Item>)
    ensures listing.None? ==> r == list
    ensures listing.Some? && |CachedItems(listing.value, 0)| == 0 ==> r == list
    ensures listing.Some? && |CachedItems(listing.value, 0)| > 0 ==> r == CachedItems(listing.value, 0)
  {
    match listing
    case None => list
    case Some(files) =>
      var cached := CachedItems(files, 0);
      if |cached| == 0 then list else cached
  }

  /** `downloadAudio`'s cache hit: the item has a change tag, it is the stored one, and the
      file is there. An item without a tag never hits. */
  predicate CacheHit(c: CloudState, it: Item) {
    && it.changeTag.Some?
    && TagKey(it.name) in c.tags && c.tags[TagKey(it.name)] == it.changeTag.value
    && LocalFile(it.name) in c.files
  }

  /** The outcome of asking for the record's audio. */
  datatype Remote = Asset(changeTag: Option<string>, contents: int) | NoAsset | RemoteError(message: string)

  /** The position of the first listed item with the given record name. */
  function FirstIndex(list: seq<Item>, name: string): (r: Option<nat>)
    ensures r.None? <==> forall i :: 0 <= i < |list| ==> list[i].name != name
    ensures r.Some? ==> r.value < |list| && list[r.value].name == name
    ensures r.Some? ==> forall j :: 0 <= j < r.value ==> list[j].name != name
  {
    if |list| == 0 then None
    else if list[0].name == name then Some(0)
    else
      match FirstIndex(list[1..], name)
      case None => None
      case Some(i) => Some(i + 1)
  }

  /** Records the cache file on the first listed item with the same record name; the
      list is unchanged when there is none. */
  function MarkDownloaded(list: seq<Item>, name: string): (r: seq<Item>)
    ensures FirstIndex(list, name).None? ==> r == list
    ensures FirstIndex(list, name).Some? ==>
              var i := FirstIndex(list, name).value;
              r == list[i := list[i].(localFile := Some(LocalFile(name)))]
    ensures FirstIndex(r, name) == FirstIndex(list, name)
  {
    match FirstIndex(list, name)
    case None => list
    case Some(i) =>
      var r := list[i := list[i].(localFile := Some(LocalFile(name)))];
      assert forall j :: 0 <= j < |r| ==> r[j].name == list[j].name;
      r
  }

  /** The work after a successful copy: store the new tag if any, mark the item. */
  function AfterCopy(c: CloudState, it: Item, tag: Option<string>): (r: CloudState)
    ensures r.files == c.files && r.errorMessage == c.errorMessage
    ensures tag.Some? ==> r.tags == c.tags[TagKey(it.name) := tag.value]
    ensures tag.None? ==> r.tags == c.tags
    ensures r.meditations == MarkDownloaded(c.meditations, it.name)
  {
    var tags := if tag.Some? then c.tags[TagKey(it.name) := tag.value] else c.tags;
    c.(tags := tags, meditations := MarkDownloaded(c.meditations, it.name))
  }

  /** `downloadAudio(for:)` as written: the old file is removed before the new one is
      copied in; `copyError` is the copy's error, if it fails. */
  function Download(c: CloudState, it: Item, remote: Remote, copyError: Option<string>): (r: (CloudState, Option<string>))
    ensures CacheHit(c, it) ==> r == (c, Some(LocalFile(it.name)))
    ensures r.1.Some? ==> r.1.value == LocalFile(it.name) && LocalFile(it.name) in r.0.files
    ensures !CacheHit(c, it) && remote.RemoteError? ==>
              r == (c.(errorMessage := Some(remote.message)), None)
    ensures !CacheHit(c, it) && remote.NoAsset? ==> r == (c, None)
    ensures !CacheHit(c, it) && remote.Asset? && copyError.None? ==>
              && r.1 == Some(LocalFile(it.name))
              && r.0.files == c.files[LocalFile(it.name) := remote.contents]
              && r.0 == AfterCopy(c.(files := r.0.files), it, remote.changeTag)
    ensures !CacheHit(c, it) && remote.Asset? && copyError.Some? ==>
              r == (c.(files := c.files - {LocalFile(it.name)}, errorMessage := copyError), None)
  {
    if CacheHit(c, it) then (c, Some(LocalFile(it.name)))
    else
      match remote
      case RemoteError(message) => (c.(errorMessage := Some(message)), None)
      case NoAsset => (c, None)
      case Asset(tag, contents) =>
        var local := LocalFile(it.name);
        var removed := c.files - {local};
        if copyError.None? then
          (AfterCopy(c.(files := removed[local := contents]), it, tag), Some(local))
        else
          (c.(files := removed, errorMessage := copyError), None)
  }

  /** As written, a download whose copy fails deletes a cached file that was there. */
  lemma DownloadFailureLosesCache()
    ensures var it := Item("m1", "", 0, "", 0, Some("v2"), None);
      var c := CloudState([it], false, None, map[LocalFile("m1") := 7], map[TagKey("m1") := "v1"]);
      && LocalFile("m1") in c.files
      && !CacheHit(c, it)
      && LocalFile("m1") !in Download(c, it, Asset(Some("v2"), 8), Some("disk full")).0.files
  {
    var it := Item("m1", "", 0, "", 0, Some("v2"), None);
    var c := CloudState([it], false, None, map[LocalFile("m1") := 7], map[TagKey("m1") := "v1"]);
    assert c.tags[TagKey("m1")] == "v1";
  }

  /** The corrected download: the new file replaces the old one only once the copy has
      succeeded, so a failed copy leaves the cache as it was. */
  function SafeDownload(c: CloudState, it: Item, remote: Remote, copyError: Option<string>): (r: (CloudState, Option<string>))
    ensures CacheHit(c, it) ==> r == (c, Some(LocalFile(it.name)))
    ensures r.1.None? ==> r.0.files == c.files && r.0.tags == c.tags && r.0.meditations == c.meditations
    ensures r.1.Some? ==> r.1.value == LocalFile(it.name) && LocalFile(it.name) in r.0.files
    ensures copyError.None? ==> r == Download(c, it, remote, copyError)
    ensures !CacheHit(c, it) && remote.Asset? && copyError.Some? ==>
              r == (c.(errorMessage := copyError), None)
  {
    if CacheHit(c, it) then (c, Some(LocalFile(it.name)))
    else
      match remote
      case RemoteError(message) => (c.(errorMessage := Some(message)), None)
      case NoAsset => (c, None)
      case Asset(tag, contents) =>
        var local := LocalFile(it.name);
        if copyError.None? then
          assert (c.files - {local})[local := contents] == c.files[local := contents];
          (AfterCopy(c.(files := c.files[local := contents]), it, tag), Some(local))
        else
          (c.(errorMessage := copyError), None)
  }

  /** With the corrected download, a cached file is never lost: whatever the remote
      answers and whether or not the copy succeeds, every file there before is there
      after. */
  lemma SafeDownloadKeepsFiles(c: CloudState, it: Item, remote: Remote, copyError: Option<string>, f: string)
    requires f in c.files
    ensures f in SafeDownload(c, it, remote, copyError).0.files
  {
  }

  /** After a successful download of a tagged record the next request is a cache hit. */
  lemma DownloadThenHit(c: CloudState, it: Item, tag: string, contents: int)
    requires !CacheHit(c, it) && it.changeTag == Some(tag)
    ensures var d := Download(c, it, Asset(Some(tag), contents), None).0;
      CacheHit(d, it)
  {
  }
}
