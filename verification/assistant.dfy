/** The health assistant (`cordis/Views/HealthAssistantView.swift`): the summary it
    builds from the measurements (`AssistContext`), the name it greets the user with,
    and the chat log, which lives in the store when the settings keep chat history and
    in view state otherwise. The canned answers are not modelled; an answer is an
    arbitrary text. */
module Assistant {
  import opened Wrappers
  import opened Text
  import opened Seqs
  import opened Numeric
  import opened Classification
  import opened Records
  import opened Streak
  import opened Entries

  /** `userName`: the trimmed preferred name, or "amigo" when it is blank or there are
      no settings. */
  function UserName(settings: Option<AppSettings>): (r: string)
    ensures |r| > 0 && !IsWhitespace(r[0]) && !IsWhitespace(r[|r| - 1])
    ensures settings.None? ==> r == "amigo"
    ensures settings.Some? && |Trim(settings.value.preferredName)| > 0 ==>
              r == Trim(settings.value.preferredName)
    ensures settings.Some? && |Trim(settings.value.preferredName)| == 0 ==> r == "amigo"
  {
    var raw := if settings.Some? then settings.value.preferredName else "";
    var name := Trim(raw);
    if |name| == 0 then "amigo" else name
  }

  /** The summary the answers are written from. */
  datatype AssistContext = AssistContext(lastBpm: Option<int>, avg7: int, streakDays: int)

  /** `AssistContext.init(entries:streakDays:)` over the entries newest first: the newest
      BPM, and the integer mean of the last seven days' BPMs, truncated, 0 with none. */
  function MakeContext(entries: seq<StressEntry>, streakDays: int, now: int): (c: AssistContext)
    ensures c.lastBpm == (if |entries| > 0 then Some(entries[0].bpm) else None)
    ensures c.streakDays == streakDays
    ensures |Since(entries, now - SevenDays)| == 0 ==> c.avg7 == 0
    ensures |Since(entries, now - SevenDays)| > 0 ==>
              var b := Bpms(Since(entries, now - SevenDays));
              MinOf(b) <= c.avg7 <= MaxOf(b)
    ensures |Since(entries, now - SevenDays)| > 0 && Sum(Bpms(Since(entries, now - SevenDays))) >= 0 ==>
              var b := Bpms(Since(entries, now - SevenDays));
              c.avg7 * |b| <= Sum(b) < (c.avg7 + 1) * |b|
  {
    var week := Since(entries, now - SevenDays);
    var b := Bpms(week);
    var last := if |entries| > 0 then Some(entries[0].bpm) else None;
    if |week| == 0 then AssistContext(last, 0, streakDays)
    else
      TruncatedMeanBetween(b);
      QuotBrackets(Sum(b), |week|);
      AssistContext(last, Quot(Sum(b), |week|), streakDays)
  }

  /** The truncated mean of a non-empty list lies between its smallest and largest
      element, whichever way the sum's sign makes the truncation round. */
  lemma TruncatedMeanBetween(b: seq<int>)
    requires |b| > 0
    ensures MinOf(b) <= Quot(Sum(b), |b|) <= MaxOf(b)
  {
    SumBetweenExtremes(b);
    QuotBetween(Sum(b), |b|, MinOf(b), MaxOf(b));
  }

  /** For a non-negative sum the truncated mean is the largest whole number whose
      multiple by the count does not exceed the sum. */
  lemma QuotBrackets(s: int, n: int)
    requires 0 < n
    ensures 0 <= s ==> Quot(s, n) * n <= s < (Quot(s, n) + 1) * n
  {
    if 0 <= s {
      var q := s / n;
      assert s == q * n + s % n;
      assert (q + 1) * n == q * n + n;
    }
  }

  /** Truncating division by a positive divisor keeps integer bounds on the quotient. */
  lemma QuotBetween(s: int, n: int, lo: int, hi: int)
    requires 0 < n && lo * n <= s <= hi * n
    ensures lo <= Quot(s, n) <= hi
  {
    if s >= 0 {
      FloorBetween(s, n, lo, hi);
    } else {
      assert Quot(s, n) == -((-s) / n);
      assert (-hi) * n == -(hi * n);
      assert (-lo) * n == -(lo * n);
      FloorBetween(-s, n, -hi, -lo);
    }
  }

  /** Euclidean division by a positive divisor keeps integer bounds on the quotient. */
  lemma FloorBetween(s: int, n: int, lo: int, hi: int)
    requires 0 < n && lo * n <= s <= hi * n
    ensures lo <= s / n <= hi
  {
    var q := s / n;
    assert q * n + s % n == s;
    assert q * n <= s < (q + 1) * n;
    MulLeCancel(q, hi, n);
    MulLtCancel(lo, q + 1, n);
  }

  lemma MulLeCancel(a: int, b: int, n: int)
    requires 0 < n && a * n <= b * n
    ensures a <= b
  {
    if a > b {
      MulStrict(b, a, n);
    }
  }

  lemma MulLtCancel(a: int, b: int, n: int)
    requires 0 < n && a * n < b * n
    ensures a < b
  {
    if a >= b {
      MulMono(b, a, n);
    }
  }

  lemma MulStrict(a: int, b: int, n: int)
    requires 0 < n && a < b
    ensures a * n < b * n
  {
    assert b * n - a * n == (b - a) * n;
  }

  lemma MulMono(a: int, b: int, n: int)
    requires 0 < n && a <= b
    ensures a * n <= b * n
  {
    assert b * n - a * n == (b - a) * n;
  }

  /** `lastBPMText`: "N bpm", or a dash with no measurement. The number reads back. */
  function LastBpmText(c: AssistContext): (r: string)
    requires c.lastBpm.Some? ==> IntMin <= c.lastBpm.value <= IntMax
    ensures c.lastBpm.None? <==> r == "—"
    ensures c.lastBpm.Some? ==>
              |r| > 4 && r[|r| - 4..] == " bpm" && ParseInt(r[..|r| - 4]) == c.lastBpm
  {
    match c.lastBpm
    case None => "—"
    case Some(b) => BpmText(b)
  }

  /** `avg7Text`: "N bpm" for a positive average, otherwise a dash. */
  function Avg7Text(c: AssistContext): (r: string)
    requires c.avg7 <= IntMax
    ensures c.avg7 <= 0 <==> r == "—"
    ensures c.avg7 > 0 ==>
              |r| > 4 && r[|r| - 4..] == " bpm" && ParseInt(r[..|r| - 4]) == Some(c.avg7)
  {
    if c.avg7 > 0 then BpmText(c.avg7) else "—"
  }

  function BpmText(b: int): (r: string)
    requires IntMin <= b <= IntMax
    ensures |r| > 4 && r[|r| - 4..] == " bpm" && ParseInt(r[..|r| - 4]) == Some(b)
    ensures r != "—"
  {
    var d := IntDescription(b);
    var r := d + " bpm";
    assert r[..|r| - 4] == d;
    ParseIntDescription(b);
    r
  }

  /** The topics of the canned questions. */
  datatype Category = Slowdown | Exam | Sleep | Caffeine | Exercise | Average | StreakTopic | General

  /** The raw value of each topic, stored in `detected`. */
  function CategoryRaw(c: Category): string {
    match c
    case Slowdown => "bajar ritmo"
    case Exam => "examen"
    case Sleep => "sueño"
    case Caffeine => "cafeína"
    case Exercise => "ejercicio"
    case Average => "promedio"
    case StreakTopic => "racha"
    case General => "general"
  }

  /** `Category(rawValue:)`. */
  function CategoryFromRaw(s: string): (r: Option<Category>)
    ensures r.Some? ==> CategoryRaw(r.value) == s
  {
    if s == "bajar ritmo" then Some(Slowdown)
    else if s == "examen" then Some(Exam)
    else if s == "sueño" then Some(Sleep)
    else if s == "cafeína" then Some(Caffeine)
    else if s == "ejercicio" then Some(Exercise)
    else if s == "promedio" then Some(Average)
    else if s == "racha" then Some(StreakTopic)
    else if s == "general" then Some(General)
    else None
  }

  /** Raw values are distinct: each reads back as its own topic. */
  lemma CategoryRawRoundTrip(c: Category)
    ensures CategoryFromRaw(CategoryRaw(c)) == Some(c)
  {
  }

  /** A message as the list shows it. */
  datatype Shown = Shown(role: Role, text: string)

  /** The saved messages (in timestamp order, as queried), the unsaved ones, and the
      topic last asked about. */
  datatype ChatState = ChatState(saved: seq<ChatMessage>, inMemory: seq<Shown>, detected: string)

  /** `saveChat`: the settings' choice, keeping history when there are no settings. */
  function SaveChat(settings: Option<AppSettings>): (r: bool)
    ensures settings.Some? ==> r == settings.value.saveChatHistory
    ensures settings.None? ==> r
  {
    settings.GetOr(DefaultSettings).saveChatHistory
  }

  function ShowSaved(saved: seq<ChatMessage>): (r: seq<Shown>)
    ensures |r| == |saved|
    ensures forall i :: 0 <= i < |r| ==> r[i] == Shown(saved[i].role, saved[i].text)
  {
    seq(|saved|, i requires 0 <= i < |saved| => Shown(saved[i].role, saved[i].text))
  }

  /** `currentMessages`: the saved messages when history is kept, else the unsaved ones. */
  function CurrentMessages(c: ChatState, save: bool): (r: seq<Shown>)
    ensures save ==> |r| == |c.saved|
    ensures save ==> forall i :: 0 <= i < |r| ==> r[i].role == c.saved[i].role && r[i].text == c.saved[i].text
    ensures !save ==> r == c.inMemory
  {
    if save then ShowSaved(c.saved) else c.inMemory
  }

  /** `append(role:text:)`: one message at the end of the list in use; the other list
      is not touched. */
  function Append(c: ChatState, save: bool, role: Role, text: string, now: int): (r: ChatState)
    ensures CurrentMessages(r, save) == CurrentMessages(c, save) + [Shown(role, text)]
    ensures save ==> r.inMemory == c.inMemory
    ensures !save ==> r.saved == c.saved
    ensures r.detected == c.detected
  {
    if save then
      var r := c.(saved := c.saved + [ChatMessage(role, text, now)]);
      assert ShowSaved(r.saved) == ShowSaved(c.saved) + [Shown(role, text)];
      r
    else c.(inMemory := c.inMemory + [Shown(role, text)])
  }

  /** `tapQuestion(_:)`: note the topic, then the question and its answer, in that order.
      Each saved message takes its own `.now`: `asked` and `answered`. */
  function TapQuestion(c: ChatState, save: bool, topic: Category, question: string, answer: string,
                       asked: int, answered: int): (r: ChatState)
    ensures r.detected == CategoryRaw(topic)
    ensures save ==> r.saved == c.saved + [ChatMessage(User, question, asked), ChatMessage(Assistant, answer, answered)]
    ensures CurrentMessages(r, save) ==
              CurrentMessages(c, save) + [Shown(User, question), Shown(Assistant, answer)]
    ensures save ==> r.inMemory == c.inMemory
    ensures !save ==> r.saved == c.saved
  {
    var c1 := c.(detected := CategoryRaw(topic));
    var c2 := Append(c1, save, User, question, asked);
    Append(c2, save, Assistant, answer, answered)
  }

  /** `clearChat`: empties the list in use and forgets the topic. */
  function ClearChat(c: ChatState, save: bool): (r: ChatState)
    ensures CurrentMessages(r, save) == [] && r.detected == ""
    ensures save ==> r.inMemory == c.inMemory
    ensures !save ==> r.saved == c.saved
  {
    if save then c.(saved := [], detected := "") else c.(inMemory := [], detected := "")
  }

  /** Clearing after any questions leaves the same empty list as clearing before them. */
  lemma ClearForgetsQuestions(c: ChatState, save: bool, topic: Category, q: string, a: string, asked: int, answered: int)
    ensures CurrentMessages(ClearChat(TapQuestion(c, save, topic, q, a, asked, answered), save), save)
         == CurrentMessages(ClearChat(c, save), save)
    ensures ClearChat(TapQuestion(c, save, topic, q, a, asked, answered), save).detected == ""
  {
  }
}
