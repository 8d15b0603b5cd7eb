/** The settings screens (`cordis/Views/SettingsView.swift` and the earlier
    `cordis/SettingsView.swift`). The screen keeps a copy of the settings record in view
    state: `Load` fills it from the record, and every change writes it back with `Save`,
    which also deletes the saved chat when history is switched off and schedules or
    cancels the daily reminder. The record is the query's first result; as with the
    other views, a record inserted during a call is not visible to the rest of that
    call. The reminder picker's hour and minute are optional, as the calendar's date
    components are; the picker starts at the current time, whose hour and minute are
    inputs. */
module Settings {
  import opened Wrappers
  import opened Text
  import opened Records

  /** The screen's state. `isLoading` exists only on the current screen; the earlier one
      behaves as if it were always false and has no HealthKit switch. */
  datatype Form = Form(
    theme: int,
    ageGroup: int,
    name: string,
    objective: int,
    reminderEnabled: bool,
    reminderHour: Option<int>,
    reminderMinute: Option<int>,
    saveChatHistory: bool,
    healthKitEnabled: bool,
    isLoading: bool)

  /** The current screen's initial state, with the reminder picker at the clock's time. */
  function Form0(clockHour: int, clockMinute: int): (f: Form)
    ensures f.reminderHour == Some(clockHour) && f.reminderMinute == Some(clockMinute)
    ensures f.isLoading && f.saveChatHistory && !f.reminderEnabled && !f.healthKitEnabled
    ensures f.theme == 0 && f.ageGroup == 0 && f.name == "" && f.objective == 0
  {
    Form(0, 0, "", 0, false, Some(clockHour), Some(clockMinute), true, false, true)
  }

  /** The earlier screen's initial state: age group 3, never loading, the reminder picker
      at the clock's time. */
  function LegacyForm0(clockHour: int, clockMinute: int): (f: Form)
    ensures f.reminderHour == Some(clockHour) && f.reminderMinute == Some(clockMinute)
    ensures !f.isLoading && f.saveChatHistory && !f.reminderEnabled && !f.healthKitEnabled
    ensures f.theme == 0 && f.ageGroup == 3 && f.name == "" && f.objective == 0
  {
    Form(0, 3, "", 0, false, Some(clockHour), Some(clockMinute), true, false, false)
  }

  /** What is done about the daily reminder. */
  datatype ReminderAction = NoAction | Schedule(hour: int, minute: int) | CancelReminder

  /** The persisted state the screen touches. */
  datatype Store = Store(settings: Option<AppSettings>, chat: seq<ChatMessage>)

  /** `ensureSettingsExists`: inserts a default record only when there is none. */
  function EnsureSettings(settings: Option<AppSettings>): (r: Option<AppSettings>)
    ensures r.Some?
    ensures settings.Some? ==> r == settings
    ensures settings.None? ==> r == Some(DefaultSettings)
  {
    if settings.None? then Some(DefaultSettings) else settings
  }

  /** `load`: copies the record into the screen; with no record nothing changes. The
      current screen copies the HealthKit switch too and ends loading afterwards
      (`Settle`). */
  function Load(f: Form, settings: Option<AppSettings>, current: bool): (r: Form)
    ensures settings.None? ==> r == f
    ensures settings.Some? ==>
              var s := settings.value;
              && r.theme == s.themeMode && r.ageGroup == s.ageGroup && r.name == s.preferredName
              && r.objective == s.objective && r.reminderEnabled == s.reminderEnabled
              && r.saveChatHistory == s.saveChatHistory
              && r.reminderHour == Some(s.reminderHour) && r.reminderMinute == Some(s.reminderMinute)
              && r.healthKitEnabled == (if current then s.healthKitEnabled else f.healthKitEnabled)
              && r.isLoading == f.isLoading
  {
    match settings
    case None => f
    case Some(s) =>
      f.(theme := s.themeMode, ageGroup := s.ageGroup, name := s.preferredName,
         objective := s.objective, reminderEnabled := s.reminderEnabled,
         saveChatHistory := s.saveChatHistory,
         reminderHour := Some(s.reminderHour), reminderMinute := Some(s.reminderMinute),
         healthKitEnabled := if current then s.healthKitEnabled else f.healthKitEnabled)
  }

  /** The delayed end of loading on the current screen. */
  function Settle(f: Form): (r: Form)
    ensures !r.isLoading && r.(isLoading := f.isLoading) == f
  {
    f.(isLoading := false)
  }

  /** Writes the screen's values into a record: the name trimmed, a missing hour or minute
      read as 20:00, the chat flag last. */
  function WriteBack(s: AppSettings, f: Form, current: bool): (t: AppSettings)
    ensures t.themeMode == f.theme && t.ageGroup == f.ageGroup && t.preferredName == Trim(f.name)
    ensures t.objective == f.objective && t.reminderEnabled == f.reminderEnabled
    ensures t.reminderHour == f.reminderHour.GetOr(20) && t.reminderMinute == f.reminderMinute.GetOr(0)
    ensures t.saveChatHistory == f.saveChatHistory
    ensures t.healthKitEnabled == (if current then f.healthKitEnabled else s.healthKitEnabled)
    ensures t.languageMode == s.languageMode && t.hasCompletedOnboarding == s.hasCompletedOnboarding
    ensures t.hasAcceptedDisclaimer == s.hasAcceptedDisclaimer && t.disclaimerAcceptedDate == s.disclaimerAcceptedDate
  {
    s.(themeMode := f.theme, ageGroup := f.ageGroup, preferredName := Trim(f.name),
       objective := f.objective, reminderEnabled := f.reminderEnabled,
       healthKitEnabled := if current then f.healthKitEnabled else s.healthKitEnabled,
       reminderHour := f.reminderHour.GetOr(20), reminderMinute := f.reminderMinute.GetOr(0),
       saveChatHistory := f.saveChatHistory)
  }

  /** Whether saving deletes the saved chat: only when history goes from kept to not kept. */
  function PurgesChat(s: AppSettings, f: Form): bool {
    s.saveChatHistory && !f.saveChatHistory
  }

  /** `save`. The current screen does nothing while loading. With no record, one is
      inserted and nothing else happens in that call. Otherwise the record is
      overwritten, the chat deleted when history is switched off, and the reminder
      scheduled at the stored time when enabled, cancelled when not. */
  function Save(f: Form, st: Store, current: bool): (r: (Store, ReminderAction))
    ensures current && f.isLoading ==> r == (st, NoAction)
    ensures !(current && f.isLoading) && st.settings.None? ==>
              r == (Store(Some(DefaultSettings), st.chat), NoAction)
    ensures !(current && f.isLoading) && st.settings.Some? ==>
              && r.0.settings == Some(WriteBack(st.settings.value, f, current))
              && (r.0.chat == [] <==> PurgesChat(st.settings.value, f) || st.chat == [])
              && (!PurgesChat(st.settings.value, f) ==> r.0.chat == st.chat)
              && (f.reminderEnabled ==> r.1 == Schedule(f.reminderHour.GetOr(20), f.reminderMinute.GetOr(0)))
              && (!f.reminderEnabled ==> r.1 == CancelReminder)
  {
    if current && f.isLoading then (st, NoAction)
    else
      match st.settings
      case None => (Store(EnsureSettings(st.settings), st.chat), NoAction)
      case Some(s) =>
        var t := WriteBack(s, f, current);
        var chat := if PurgesChat(s, f) then [] else st.chat;
        var action := if f.reminderEnabled then Schedule(t.reminderHour, t.reminderMinute) else CancelReminder;
        (Store(Some(t), chat), action)
  }

  /** Loading a record and saving it straight back changes nothing in the store when its
      name is already trimmed: the chat is kept and the record comes back as it was. */
  lemma SaveAfterLoadKeepsRecord(f: Form, s: AppSettings, chat: seq<ChatMessage>, current: bool)
    requires Trim(s.preferredName) == s.preferredName
    ensures var g := Settle(Load(f, Some(s), current));
      Save(g, Store(Some(s), chat), current).0 == Store(Some(s), chat)
  {
    var g := Settle(Load(f, Some(s), current));
    assert WriteBack(s, g, current) == s;
  }

  /** Saving and loading back shows the screen's values again, the name trimmed. */
  lemma LoadAfterSaveShowsForm(f: Form, s: AppSettings, chat: seq<ChatMessage>, current: bool)
    requires !(current && f.isLoading)
    requires f.reminderHour.Some? && f.reminderMinute.Some?
    ensures var st := Save(f, Store(Some(s), chat), current).0;
      Load(f, st.settings, current) == f.(name := Trim(f.name))
  {
  }

  /** Saving with the reminder on schedules it at the form's picker time whenever the
      picker holds one, and stores that time; the `?? 20` default is not reached. */
  lemma SaveUsesPickerTime(f: Form, s: AppSettings, chat: seq<ChatMessage>, current: bool)
    requires f.reminderHour.Some? && f.reminderMinute.Some? && f.reminderEnabled && !(current && f.isLoading)
    ensures Save(f, Store(Some(s), chat), current).1 == Schedule(f.reminderHour.value, f.reminderMinute.value)
    ensures Save(f, Store(Some(s), chat), current).0.settings.Some?
    ensures Save(f, Store(Some(s), chat), current).0.settings.value.reminderHour == f.reminderHour.value
    ensures Save(f, Store(Some(s), chat), current).0.settings.value.reminderMinute == f.reminderMinute.value
  {
    var t := WriteBack(s, f, current);
    assert Save(f, Store(Some(s), chat), current) == (Store(Some(t), if PurgesChat(s, f) then [] else chat), Schedule(t.reminderHour, t.reminderMinute));
  }

  /** On the earlier screen, when the first load found no record (the one just inserted
      is not yet visible), the form keeps the picker at the clock's time; switching the
      reminder on then saves and schedules it at that time, not at 20:00. */
  lemma UnloadedSaveUsesClockTime(clockHour: int, clockMinute: int, s: AppSettings, chat: seq<ChatMessage>)
    ensures Load(LegacyForm0(clockHour, clockMinute), None, false) == LegacyForm0(clockHour, clockMinute)
    ensures Save(LegacyForm0(clockHour, clockMinute).(reminderEnabled := true), Store(Some(s), chat), false).1
            == Schedule(clockHour, clockMinute)
  {
    SaveUsesPickerTime(LegacyForm0(clockHour, clockMinute).(reminderEnabled := true), s, chat, false);
  }

  /** A save that keeps history on keeps the chat, whatever the record said. */
  lemma ChatKeptWhileHistoryOn(f: Form, st: Store, current: bool)
    requires f.saveChatHistory
    ensures Save(f, st, current).0.chat == st.chat
  {
  }

  /** The current screen's HealthKit switch: switching it on asks for authorization and
      switches it back off when that is refused. */
  function OnHealthKitChange(f: Form, on: bool, authorized: bool): (r: Form)
    ensures r.healthKitEnabled <==> on && authorized
    ensures r.(healthKitEnabled := f.healthKitEnabled) == f
  {
    f.(healthKitEnabled := on && authorized)
  }
}
