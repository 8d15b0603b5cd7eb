/** The persisted records other than `StressEntry`: the streak counter, the single
    settings record and the assistant's chat messages. Dates are whole seconds since a
    fixed epoch; the streak's day is a day number (see `Streak.DayOf`). */
module Records {
  import opened Wrappers

  /** `UserStats`: the current run of days with a measurement and the last such day. */
  datatype UserStats = UserStats(streakDays: int, lastStreakDay: Option<int>)

  /** `UserStats()` with its default arguments. */
  const NewStats: UserStats := UserStats(0, None)

  /** `AppSettings`. Theme: 0 system, 1 light, 2 dark. Language: 0 Spanish, 1 English.
      Age group as in `Classification`. Objective 0..3. */
  datatype AppSettings = AppSettings(
    themeMode: int,
    languageMode: int,
    ageGroup: int,
    preferredName: string,
    objective: int,
    reminderEnabled: bool,
    reminderHour: int,
    reminderMinute: int,
    saveChatHistory: bool,
    healthKitEnabled: bool,
    hasCompletedOnboarding: bool,
    hasAcceptedDisclaimer: bool,
    disclaimerAcceptedDate: Option<int>)

  /** `AppSettings()` with its default arguments. */
  const DefaultSettings: AppSettings :=
    AppSettings(0, 0, 2, "", 0, false, 9, 0, true, false, false, false, None)

  datatype Role = User | Assistant

  /** `ChatMessage`: who wrote it, the text and when. */
  datatype ChatMessage = ChatMessage(role: Role, text: string, timestamp: int)
}
