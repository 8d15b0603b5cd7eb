# cordis, modelled in Dafny

cordis is an iOS app that records heart-rate measurements and offers breathing and guided
meditations. This project models the logic inside its SwiftUI views and services:

- how a BPM is classified against an age group's range (two diverging tables);
- the rules for recording an entry: input validation, the day streak, the confetti and the
  "explosion", HealthKit duplicate suppression, advice and labels;
- the manual pulse measurement wizard;
- the 4-7-8 breathing session and the two countdown components;
- the statistics, history and health-assistant screens: time windows, averages, weekly
  grouping and the chat log;
- onboarding, settings persistence and root routing;
- the guided meditations: the CloudKit catalogue with its on-disk cache, the audio engine's
  transport and smoothing, the haptic mapping, and the player and list screens.

Each source concern is one module. Records are immutable datatypes and operations are pure
functions. Framework state becomes plain data:

- SwiftData stores are sequences;
- the file system is a map from file name to contents, and UserDefaults a map from key to
  change tag;
- the haptic engine and player are whether they exist plus the control values last sent;
- the audio player node is what the engine last asked of it.

Dates are whole seconds, and streak days are day numbers of 86400 seconds. Calendar
answers (start of day, a month or a year ago, start of week) are inputs. Which framework
call fails, what a file open returns and what CloudKit answers are also inputs. Timers and
callbacks are single steps. Times, amplitudes and haptic parameters are `real`.

`Numeric`, `Text`, `Seqs` and `Wrappers` hold the Swift semantics the rest needs:

- truncating `/` and `%`, and `Int(Double)`;
- Swift `Character`s as grapheme clusters and the `isNumber` filter over them, with the Unicode
  numeric-type table; whitespace trimming, parsing and printing of `Int`, lower-casing;
- filtering and a stable sort.

## Model

| member | source | states |
|---|---|---|
| Classification.ThresholdsCurrent | cordis/Models/Models.swift:30-40 | every age group's range is well formed and lies within 55..120 |
| Classification.CurrentModelExamples | cordis/Models/Models.swift:33-39 | the table is exactly 0→(70,120), 1→(65,115), 2→(60,110), 3→(55,100), others→(60,100), and the labels, colours and default age group at the tested band edges are those the test suite pins |
| Classification.CurrentThresholdsDecrease | cordis/Models/Models.swift:34-37 | for groups 0..3 both bounds strictly decrease with the group |
| Classification.ThresholdsLegacy | cordis/Models.swift:28-36 | the earlier table's ranges are well formed and 50 BPM wide |
| Classification.TablesAgreeOnFirstGroups | cordis/Models.swift:31-35 | the two tables agree exactly on groups 0..2; group 3 is (55,100) in one and (60,110) in the other |
| Classification.LevelOf | cordis/Models/Models.swift:42-55 | below the minimum iff "paro cardiaco", above the maximum iff "arritmia", and the three in-range bands [min,min+10), [min+10,max-15), [max-15,max] for either table |
| Classification.LevelMonotone | cordis/Models/Models.swift:42-55 | a higher BPM never gives a less severe label |
| Classification.ParseLevelText | cordis/Models/Models.swift:42-55 | each of the five stored labels reads back as its own level |
| Classification.ColorOf | cordis/Models/Models.swift:57-65 | the colour is the one paired with the label: purple, red, green, blue, orange |
| Classification.MakeEntry | cordis/Models/Models.swift:23-28 | a new entry keeps bpm, time and age group and stores the label of that BPM in that group |
| Classification.MakeDefaultEntry | cordis/Models.swift:21-26 | without an age group the entry is classified in group 2 |
| Text.NumbersOnly | cordis/Views/HomeView.swift:165-168 | the filtered input keeps, whole and in order, exactly the typed Characters whose first scalar has a Unicode numeric type |
| Text.FlattenAllDigits | cordis/Views/HomeView.swift:165-168 | the text of some Characters is all ASCII digits iff each Character is |
| Text.FlattenNonDigit | cordis/Views/HomeView.swift:165-168 | in the text of numeral-led Characters, a scalar that is not an ASCII digit is never whitespace or a sign |
| Text.NumbersOnlyAllDigits | cordis/Views/HomeView.swift:165-168 | the filtered input is all ASCII digits iff every numeral-led Character typed is made of ASCII digits only: another script's digit, a circled number or a keycap digit makes it not |
| Text.ParseRejectsNonDigit | cordis/Views/HomeView.swift:384 | `Int(String)` rejects any text holding a scalar that is neither an ASCII digit nor a sign |
| Text.ParseRejectsOtherNumeral | cordis/Views/HomeView.swift:384 | `Int(String)` rejects any text holding a numeral other than an ASCII digit |
| Text.NumbersOnlyIdempotent | cordis/Views/HomeView.swift:165-168 | filtering twice is filtering once |
| Home.AcceptedBpm | cordis/Views/HomeView.swift:383-398 | an input is accepted iff its trimmed text parses as an Int within 30...220, and then the value is that Int |
| Home.AcceptedDigitString | cordis/Views/HomeView.swift:383-398 | a digit string is accepted exactly when its decimal value lies in 30...220 |
| Home.AcceptedRendered | cordis/Views/HomeView.swift:383-398 | every BPM in range, written in decimal, is accepted as itself |
| Home.OnInputChange | cordis/Views/HomeView.swift:165-168 | the field keeps exactly the typed Characters led by a numeral, marks included, clears the error and changes nothing stored |
| Home.FilteredAcceptedIffDigits | cordis/Views/HomeView.swift:383-384 | what the filter leaves is accepted iff it is a non-empty run of ASCII digits whose value is in 30...220, and then the BPM is that value |
| Home.OtherNumeralRejected | cordis/Views/HomeView.swift:383-384 | any typed Character led by a numeral but not made of ASCII digits passes the filter and then makes the BPM invalid |
| Home.MixedNumeralsExample | cordis/Views/HomeView.swift:165-166 | "12㊈0" is kept whole by the filter and then rejected as a BPM |
| Home.KeycapDigitsExample | cordis/Views/HomeView.swift:165-166 | keycap digits "1️⃣2️⃣0️⃣" are kept whole, marks included, and then rejected as a BPM |
| Home.OnInputChangeIdempotent | cordis/Views/HomeView.swift:165-168 | the field's own change handler leaves the filtered value as it is |
| Home.Celebrate | cordis/Views/HomeView.swift:414-423 | confetti iff min ≤ bpm ≤ min+10, explosion iff bpm > max, never both |
| Home.EnsureStats | cordis/Views/HomeView.swift:375-380 | a stats record exists afterwards, and an existing one is kept |
| Home.SaveEntry | cordis/Views/HomeView.swift:405-424 | exactly one entry with the BPM is appended, the streak is updated for today's day (on the stale snapshot, not on a record just inserted), and the celebration follows the BPM |
| Home.Analyze | cordis/Views/HomeView.swift:382-403 | invalid input saves nothing and shows the error; valid input appends one entry, clears the field and celebrates by the BPM |
| Home.NeedsMeditation | cordis/Views/HomeView.swift:38-41 | true iff there are entries and the newest BPM is above its own age group's range |
| Home.HighSavePromptsMeditation | cordis/Views/HomeView.swift:38-41 | saving a BPM above the range makes the meditation prompt appear |
| Home.Background | cordis/Views/HomeView.swift:43-51 | stress iff explosion or the newest entry is above range; success iff below min+10 without explosion; calm otherwise |
| Home.AdviceFor | cordis/Views/HomeView.swift:466-473 | the advice checked in order is exactly the advice for the BPM's label |
| Home.RecentSame | cordis/Views/HomeView.swift:426-433 | the entries with that BPM in the last 60 seconds |
| Home.SaveHealthKitEntry | cordis/Views/HomeView.swift:426-433 | nothing is saved iff an entry with the same BPM exists in the last 60 seconds; otherwise it is an ordinary save |
| Home.HealthKitRepeatSuppressed | cordis/Views/HomeView.swift:426-433 | once a reading is saved, the same reading within the next minute is not saved again |
| Home.OnHeartRateChange | cordis/Views/HomeView.swift:112-117 | only a new reading that replaces an earlier one is saved, truncated to Int |
| Home.StreakText | cordis/Views/HomeView.swift:475-478 | the number after the label reads back as the streak, 0 when not positive |
| Home.LocalizedStressLevel | cordis/Views/HomeView.swift:480-489 | every stored label maps to its key, whatever its case; the text is shown as it is exactly when it matches no label |
| Home.LabelsLowercase | cordis/Views/HomeView.swift:480-489 | the stored labels lower-case to the texts the lookup matches |
| Home.LocalizedIgnoresCase | cordis/Views/HomeView.swift:480-489 | texts that lower-case alike get the same key |
| Streak.DayOf | cordis/Views/HomeView.swift:435-457 | a timestamp lies inside the day it is assigned |
| Streak.UpdateStreak | cordis/Views/HomeView.swift:435-457 | first day or gap gives 1, the same day changes nothing, the next day adds one, and the last day becomes today |
| Streak.UpdateStoredStreak | cordis/HomeView.swift:254-276 | without a stats record nothing happens; with one, its last day becomes today |
| Streak.ReplayCountsConsecutiveDays | cordis/Views/HomeView.swift:435-457 | over any non-decreasing series of saving days the streak is the length of the run of consecutive days ending at the last one |
| Entries.Newest | cordis/Views/HomeView.swift:15 | the query's order is newest first and holds the same entries |
| Entries.LatestComesFirst | cordis/Views/HomeView.swift:15 | a measurement later than all stored ones is the first of the query |
| Entries.Since | cordis/Views/HealthAssistantView.swift:212-213 | exactly the entries at or after the given time |
| Entries.SinceKeepsNewestFirst | cordis/Views/HealthAssistantView.swift:212-213 | filtering keeps the newest-first order |
| LegacyHome.LegacyAnalyze | cordis/HomeView.swift:219-247 | the field is always cleared; invalid input saves nothing; valid input appends one entry, updates the streak and celebrates |
| LegacyHome.DeleteAll | cordis/HomeView.swift:249-252 | every entry is deleted and nothing else changes |
| LegacyHome.DeleteAllClearsPrompt | cordis/HomeView.swift:249-252 | after deleting everything no meditation prompt is shown |
| LegacyHome.LegacyStreakText | cordis/HomeView.swift:295-298 | "Racha: " then the count; the singular "día" exactly for 1 |
| LegacyHome.LegacyLocalizedStressLevel | cordis/HomeView.swift:300-309 | each stored label gets its capitalised word, and a text matching no label is shown as it is |
| ManualMeasurement.WithBeats | cordis/Views/ManualMeasurementView.swift:330-332 | after a counter change the BPM is four times the beats |
| ManualMeasurement.ManualStep | cordis/Views/ManualMeasurementView.swift:26-320 | back goes one step back or closes on the first; "ready" moves to the count step and the timer's end to the result step; plus adds a beat, minus removes one but stops at 0, and both keep the BPM at four times the count; quick sets the count; save opens the result and its close button hides it; only "done" hands over a BPM, and it is the one shown |
| ManualMeasurement.StepKeepsConsistent | cordis/Views/ManualMeasurementView.swift:178-211 | every available button keeps the step in 0..2, the beats non-negative and the BPM at four times the beats |
| ManualMeasurement.RunKeepsConsistent | cordis/Views/ManualMeasurementView.swift:255-260 | after any presses the screen is consistent, and any BPM handed over is a positive multiple of four |
| ManualMeasurement.StartConsistent | cordis/Views/ManualMeasurementView.swift:12-15 | the opening state is consistent |
| ManualMeasurement.ManualLevelOf | cordis/Views/ManualMeasurementView.swift:334-341 | fixed cut-offs whatever the age group: Low iff below 60, Good iff 60..79, Fair iff 80..99, High iff 100..119, Very high iff 120 or more |
| ManualMeasurement.ManualColor | cordis/Views/ManualMeasurementView.swift:343-349 | the colour uses the label's cut-offs, so label and colour agree |
| ManualMeasurement.ManualBackground | cordis/Views/ManualMeasurementView.swift:351-355 | success for the two lowest labels, calm for the middle one, stress above |
| Breathing.Start | cordis/Views/MeditationView.swift:179-186 | running, with the count and phase kept |
| Breathing.StartTwiceIsStartOnce | cordis/Views/MeditationView.swift:179-186 | starting again schedules no second timer |
| Breathing.Pause | cordis/Views/MeditationView.swift:227-230 | stops and keeps the count and the phase |
| Breathing.Finish | cordis/Views/MeditationView.swift:232-235 | stops and marks the session complete |
| Breathing.Tick | cordis/Views/MeditationView.swift:186-196 | one second off while time is left, finish at zero; the phase advances mod 4 exactly when the new count is a positive multiple of the phase length |
| Breathing.TicksCountDown | cordis/Views/MeditationView.swift:186-196 | while time is left each firing takes one second off and the count never goes negative |
| Breathing.SessionCompletesAfterFourMinutes | cordis/Views/MeditationView.swift:14 | a started session shows 0:00 after 240 firings and completes on the next one |
| Breathing.HoldPhaseCutShort | cordis/Views/MeditationView.swift:189-193 | as written the seven-second hold after the first inhale lasts five seconds |
| Breathing.ShownPhase | cordis/Views/MeditationView.swift:166-171 | the completion message once finished, otherwise inhale, hold, exhale or breathe for phases 0 to 3 |
| Breathing.TimeString | cordis/Views/MeditationView.swift:173-177 | minutes, a colon, and two digits that read back as the seconds |
| Breathing.PacedTick | cordis/Views/MeditationView.swift:186-196 | the corrected rule keeps the time in the phase within its length and rotates the phase mod 4 |
| Breathing.PacedPhaseLastsItsDuration | cordis/Views/MeditationView.swift:21-27 | with the corrected rule every phase not cut off by the end lasts exactly its length |
| Breathing.PacedHoldLastsSeven | cordis/Views/MeditationView.swift:21-27 | with the corrected rule the first hold lasts seven seconds |
| LegacyBreathing.LegacyTick | cordis/MeditationView.swift:71-82 | the same countdown and phase rule as the current session, with the text following every phase change |
| LegacyBreathing.LegacyPause | cordis/MeditationView.swift:85-88 | stops without changing counters or text |
| LegacyBreathing.LegacyFinish | cordis/MeditationView.swift:90-94 | stops and shows "Meditación finalizada" |
| LegacyBreathing.LegacyStartTracksPhase | cordis/MeditationView.swift:11-22 | the session opens on "Inhala", the first phase's text |
| Countdown.NewRing | cordis/Components/CountdownTimerView.swift:22-26 | the count starts at the total with no timer |
| Countdown.RingTick | cordis/Components/CountdownTimerView.swift:103-121 | counts down while above one; reaching zero stops the timer and completes once |
| Countdown.RingCompletesOnce | cordis/Components/CountdownTimerView.swift:103-121 | a started countdown completes exactly once, after exactly its total seconds, and never goes below zero |
| Countdown.Progress | cordis/Components/CountdownTimerView.swift:28-30 | the elapsed fraction: times the total it gives the elapsed time, in [0,1] for a count within the total, 0 when full and 1 when done |
| Countdown.ProgressMonotone | cordis/Components/CountdownTimerView.swift:28-30 | less time remaining never shows less progress |
| Countdown.SetActive | cordis/Components/CountdownTimerView.swift:204-211 | switching on restarts from the total with the timer running; switching off stops it |
| Countdown.Cancel | cordis/Components/CountdownTimerView.swift:192-195 | stops and switches off without completing |
| Countdown.CompactTick | cordis/Components/CountdownTimerView.swift:214-225 | completion switches the binding off before completing |
| Countdown.CompactStep | cordis/Components/CountdownTimerView.swift:204-225 | the timer runs only while the binding is on, and one event completes at most once |
| Countdown.CompactCompletesOncePerActivation | cordis/Components/CountdownTimerView.swift:204-225 | over any events the completion runs at most once per activation |
| Assistant.UserName | cordis/Views/HealthAssistantView.swift:20-24 | the trimmed name, or "amigo" when blank or missing |
| Assistant.MakeContext | cordis/Views/HealthAssistantView.swift:207-216 | the newest BPM, and a seven-day mean between that week's extremes that is the truncated quotient of the sum, 0 with none |
| Assistant.TruncatedMeanBetween | cordis/Views/HealthAssistantView.swift:215 | the truncated mean of a non-empty list lies between its extremes |
| Assistant.QuotBrackets | cordis/Views/HealthAssistantView.swift:215 | for a non-negative sum, the truncated mean times the count does not exceed the sum, and one more would |
| Assistant.LastBpmText | cordis/Views/HealthAssistantView.swift:204 | a dash iff no measurement, otherwise "N bpm" reading back as the BPM |
| Assistant.Avg7Text | cordis/Views/HealthAssistantView.swift:205 | a dash iff the average is not positive, otherwise "N bpm" reading back as it |
| Assistant.CategoryRawRoundTrip | cordis/Views/HealthAssistantView.swift:221-230 | each topic's raw value reads back as that topic |
| Assistant.SaveChat | cordis/Views/HealthAssistantView.swift:29 | the settings' choice, true without settings |
| Assistant.CurrentMessages | cordis/Views/HealthAssistantView.swift:31-37 | the saved messages when history is kept, else the unsaved ones |
| Assistant.Append | cordis/Views/HealthAssistantView.swift:120-127 | one message at the end of the list in use; the other list and the topic stay |
| Assistant.TapQuestion | cordis/Views/HealthAssistantView.swift:114-118 | the topic is noted, then question and answer are appended in that order; when saved, each message carries its own creation instant |
| Assistant.ClearChat | cordis/Views/HealthAssistantView.swift:129-137 | the list in use and the topic are emptied; the other list stays |
| Assistant.ClearForgetsQuestions | cordis/Views/HealthAssistantView.swift:129-137 | clearing after a question leaves the same empty list as clearing before it |
| Stats.Filtered | cordis/Views/StatsView.swift:36-49 | week and month keep exactly the entries from their start on; all keeps everything |
| Stats.PeriodsNest | cordis/Views/StatsView.swift:36-49 | a week's entries are in the month's and the month's in all |
| Stats.FilteredKeepsNewestFirst | cordis/Views/StatsView.swift:36-49 | filtering keeps the newest-first order |
| Stats.AverageBetween | cordis/Views/StatsView.swift:51-54 | the average of a non-empty list lies between the smallest and largest BPM |
| Stats.AverageTimesCount | cordis/Views/StatsView.swift:51-54 | the average times the count is the sum of the BPMs |
| Stats.MinBpm | cordis/Views/StatsView.swift:56-58 | 0 with none, otherwise a BPM shown and no larger than any |
| Stats.MaxBpm | cordis/Views/StatsView.swift:60-62 | 0 with none, otherwise a BPM shown and no smaller than any |
| Stats.ChartDomain | cordis/Views/StatsView.swift:237 | drawn iff there are entries; every point lies inside, 10 BPM from the extremes |
| Stats.Summarize | cordis/Views/StatsView.swift:36-62 | the shown figures are those of the filtered entries, the total counts all, and min ≤ average ≤ max when there are entries |
| Stats.LegacySummarize | cordis/StatsView.swift:15-39 | the chart is drawn iff there are entries, and the average is 0 without |
| Stats.LegacyIsAllTime | cordis/StatsView.swift:13-17 | the earlier screen shows what the current one shows for all time |
| History.WindowStart | cordis/Views/HistoryView.swift:169-185 | no bound for all; six days before the start of today for the week |
| History.Filtered | cordis/Views/HistoryView.swift:169-185 | exactly the entries from the window's start on, drawn from the query |
| History.WindowsNest | cordis/Views/HistoryView.swift:169-185 | the windows nest when the calendar's answers do |
| History.FilteredKeepsNewestFirst | cordis/HistoryView.swift:75-91 | every window keeps the newest-first order |
| History.Group | cordis/Views/HistoryView.swift:187-189 | a week's group holds exactly that week's entries, as often as stored, newest first |
| History.Grouped | cordis/Views/HistoryView.swift:187-189 | one group per week that has entries |
| History.EachEntryInOneGroup | cordis/HistoryView.swift:93-96 | every entry is in its own week's group, as often as stored, and in no other; no group is empty |
| History.InsertDescending | cordis/Views/HistoryView.swift:192 | inserting a key keeps the list strictly descending and adds exactly that key |
| History.WeekKeys | cordis/Views/HistoryView.swift:192 | the group keys, each once, latest first |
| History.EmptyStateIffNoWeeks | cordis/Views/HistoryView.swift:47-51 | the empty state shows iff the window has no entries, iff there are no weeks |
| History.WeekEnd | cordis/Views/HistoryView.swift:200-206 | the header's end is six days after the start |
| History.HistoryLevel | cordis/Views/HistoryView.swift:208-217 | each stored label and the old "muy elevado"/"muy bajo" get their keys; the text is shown as it is exactly when it matches none of them |
| History.HistoryLevelIgnoresCase | cordis/Views/HistoryView.swift:208-217 | texts that lower-case alike get the same key |
| History.HomeAndHistoryLabels | cordis/Views/HistoryView.swift:208-217 | home and history agree on the in-range labels and differ on the two out-of-range ones |
| History.LegacyHistoryLabels | cordis/HistoryView.swift:114-122 | the earlier history shows the earlier home screen's words |
| History.RemoveOne | cordis/HistoryView.swift:57-60 | one copy of the entry is removed; an entry not stored changes nothing |
| History.RemoveAll | cordis/HistoryView.swift:57-60 | one copy of each selected entry is removed |
| History.Select | cordis/HistoryView.swift:57-60 | the entries at the swiped positions |
| History.SelectIsSubMultiset | cordis/HistoryView.swift:57-60 | distinct positions pick out part of the list |
| History.OnDelete | cordis/HistoryView.swift:57-60 | the store loses exactly the swiped entries |
| History.GroupDrawnFromStore | cordis/HistoryView.swift:93-96 | every week's list is drawn from the store |
| History.SwipeDeletesExactly | cordis/HistoryView.swift:57-60 | a swipe on a week's list removes exactly the swiped entries and nothing else |
| History.DeleteEntry | cordis/Views/HistoryView.swift:158 | exactly one stored entry is removed |
| Onboarding.StepOf | cordis/Views/Onboarding/OnboardingContainerView.swift:25-32 | raw values 0..6 and only those name a page |
| Onboarding.StepRawRoundTrip | cordis/Views/Onboarding/OnboardingContainerView.swift:25-32 | every page is found again from its raw value |
| Onboarding.Progress | cordis/Views/Onboarding/OnboardingContainerView.swift:34-36 | in [0,1], 0 exactly on welcome and 1 exactly on complete |
| Onboarding.ProgressMonotone | cordis/Views/Onboarding/OnboardingContainerView.swift:34-36 | a later page shows strictly more progress, and only a later one |
| Onboarding.ShowsProgressBar | cordis/Views/Onboarding/OnboardingContainerView.swift:45 | the bar shows exactly on the pages strictly between first and last |
| Onboarding.NextStep | cordis/Views/Onboarding/OnboardingContainerView.swift:105-111 | one page on, the last page stays |
| Onboarding.NextStepsAdvance | cordis/Views/Onboarding/OnboardingContainerView.swift:105-111 | continuing n times moves n pages on, stopping at the last |
| Onboarding.CompleteOnboarding | cordis/Views/Onboarding/OnboardingContainerView.swift:113-125 | nothing without a record; otherwise every answer is copied, the name trimmed, and onboarding marked complete |
| Onboarding.CompleteOnboardingIdempotent | cordis/Views/Onboarding/OnboardingContainerView.swift:113-125 | finishing twice is finishing once |
| Settings.Form0 | cordis/Views/SettingsView.swift:21-32 | the screen opens loading, with history kept and the reminder off, its picker at the clock's time |
| Settings.LegacyForm0 | cordis/SettingsView.swift:18-27 | the earlier screen opens with age group 3, history kept and the reminder off, its picker at the clock's time |
| Settings.EnsureSettings | cordis/Views/SettingsView.swift:337-342 | a record exists afterwards; an existing one is kept and a default one added only when none |
| Settings.Load | cordis/Views/SettingsView.swift:344-365 | without a record nothing changes; otherwise the form shows the record's fields |
| Settings.Settle | cordis/Views/SettingsView.swift:361-364 | loading ends and nothing else changes |
| Settings.WriteBack | cordis/Views/SettingsView.swift:372-392 | each form field is copied back, the name trimmed, the reminder defaulting to 20:00, the rest of the record kept |
| Settings.Save | cordis/Views/SettingsView.swift:367-404 | nothing while loading; otherwise the record is written, the chat purged iff history goes from on to off, and the reminder scheduled iff enabled |
| Settings.SaveAfterLoadKeepsRecord | cordis/SettingsView.swift:131-169 | saving the form just loaded leaves the record and the chat as they were |
| Settings.LoadAfterSaveShowsForm | cordis/SettingsView.swift:131-169 | loading after a save shows the form that was saved |
| Settings.ChatKeptWhileHistoryOn | cordis/SettingsView.swift:164-169 | with history on, saving never deletes messages |
| Settings.SaveUsesPickerTime | cordis/SettingsView.swift:154-162 | with the reminder on, the record and the schedule take the picker's hour and minute |
| Settings.UnloadedSaveUsesClockTime | cordis/SettingsView.swift:105-162 | when the first load finds no record, the form stays as opened and switching the reminder on schedules it at the opening time |
| Settings.OnHealthKitChange | cordis/Views/SettingsView.swift:183-191 | the switch stays on iff it was turned on and authorised |
| Root.PreferredScheme | cordis/App/RootView.swift:18-24 | light iff theme 1, dark iff theme 2, none otherwise or without a record |
| Root.ShouldShowOnboarding | cordis/App/RootView.swift:26-29 | true without settings, otherwise iff onboarding is not complete |
| Root.RouteOf | cordis/App/RootView.swift:33-45 | loading iff no settings, onboarding iff not completed, main tabs iff completed |
| Root.Bootstrap | cordis/App/RootView.swift:53-61 | settings and stats records are each added only when none exists |
| Root.BootstrapSettles | cordis/App/RootView.swift:53-61 | after bootstrapping the app leaves loading, bootstrapping again changes nothing, and a fresh install starts onboarding |
| Root.OnboardingLeadsToMain | cordis/Views/Onboarding/OnboardingContainerView.swift:113-125 | completing onboarding on the first record routes to the main tabs |
| Root.LegacyRouteOf | cordis/RootView.swift:27 | the earlier root always shows the main tabs, agreeing with the current one once onboarding is done |
| CloudCache.LocalFile | cordis/Services/CloudKitService.swift:113-115 | the cache file of a record is an audio file whose stem is the record name |
| CloudCache.LocalFileInjective | cordis/Services/CloudKitService.swift:113-115 | different records never share a cache file |
| CloudCache.TagKey | cordis/Services/CloudKitService.swift:81-88 | the stored tag's key is the prefix followed by the record name |
| CloudCache.TagKeyInjective | cordis/Services/CloudKitService.swift:81-88 | different records never share a tag key |
| CloudCache.ItemOf | cordis/Services/CloudKitService.swift:54-64 | a fetched item has a local file iff its cache file exists |
| CloudCache.ItemsOf | cordis/Services/CloudKitService.swift:54-66 | exactly the items of the records that came back |
| CloudCache.ItemsOfInOrder | cordis/Services/CloudKitService.swift:54-66 | when every record came back, one item per record, in fetch order |
| CloudCache.BeginFetch | cordis/Services/CloudKitService.swift:37-38 | loading, with the error cleared and the rest kept |
| CloudCache.EndFetch | cordis/Services/CloudKitService.swift:36-78 | loading ends; success lists the fetched items sorted by sort order; failure sets the error and falls back to the cache only when the list is empty |
| CloudCache.CachedItems | cordis/Services/CloudKitService.swift:117-138 | every audio file in the cache gives one item named by its stem, with sort order its position and no tag; none iff there is no audio file |
| CloudCache.LoadCached | cordis/Services/CloudKitService.swift:121-137 | the list is replaced only when the scan finds at least one file |
| CloudCache.FirstIndex | cordis/Services/CloudKitService.swift:102-104 | the position of the first item with that name, if any |
| CloudCache.MarkDownloaded | cordis/Services/CloudKitService.swift:102-104 | only the first matching item gains its local file |
| CloudCache.AfterCopy | cordis/Services/CloudKitService.swift:98-104 | the fetched tag is stored if any and the item is marked |
| CloudCache.Download | cordis/Services/CloudKitService.swift:80-111 | as written: a hit returns the cached file untouched; an error or a missing asset changes no file or tag; a failed copy has already removed the cached file |
| CloudCache.DownloadFailureLosesCache | cordis/Services/CloudKitService.swift:95-96 | a copy failure on an out-of-date cached file loses the file |
| CloudCache.SafeDownload | cordis/Services/CloudKitService.swift:80-111 | the corrected download: every failure leaves files, tags and list as they were, and a success returns a file that exists |
| CloudCache.SafeDownloadKeepsFiles | cordis/Services/CloudKitService.swift:95-96 | with the corrected download no cached file is ever lost |
| CloudCache.DownloadThenHit | cordis/Services/CloudKitService.swift:81-100 | after a download with the item's tag the next request is a cache hit |
| AudioEngine.InitialState | cordis/Services/AudioAnalysisEngine.swift:12-23 | the new engine satisfies the invariant and is in sync with its node |
| AudioEngine.Smooth | cordis/Services/AudioAnalysisEngine.swift:166-170 | the distance to the clamped loudness shrinks by the factor 0.3 |
| AudioEngine.SmoothInRange | cordis/Services/AudioAnalysisEngine.swift:166-170 | an amplitude in [0,1] stays there, and a loudness the amplitude already equals is a fixed point |
| AudioEngine.SmoothStepsConverge | cordis/Services/AudioAnalysisEngine.swift:166-170 | after n steps on a constant input the distance is 0.3ⁿ times the initial one |
| AudioEngine.PowerShrinks | cordis/Services/AudioAnalysisEngine.swift:25 | the powers of the factor lie in (0,1] and at most 0.3 after one step |
| AudioEngine.Stop | cordis/Services/AudioAnalysisEngine.swift:74-82 | not playing, amplitude and position 0, length and file kept |
| AudioEngine.Pause | cordis/Services/AudioAnalysisEngine.swift:62-66 | not playing; position and everything else kept |
| AudioEngine.Resume | cordis/Services/AudioAnalysisEngine.swift:68-72 | playing; position and everything else kept |
| AudioEngine.PauseResume | cordis/Services/AudioAnalysisEngine.swift:62-72 | resuming after a pause restores the playing engine |
| AudioEngine.LoadAndPlay | cordis/Services/AudioAnalysisEngine.swift:27-60 | a file that does not open leaves a stopped engine; an opened one sets the length, position 0, and plays iff the engine started |
| AudioEngine.AcceptedSeekInsideFile | cordis/Services/AudioAnalysisEngine.swift:85-93 | a seek the frame guard accepts targets a time before the end |
| AudioEngine.SeekTo | cordis/Services/AudioAnalysisEngine.swift:97-109 | position and offset become the target, and playback resumes iff it was playing |
| AudioEngine.Seek | cordis/Services/AudioAnalysisEngine.swift:84-110 | as written: no file, nothing; a rejected target still leaves the node stopped |
| AudioEngine.SeekToEndDesyncs | cordis/Services/AudioAnalysisEngine.swift:84-93 | seeking a playing one-second file to its end returns with the engine claiming to play a stopped node |
| AudioEngine.SeekInsideFileAccepted | cordis/Services/AudioAnalysisEngine.swift:84-93 | any target from 0 up to but not including the length passes the frame guard |
| AudioEngine.SafeSeek | cordis/Services/AudioAnalysisEngine.swift:84-110 | the corrected seek: a rejected target changes nothing and the claim to play stays true |
| AudioEngine.Tick | cordis/Services/AudioAnalysisEngine.swift:187-200 | only while playing; the position is the offset plus the time played, capped at the length, so it never passes the length |
| AudioEngine.Complete | cordis/Services/AudioAnalysisEngine.swift:202-207 | not playing, amplitude 0, position at the end |
| AudioEngine.Sample | cordis/Services/AudioAnalysisEngine.swift:166-170 | only the amplitude changes and it stays in [0,1] |
| AudioEngine.Interrupt | cordis/Services/AudioAnalysisEngine.swift:132-151 | a beginning pauses, an end resumes only with the resume option, anything else changes nothing |
| AudioEngine.StepKeepsInv | cordis/Services/AudioAnalysisEngine.swift:62-207 | every operation keeps the amplitude in [0,1], the position within the length and the timer running exactly while playing |
| AudioEngine.SafeStepKeepsSynced | cordis/Services/AudioAnalysisEngine.swift:84-110 | with the corrected seek every operation keeps the engine in sync with its node |
| AudioEngine.SafeRunKeepsInv | cordis/Services/AudioAnalysisEngine.swift:62-207 | any sequence of operations with the corrected seek keeps the invariant and the sync |
| Haptics.Haptics0 | cordis/Services/HapticManager.swift:10-18 | enabled, with support fixed at creation and no engine |
| Haptics.Mapping | cordis/Services/HapticManager.swift:61-62 | amplitudes in [0,1] send an intensity control in [0.3,1] and a sharpness control in [0.1,0.7], amplitude 0 sending (0.3, 0.1) and amplitude 1 sending (1, 0.7) |
| Haptics.MappingMonotone | cordis/Services/HapticManager.swift:61-62 | a louder amplitude sends a strictly larger multiplier and offset, and the mapping is one-to-one |
| Haptics.AmplitudeOfMapping | cordis/Services/HapticManager.swift:61-62 | the amplitude is recovered from the intensity control |
| Haptics.FeltAfterUpdate | cordis/Services/HapticManager.swift:41-73 | the intensity control scales the base event's 0.3 and the sharpness control adds to its 0.1: an update makes felt an intensity in [0.09, 0.3], never above the base event, and a sharpness in [0.2, 0.8] |
| Haptics.Start | cordis/Services/HapticManager.swift:20-56 | nothing unless supported and enabled; otherwise engine and player exist as far as creation got, and a started player has its controls at their defaults, so it makes the base event (0.3, 0.1) felt |
| Haptics.UpdateAmplitude | cordis/Services/HapticManager.swift:58-79 | nothing unless supported, enabled and with a player; otherwise only the player's control values become the mapped ones |
| Haptics.UpdateKeepsInRange | cordis/Services/HapticManager.swift:58-79 | updates with amplitudes in [0,1] keep the felt intensity in [0.09, 0.3] and the felt sharpness in [0.1, 0.8] |
| Haptics.StartKeepsInRange | cordis/Services/HapticManager.swift:41-42 | starting keeps the felt values in range |
| Haptics.Stop | cordis/Services/HapticManager.swift:81-90 | no player and no engine afterwards, the switch kept |
| Haptics.StopIdempotent | cordis/Services/HapticManager.swift:81-90 | stopping twice is stopping once, and stopping a new manager changes nothing |
| MeditationPlayer.InitialState | cordis/Views/GuidedMeditationPlayerView.swift:289-299 | the opening screen satisfies the player's invariant and its engine is in sync with the node |
| MeditationPlayer.CurrentAudioFile | cordis/Views/GuidedMeditationPlayerView.swift:289-299 | only an existing file, preferring the refreshed list item over the original |
| MeditationPlayer.Decide | cordis/Views/GuidedMeditationPlayerView.swift:269-287 | pause iff playing; resume iff paused inside the track; reload iff at the end or never loaded with a file; otherwise nothing |
| MeditationPlayer.TogglePlayback | cordis/Views/GuidedMeditationPlayerView.swift:269-287 | carries out the decision, starting haptics only when enabled and stopping them on pause |
| MeditationPlayer.ToggleFlipsPlaying | cordis/Views/GuidedMeditationPlayerView.swift:269-287 | playing pauses, and a paused or finished player with a file plays |
| MeditationPlayer.PauseThenPlayResumes | cordis/Views/GuidedMeditationPlayerView.swift:269-287 | pausing then pressing again asks the node to play from the same position, and restores the engine exactly when it was in sync |
| MeditationPlayer.ToggleHaptics | cordis/Views/GuidedMeditationPlayerView.swift:210-216 | flips the switch; enabling while playing starts the vibration, disabling always stops it, enabling while paused does nothing else |
| MeditationPlayer.SwitchedOffIsSilent | cordis/Views/GuidedMeditationPlayerView.swift:210-216 | after switching off no vibration runs |
| MeditationPlayer.SeekFraction | cordis/Views/GuidedMeditationPlayerView.swift:186 | the drag fraction is clamped to [0,1] |
| MeditationPlayer.SeekTarget | cordis/Views/GuidedMeditationPlayerView.swift:189-191 | the target lies in [0, length], at the ends for drags past them |
| MeditationPlayer.DragChanged | cordis/Views/GuidedMeditationPlayerView.swift:184-187 | seeking, with the clamped fraction, nothing else changes |
| MeditationPlayer.DragEnded | cordis/Views/GuidedMeditationPlayerView.swift:188-193 | ends the drag with the engine's own seek to the target; a release short of the end keeps a synced engine synced and lands on the target |
| MeditationPlayer.DragToEndDesyncs | cordis/Views/GuidedMeditationPlayerView.swift:188-193 | releasing at the far end while a 1 s file plays returns with the screen showing play over a stopped node |
| MeditationPlayer.SkipBackTarget | cordis/Views/GuidedMeditationPlayerView.swift:241-242 | fifteen seconds earlier, never before 0 |
| MeditationPlayer.SkipBack | cordis/Views/GuidedMeditationPlayerView.swift:241-242 | only the engine changes, through the engine's own seek: either it stops or it lands on the target, and a synced engine with a non-empty file stays synced at the target |
| MeditationPlayer.DisplayTime | cordis/Views/GuidedMeditationPlayerView.swift:145-147 | while dragging the time under the finger, otherwise the position |
| MeditationPlayer.Remaining | cordis/Views/GuidedMeditationPlayerView.swift:154 | never negative, and with the shown time it adds up to the length |
| MeditationPlayer.DisplayTimeInside | cordis/Views/GuidedMeditationPlayerView.swift:145-147 | the time shown never passes the length |
| MeditationPlayer.ProgressWidth | cordis/Views/GuidedMeditationPlayerView.swift:199-203 | 0 for an empty track, otherwise the shown fraction of the width |
| MeditationPlayer.ProgressWithinTrack | cordis/Views/GuidedMeditationPlayerView.swift:199-203 | the bar never leaves the track |
| MeditationPlayer.FormatTime | cordis/Views/GuidedMeditationPlayerView.swift:301-305 | minutes, a colon and two digits that read back as the truncated seconds |
| MeditationPlayer.PrepareAudio | cordis/Views/GuidedMeditationPlayerView.swift:253-267 | no download when the file is there; otherwise the cache's own download runs and the error is set iff it returns nothing |
| MeditationPlayer.PreparedAudioPlays | cordis/Views/GuidedMeditationPlayerView.swift:253-267 | a successful download makes the list item's file the one the player opens |
| MeditationPlayer.PlayEnabled | cordis/Views/GuidedMeditationPlayerView.swift:237 | disabled while downloading or after a failed download of an uncached item |
| MeditationPlayer.AmplitudeChanged | cordis/Views/GuidedMeditationPlayerView.swift:47-49 | only the vibration changes, nothing while switched off, and what it makes felt stays in range |
| MeditationPlayer.Disappear | cordis/Views/GuidedMeditationPlayerView.swift:50-53 | audio stopped at position 0, no vibration engine or player |
| MeditationPlayer.StepKeepsInv | cordis/Views/GuidedMeditationPlayerView.swift:184-287 | every user action and engine event, with the engine as written, keeps the player's invariant |
| MeditationPlayer.CorrectedStep | cordis/Views/GuidedMeditationPlayerView.swift:184-287 | the same screen with the corrected seek: drags, skips and engine events go through it, everything else is unchanged |
| MeditationPlayer.CorrectedStepKeepsSynced | cordis/Views/GuidedMeditationPlayerView.swift:184-287 | with the corrected seek every action keeps the invariant and the engine in sync with its node |
| MeditationList.FormatDuration | cordis/Views/GuidedMeditationListView.swift:210-217 | every non-negative length reads back from its text, which is "N min" exactly for whole minutes |
| MeditationList.SectionOf | cordis/Views/GuidedMeditationListView.swift:85-91 | spinner iff loading with nothing, empty state iff not loading with nothing, list iff there are items |
| MeditationList.ShowsSavedNotice | cordis/Views/GuidedMeditationListView.swift:93-102 | the notice shows iff there is an error over a list |
| MeditationList.OffersRetry | cordis/Views/GuidedMeditationListView.swift:125-137 | retry is offered iff there is an error in the empty state |
| MeditationList.ErrorShownOnce | cordis/Views/GuidedMeditationListView.swift:93-137 | after loading an error is explained exactly once, by the notice or by retry |
| MeditationList.Downloaded | cordis/Views/GuidedMeditationListView.swift:193-199 | the mark shows iff the item has a local file |
| MeditationList.OfflineOpening | cordis/Services/CloudKitService.swift:69-75 | opening offline shows the spinner, then the cached list with the notice, or retry when nothing is cached |
| MeditationList.FetchedMarksMatchCache | cordis/Services/CloudKitService.swift:54-64 | after a fetch a row is marked exactly when its file is cached |

## Left out

- Frameworks: SwiftData, CloudKit, FileManager, UserDefaults, AVAudioEngine, CoreHaptics,
  HealthKit and notification calls are replaced by data and by inputs that say what each
  call returned. Persistence errors (`try?`) are not modelled.
- Concurrency and timing: timers, `DispatchQueue` hand-offs, `asyncAfter` and `Task` are
  single sequential steps; no interleaving or race is modelled.
- Floating point: times, amplitudes, the haptic mapping and averages use exact reals.
  Rounding, NaN, and `%.0f`/`%.1f` formatting are not modelled.
- Calendar and locale: day boundaries are fixed 86400-second days. Start of day, start of
  week, "a month/year ago" and the week header's date text are inputs. Localised strings
  are keys or enum tokens.
- The assistant's FAQ answer texts and keyword matching are static content; only the
  topic raw values are modelled.
- The RMS of an audio buffer is an arbitrary real input.
- The interface-only screens are not modelled: the glass components, confetti, onboarding
  subpages, information pages and the tab views.
- Swift's `sorted` is not stable; the model sorts stably. Where keys tie (equal sort orders or
  equal timestamps) the source may order the tied items differently.
- AudioEngine.Seek: `Node` records what the engine last asked of the player node, not
  whether anything is scheduled or audible. Every `stop()` of the node also fires the
  completion handler of the schedule it clears, which queues `handlePlaybackComplete`.
  The model has that only as a separate `Complete` step that may or may not follow, so it
  says nothing about when the completion lands after a seek.
- AudioEngine.StartFrame: `AVAudioFramePosition` is 64-bit; a start frame that overflows it
  is not modelled.
- CloudCache.LocalFile: a record named "" gives the file ".m4a", which the cache scan treats
  as an audio file with an empty name. The model does the same and proves nothing further
  about it.
- One function with a flag models both settings screens. The earlier one has no loading
  guard; its reminder fallback and chat purge are the same as the current screen's.
- The first save after a fresh install inserts the stats record, but the same call reads
  the stale query snapshot, so the streak stays at 0. `Home.SaveEntry` follows the code.
- The current statistics screen averages the selected period while its total counts all
  entries; both are modelled as written.
- The earlier history screen's four windows are the current screen's and share one
  function.
- LegacyBreathing.LegacyTick: the earlier screen shows the count as plain seconds; that text
  is not modelled.
- Text.Lowercase: folds only A-Z. The source's `lowercased()` folds all of Unicode; the
  labels it is applied to are ASCII.
- The numeral table is the Numeric_Type property of the Unicode Character Database,
  version 15.0. A system whose Unicode data is of another version may count a few newer
  characters differently.
- How typed text splits into `Character`s is an input, a sequence of grapheme clusters.
  `Home.FilteredAcceptedIffDigits` assumes what the grapheme rules of Unicode Standard
  Annex #29 give: a cluster led by a numeral continues only with marks, never with ASCII
  or whitespace.
- The filter's result is taken to hold the Characters it kept. Joining them back into a
  `String` could in principle merge two of them into one cluster; that is not modelled.
- Countdown.Progress: with a total of 0 the source computes 0/0; the model gives no value.
- The legacy views compile against the model type each copy of `Models.swift` declares. The
  earlier settings screen reads fields only the current `AppSettings` has, so the earlier
  views are modelled over the current records with the earlier threshold table.

## Findings

| source | as written | input that shows it | evidently intended | confidence | as-written member | corrected member |
|---|---|---|---|---|---|---|
| cordis/Views/MeditationView.swift:189-193 | the phase changes when the seconds left are a multiple of the current phase's length | a started session: the 7-second hold begins at 236 s left and ends at 231 s, after 5 s | each phase of the 4-7-8 cycle lasts its own length | medium, not executed | Breathing.HoldPhaseCutShort | Breathing.PacedPhaseLastsItsDuration |
| cordis/Services/AudioAnalysisEngine.swift:84-93 | `seek` stops the player node before the frame guard, and a rejected seek returns without restarting it or clearing `isPlaying`; the `stop()` also fires the cleared schedule's completion handler, which later queues `handlePlaybackComplete` and clears `isPlaying`, so how long the claim lasts is not shown | a playing 1 s file (44100 frames at 44100 Hz) seeked to 1.0 s, the far end of the seek bar | a rejected seek leaves playback as it was | medium, not executed | AudioEngine.SeekToEndDesyncs | AudioEngine.SafeSeek |
| cordis/Services/CloudKitService.swift:95-96 | `downloadAudio` removes the cached file before copying the new one | "m1.m4a" cached under tag "v1", the record now at "v2", and the copy fails | a failed refresh keeps the cached copy | medium, not executed | CloudCache.DownloadFailureLosesCache | CloudCache.SafeDownloadKeepsFiles |

The player screen is modelled with the seek and download as written, so a release at the far end returns with it out of sync (`MeditationPlayer.DragToEndDesyncs`) until a completion arrives. `MeditationPlayer.CorrectedStep` is the same screen over the corrected seek, and it keeps the engine in sync.
