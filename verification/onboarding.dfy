/** The onboarding wizard (`cordis/Views/Onboarding/OnboardingContainerView.swift`):
    seven pages shown in order, a progress bar over the middle ones, and on the last
    page the collected answers written into the settings record. */
module Onboarding {
  import opened Wrappers
  import opened Text
  import opened Records

  datatype Step = Welcome | Disclaimer | Profile | HealthKit | Notifications | Theme | Complete

  /** The raw value of each page, 0 to 6. */
  function StepRaw(s: Step): int {
    match s
    case Welcome => 0
    case Disclaimer => 1
    case Profile => 2
    case HealthKit => 3
    case Notifications => 4
    case Theme => 5
    case Complete => 6
  }

  /** `OnboardingStep(rawValue:)`. */
  function StepOf(raw: int): (r: Option<Step>)
    ensures r.Some? <==> 0 <= raw <= 6
    ensures r.Some? ==> StepRaw(r.value) == raw
  {
    if raw == 0 then Some(Welcome)
    else if raw == 1 then Some(Disclaimer)
    else if raw == 2 then Some(Profile)
    else if raw == 3 then Some(HealthKit)
    else if raw == 4 then Some(Notifications)
    else if raw == 5 then Some(Theme)
    else if raw == 6 then Some(Complete)
    else None
  }

  /** Every page is found again from its raw value. */
  lemma StepRawRoundTrip(s: Step)
    ensures StepOf(StepRaw(s)) == Some(s)
  {
  }

  const StepCount: int := 7

  /** `progress`: the raw value over the last raw value, from 0 on the first page to 1 on
      the last. */
  function Progress(s: Step): (p: real)
    ensures 0.0 <= p <= 1.0
    ensures p == 0.0 <==> s == Welcome
    ensures p == 1.0 <==> s == Complete
  {
    StepRaw(s) as real / (StepCount - 1) as real
  }

  /** Later pages show more progress. */
  lemma ProgressMonotone(a: Step, b: Step)
    ensures StepRaw(a) < StepRaw(b) <==> Progress(a) < Progress(b)
  {
  }

  /** The bar is shown on every page but the first and the last. */
  function ShowsProgressBar(s: Step): (b: bool)
    ensures b <==> 0.0 < Progress(s) < 1.0
  {
    s != Welcome && s != Complete
  }

  /** `nextStep`: the following page; the last page stays. */
  function NextStep(s: Step): (r: Step)
    ensures s != Complete ==> StepRaw(r) == StepRaw(s) + 1
    ensures s == Complete ==> r == Complete
  {
    match StepOf(StepRaw(s) + 1)
    case Some(n) => n
    case None => s
  }

  function NextSteps(s: Step, n: nat): Step
    decreases n
  {
    if n == 0 then s else NextSteps(NextStep(s), n - 1)
  }

  /** Continuing `n` times moves `n` pages on, stopping at the last one. */
  lemma {:induction false} NextStepsAdvance(s: Step, n: nat)
    ensures StepRaw(NextSteps(s, n)) == if StepRaw(s) + n <= 6 then StepRaw(s) + n else 6
    decreases n
  {
    if n > 0 {
      NextStepsAdvance(NextStep(s), n - 1);
    }
  }

  /** The answers collected on the way, with their initial values in `Answers0`. */
  datatype Answers = Answers(
    userName: string,
    ageGroup: int,
    theme: int,
    acceptedDisclaimer: bool,
    healthKitEnabled: bool,
    reminderEnabled: bool,
    reminderHour: int,
    reminderMinute: int)

  const Answers0: Answers := Answers("", 0, 0, false, false, false, 9, 0)

  /** `completeOnboarding`: with no settings record nothing happens; otherwise every answer
      is written, the name trimmed, the disclaimer dated now and onboarding marked done.
      Language, objective and chat history are left as they were. */
  function CompleteOnboarding(settings: Option<AppSettings>, a: Answers, now: int): (r: Option<AppSettings>)
    ensures settings.None? <==> r.None?
    ensures r.Some? ==>
              var s, t := settings.value, r.value;
              && t.preferredName == Trim(a.userName)
              && t.ageGroup == a.ageGroup && t.themeMode == a.theme
              && t.hasAcceptedDisclaimer == a.acceptedDisclaimer
              && t.disclaimerAcceptedDate == Some(now)
              && t.hasCompletedOnboarding
              && t.healthKitEnabled == a.healthKitEnabled
              && t.reminderEnabled == a.reminderEnabled
              && t.reminderHour == a.reminderHour && t.reminderMinute == a.reminderMinute
              && t.languageMode == s.languageMode && t.objective == s.objective
              && t.saveChatHistory == s.saveChatHistory
  {
    match settings
    case None => None
    case Some(s) =>
      Some(s.(
        preferredName := Trim(a.userName),
        ageGroup := a.ageGroup,
        themeMode := a.theme,
        hasAcceptedDisclaimer := a.acceptedDisclaimer,
        disclaimerAcceptedDate := Some(now),
        hasCompletedOnboarding := true,
        healthKitEnabled := a.healthKitEnabled,
        reminderEnabled := a.reminderEnabled,
        reminderHour := a.reminderHour,
        reminderMinute := a.reminderMinute))
  }

  /** Finishing twice with the same answers and time is finishing once. */
  lemma CompleteOnboardingIdempotent(settings: Option<AppSettings>, a: Answers, now: int)
    ensures CompleteOnboarding(CompleteOnboarding(settings, a, now), a, now) == CompleteOnboarding(settings, a, now)
  {
  }
}
