# Nurse wellness study app — a Dafny model of its core

The app is a React Native study companion for nurses. It offers:

- research surveys on a fixed recurrence: PSS-4 weekly, Brief COPE weekly, WHO-5 every two weeks;
- a daily mood check-in and a free-text journal;
- a consent checklist for onboarding;
- a calm corner with guided breathing, background sounds and a grounding exercise;
- two notification helpers that schedule reminders with the platform.

This project models those parts in Dafny and proves what they promise. It covers:

- the survey availability rules, and how the two availability queries agree and where they disagree;
- scoring of the survey instruments;
- the guards and payload normalisation before every insert;
- the toggle-in-list updates of feelings and tags;
- the consent record;
- the cyclic grounding index, the single-active-sound selection and the breathing phase order;
- trigger construction and the start-up scheduling order of the notification helpers.

Structure:

- One module per core file. Pure code becomes functions and lemmas; screens whose handlers update state become classes.
- A screen's class has the screen's state fields. Its `events` (or `navigations`) field records what it asks of the outside world, in order: inserts, reminder requests, alerts, navigation.
- The notification platform is a list of pending requests.
- A store lookup enters as its result. The clock enters as one millisecond reading `now`. Random draws enter as indices.
- Shared pieces are `Common` (optional values, JavaScript truthiness, `currentShift || 'day'`), `JsText` (`trim`, ASCII `toLowerCase`), `Membership` (the toggle) and `Clock` (`Date` without time zones).

## Model

| member | source | states |
|---|---|---|
| JsText.TrimStart | src/screens/JournalEntryScreen.tsx:31 | the result is a suffix of the input that does not start with whitespace, and everything dropped is ECMAScript whitespace |
| JsText.TrimEnd | src/screens/JournalEntryScreen.tsx:31 | the result is a prefix of the input that does not end with whitespace, and everything dropped is whitespace |
| JsText.TrimIsInnerSlice | src/screens/JournalEntryScreen.tsx:39 | a trimmed string is a contiguous slice of the original with only whitespace outside it, and it neither starts nor ends with whitespace |
| JsText.TrimEmptyIffAllWhitespace | src/screens/JournalEntryScreen.tsx:31 | `s.trim()` is empty exactly when every character of `s` is whitespace |
| JsText.ToLowerCase | src/utils/researchSchedule.ts:77 | same length; every character is lower-cased on its own |
| Membership.Without | src/screens/DailyCheckInScreen.tsx:72 | the filtered list holds no copy of the label; every other label keeps its membership and its number of copies; a list without the label is unchanged |
| Membership.Toggled | src/screens/DailyCheckInScreen.tsx:70-74 | the label is present afterwards exactly when it was absent before; no other label's membership changes |
| Membership.WithoutDistributes | src/screens/DailyCheckInScreen.tsx:72 | filtering a concatenation is the concatenation of the filtered parts, so the remaining labels keep their order |
| Membership.ToggleRemovesInPlace | src/screens/JournalEntryScreen.tsx:25 | toggling a label that occurs once removes it where it stood and leaves the labels before and after it in order |
| Membership.ToggleAbsentAppends | src/screens/DailyCheckInScreen.tsx:73 | toggling an absent label appends it at the end |
| Membership.WithoutAppended | src/screens/JournalEntryScreen.tsx:23-27 | removing a label just appended to a list without it gives the list back |
| Membership.ToggleTwiceRestores | src/screens/DailyCheckInScreen.tsx:69-75 | toggling the same absent label twice restores the original list |
| Membership.WithoutKeepsNoDuplicates | src/screens/JournalEntryScreen.tsx:25 | filtering a duplicate-free list keeps it duplicate-free |
| Membership.ToggleKeepsNoDuplicates | src/screens/JournalEntryScreen.tsx:22-28 | a toggle never introduces a duplicate label |
| SurveyQuestions.Pss4Shape | src/constants/surveyQuestions.ts:9-32 | PSS-4 has ids pss1..pss4 in order, five options each, and exactly pss2 and pss3 reversed |
| SurveyQuestions.CopeShape | src/constants/surveyQuestions.ts:35-66 | COPE has ids cope1..cope6 in order, four options each, none reversed |
| SurveyQuestions.Who5Shape | src/constants/surveyQuestions.ts:69-95 | WHO-5 has ids who1..who5 in order, six options each, none reversed |
| SurveyQuestions.IdsUniqueAcrossInstruments | src/constants/surveyQuestions.ts:9-95 | no question id occurs twice within or across the three instruments |
| Clock.StartOfDay | src/utils/notifications.ts:90 | midnight of the day holding `t`: at most `t` and less than a day before it |
| Clock.TodayAtSameDay | src/utils/notifications.ts:88-90 | for a valid hour and minute, `setHours` on the day of `now` stays on that day |
| Clock.Date.SetHours | src/utils/notifications.ts:90 | the time becomes midnight of its day plus the given hours, minutes, seconds and milliseconds |
| Clock.Date.AddDays | src/utils/notifications.ts:93 | moving the day of the month moves the time by whole days |
| Notifications.NextTriggerTimeBounds | src/utils/notifications.ts:87-97 | the next trigger is at exactly hour:minute, strictly after now and at most one day later |
| Notifications.GetNextTriggerDate | src/utils/notifications.ts:87-97 | returns a new date whose time is today's hour:minute, moved one day on when it is not strictly after now |
| Notifications.ResearchReminderIgnoresInterval | src/utils/notifications.ts:99-112 | the research reminder is the kind's fixed content with a one-shot 09:00 calendar trigger, the same for every interval |
| Notifications.DueResearchReminderTiming | src/utils/notifications.ts:100-101 | the due date the code computes lies at 09:00, more than `intervalDays - 1` and at most `intervalDays` days from now |
| Notifications.DailyRemindersRepeat | src/utils/notifications.ts:114-146 | the daily check-in reminder repeats at 10:00; the quote reminder repeats at 08:00 with the motivation title |
| Notifications.ScheduleResearchCheckIn | src/utils/notifications.ts:99-112 | appends exactly the research reminder for the kind to the pending requests |
| Notifications.ScheduleDailyCheckInReminder | src/utils/notifications.ts:114-126 | appends exactly the daily 10:00 reminder |
| Notifications.ScheduleMotivationalQuote | src/utils/notifications.ts:128-146 | appends exactly the 08:00 reminder with the drawn quote as body |
| Notifications.NotificationCenter.CancelAll | src/utils/notifications.ts:165-167 | nothing remains pending |
| Notifications.SetupAllNotifications | src/utils/notifications.ts:148-163 | without permission nothing changes; with it the pending list becomes exactly PSS-4 (7), COPE (7), WHO-5 (14), the daily reminder and the quote, in that order |
| ResearchSchedule.Find | src/utils/researchSchedule.ts:53 | a found entry is in the table and has the type; nothing is found exactly when no entry has the type |
| ResearchSchedule.ScheduleTable | src/utils/researchSchedule.ts:15-34 | the table lists PSS4, COPE and WHO5 once each, in that order, with 7, 7 and 14 days; exactly those types have a schedule; every interval is positive |
| ResearchSchedule.CanTakeCheckIn | src/utils/researchSchedule.ts:36-66 | a store failure answers no; a missing row answers yes before the table is consulted; with a row, yes exactly when the type is scheduled and its interval has elapsed |
| ResearchSchedule.GetNextCheckInDays | src/utils/researchSchedule.ts:83-122 | null exactly for an unscheduled type; 0 for a missing row, even with an error; rejected exactly when an error comes with a row; otherwise never negative, and at most the interval when the row is not in the future |
| ResearchSchedule.DaysRemainingWithRow | src/utils/researchSchedule.ts:111-117 | with a row the count is the interval minus the days elapsed, floored at 0 |
| ResearchSchedule.AvailabilityAgreement | src/utils/researchSchedule.ts:51-117 | for a scheduled type and a lookup that did not fail, the survey can be taken exactly when the count is 0 |
| ResearchSchedule.AvailabilityDisagreement | src/utils/researchSchedule.ts:47-109 | the two queries disagree exactly for a scheduled type whose lookup failed without a row, or an unscheduled type with no row |
| ResearchSchedule.IntervalBoundary | src/utils/researchSchedule.ts:56-117 | available on the day the interval has elapsed, with count 0; the day before, not available, with count 1 |
| ResearchSchedule.DueDateExamples | src/utils/researchSchedule.ts:111-117 | WHO-5 taken 10 days ago is due in 4 days and not available; PSS-4 taken 7 days ago is available with count 0 |
| ResearchSchedule.ScheduleNextCheckIn | src/utils/researchSchedule.ts:68-81 | at most one reminder request; one exactly when the type is scheduled and the device id was read; it carries the lower-cased type and the type's interval |
| ResearchSchedule.LowerCaseTypeNames | src/utils/researchSchedule.ts:77 | the three type names lower-case to pss4, cope and who5 |
| ResearchSchedule.ForwardedKindsAreResearchKinds | src/utils/researchSchedule.ts:77 | every forwarded kind is one of the research notification kinds |
| ResearchSchedule.SetupMatchesScheduledCalls | src/utils/notifications.ts:156-158 | the start-up research reminders are the ones `scheduleNextCheckIn` requests for PSS4, COPE and WHO5, in table order |
| ResearchSchedule.GetNextCheckInDaysFailsOpen | src/utils/researchSchedule.ts:101-109 | as written, a failed lookup without a row gives count 0 while `canTakeCheckIn` answers no |
| ResearchSchedule.GetNextCheckInDaysErrorFirst | src/utils/researchSchedule.ts:101-109 | with the error examined first: null exactly for an unscheduled type, rejected exactly when the lookup failed |
| ResearchSchedule.ErrorFirstAgreesWithCanTake | src/utils/researchSchedule.ts:101-109 | the error-first count is 0 exactly when the survey can be taken, for every lookup; it equals the written count whenever the lookup did not fail |
| ResearchButton.DaysAfterLookup | src/components/ResearchButton.tsx:24-30 | the state cell takes the resolved count or null; a rejected lookup leaves the previous value |
| ResearchButton.AvailabilityLabel | src/components/ResearchButton.tsx:42-46 | the label is shown exactly when the button is disabled and the count is non-null; it shows that count, never 0; the unit is "day" exactly for 1 |
| ResearchButton.EnabledIffNoDaysRemain | src/components/ResearchButton.tsx:22-32 | disabled on first render; after the lookup, enabled exactly when the count came back 0 |
| ResearchButton.LabelCountIsPositive | src/components/ResearchButton.tsx:42-45 | any count the label shows is at least 1, and at most the interval when the last submission is not in the future |
| ResearchButton.EnabledIffCanTake | src/components/ResearchButton.tsx:32 | for a scheduled type and a lookup that did not fail, the button is enabled exactly when the survey can be taken |
| ResearchButton.EnabledIffCanTakeErrorFirst | src/components/ResearchButton.tsx:32 | with the error-first count, button and `canTakeCheckIn` agree on every lookup |
| ResearchCheckIn.QuestionsFor | src/screens/ResearchCheckInScreen.tsx:25-27 | PSS4 gets PSS-4, COPE gets COPE, and every other type gets WHO-5 |
| ResearchCheckIn.ScoreOfNoAnswers | src/screens/ResearchCheckInScreen.tsx:49-58 | with no answers the score is 0 |
| ResearchCheckIn.ScoreRange | src/screens/ResearchCheckInScreen.tsx:49-58 | with valid option indices the score lies between 0 and the instrument's maximum |
| ResearchCheckIn.AnsweredCountBound | src/screens/ResearchCheckInScreen.tsx:60-92 | the answered count is at most the number of questions, and equals it exactly when the survey is complete |
| ResearchCheckIn.MaxScoreOfUniformScale | src/screens/ResearchCheckInScreen.tsx:54 | with `k` options per item, the maximum total is `k - 1` per item |
| ResearchCheckIn.InstrumentScoreRanges | src/screens/ResearchCheckInScreen.tsx:49-58 | valid answers score 0..16 on PSS-4, 0..18 on COPE and 0..25 on WHO-5 |
| ResearchCheckIn.Pss2IsReversed | src/screens/ResearchCheckInScreen.tsx:54 | a reversed item turns answer 0 into 4 and 4 into 0; a plain item scores its answer |
| ResearchCheckIn.ResearchCheckInScreen.constructor | src/screens/ResearchCheckInScreen.tsx:21-23 | no answers; not submitting; not available |
| ResearchCheckIn.ResearchCheckInScreen.CheckAvailability | src/screens/ResearchCheckInScreen.tsx:29-40 | without a participant nothing changes; otherwise availability is `canTakeCheckIn`, and a no alerts "Not Available" and goes back |
| ResearchCheckIn.ResearchCheckInScreen.HandleResponse | src/screens/ResearchCheckInScreen.tsx:42-47 | records this answer, overwriting any earlier one, and leaves every other answer unchanged |
| ResearchCheckIn.ResearchCheckInScreen.GetScore | src/screens/ResearchCheckInScreen.tsx:49-58 | the loop's total is the score of the answers given |
| ResearchCheckIn.ResearchCheckInScreen.EnabledIffAllAnswered | src/screens/ResearchCheckInScreen.tsx:127 | the submit button is disabled while submitting, and enabled exactly when the answered count equals the number of questions and nothing is in flight |
| ResearchCheckIn.ResearchCheckInScreen.HandleSubmit | src/screens/ResearchCheckInScreen.tsx:62-89 | no-op unless complete with a participant and a shift; otherwise the insert, then on success the reminder request and going back, on failure the error alert; the submitting flag ends cleared |
| ResearchCheckIn.ReminderOnlyAfterInsert | src/screens/ResearchCheckInScreen.tsx:76-85 | a failed insert is followed by the alert alone; a successful one ends by going back, after the reminder request when there is one |
| LocalNotifications.SelectTrigger | src/utils/localNotifications.ts:72-82 | a date gives a one-shot delay of whole seconds, at least 1; otherwise a non-zero interval gives a repeating delay of that many seconds; otherwise no trigger |
| LocalNotifications.DateOverridesRepeat | src/utils/localNotifications.ts:74-82 | with a date, the repeat interval makes no difference and the trigger never repeats |
| LocalNotifications.DelayClamp | src/utils/localNotifications.ts:74-76 | a date in the past or under a second away gives 1 second; a date a whole number of seconds ahead gives exactly that number |
| LocalNotifications.RolloverRulesDifferOnlyAtNow | src/utils/localNotifications.ts:121-128 | the daily helper and the research helper pick different days only when the target time equals now; the daily helper's time is within a day from now |
| LocalNotifications.QuoteRequestsAreOneShot | src/utils/localNotifications.ts:137-157 | every motivational request is a one-shot delay of at least a second with the motivation title; the daily repeat is dropped |
| LocalNotifications.AllQuoteRequestsStep | src/utils/localNotifications.ts:143-156 | one more hour appends that hour's two requests |
| LocalNotifications.LocalNotifier.constructor | src/utils/localNotifications.ts:21-42 | the content table starts as the five fixed entries; nothing is pending |
| LocalNotifications.LocalNotifier.ScheduleLocalNotification | src/utils/localNotifications.ts:52-98 | for motivation the table entry's body becomes the drawn quote, in place; two identical requests with the entry's content and the selected trigger are appended |
| LocalNotifications.LocalNotifier.ScheduleDailyCheckIn | src/utils/localNotifications.ts:121-134 | appends two one-shot requests due at today's hour:minute, or tomorrow's when that is strictly past |
| LocalNotifications.LocalNotifier.ScheduleMotivationalQuotes | src/utils/localNotifications.ts:137-157 | appends one pair per hour, in order; the table ends holding the last drawn quote |
| LocalNotifications.LocalNotifier.ScheduleQuoteAt | src/utils/localNotifications.ts:144-155 | one turn of the loop: the pair for that hour and minute, and the table's motivation body replaced |
| LocalNotifications.OneTimeDelay | src/utils/localNotifications.ts:164 | with the two clock readings equal the delay is `max(1, secondsFromNow)`; with the second reading under a second later, a delay of two or more seconds comes out one second short |
| LocalNotifications.LocalNotifier.ScheduleOneTimeNotification | src/utils/localNotifications.ts:160-166 | the same new state as `scheduleLocalNotification` with a date `secondsFromNow` seconds after the first clock reading: the old requests stay as the prefix and two identical requests follow, carrying the kind's content and the delay measured against the second reading, which is `max(1, secondsFromNow)` when the readings coincide; for motivation the table's body becomes the drawn quote, otherwise the table is unchanged |
| LocalNotifications.LocalNotifier.CancelAllNotifications | src/utils/localNotifications.ts:100-102 | nothing remains pending |
| DailyCheckIn.MoodCheckRow | src/screens/DailyCheckInScreen.tsx:47-58 | a row exactly when there is a participant and both picks; scores are index + 1; the note is trimmed, and null exactly when blank; the shift defaults to day |
| DailyCheckIn.StoredScoresInRange | src/screens/DailyCheckInScreen.tsx:53-54 | picks from the five labels are stored as 1..5 |
| DailyCheckIn.DailyCheckInScreen.DisabledMeansNoRow | src/screens/DailyCheckInScreen.tsx:129 | while the submit button is disabled (a pick missing) a press inserts nothing; with a participant, an enabled button always produces a row |
| DailyCheckIn.DailyCheckInScreen.constructor | src/screens/DailyCheckInScreen.tsx:42-45 | no picks, no feelings, empty note |
| DailyCheckIn.DailyCheckInScreen.SelectMood | src/screens/DailyCheckInScreen.tsx:88 | the mood pick becomes the pressed index |
| DailyCheckIn.DailyCheckInScreen.SelectStress | src/screens/DailyCheckInScreen.tsx:103 | the stress pick becomes the pressed index |
| DailyCheckIn.DailyCheckInScreen.SetNote | src/screens/DailyCheckInScreen.tsx:45 | the note becomes the given text; the screen renders no input that calls `setNote`, so in use the note stays empty |
| DailyCheckIn.DailyCheckInScreen.ToggleFeeling | src/screens/DailyCheckInScreen.tsx:69-75 | the feelings list becomes its toggle |
| DailyCheckIn.DailyCheckInScreen.HandleSubmit | src/screens/DailyCheckInScreen.tsx:47-67 | no-op without a row; otherwise the row is inserted, and the screen goes back only on success |
| JournalEntry.JournalRowFor | src/screens/JournalEntryScreen.tsx:30-43 | a row exactly when the text is not blank and there is a participant; content trimmed and non-empty; prompt defaults to ""; shift defaults to day |
| JournalEntry.JournalEntryScreen.constructor | src/screens/JournalEntryScreen.tsx:15-20 | empty text, no tags, not saving |
| JournalEntry.JournalEntryScreen.SetContent | src/screens/JournalEntryScreen.tsx:67 | the text becomes what was typed |
| JournalEntry.JournalEntryScreen.DisabledWhileSavingOrBlank | src/screens/JournalEntryScreen.tsx:91 | the save button is disabled while saving; disabled for blank text, which `handleSave` also refuses; with a participant an enabled button always produces a row |
| JournalEntry.JournalEntryScreen.ToggleTag | src/screens/JournalEntryScreen.tsx:22-28 | the tag list becomes its toggle |
| JournalEntry.JournalEntryScreen.HandleSave | src/screens/JournalEntryScreen.tsx:30-53 | no-op without a row; otherwise saving starts, the row is inserted, the screen goes back only on success, and saving always ends cleared |
| Consent.AllConsentsChecked | src/screens/ConsentScreen.tsx:17 | holds exactly when every one of the four consents is given |
| Consent.Toggled | src/screens/ConsentScreen.tsx:19-24 | flips the named consent and leaves the other three |
| Consent.ToggleTwiceRestores | src/screens/ConsentScreen.tsx:19-24 | flipping the same consent twice restores the record |
| Consent.CheckingEveryBoxOnceEnables | src/screens/ConsentScreen.tsx:10-17 | all four start unchecked, so continuing is blocked; checking each box once, in any order, unblocks it |
| Consent.ConsentScreen.constructor | src/screens/ConsentScreen.tsx:10-15 | every consent starts false |
| Consent.ConsentScreen.ToggleConsent | src/screens/ConsentScreen.tsx:19-24 | the record becomes its toggle at that key |
| Consent.ConsentScreen.DisabledIffSomeBoxUnchecked | src/screens/ConsentScreen.tsx:78 | the "I Agree" button is disabled exactly while some consent is not given |
| Consent.ConsentScreen.HandleContinue | src/screens/ConsentScreen.tsx:26-30 | navigates to department selection exactly when all four are checked; otherwise nothing |
| CalmCorner.NextGroundingIndex | src/screens/CalmCornerScreen.tsx:110-114 | increments below the last step, wraps to 0 from it, which is `(i + 1) mod 5` on valid indices |
| CalmCorner.GroundingAfterIsModular | src/screens/CalmCornerScreen.tsx:110-114 | after `n` presses from a valid index `i` the index is `(i + n) mod 5` |
| CalmCorner.GroundingCycle | src/screens/CalmCornerScreen.tsx:27-41 | from the initial 0 the index stays in 0..4; five presses return any index to itself |
| CalmCorner.TotalCycles | src/screens/CalmCornerScreen.tsx:58 | a 1, 3 or 5 minute run has 3 to 15 cycles, a multiple of 3 |
| CalmCorner.PhaseTraceShape | src/screens/CalmCornerScreen.tsx:61-84 | a run of `n` cycles enters 3n phases, inhale, hold, exhale, repeating |
| CalmCorner.SessionLength | src/screens/CalmCornerScreen.tsx:57-84 | a run for `d` minutes enters 9d phases and waits 30d seconds in total, since a cycle is 10 seconds |
| CalmCorner.AtMostOneSound | src/screens/CalmCornerScreen.tsx:87-108 | in a consistent sound state at most one sound plays, and none when no handle is held |
| CalmCorner.PlayingAfterCleanup | src/screens/CalmCornerScreen.tsx:43-49 | cleanup unloads exactly the captured sound and leaves the others playing |
| CalmCorner.UnmountLeavesSoundPlaying | src/screens/CalmCornerScreen.tsx:43-49 | with the captured null, a sound playing at unmount keeps playing |
| CalmCorner.ReleasingHeldSoundSilences | src/screens/CalmCornerScreen.tsx:43-49 | unloading the sound held at unmount leaves nothing playing |
| CalmCorner.CalmCornerScreen.constructor | src/screens/CalmCornerScreen.tsx:36-41 | not breathing; phase inhale; duration 1; no sound; grounding index 0 |
| CalmCorner.CalmCornerScreen.NextGroundingStep | src/screens/CalmCornerScreen.tsx:110-114 | the index advances cyclically modulo 5 |
| CalmCorner.CalmCornerScreen.RunBreathingCycle | src/screens/CalmCornerScreen.tsx:57-85 | the phases entered are inhale, hold, exhale once per cycle, then the reset to inhale; breathing ends |
| CalmCorner.CalmCornerScreen.StartBreathing | src/screens/CalmCornerScreen.tsx:51-55 | stores the new duration but runs the cycles of the previously stored one |
| CalmCorner.CalmCornerScreen.StartBreathingAsIntended | src/screens/CalmCornerScreen.tsx:51-55 | runs the cycles of the duration just pressed |
| CalmCorner.CalmCornerScreen.ToggleSound | src/screens/CalmCornerScreen.tsx:87-108 | pressing the current sound clears name and handle; pressing another stops and unloads the held one and starts the new one; at most one sound plays |
| CalmCorner.CalmCornerScreen.Unmount | src/screens/CalmCornerScreen.tsx:43-49 | as written, unmounting leaves the playing set unchanged |
| CalmCorner.CalmCornerScreen.UnmountReleasingSound | src/screens/CalmCornerScreen.tsx:43-49 | unloading the held sound leaves nothing playing |
| CalmCorner.FirstFiveMinutePress | src/screens/CalmCornerScreen.tsx:51-58 | the first "5 Min" press on a fresh screen runs 3 cycles, not 15 |
| CalmCorner.SoundOutlivesScreen | src/screens/CalmCornerScreen.tsx:43-49 | a sound started on a fresh screen still plays after unmount |

## Left out

- Store access: the queries and inserts go to a remote database. A lookup is modelled as its result (`QueryResult`) and an insert as a success flag. `differenceInDays` is folded into the day count of a returned row.
- Clock: every operation except `scheduleOneTimeNotification` reads the clock once, as `now`. The code reads `Date.now()` or `new Date()` several times in one call (src/utils/localNotifications.ts:75, 126), so two readings a few milliseconds apart are taken to coincide. Where the second reading is floored to whole seconds, as in `scheduleDailyCheckIn`, this can hide a one-second shortfall, as `OneTimeDelay` shows for `scheduleOneTimeNotification`. That function's two readings (src/utils/localNotifications.ts:164 and 75) are separate inputs.
- Dates: no time zones and no daylight-saving changes. A local day is 24 hours and local time equals the time value.
- Randomness: quote choices and the random minute of each motivational reminder are inputs (`quoteIndex`, `draws`, `minutes`).
- LocalNotifications.LocalNotifier.ScheduleMotivationalQuotes: the hours are an input. The spread `floor(9 + i * (12 / frequency))` (src/utils/localNotifications.ts:139-141) is floating-point arithmetic.
- Permissions and the Android notification channel (`setupNotifications`, `requestNotificationPermissions`) are platform calls. Only the permission answer enters, in `SetupAllNotifications`.
- Request content: the `sound` and `priority` fields are not modelled. They are the same on every local request.
- `scheduleNextCheckIn` builds a reminder identifier from the device id and never uses it. Reading the device id is reduced to whether it succeeds.
- ResearchSchedule.ScheduleNextCheckIn: `getDeviceId` catches its own storage errors and falls back to a fresh `uuidv4()` (src/utils/deviceId.ts:29-33), so a failed read (`deviceIdRead == false`, no request) happens only when that fallback throws as well; it is not a common path.
- Notifications.SetupAllNotifications: every platform scheduling call is taken to succeed. The calls are awaited without a try/catch (src/utils/notifications.ts:148-163), so a rejection would end the sequence early, and the later requests would never be made. The model does not capture that prefix.
- LocalNotifications.LocalNotifier.ScheduleLocalNotification: both platform scheduling calls are taken to succeed (src/utils/localNotifications.ts:84-97). A rejection of the first would leave the second copy unscheduled; the model does not capture that. The same holds for the helpers that call it (`ScheduleDailyCheckIn`, `ScheduleMotivationalQuotes`, `ScheduleOneTimeNotification`).
- `requireShift()` in the survey screen's mount effect is navigation plumbing and is not modelled.
- The progress ratio and bar width of the survey screen are floating point.
- Question and option texts are not modelled. Only ids, option counts and reverse flags are.
- ResearchCheckIn.ResearchCheckInScreen.HandleSubmit: the submitting flag is observed only at the end. The model does not capture that it is raised while the insert is awaited.
- JournalEntry.JournalEntryScreen.HandleSave: the flag is observed only at the end in the same way. Its raising and lowering are events in the trace.
- JsText.ToLowerCase lower-cases ASCII letters only. The only strings it is applied to are the survey type names.
- Timers and animation: the `setTimeout` chain of the breathing exercise is run to its end in one call. Its delays appear only as constants in `SessionLength`. Timers that outlive the screen are not modelled.
- CalmCorner.CalmCornerScreen.ToggleSound: failures of `stopAsync` and `unloadAsync` are not modelled. Only a failure to create the new sound is an input.
- CalmCorner.CalmCornerScreen.ToggleSound: each press is taken to finish before the next one starts. The handler reads `sound` and `currentSound` from its render and awaits `stopAsync`, `unloadAsync` and `createAsync` before `setSound` (src/screens/CalmCornerScreen.tsx:87-108). Two presses on different sounds before the first `createAsync` resolves both see no held sound and both start a looping sound. The second `setSound` then overwrites the first handle, which is never stopped, so two sounds play. `CalmCorner.AtMostOneSound` holds only for presses that do not overlap.
- UI rendering, navigation stacks, the gratitude log, and the storage and authentication contexts are outside the model.
- Notifications.ScheduleResearchCheckIn states the request it appends, not a separate date value. The due date the code computes and discards is described by `DueResearchReminder`.

## Findings

| source | as written | input that shows it | evidently intended | confidence | as-written member | corrected member |
|---|---|---|---|---|---|---|
| src/utils/researchSchedule.ts:101-109 | the missing-row test comes before the error test, and a failed lookup brings no row, so the count is 0 ("available now") and the error is never rethrown | a scheduled type whose lookup fails without a row (a network failure) | rethrow every error other than "no rows", as the comment on line 106 says and `canTakeCheckIn` does | medium; not executed | ResearchSchedule.GetNextCheckInDaysFailsOpen | ResearchSchedule.ErrorFirstAgreesWithCanTake |
| src/utils/notifications.ts:100-111 | the due date `nextDate` is computed and then unused; the trigger is always the next 09:00 | `scheduleResearchCheckIn('who5', 14)` fires at the next 09:00, not in two weeks | fire at 09:00 on the day `intervalDays - 1` days after the next 09:00 | medium; not executed | Notifications.ResearchReminderIgnoresInterval | Notifications.DueResearchReminderTiming |
| src/screens/CalmCornerScreen.tsx:51-58 | `runBreathingCycle` reads `breathingDuration` from the render before `setBreathingDuration(duration)` takes effect, so each run uses the previous press's duration | a fresh screen, press "5 Min": 3 cycles run instead of 15 | `totalCycles` from the duration just pressed | high; not executed | CalmCorner.FirstFiveMinutePress | CalmCorner.CalmCornerScreen.StartBreathingAsIntended |
| src/screens/CalmCornerScreen.tsx:43-49 | the unmount cleanup is registered once and captures the first render's `sound`, which is null, so it never unloads anything | start "White Noise", then leave the screen: the sound keeps playing | unload the sound held at unmount | high; not executed | CalmCorner.SoundOutlivesScreen | CalmCorner.CalmCornerScreen.UnmountReleasingSound |

For the first two rows, the screens in the model keep the written behaviour, because they model the code. The corrected count is connected to the button by `ResearchButton.EnabledIffCanTakeErrorFirst`. For the breathing exercise, `CalmCorner.SessionLength` states the intended length of the corrected run.
