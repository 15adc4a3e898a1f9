# HoneyDoAmber reminders: recurrence and notification scheduling in Dafny

This project models the reminder-scheduling core of HoneyDoAmber ("Amber"), a reminders app whose
notifications speak in the voice of a dog named Amber, and proves properties of that model.

The model covers:

- **Recurrence engine** (`Recurrence`):
  - rule normalisation (`normalizeRecurrence`);
  - the next occurrence under a daily, weekdays or weekly rule (`computeNextOccurrence`);
  - the bounded list of upcoming occurrences (`computeUpcomingOccurrences`).
- **Calendar** (`Calendar`) underneath it:
  - an instant is a whole number of milliseconds;
  - the day index is `t / 86 400 000`;
  - the weekday is `(day + 4) % 7`, because 1 January 1970 was a Thursday;
  - a `YYYY-MM-DD` / `HH:MM` pair is an abstract date and time text that either parses to a day and a minute of the day or does not.
- **Cloud functions** (`CloudFunctions`), over a Firestore modelled as a map from user id to user document:
  - `scheduleNotification` validation and document merge;
  - `registerFcmToken` and `unregisterFcmToken`;
  - `sendFCMNotification`: token filtering, chunks of 500, summed counts, and pruning of the three invalid-token codes;
  - the once-a-minute `sendScheduledNotifications` sweep, which is inclusive at both ends of its window and advances recurring reminders in UTC.
- **Native alarm reconciler** (`NativeNotifications`):
  - the 31-multiplier 32-bit hash that derives an alarm id;
  - the fire date with its 09:00 default, and the alarm body;
  - the permission cache;
  - cancel-then-schedule in `scheduleNativeReminder`;
  - the diff `syncNativeReminders` applies to the pending alarms.
  - The Capacitor plugin is a class holding a map of pending alarms and a log of the calls made to it.
- **Client reminder list** (`RemindersContext`):
  - the display sort, which is stable, with unparseable dates last;
  - add with defaults, load normalisation, update, delete and toggle;
  - the policy that completing a recurring reminder reschedules it instead.
  - The list is a field of the class `RemindersState`, which its methods reassign.
- **Reminder form** (`ReminderForm`):
  - the schema's constraints and messages;
  - the submit-time rule builder, which is stricter than the normaliser;
  - details trimming;
  - the `toggleDay` helper.
- **Server actions** (`Actions`):
  - the fallback date/time heuristic behind `parseSmartInputAction`;
  - the fallback message;
  - note cleaning;
  - the result shaping of `parseSmartInputAction` and `generatePlayfulNotificationAction`.
- **Personalities** (`Personalities`):
  - the definition table and the option list;
  - `resolvePersonalityKey`, where `random` picks one of the five core personalities;
  - `getPersonalityDefinition`.

What the program takes from its surroundings is passed in as parameters:

- **Clock:** `now`.
- **Push gateway:** a per-user, per-reminder, per-token result oracle.
- **Send failures:** an oracle saying which sends throw.
- **Native plugin:** its answer to a permission request, and the ids it refuses to schedule.
- **Client context:** whether a user is signed in with the store ready (`ready`), whether the store accepts the write (`writeOk`), and the id the store assigns a new reminder.
- **AI results:** the AI parser's and generator's results, as `Result` values.
- **Random choice:** the index `Math.random` picks.
- **Keyword matching:** what the lower-cased input's regular expressions match, as a `Cues` value.

Some of the source's behaviour is kept even where it looks unintended:

- **UTC formatting:** the server formats an advanced occurrence in UTC, while the client formats it in local time (`UtcAndLocalFormatsDiffer`).
- **Nudge:** it can leave a fallback time in the past (`NudgeMayStayInPast`).
- **Alarm id collisions:** different reminder ids can derive the same alarm id (`AlarmIdsCollide`).
- **Invalid fallback date:**
  - `parseSmartInputAction`'s fallback path formats its date with `date-fns`.
  - That call throws on an invalid date: an unparseable `currentDate`, or a clock text that is not a number.
  - So when the parser fails on such input the action rejects with "Invalid time value" instead of succeeding (`SmartInputSucceeds`).
  - The same happens when a relative offset moves the date past the `Date` range of 8.64e15 ms, for example "in 100000000 days" (`HugeOffsetInvalid`).

## Model

| member | source | states |
|---|---|---|
| Calendar.TruncateToMinute | src/lib/recurrence.ts:9-10 | zeroing seconds and milliseconds gives the whole minute at or before the instant |
| Calendar.AddDaysWeekday | src/lib/recurrence.ts:14-15 | adding k days moves the weekday by k mod 7 and the day index by k, and keeps the minute of the day |
| Calendar.ParseLocal | src/lib/native-local-notifications.ts:193-195 | a date and time text gives an instant exactly when both parse |
| Calendar.FormatThenParse | src/lib/recurrence.ts:47-50 | formatting an instant as date and time and parsing it back gives the instant truncated to the minute |
| Calendar.ParseThenFormat | src/lib/recurrence.ts:47-50 | parsing a well-formed date and time and formatting the instant gives the same texts back |
| Text.Trim | src/components/reminders/reminder-form.tsx:134 | `trim` returns a slice of the input with no white space at either end |
| Text.TrimEmptyIffBlank | src/components/reminders/reminder-form.tsx:134-135 | trimming gives the empty string exactly when the text is all white space |
| Text.TrimIdempotent | src/components/reminders/reminder-form.tsx:134 | trimming twice equals trimming once |
| Text.Utf16Units | src/lib/native-local-notifications.ts:16-18 | every `charCodeAt` value is a 16-bit code unit; a text has between one and two code units per character |
| Seqs.Dedupe | src/lib/recurrence.ts:58 | `new Set` keeps one copy of each value and no others |
| Seqs.SortAscending | src/lib/recurrence.ts:58 | `sort` returns a sorted permutation of the days |
| Seqs.RemoveAll | functions/index.js:321 | `arrayRemove` keeps exactly the elements not listed |
| Seqs.RemoveAllSplits | src/components/reminders/reminder-form.tsx:392 | removal keeps the order of the remaining elements: it acts on each part of a split separately |
| Seqs.ArrayUnion | functions/index.js:109 | `arrayUnion` adds the value unless present, and changes nothing if it is |
| Seqs.SortDedupedIsStrict | src/lib/recurrence.ts:58 | sorting deduplicated days gives a strictly increasing list of the same days |
| Recurrence.InWeek | src/lib/recurrence.ts:58 | the filter keeps exactly the days in 0..6 |
| Recurrence.Normalize | src/lib/recurrence.ts:52-74 | a normalised rule is canonical: known frequency, and strictly increasing days in 0..6 only for weekly |
| Recurrence.NormalizeNone | src/lib/recurrence.ts:53-55 | the result is null exactly for a missing rule, an unrecognised frequency, or a weekly rule with no day in 0..6; daily and weekdays keep only their frequency |
| Recurrence.NormalizeDays | src/lib/recurrence.ts:57-63 | a weekly result holds exactly the distinct input days in 0..6, ascending |
| Recurrence.NormalizeCanonical | src/lib/recurrence.ts:52-74 | a canonical rule normalises to itself |
| Recurrence.NormalizeIdempotent | src/lib/recurrence.ts:52-74 | normalising twice equals normalising once |
| Recurrence.WeekdaysGapFirst | src/lib/recurrence.ts:19-23 | the weekdays step is 1 to 3 days and lands on the first day after that is not Saturday or Sunday |
| Recurrence.DayGapSpec | src/lib/recurrence.ts:30-36 | the offset to a given weekday is the unique k in 1..7 that lands on it |
| Recurrence.WeeklyGap | src/lib/recurrence.ts:30-36 | the weekly step is one of the day offsets and no larger than any of them |
| Recurrence.WeeklyGapLeast | src/lib/recurrence.ts:30-36 | the weekly step is the smallest k in 1..7 whose weekday is a listed day |
| Recurrence.NextKeepsClockTime | src/lib/recurrence.ts:4-45 | a next occurrence exists exactly for a daily, weekdays or non-empty weekly rule; it lies strictly after the input and within seven days of it, on a whole minute, at the same hour and minute |
| Recurrence.WeekdaysNextIsFirstWorkingDay | src/lib/recurrence.ts:18-24 | weekdays gives the first working day strictly after the input, at the same minute |
| Recurrence.WeeklyNextIsFirstMatch | src/lib/recurrence.ts:25-41 | weekly gives the first listed weekday strictly after the input, within 7 days |
| Recurrence.SomeDayMatches | src/lib/recurrence.ts:38-40 | a non-empty day set always matches some offset in 1..7, so the +7 fallback is unreachable |
| Recurrence.NextWeekday | src/lib/recurrence.ts:19-23 | the do-while loop stops at the weekdays step |
| Recurrence.NextWeeklyDay | src/lib/recurrence.ts:30-40 | the for loop stops at the weekly step |
| Recurrence.ComputeNextOccurrence | src/lib/recurrence.ts:4-45 | the mutating computation equals the next-occurrence function: null without a rule or with no usable days, Invalid Date stays invalid |
| Recurrence.WeeklyGapSameDays | src/lib/recurrence.ts:26-29 | the weekly step depends only on which days are listed; neither the client nor the server deduplicates the filtered days, and duplicates do not change the step |
| Recurrence.ComputeUpcomingOccurrences | src/lib/recurrence.ts:76-108 | the push loop equals the list specified by `Upcoming`; the defaults of 7 days and 4 occurrences are passed by the caller |
| Recurrence.UpcomingFromValidStart | src/lib/recurrence.ts:87-105 | from a valid start the list starts with it, strictly increases, stays within the horizon, and has at most max(1, maxOccurrences) elements |
| Recurrence.UpcomingFromInvalidStart | src/lib/recurrence.ts:90-105 | from an Invalid Date start the list holds one Invalid Date per free slot when the rule advances, and is empty otherwise |
| Recurrence.DailyThreeDayHorizon | src/lib/recurrence.ts:76-108 | a daily rule with a three-day horizon and room for ten gives the start and three more days |
| Personalities.ParseKey | src/lib/personalities.ts:1-7 | a stored string that is none of the six names is kept as an unknown key |
| Personalities.KeyName | src/lib/personalities.ts:1-7 | the name of a known key parses back to it |
| Personalities.IndexByKeyFiles | src/lib/personalities.ts:49-55 | the reduce files each definition under its own key, and only those |
| Personalities.TableContents | src/lib/personalities.ts:16-55 | the table holds exactly the five core keys, each with its own definition |
| Personalities.OptionsShape | src/lib/personalities.ts:57-69 | the options are the five core definitions plus random, six in all; the non-random keys are the core keys in order |
| Personalities.FindByKey | src/lib/personalities.ts:82 | `find` returns a listed definition with the key, and nothing exactly when none has it |
| Personalities.ResolveRandom | src/lib/personalities.ts:72-75 | random resolves to the core definition at the chosen index, never to random |
| Personalities.TableFilesCore | src/lib/personalities.ts:49-55 | each core definition is in the table under its own key |
| Personalities.ResolveRandomCoversCore | src/lib/personalities.ts:72-75 | every core definition is chosen by some index |
| Personalities.ResolveFixedKey | src/lib/personalities.ts:77 | a known key resolves to its own definition; any other key that is not a name inherited from `Object.prototype` resolves to sweet |
| Personalities.RandomOptionFound | src/lib/personalities.ts:82 | the `find` for `random` always succeeds and yields the random option, the only entry with that key |
| Personalities.GetDefinitionSpec | src/lib/personalities.ts:80-85 | random gives the random option; every other key gives exactly what `resolvePersonalityKey` gives, since both make the same table lookup with the same fallback |
| CloudFunctions.ServerNormalizeAgrees | functions/index.js:9-25 | the server's normaliser equals the client's on every rule |
| CloudFunctions.UtcAndLocalFormatsDiffer | functions/index.js:6-7 | the server's UTC date and time equal the client's local ones only when the offset is zero |
| CloudFunctions.ScheduledInstant | functions/index.js:85-95 | date and time give that instant, a date alone gives midnight, no date gives null, and an unparseable date fails |
| CloudFunctions.ScheduleNotification | functions/index.js:68-121 | invalid-argument exactly without reminder, reminder id or user id; otherwise the call succeeds exactly when the date and time give an instant, and fails only with unknown; on success only that reminder document changes, merged with a normalised rule, its scheduled instant, unsent flags, timestamps, and the token added to the user's list |
| CloudFunctions.ScheduleKeepsLastAttempt | functions/index.js:92-105 | the merge keeps a stored reminder's last-attempt stamp |
| CloudFunctions.ScheduleWithoutTokenLeavesUserDoc | functions/index.js:107-112 | without a token the user document's existence, tokens and token stamp are unchanged |
| CloudFunctions.RegisterFcmToken | functions/index.js:336-362 | invalid-argument exactly without token or user id; otherwise the user's token set gains the token and nothing else changes |
| CloudFunctions.UnregisterFcmToken | functions/index.js:364-389 | invalid-argument exactly without token or user id; otherwise the user's token set loses the token and nothing else changes |
| CloudFunctions.RegisterIdempotent | functions/index.js:351-354 | registering twice equals registering once |
| CloudFunctions.UnregisterIdempotent | functions/index.js:378-381 | unregistering twice equals unregistering once |
| CloudFunctions.UsableIffTrimmed | functions/index.js:217 | a token passes the filter exactly when `token.trim()` leaves a non-empty string |
| CloudFunctions.UsableTokens | functions/index.js:216-218 | exactly the tokens that are not blank are used |
| CloudFunctions.InvalidTokensOf | functions/index.js:305-316 | exactly the tokens answered with one of the three invalid-token codes are collected |
| CloudFunctions.SendEachForMulticast | functions/index.js:301-303 | one response per token, in order; successes are the delivered tokens and the counts add up to the chunk size |
| CloudFunctions.SendFcmNotification | functions/index.js:209-334 | no usable token returns null; otherwise the chunks are non-empty, at most 500 long and concatenate to the usable tokens, the counts are summed over them, and exactly the invalid tokens are pruned with a fresh token stamp |
| CloudFunctions.NoteInvalidTokens | functions/index.js:305-316 | the loop over one chunk's responses appends exactly that chunk's invalid tokens |
| CloudFunctions.PruneExactlyInvalid | functions/index.js:319-323 | after pruning, a token remains exactly when it was stored and was not reported invalid |
| CloudFunctions.CountDeliveredPositive | functions/index.js:162 | the success count is positive exactly when some usable token took the push |
| CloudFunctions.Prune | functions/index.js:321 | the pruned list keeps exactly the tokens not in the bad set |
| CloudFunctions.PruneTwice | functions/index.js:321 | pruning by two sets in turn equals pruning by their union |
| CloudFunctions.SettleDelivered | functions/index.js:162-188 | a delivered recurring reminder moves to its next occurrence after the scheduled instant (UTC texts, reopened, unsent) and is not due again in the same window; without a rule or a next occurrence it is marked sent at now |
| CloudFunctions.SettleUndelivered | functions/index.js:189-194 | an undelivered reminder only gets a last-attempt stamp and stays eligible for the next run |
| CloudFunctions.SettleReminder | functions/index.js:160-194 | the branch taken after a send writes exactly the settlement `Settle` defines: an advanced occurrence, a sent mark, or only an attempt stamp when nothing was delivered |
| CloudFunctions.RecordInvalidTokens | functions/index.js:318-324 | the user document changes only when a token was reported invalid, and then loses exactly those tokens and gets a fresh token stamp |
| CloudFunctions.ProcessReminder | functions/index.js:153-198 | a send that throws leaves the user document; otherwise tokens are pruned and the reminder settled by whether any token took the push |
| CloudFunctions.SweepUser | functions/index.js:141-198 | only reminders in the inclusive window, unsent and open, are touched; each one is settled as delivered or undelivered (undelivered when no token takes it), and exactly the tokens reported invalid are pruned |
| CloudFunctions.Sweep | functions/index.js:125-203 | every existing user document is swept as above; user documents that do not exist are left alone |
| CloudFunctions.StepTokens | functions/index.js:319-323 | handling one more reminder prunes exactly the invalid tokens of its push |
| CloudFunctions.StepSettles | functions/index.js:160-194 | the reminder just handled is settled as the sweep describes |
| NativeNotifications.ToInt32 | src/lib/native-local-notifications.ts:19 | `hash \|= 0` gives the signed 32-bit value congruent to the input modulo 2^32 |
| NativeNotifications.ToInt32Congruent | src/lib/native-local-notifications.ts:18-19 | values congruent modulo 2^32 wrap to the same 32-bit value |
| NativeNotifications.HashStepIsTimes31 | src/lib/native-local-notifications.ts:18-19 | `(h << 5) - h + c` wrapped to 32 bits equals `31 * h + c` wrapped |
| NativeNotifications.AlarmId | src/lib/native-local-notifications.ts:14-26 | a derived alarm id always lies in 1..1 999 999 999 |
| NativeNotifications.IdOfHash | src/lib/native-local-notifications.ts:21-25 | the final reduction always gives an id in 1..1 999 999 999 and leaves a positive hash below 2 000 000 000 unchanged |
| NativeNotifications.NotificationIdFromReminderId | src/lib/native-local-notifications.ts:14-26 | the hash loop computes the alarm id |
| NativeNotifications.AlarmIdsCollide | src/lib/native-local-notifications.ts:14-26 | the distinct ids "Aa" and "BB" derive the same alarm id, 2112 |
| NativeNotifications.FireDate | src/lib/native-local-notifications.ts:189-199 | a fire date exists exactly for a parseable date with a parseable or missing time; a missing time means 09:00 |
| NativeNotifications.AlarmBody | src/lib/native-local-notifications.ts:181-187 | the body is the trimmed message when it is not blank, else the "time for" text with the reminder task |
| NativeNotifications.LocalNotificationsPlugin.constructor | src/lib/native-local-notifications.ts:10-12 | the plugin starts with the given pending alarms and permission, and an empty call log |
| NativeNotifications.LocalNotificationsPlugin.RequestPermissions | src/lib/native-local-notifications.ts:88-89 | a prompt state becomes the user's answer; a decided state stays |
| NativeNotifications.LocalNotificationsPlugin.Cancel | src/lib/native-local-notifications.ts:226 | cancelling removes exactly the given ids and is logged |
| NativeNotifications.LocalNotificationsPlugin.Schedule | src/lib/native-local-notifications.ts:234-254 | scheduling succeeds unless the platform rejects the id, and then replaces the alarm under that id |
| NativeNotifications.LocalNotificationsPlugin.CancelAll | src/lib/native-local-notifications.ts:334 | cancel-all leaves nothing pending |
| NativeNotifications.NativeNotifier.constructor | src/lib/native-local-notifications.ts:3-12 | the notifier starts with no cached permission |
| NativeNotifications.NativeNotifier.EnsurePermission | src/lib/native-local-notifications.ts:65-102 | a cached grant returns true without asking; otherwise it checks, then requests, caches the outcome, and returns whether it is a grant; no plugin caches a denial |
| NativeNotifications.NativeNotifier.RequestNativeNotificationPermission | src/lib/native-local-notifications.ts:104-109 | off a native runtime returns false and touches nothing; otherwise it is the permission check |
| NativeNotifications.NativeNotifier.ScheduleNativeReminder | src/lib/native-local-notifications.ts:201-256 | false with no plugin call unless native, firing strictly after now, and permitted; otherwise it cancels then schedules the alarm under the derived id, so at most one alarm is pending per id |
| NativeNotifications.NativeNotifier.CancelNativeReminder | src/lib/native-local-notifications.ts:258-273 | on a native runtime the derived id is cancelled and true returned; otherwise nothing changes; the display permission never changes |
| NativeNotifications.NativeNotifier.CancelAllNativeReminders | src/lib/native-local-notifications.ts:324-336 | on a native runtime one cancel-all call leaves nothing pending; otherwise nothing changes; the display permission never changes |
| NativeNotifications.NativeNotifier.SyncNativeReminders | src/lib/native-local-notifications.ts:275-322 | off native nothing changes; without a cached grant the sync asks for permission as `ensurePermission` does, and caches the answer; without permission no alarm changes; with it, only missing expected ids are scheduled and exactly the stale pending ids are cancelled, leaving the expected ids pending that were already pending or accepted |
| NativeNotifications.NativeNotifier.CancelStale | src/lib/native-local-notifications.ts:313-321 | when some pending id is no longer expected, exactly those ids are cancelled in one call; otherwise no call is made and no alarm changes |
| NativeNotifications.SyncCompletes | src/lib/native-local-notifications.ts:304-321 | the scheduling loop followed by the stale-id cancel keeps the earlier calls, makes the calls of a whole sync and leaves the alarms reconciled with the upcoming reminders, each new alarm under its own reminder's derived id |
| NativeNotifications.NativeNotifier.SyncTwice | src/lib/native-local-notifications.ts:305-316 | when every expected id is accepted, a second sync makes no plugin call and changes no alarm |
| NativeNotifications.NativeNotifier.ScheduleMissing | src/lib/native-local-notifications.ts:304-311 | the loop collects exactly the derived ids and attempts each expected id that was not pending, cancel then schedule |
| NativeNotifications.Upcoming | src/lib/native-local-notifications.ts:293-302 | exactly the open reminders that fire strictly after now are upcoming |
| NativeNotifications.IdsOf | src/lib/native-local-notifications.ts:304-307 | the expected set is exactly the derived ids of the upcoming reminders |
| NativeNotifications.ReconciledAccepted | src/lib/native-local-notifications.ts:305-321 | when the platform accepts every expected id, a sync leaves exactly those ids pending |
| NativeNotifications.ReconciledInStep | src/lib/native-local-notifications.ts:305-321 | a sync that starts with exactly the expected ids pending changes no alarm |
| NativeNotifications.QuietWhenInStep | src/lib/native-local-notifications.ts:308-316 | with nothing missing and nothing stale, a sync makes no call |
| RemindersContext.CompareIsTotalPreorder | src/context/reminders-context.tsx:750-757 | the comparator orders valid dates by instant, puts unparseable ones last, ties two unparseable ones, and is total and transitive |
| RemindersContext.InsertByDue | src/context/reminders-context.tsx:750-757 | inserting into a sorted list keeps it sorted and adds exactly the one reminder |
| RemindersContext.SortByDue | src/context/reminders-context.tsx:749-758 | the sorted list is in due order and a permutation of the reminders |
| RemindersContext.SortIsStable | src/context/reminders-context.tsx:750-757 | reminders with the same due instant keep their relative order |
| RemindersContext.Find | src/context/reminders-context.tsx:686 | `find` gives the first reminder with the id, and nothing exactly when none has it |
| RemindersContext.RemoveById | src/context/reminders-context.tsx:656 | the filter drops every reminder with the id and keeps every other one |
| RemindersContext.RemoveByIdLeavesNone | src/context/reminders-context.tsx:656 | no reminder with the id remains after a delete |
| RemindersContext.RemoveByIdIdempotent | src/context/reminders-context.tsx:656 | deleting twice equals deleting once |
| RemindersContext.Rescheduled | src/context/reminders-context.tsx:530-565 | a new occurrence exists exactly for a rule with a next occurrence and a parseable date and time; the new date and time are exactly that next occurrence, 1 to 7 days forward at the same minute; the reminder is reopened and every other field kept |
| RemindersContext.RecurringCompletionNeverCompletes | src/context/reminders-context.tsx:689-694 | completing an open recurring reminder leaves it open |
| RemindersContext.Prepared | src/context/reminders-context.tsx:602-605 | a supplied rule is normalised, an invalid one becoming null; no other field changes |
| RemindersContext.PreparedIdempotent | src/context/reminders-context.tsx:602-605 | preparing a patch twice equals preparing it once |
| RemindersContext.MergeSpec | src/context/reminders-context.tsx:614-616 | a merge keeps the id, takes supplied fields, is idempotent, and an empty patch changes nothing |
| RemindersContext.LastWithId | src/context/reminders-context.tsx:613-618 | the merged reminder reported is one with the id, and none exactly when no reminder has it |
| RemindersContext.UpdateKeepsCanonicalRecurrence | src/context/reminders-context.tsx:602-620 | after an update with a supplied rule, every matching reminder holds a canonical rule or null |
| RemindersContext.NewReminder | src/context/reminders-context.tsx:481-491 | a new reminder is open, gets medium priority and the default personality when absent, and a normalised rule |
| RemindersContext.LoadNormalises | src/context/reminders-context.tsx:307-311 | loading keeps every reminder in place, fills a missing personality with sweet and normalises its rule, and loading twice equals loading once |
| RemindersContext.RemindersState.constructor | src/context/reminders-context.tsx:86 | the list starts empty with sweet as the default personality |
| RemindersContext.RemindersState.SortedReminders | src/context/reminders-context.tsx:749-758 | the displayed list is in due order and a permutation of the list |
| RemindersContext.RemindersState.LoadReminders | src/context/reminders-context.tsx:284-312 | the list becomes the loaded documents, normalised |
| RemindersContext.RemindersState.AddReminder | src/context/reminders-context.tsx:475-528 | without a ready store it rejects and changes nothing; otherwise the new reminder is appended; it is returned when its date and time parse, and otherwise the confirmation's `format` rejects with "Invalid time value" after the append |
| RemindersContext.RemindersState.RescheduleRecurringReminder | src/context/reminders-context.tsx:530-593 | it returns null and changes nothing for no rule, an unparseable date, no next occurrence or a failed write; otherwise it replaces just the matching reminder with its next occurrence |
| RemindersContext.RemindersState.ToggleReminderCompletion | src/context/reminders-context.tsx:679-747 | completing an open recurring reminder reschedules it instead; otherwise exactly the matching reminder's flag flips; an unknown id changes nothing |
| RemindersContext.RemindersState.UpdateReminder | src/context/reminders-context.tsx:595-645 | only reminders with the id are merged with the prepared patch, and the last merged one is returned |
| RemindersContext.RemindersState.DeleteReminder | src/context/reminders-context.tsx:647-677 | exactly the reminders with the id are removed |
| ReminderForm.DayErrors | src/components/reminders/reminder-form.tsx:42 | the weekly days are accepted exactly when all lie in 0..6 |
| ReminderForm.Validate | src/components/reminders/reminder-form.tsx:29-43 | the form validates exactly when the reminder task, date and time are non-empty, details have at most 400 UTF-16 units, the personality is known and every day is in 0..6; defaults are applied |
| ReminderForm.WeeklyDays | src/components/reminders/reminder-form.tsx:143 | the days are deduplicated, filtered to 0..6 and strictly ascending |
| ReminderForm.BuildRecurrence | src/components/reminders/reminder-form.tsx:137-153 | disabled gives null; no frequency fails; weekly with no day in range fails; weekly otherwise gives the cleaned days; daily and weekdays give only the frequency |
| ReminderForm.FormAgreesWithNormalize | src/components/reminders/reminder-form.tsx:137-153 | whenever the form builds a rule, normalisation returns that same rule unchanged |
| ReminderForm.DetailsForStorage | src/components/reminders/reminder-form.tsx:134-135 | details are trimmed, and blank details are stored as null |
| ReminderForm.DetailsForStorageIdempotent | src/components/reminders/reminder-form.tsx:134-135 | preparing details twice equals preparing them once |
| ReminderForm.BuildDraft | src/components/reminders/reminder-form.tsx:132-163 | a draft is built exactly when the rule builds, failing with the rule's error; the draft carries the built rule, the stored details, and the form's reminder task, date, time, priority and personality |
| ReminderForm.Submit | src/components/reminders/reminder-form.tsx:130-200 | a rule error changes nothing; an edit updates the reminder and fails when none matched; a new reminder is added, and the submit fails with "Invalid time value" when its date or time does not parse |
| ReminderForm.ToggleDay | src/components/reminders/reminder-form.tsx:389-394 | checking gives the selected days plus the day, each once; unchecking removes every copy of the day |
| ReminderForm.ToggleDayOffKeepsOrder | src/components/reminders/reminder-form.tsx:389-394 | unchecking keeps the remaining days in their order |
| ReminderForm.ToggleDayRoundTrip | src/components/reminders/reminder-form.tsx:389-394 | on distinct days without the day, checking appends it, checking again changes nothing, and unchecking restores the selection |
| Actions.BuildFallbackMessage | src/app/actions.ts:25-43 | the subject is never empty: the reminder task, or the tone's placeholder; the tone is sweet exactly for keys other than funny, sarcastic, angry and raging |
| Actions.FallbackToneFollowsPersonality | src/app/actions.ts:30-42 | sweet and unknown keys give the sweet template; funny, sarcastic, angry and raging give their own; random gives the template of the core personality drawn |
| Actions.BuildFallbackDateTime | src/app/actions.ts:115-198 | the step-by-step computation equals the fallback date specified by its stages |
| Actions.StartingPoint | src/app/actions.ts:121-131 | the base is now, or the given date at the given clock time |
| Actions.ApplyOffsets | src/app/actions.ts:134-155 | tomorrow or today, then the day, hour and minute offsets, are applied in turn |
| Actions.ApplyClock | src/app/actions.ts:157-188 | the chosen clock time is set on the shifted date |
| Actions.OffsetsAccumulate | src/app/actions.ts:136-155 | from a valid date the relative offsets add up, tomorrow counting one day, while the sum stays in the `Date` range, and give an Invalid Date beyond it; an invalid base stays invalid |
| Actions.Clip | src/app/actions.ts:136-155 | a time value is a valid date exactly within 8.64e15 ms of the epoch, as `TimeClip` decides for every `Date` the heuristic builds |
| Actions.SetHoursInRange | src/app/actions.ts:157-188 | `setHours` with an in-range clock on a valid date stays valid except past midnight of the range's last day |
| Actions.SetHoursPlaces | src/app/actions.ts:168 | setting hours and minutes keeps the day and places the minute of the day |
| Actions.DayHourIsTwentyFourHour | src/app/actions.ts:159-167 | pm before noon adds 12 and 12 am becomes 0 |
| Actions.KeywordTimes | src/app/actions.ts:170-188 | without an explicit time, afternoon, evening, morning, lunch and dinner set 15:00, 19:00, 09:00, 12:30 and 19:00 in that order on the same day (invalid only on the range's last day), else the default time |
| Actions.ExplicitTimeWins | src/app/actions.ts:157-169 | an `at` time overrides every keyword, with minutes defaulting to 0, on the same day (invalid only after midnight of the range's last day) |
| Actions.NudgeSpec | src/app/actions.ts:190-195 | a past candidate moves 30 minutes and then one hour more only if still past; a candidate at most 90 minutes past ends in the future |
| Actions.NudgeMayStayInPast | src/app/actions.ts:190-195 | a candidate two hours past stays in the past after the nudge |
| Actions.FallbackValidity | src/app/actions.ts:115-198 | well-formed date and clock inputs of moderate size give a valid date; an unparseable date gives an invalid one |
| Actions.HugeOffsetInvalid | src/app/actions.ts:140-143 | "in 100000000 days" from any instant after 1970 gives an Invalid Date |
| Actions.StripLead | src/app/actions.ts:69 | exactly the leading run of the class's characters is removed (dashes, white space and the three characters of the mis-encoded bullet): every dropped character is one, and the remaining suffix does not start with one |
| Actions.MisEncodedBulletStripped | src/app/actions.ts:69 | a note starting with 'Ä' loses it, as a note starting with a dash would |
| Actions.KeptIndicesSpec | src/app/actions.ts:69-70 | the kept positions are exactly the notes whose cleaned text is non-empty, each once, ascending |
| Actions.NonEmptyCleanedSpec | src/app/actions.ts:69-70 | the notes after `map` and `filter(Boolean)` are the cleaned notes at the kept positions, in order |
| Actions.CleanNotesSpec | src/app/actions.ts:68-71 | the cleaned notes are the first three notes with text left after cleaning, cleaned, in their original order |
| Seqs.PositionsSpec | src/app/actions.ts:70 | the positions a filter keeps are exactly those whose test holds, each once, ascending |
| Actions.CleanNotes | src/app/actions.ts:68-71 | at most three notes remain, each non-empty, trimmed and without a leading dash |
| Actions.CleanNotesIdempotent | src/app/actions.ts:68-71 | cleaning notes twice equals cleaning them once |
| Actions.TrimmedOrNone | src/app/actions.ts:75-77 | a blank text becomes absent; otherwise it is trimmed |
| Actions.Normalized | src/app/actions.ts:73-83 | the parsed task is trimmed; date and time pass through; location and insight are trimmed or dropped when blank; notes are cleaned; priority defaults to medium; a blank message becomes the fallback message of the untrimmed task; the personality is the parsed one unless empty, else the resolved key |
| Actions.FallbackData | src/app/actions.ts:92-104 | the fallback data fails exactly on an invalid date; otherwise the reminder task is the input or "Reminder", notes hold the input only when it is non-empty, the message is the resolved personality's fallback for the input or "your task", the personality is the resolved key and there is no insight |
| Actions.ParseSmartInputAction | src/app/actions.ts:45-113 | a success always reports success; a parsed input gives its normalised data without fallback; a parser failure succeeds with the fallback data and warning exactly when the fallback date is valid |
| Actions.SmartInputSucceeds | src/app/actions.ts:89-111 | a parsed input always succeeds; a parser failure succeeds on well-formed moderate inputs and rejects with "Invalid time value" on an unparseable date or an offset past the `Date` range |
| Actions.GeneratePlayfulNotificationAction | src/app/actions.ts:200-218 | success is always reported; the generated message when there is one, else the fallback message of the resolved personality for the reminder task or "your task" |

## Left out

- Time zones and daylight saving time are not modelled.
  - Every day is 86 400 000 ms.
  - Local time and UTC coincide, except in `UtcAndLocalFormatsDiffer`, which states what a non-zero offset would change.
- Date strings are not parsed character by character.
  - A `YYYY-MM-DD` / `HH:MM` text is abstracted to parses-to-a-day-and-minute or does-not-parse.
  - Partial dates in `buildFallbackDateTime` are not modelled: a missing day falls back to `now.getDate()`, and a month can roll over.
  - A lone hour in a time string is not modelled either.
- Days of the week are integers. A non-integer day, which passes the 0..6 filter in JavaScript, is not modelled.
- JavaScript's string sort of days is modelled as numeric sort. The two coincide on the digits 0..6 the filter keeps.
- Firestore, `localStorage`, React state batching and `remindersRef` are left out.
  - The list operations act on one `seq` field.
  - A store write is one `writeOk` flag.
  - `serverTimestamp()` is `now`.
- Only what `sendFCMNotification` decides is kept.
  - The FCM message objects (webpush, android, apns), the deep link and the title are left out.
  - The invalid-token write is part of the user-document update.
  - A failure of that write after a successful send is not modelled.
- Tokens are strings; non-string tokens in `fcmTokens` are not modelled.
- The sweep's `catch` is an oracle that throws before any write.
- The server copies of `normalizeRecurrence` and `computeNextOccurrence` are modelled once.
  - `ServerNormalizeAgrees` states that the two normalisers agree.
  - Neither the client's nor the server's `computeNextOccurrence` deduplicates the weekly days; `WeeklyGapSameDays` states that the step is the same as on the deduplicated list.
- Android notification channels are left out. `ensureChannel` and `listChannels` are not modelled; the channel id is the constant `amber_barks_v2`.
- `permissionInFlight` is left out, because concurrent permission requests are not modelled.
- `cachedIsNative` and `pluginInstance` are constants of a `NativeNotifier`.
- The plugin's `cancel` is taken never to throw.
- `listPendingNativeReminders`, `scheduleNativeTestNotification` and the plugin's listeners are outside the reconciler and left out.
- NativeNotifications.NativeNotifier.SyncNativeReminders: the time of each pending alarm is not compared with the reminder's current fire date, because the source compares ids only.
- Reminder fields that take no part in these decisions are not modelled: the notification icon, URL and MMS fields, and the definition's description and prompt style.
- Patch keys whose value is `undefined` are modelled as absent.
- The Firestore write of `filteredUpdates` is the `writeOk` flag.
- Toasts, and the FCM and native calls the context makes after a write, are left out.
- The `Promise.race` timeouts in loading and submitting are left out.
- The `setDefaultPersonality` callback is left out.
- The AI parser and generator are parameters that may fail. `currentDate || today` in the parser's own input is not modelled, because only the parser sees it.
- The regular expressions and lower-casing in `buildFallbackDateTime` are given as `Cues`.
- The two `Date.now()` reads in `buildFallbackDateTime` are one `now`.
- The bullet in the notes regex is mis-encoded, so its character class holds '‚' (U+201A), 'Ä' (U+00C4) and '¢' (U+00A2) instead of '•'; the model strips exactly those, with `-` and white space, as the regex does.
- The emoji message templates are mis-encoded. Each template is a tone with its subject, not the literal text.
- The `Math.random` choice of a random personality is an index parameter.
- Personalities.ResolveFixedKey, Personalities.GetDefinitionSpec: a key inherited from `Object.prototype` (`toString`, `__proto__` and the others in `Personalities.InheritedNames`) finds the inherited member in the source's lookup table; the model resolves it to sweet; `ResolveFixedKey`'s sweet clause excludes these names, and `GetDefinitionSpec` equates two lookups that in the source both return the inherited member, so nothing is promised about what that member is.
- Recurrence.Shift, Recurrence.NextOccurrence, NativeNotifications fire dates and the server sweep: dates are unbounded integers there; the `Date` range of 8.64e15 ms is modelled only in the fallback heuristic (`Actions.Clip`), where a user's offset can reach it.
- Actions.FallbackValidity, Actions.SmartInputSucceeds: success of the fallback is promised only for moderate numbers (`Actions.Moderate`: dates within about 27 000 years of 1970, clocks and offsets far below the range); past the range an Invalid Date is stated for one witness, `Actions.HugeOffsetInvalid`.
- Actions.NudgeSpec: stated for an instant at least an hour before the end of the `Date` range.
