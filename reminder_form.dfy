/**
 * The reminder form of `src/components/reminders/reminder-form.tsx`: the field constraints of its
 * schema, the recurrence rule and stored details it builds on submit, the weekly day toggle, and
 * the submit step that hands the result to the add or update operation of the reminders state.
 */
module ReminderForm {
  import opened Wrappers
  import opened Text
  import opened Seqs
  import opened Calendar
  import opened ReminderTypes
  import opened Recurrence
  import opened Personalities
  import opened RemindersContext

  // ---------------------------------------------------------------------------------------
  // reminderSchema
  // ---------------------------------------------------------------------------------------

  /** The longest `details` the schema accepts, in UTF-16 code units. */
  const MaxDetails: int := 400

  /** The form values as the form holds them before validation. */
  datatype RawForm = RawForm(
    id: Option<string>,
    task: string,
    details: Option<string>,
    date: DateText,
    time: TimeText,
    priority: Option<Priority>,
    personality: Option<string>,
    recurrenceEnabled: Option<bool>,
    recurrenceFrequency: Option<Frequency>,
    recurrenceWeeklyDays: Option<seq<int>>)

  /** The values after validation, with the schema's defaults filled in. */
  datatype FormData = FormData(
    id: Option<string>,
    task: string,
    details: Option<string>,
    date: DateText,
    time: TimeText,
    priority: Priority,
    personality: string,
    recurrenceEnabled: bool,
    recurrenceFrequency: Option<Frequency>,
    recurrenceWeeklyDays: Option<seq<int>>)

  /** One failed constraint of the schema. */
  datatype FieldError =
    | TaskMissing | DetailsTooLong | DateMissing | TimeMissing
    | UnknownPersonality | UnknownFrequency | DayOutOfRange(day: int)
  {
    /** The message the schema shows, for the constraints that carry their own. */
    function Message(): Option<string> {
      match this
      case TaskMissing => Some("Amber needs to know what the task is!")
      case DetailsTooLong => Some("Amber likes to keep notes short and sweet (400 characters max).")
      case DateMissing => Some("Don&apos;t forget the date!")
      case TimeMissing => Some("What time should Amber remind you?")
      case _ => None
    }
  }

  /** The personality enum of the schema: the five core keys and 'random'. */
  predicate KnownPersonality(s: string) { !ParseKey(s).Unknown? }

  /** The day errors of `recurrenceWeeklyDays`, one per out-of-range entry, in order. */
  function DayErrors(days: seq<int>): (errs: seq<FieldError>)
    ensures errs == [] <==> forall d :: d in days ==> 0 <= d <= 6
  {
    if days == [] then []
    else
      assert forall d :: d in days <==> d == days[0] || d in days[1..];
      assert days[0] in days;
      var rest := DayErrors(days[1..]);
      if 0 <= days[0] <= 6 then rest else [DayOutOfRange(days[0])] + rest
  }

  /** Every failed constraint, in the order of the schema's fields. */
  function SchemaErrors(raw: RawForm): seq<FieldError> {
    (if raw.task == "" then [TaskMissing] else []) +
    (if raw.details.Some? && |Utf16Units(raw.details.value)| > MaxDetails then [DetailsTooLong] else []) +
    (if raw.date.NoDate? then [DateMissing] else []) +
    (if raw.time.NoTime? then [TimeMissing] else []) +
    (if raw.personality.Some? && !KnownPersonality(raw.personality.value) then [UnknownPersonality] else []) +
    (if raw.recurrenceFrequency.Some? && raw.recurrenceFrequency.value.Unrecognized? then [UnknownFrequency] else []) +
    DayErrors(raw.recurrenceWeeklyDays.GetOr([]))
  }

  /**
   * `reminderSchema`: the form is accepted exactly when every constraint holds, and then carries
   * priority 'medium', personality 'sweet' and recurrence off unless they were given.
   */
  function Validate(raw: RawForm): (r: Result<FormData, seq<FieldError>>)
    ensures r.Success? <==>
      raw.task != "" &&
      (raw.details.Some? ==> |Utf16Units(raw.details.value)| <= MaxDetails) &&
      !raw.date.NoDate? && !raw.time.NoTime? &&
      (raw.personality.Some? ==> KnownPersonality(raw.personality.value)) &&
      (raw.recurrenceFrequency.Some? ==> !raw.recurrenceFrequency.value.Unrecognized?) &&
      (forall d :: d in raw.recurrenceWeeklyDays.GetOr([]) ==> 0 <= d <= 6)
    ensures r.Failure? ==> r.error != []
    ensures r.Success? ==>
      r.value.priority == raw.priority.GetOr(Medium) &&
      r.value.personality == raw.personality.GetOr(DefaultPersonality) &&
      r.value.recurrenceEnabled == raw.recurrenceEnabled.GetOr(false) &&
      r.value.task == raw.task && r.value.details == raw.details &&
      r.value.date == raw.date && r.value.time == raw.time &&
      r.value.recurrenceFrequency == raw.recurrenceFrequency &&
      r.value.recurrenceWeeklyDays == raw.recurrenceWeeklyDays
  {
    var errs := SchemaErrors(raw);
    if errs != [] then Failure(errs)
    else
      Success(FormData(raw.id, raw.task, raw.details, raw.date, raw.time, raw.priority.GetOr(Medium),
        raw.personality.GetOr(DefaultPersonality), raw.recurrenceEnabled.GetOr(false),
        raw.recurrenceFrequency, raw.recurrenceWeeklyDays))
  }

  // ---------------------------------------------------------------------------------------
  // onSubmit
  // ---------------------------------------------------------------------------------------

  const PickFrequencyError: string := "Pick how often Amber should repeat this reminder."
  const PickDayError: string := "Choose at least one day for a weekly reminder."
  const NotFoundError: string := "Hmm, Amber couldn&apos;t find that reminder to update."

  /**
   * `Array.from(new Set(days)).filter(inWeek).sort()`. The default sort compares the days as
   * strings, which orders the single digits 0 to 6 as numbers.
   */
  function WeeklyDays(days: seq<int>): (r: seq<int>)
    ensures StrictlyIncreasing(r)
    ensures forall d :: d in r <==> d in days && 0 <= d <= 6
  {
    var kept := InWeek(Dedupe(days));
    SortDedupedIsStrict(kept);
    SortAscending(kept)
  }

  /**
   * The rule the form saves. Off gives no rule; on without a frequency, or weekly without a
   * day in range, is an error; weekly keeps the distinct in-range days ascending; any other
   * frequency carries no day list.
   */
  function BuildRecurrence(enabled: bool, frequency: Option<Frequency>, weeklyDays: Option<seq<int>>)
    : (r: Result<Option<Rule>, string>)
    ensures !enabled ==> r == Success(None)
    ensures enabled && frequency.None? ==> r == Failure(PickFrequencyError)
    ensures enabled && frequency.Some? && frequency.value.Weekly? &&
            (forall d :: d in weeklyDays.GetOr([]) ==> !(0 <= d <= 6)) ==>
      r == Failure(PickDayError)
    ensures enabled && frequency.Some? && frequency.value.Weekly? &&
            (exists d :: d in weeklyDays.GetOr([]) && 0 <= d <= 6) ==>
      r.Success? && r.value.Some? && r.value.value.frequency == Weekly &&
      r.value.value.daysOfWeek.Some? && StrictlyIncreasing(r.value.value.daysOfWeek.value) &&
      forall d :: d in r.value.value.daysOfWeek.value <==> d in weeklyDays.GetOr([]) && 0 <= d <= 6
    ensures enabled && frequency.Some? && !frequency.value.Weekly? ==>
      r == Success(Some(Rule(frequency.value, None)))
  {
    if !enabled then Success(None)
    else if frequency.None? then Failure(PickFrequencyError)
    else if frequency.value.Weekly? then
      var days := WeeklyDays(weeklyDays.GetOr([]));
      if |days| == 0 then
        Failure(PickDayError)
      else
        assert days[0] in days;
        Success(Some(Rule(Weekly, Some(days))))
    else Success(Some(Rule(frequency.value, None)))
  }

  /**
   * The form is stricter than `normalizeRecurrence` and agrees with it otherwise: for a known
   * frequency it fails exactly where the normaliser gives null, and when it succeeds it builds
   * the normaliser's rule, which the normaliser then leaves as it is.
   */
  lemma FormAgreesWithNormalize(frequency: Frequency, weeklyDays: Option<seq<int>>)
    requires !frequency.Unrecognized?
    ensures var built := BuildRecurrence(true, Some(frequency), weeklyDays);
      var normal := Normalize(Some(Rule(frequency, weeklyDays)));
      (built.Failure? <==> normal.None?) &&
      (built.Success? ==> built.value == normal && Normalize(built.value) == normal)
  {
    var rule := Rule(frequency, weeklyDays);
    NormalizeNone(Some(rule));
    if frequency.Weekly? {
      var xs := DaysOrEmpty(rule);
      var built := WeeklyDays(xs);
      NormalizedDaysCanonical(xs);
      StrictlyIncreasingUnique(built, NormalizedDays(xs));
    }
    var built := BuildRecurrence(true, Some(frequency), weeklyDays);
    if built.Success? {
      NormalizeIdempotent(Some(rule));
    }
  }

  /** `details?.trim()`, stored as null when nothing but white space is left. */
  function DetailsForStorage(details: Option<string>): (r: Option<string>)
    ensures r.None? <==> details.None? || AllSpace(details.value)
    ensures r.Some? ==> r.value == Trim(details.value) && r.value != "" &&
                        !IsSpace(r.value[0]) && !IsSpace(r.value[|r.value| - 1])
  {
    if details.None? then None
    else
      TrimEmptyIffBlank(details.value);
      var trimmed := Trim(details.value);
      if |trimmed| > 0 then Some(trimmed) else None
  }

  /** Storing stored details again keeps them as they are. */
  lemma DetailsForStorageIdempotent(details: Option<string>)
    ensures DetailsForStorage(DetailsForStorage(details)) == DetailsForStorage(details)
  {
    if DetailsForStorage(details).Some? {
      var t := Trim(details.value);
      TrimIdempotent(details.value);
      TrimEmptyIffBlank(t);
    }
  }

  /** `reminderDataToSave`, or the error `onSubmit` throws before reaching the store. */
  function BuildDraft(data: FormData): (r: Result<Draft, string>)
    ensures r.Failure? <==> BuildRecurrence(data.recurrenceEnabled, data.recurrenceFrequency,
                                            data.recurrenceWeeklyDays).Failure?
    ensures r.Failure? ==>
      r.error == BuildRecurrence(data.recurrenceEnabled, data.recurrenceFrequency, data.recurrenceWeeklyDays).error
    ensures r.Success? ==>
      r.value.recurrence ==
        BuildRecurrence(data.recurrenceEnabled, data.recurrenceFrequency, data.recurrenceWeeklyDays).value &&
      r.value.details == DetailsForStorage(data.details) &&
      r.value.task == data.task && r.value.date == data.date && r.value.time == data.time &&
      r.value.priority == Some(data.priority) && r.value.personality == Some(data.personality) &&
      r.value.location.None? && r.value.notificationMessage.None?
  {
    match BuildRecurrence(data.recurrenceEnabled, data.recurrenceFrequency, data.recurrenceWeeklyDays)
    case Failure(e) => Failure(e)
    case Success(recurrence) =>
      Success(Draft(data.task, DetailsForStorage(data.details), data.date, data.time, None,
        Some(data.priority), None, Some(data.personality), recurrence))
  }

  /** The update `onSubmit` sends for an existing reminder: every key of the draft it builds. */
  function DraftPatch(d: Draft): Patch {
    Patch(Some(d.task), Some(d.details), Some(d.date), Some(d.time), None, None, d.priority, None,
      d.personality, Some(d.recurrence))
  }

  /** `if (data.id)`: a present, non-empty id means the form edits that reminder. */
  predicate IsEdit(data: FormData) { data.id.Some? && data.id.value != "" }

  /**
   * `onSubmit`: builds the draft, then updates the edited reminder (failing when no reminder has
   * its id) or adds a new one under `newId`.
   */
  method Submit(state: RemindersState, data: FormData, newId: string, ready: bool, writeOk: bool)
    returns (res: Result<Reminder, string>)
    modifies state
    ensures state.defaultPersonality == old(state.defaultPersonality)
    ensures BuildDraft(data).Failure? ==>
      res == Failure(BuildDraft(data).error) && state.reminders == old(state.reminders)
    ensures BuildDraft(data).Success? && IsEdit(data) ==>
      var id := data.id.value;
      var last := LastWithId(old(state.reminders), id);
      state.reminders == (if ready && writeOk then UpdatedById(old(state.reminders), id, DraftPatch(BuildDraft(data).value))
                          else old(state.reminders)) &&
      (res.Success? <==> ready && writeOk && last.Some?) &&
      (res.Success? ==> res.value == Merge(last.value, Prepared(DraftPatch(BuildDraft(data).value)))) &&
      (ready && writeOk && last.None? ==> res == Failure(NotFoundError))
    ensures BuildDraft(data).Success? && !IsEdit(data) ==>
      (res.Success? <==> ready && writeOk && ParseLocal(data.date, data.time).Some?) &&
      (res.Success? ==> res.value == NewReminder(BuildDraft(data).value, newId, old(state.defaultPersonality))) &&
      state.reminders == (if ready && writeOk
                          then old(state.reminders) + [NewReminder(BuildDraft(data).value, newId, old(state.defaultPersonality))]
                          else old(state.reminders)) &&
      (ready && writeOk && ParseLocal(data.date, data.time).None? ==> res == Failure(InvalidTimeValue))
  {
    var draft := BuildDraft(data);
    if draft.Failure? {
      return Failure(draft.error);
    }
    if IsEdit(data) {
      var updated := state.UpdateReminder(data.id.value, DraftPatch(draft.value), ready, writeOk);
      if updated.Failure? {
        return Failure(updated.error);
      }
      if updated.value.None? {
        return Failure(NotFoundError);
      }
      res := Success(updated.value.value);
    } else {
      res := state.AddReminder(draft.value, newId, ready, writeOk);
    }
  }

  // ---------------------------------------------------------------------------------------
  // toggleDay
  // ---------------------------------------------------------------------------------------

  /** `toggleDay`: checking adds the day unless present, unchecking removes every copy. */
  function ToggleDay(selected: seq<int>, day: int, checked: bool): (r: seq<int>)
    ensures checked ==> Distinct(r) && forall d :: d in r <==> d in selected || d == day
    ensures !checked ==> forall d :: d in r <==> d in selected && d != day
  {
    if checked then Dedupe(selected + [day]) else RemoveAll(selected, [day])
  }

  /**
   * Unchecking keeps the remaining days in their order: it acts on each part of a split of the
   * selection separately.
   */
  lemma ToggleDayOffKeepsOrder(selected: seq<int>, day: int, k: nat)
    requires k <= |selected|
    ensures ToggleDay(selected, day, false) ==
      ToggleDay(selected[..k], day, false) + ToggleDay(selected[k..], day, false)
  {
    assert selected == selected[..k] + selected[k..];
    RemoveAllSplits(selected[..k], selected[k..], [day]);
  }

  /** A duplicate-free list is its own `Array.from(new Set(...))`. */
  lemma {:induction false} DedupeDistinct(s: seq<int>)
    requires Distinct(s)
    ensures Dedupe(s) == s
  {
    if s != [] {
      var init := s[..|s| - 1];
      assert Distinct(init) by {
        forall i, j | 0 <= i < j < |init| ensures init[i] != init[j] {
          assert init[i] == s[i] && init[j] == s[j];
        }
      }
      DedupeDistinct(init);
      assert s[|s| - 1] !in init;
      assert init + [s[|s| - 1]] == s;
    }
  }

  /** Filtering out a value the list does not hold keeps the list. */
  lemma {:induction false} RemoveAllAbsent(s: seq<int>, day: int)
    requires day !in s
    ensures RemoveAll(s, [day]) == s
  {
    if s != [] {
      RemoveAllAbsent(s[1..], day);
      assert s == [s[0]] + s[1..];
    }
  }

  /** Filtering out a value drops it from the end of a list as well. */
  lemma {:induction false} RemoveAllAppended(s: seq<int>, day: int)
    ensures RemoveAll(s + [day], [day]) == RemoveAll(s, [day])
  {
    if s == [] {
      assert [day][1..] == [];
    } else {
      RemoveAllAppended(s[1..], day);
      assert (s + [day])[0] == s[0] && (s + [day])[1..] == s[1..] + [day];
    }
  }

  /**
   * On a list without duplicates, checking a day adds it once at the end, checking it again
   * changes nothing, and unchecking it afterwards restores the list it started from.
   */
  lemma ToggleDayRoundTrip(selected: seq<int>, day: int)
    requires Distinct(selected) && day !in selected
    ensures ToggleDay(selected, day, true) == selected + [day]
    ensures ToggleDay(ToggleDay(selected, day, true), day, true) == selected + [day]
    ensures ToggleDay(ToggleDay(selected, day, true), day, false) == selected
  {
    var added := selected + [day];
    assert Distinct(added) by {
      forall i, j | 0 <= i < j < |added| ensures added[i] != added[j] {
        if j == |selected| {
          assert added[i] == selected[i];
        } else {
          assert added[i] == selected[i] && added[j] == selected[j];
        }
      }
    }
    DedupeDistinct(added);
    assert (added + [day])[..|added + [day]| - 1] == added;
    RemoveAllAppended(selected, day);
    RemoveAllAbsent(selected, day);
  }
}
