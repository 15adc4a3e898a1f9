/** The records of `src/types/reminder.ts`. */
module ReminderTypes {
  import opened Wrappers
  import opened Calendar

  /**
   * `RecurrenceFrequency`; any other string read back from storage is `Unrecognized`, which stands
   * only for names other than "daily", "weekdays" and "weekly".
   */
  datatype Frequency = Daily | Weekdays | Weekly | Unrecognized(name: string)

  /** `RecurrenceSettings`: `daysOfWeek` is optional and, in stored data, may hold any numbers. */
  datatype Rule = Rule(frequency: Frequency, daysOfWeek: Option<seq<int>>)

  datatype Priority = Low | Medium | High

  /**
   * `Reminder`. Optional fields are `Option`s (None for `null`/`undefined`); `personality` is the
   * personality key as stored, which may be a string the app does not know.
   */
  datatype Reminder = Reminder(
    id: string,
    task: string,
    details: Option<string>,
    date: DateText,
    time: TimeText,
    completed: bool,
    location: Option<string>,
    priority: Option<Priority>,
    notificationMessage: Option<string>,
    personality: Option<string>,
    recurrence: Option<Rule>)
}
