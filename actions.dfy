/**
 * The server actions of `src/app/actions.ts` around the AI calls: the result of parsing a typed
 * reminder (cleaned when the parser answers, a fallback built from the input when it fails), the
 * keyword heuristic that picks the fallback date and time, the fallback notification message, and
 * the notification action that never reports failure. The AI calls are parameters that either
 * answer or fail; the regular-expression tests on the lower-cased input are given as `Cues`.
 */
module Actions {
  import opened Wrappers
  import opened Text
  import opened Calendar
  import opened ReminderTypes
  import opened Recurrence
  import opened Personalities
  import Seqs

  // ---------------------------------------------------------------------------------------
  // buildFallbackMessage
  // ---------------------------------------------------------------------------------------

  /** The five fallback templates. */
  datatype Tone = SweetTone | FunnyTone | SarcasticTone | AngryTone | RagingTone

  /** A fallback message: the template and the text put in its slot. */
  datatype FallbackText = FallbackText(tone: Tone, subject: string)

  /** What a template says when the reminder task is empty. */
  function Placeholder(tone: Tone): string {
    match tone
    case FunnyTone => "that task"
    case SarcasticTone => "that thing"
    case _ => "your task"
  }

  /**
   * `buildFallbackMessage`: the template of the persona's key, the sweet one for any key without
   * its own, and the reminder task in its slot, or the template's placeholder when the reminder task is empty.
   */
  function BuildFallbackMessage(task: string, persona: Definition): (m: FallbackText)
    ensures m.subject != ""
    ensures task != "" ==> m.subject == task
    ensures task == "" ==> m.subject == Placeholder(m.tone)
    ensures m.tone == SweetTone <==> !(persona.key in {Funny, Sarcastic, Angry, Raging})
  {
    var tone := match persona.key
      case Funny => FunnyTone
      case Sarcastic => SarcasticTone
      case Angry => AngryTone
      case Raging => RagingTone
      case _ => SweetTone;
    FallbackText(tone, if task != "" then task else Placeholder(tone))
  }

  /**
   * The template follows the resolved personality: a core key picks its own, an unknown key the
   * sweet one, and `random` the one of the core personality drawn.
   */
  lemma FallbackToneFollowsPersonality(task: string, key: Key, choice: nat)
    requires choice < |NonRandomKeys()|
    ensures key == Sweet || key.Unknown? ==>
      BuildFallbackMessage(task, ResolvePersonalityKey(key, choice)).tone == SweetTone
    ensures key == Funny ==> BuildFallbackMessage(task, ResolvePersonalityKey(key, choice)).tone == FunnyTone
    ensures key == Sarcastic ==> BuildFallbackMessage(task, ResolvePersonalityKey(key, choice)).tone == SarcasticTone
    ensures key == Angry ==> BuildFallbackMessage(task, ResolvePersonalityKey(key, choice)).tone == AngryTone
    ensures key == Raging ==> BuildFallbackMessage(task, ResolvePersonalityKey(key, choice)).tone == RagingTone
    ensures key == RandomKey ==>
      BuildFallbackMessage(task, ResolvePersonalityKey(key, choice)) == BuildFallbackMessage(task, Core[choice])
  {
    TableContents();
    if key == RandomKey {
      ResolveRandom(choice);
    }
  }

  /** A notification text: what the AI wrote, or a fallback template. */
  datatype Notification = Generated(text: string) | Fallback(message: FallbackText)

  // ---------------------------------------------------------------------------------------
  // buildFallbackDateTime
  // ---------------------------------------------------------------------------------------

  /** `Number(s)` of one field of a clock string: an integer or NaN. */
  datatype JsNumber = Num(n: int) | NaN

  /** `s.split(':').map(Number)` of a non-empty clock string; NoClock for a missing or empty one. */
  datatype ClockText = NoClock | Clock(hours: JsNumber, minutes: Option<JsNumber>)

  datatype Meridiem = Am | Pm

  /** The captures of `at\s+(\d{1,2})(?::(\d{2}))?\s*(am|pm)?`. */
  datatype AtMatch = AtMatch(hours: nat, minutes: Option<nat>, meridiem: Option<Meridiem>)

  /**
   * The tests the heuristic runs on the lower-cased input: the words it looks for, and the
   * numbers captured by `in N day`, `in N hour`, `in N minute` and `at H[:MM] [am|pm]`.
   */
  datatype Cues = Cues(
    tomorrow: bool, today: bool,
    inDays: Option<nat>, inHours: Option<nat>, inMinutes: Option<nat>,
    at: Option<AtMatch>,
    afternoon: bool, evening: bool, morning: bool, lunch: bool, dinner: bool)

  /** The largest time value a `Date` holds: 100 000 000 days either side of the epoch. */
  const MaxTimeValue: int := 8640000000000000

  predicate InRange(t: int) { -MaxTimeValue <= t <= MaxTimeValue }

  /** `TimeClip`: a time value beyond the range makes an Invalid Date. */
  function Clip(t: int): (m: Moment)
    ensures m.At? <==> InRange(t)
    ensures m.At? ==> m.t == t
  {
    if InRange(t) then At(t) else InvalidDate
  }

  /** `addMilliseconds` (and so `addMinutes`, `addHours`); an Invalid Date stays invalid. */
  function AddMs(m: Moment, ms: int): Moment {
    match m
    case At(t) => Clip(t + ms)
    case InvalidDate => InvalidDate
  }

  /** `addDays`: the same clock time `k` days on. */
  function AddDaysTo(m: Moment, k: int): Moment { AddMs(m, k * DayMs) }

  /** `d.setHours(h, m, 0, 0)`: a NaN argument, an Invalid Date or a result out of range gives an Invalid Date. */
  function SetClock(m: Moment, h: JsNumber, mi: JsNumber): Moment {
    if m.InvalidDate? || h.NaN? || mi.NaN? then InvalidDate else Clip(SetHours(m.t, h.n, mi.n))
  }

  /** The hour an `at` match names, after the am/pm adjustment. */
  function DayHour(hours: nat, meridiem: Option<Meridiem>): int {
    if meridiem == Some(Pm) && hours < 12 then hours + 12
    else if meridiem == Some(Am) && hours == 12 then 0
    else hours
  }

  /** On a twelve-hour clock reading, am/pm gives the hour of the day it means. */
  lemma DayHourIsTwentyFourHour(hours: nat, meridiem: Meridiem)
    requires 1 <= hours <= 12
    ensures var h := DayHour(hours, Some(meridiem));
      0 <= h < 24 && (h < 12 <==> meridiem == Am) && h % 12 == hours % 12
  {
  }

  /** The date the heuristic starts from: the given date (at the given time), or now. */
  function FallbackBase(currentDate: DateText, currentTime: ClockText, now: Instant): Moment {
    if currentDate.NoDate? then At(now)
    else
      var midnight := if currentDate.Ymd? then Clip(currentDate.day * DayMs) else InvalidDate;
      if currentTime.Clock? then SetClock(midnight, currentTime.hours, currentTime.minutes.GetOr(Num(0)))
      else midnight
  }

  /** The relative-date words and offsets applied to the base. */
  function Shifted(cues: Cues, base: Moment): Moment {
    var day := if cues.tomorrow then AddDaysTo(base, 1) else base;
    var days := if cues.inDays.Some? then AddDaysTo(day, cues.inDays.value) else day;
    var hours := if cues.inHours.Some? then AddMs(days, cues.inHours.value * HourMs) else days;
    if cues.inMinutes.Some? then AddMs(hours, cues.inMinutes.value * MinuteMs) else hours
  }

  /** The hour and minute handed to `setHours`, by the precedence of the heuristic. */
  function ChosenClock(cues: Cues, defaultTime: ClockText, currentTime: ClockText): (JsNumber, JsNumber) {
    if cues.at.Some? then
      (Num(DayHour(cues.at.value.hours, cues.at.value.meridiem)), Num(cues.at.value.minutes.GetOr(0)))
    else if cues.afternoon then (Num(15), Num(0))
    else if cues.evening then (Num(19), Num(0))
    else if cues.morning then (Num(9), Num(0))
    else if cues.lunch then (Num(12), Num(30))
    else if cues.dinner then (Num(19), Num(0))
    else if defaultTime.Clock? then (defaultTime.hours, defaultTime.minutes.GetOr(Num(0)))
    else if currentTime.Clock? then (currentTime.hours, currentTime.minutes.GetOr(Num(0)))
    else (Num(9), Num(0))
  }

  /** A candidate not after now is pushed 30 minutes on, and one more hour if that is not enough. */
  function Nudge(candidate: Moment, now: Instant): Moment {
    if candidate.At? && candidate.t <= now then
      var later := AddMs(candidate, 30 * MinuteMs);
      if later.At? && later.t <= now then AddMs(later, HourMs) else later
    else candidate
  }

  /** `buildFallbackDateTime`, with `now` the clock reading of the call. */
  function FallbackDateTime(cues: Cues, defaultTime: ClockText, currentDate: DateText,
                            currentTime: ClockText, now: Instant): Moment
  {
    var clock := ChosenClock(cues, defaultTime, currentTime);
    Nudge(SetClock(Shifted(cues, FallbackBase(currentDate, currentTime, now)), clock.0, clock.1), now)
  }

  /** `buildFallbackDateTime`, step by step. */
  method BuildFallbackDateTime(cues: Cues, defaultTime: ClockText, currentDate: DateText,
                               currentTime: ClockText, now: Instant) returns (candidate: Moment)
    ensures candidate == FallbackDateTime(cues, defaultTime, currentDate, currentTime, now)
  {
    var base := StartingPoint(currentDate, currentTime, now);
    candidate := ApplyOffsets(cues, base);
    candidate := ApplyClock(cues, defaultTime, currentTime, candidate);
    if candidate.At? && candidate.t <= now {
      candidate := AddMs(candidate, 30 * MinuteMs);
      if candidate.At? && candidate.t <= now {
        candidate := AddMs(candidate, HourMs);
      }
    }
  }

  /** The first lines of `buildFallbackDateTime`: the base date. */
  method StartingPoint(currentDate: DateText, currentTime: ClockText, now: Instant) returns (base: Moment)
    ensures base == FallbackBase(currentDate, currentTime, now)
  {
    base := At(now);
    if !currentDate.NoDate? {
      base := if currentDate.Ymd? then Clip(currentDate.day * DayMs) else InvalidDate;
      if currentTime.Clock? {
        base := SetClock(base, currentTime.hours, currentTime.minutes.GetOr(Num(0)));
      }
    }
  }

  /** The relative-date steps of `buildFallbackDateTime`. */
  method ApplyOffsets(cues: Cues, base: Moment) returns (candidate: Moment)
    ensures candidate == Shifted(cues, base)
  {
    candidate := base;
    if cues.tomorrow {
      candidate := AddDaysTo(candidate, 1);
    } else if cues.today {
      candidate := base;
    }
    if cues.inDays.Some? {
      candidate := AddDaysTo(candidate, cues.inDays.value);
    }
    if cues.inHours.Some? {
      candidate := AddMs(candidate, cues.inHours.value * HourMs);
    }
    if cues.inMinutes.Some? {
      candidate := AddMs(candidate, cues.inMinutes.value * MinuteMs);
    }
  }

  /** The `setHours` chain of `buildFallbackDateTime`. */
  method ApplyClock(cues: Cues, defaultTime: ClockText, currentTime: ClockText, shifted: Moment)
    returns (candidate: Moment)
    ensures var clock := ChosenClock(cues, defaultTime, currentTime);
      candidate == SetClock(shifted, clock.0, clock.1)
  {
    if cues.at.Some? {
      var hours := DayHour(cues.at.value.hours, cues.at.value.meridiem);
      candidate := SetClock(shifted, Num(hours), Num(cues.at.value.minutes.GetOr(0)));
    } else if cues.afternoon {
      candidate := SetClock(shifted, Num(15), Num(0));
    } else if cues.evening {
      candidate := SetClock(shifted, Num(19), Num(0));
    } else if cues.morning {
      candidate := SetClock(shifted, Num(9), Num(0));
    } else if cues.lunch {
      candidate := SetClock(shifted, Num(12), Num(30));
    } else if cues.dinner {
      candidate := SetClock(shifted, Num(19), Num(0));
    } else if defaultTime.Clock? {
      candidate := SetClock(shifted, defaultTime.hours, defaultTime.minutes.GetOr(Num(0)));
    } else if currentTime.Clock? {
      candidate := SetClock(shifted, currentTime.hours, currentTime.minutes.GetOr(Num(0)));
    } else {
      candidate := SetClock(shifted, Num(9), Num(0));
    }
  }

  /** How far the relative-date words and offsets move a date, in milliseconds. */
  function OffsetMs(cues: Cues): nat {
    ((if cues.tomorrow then 1 else 0) + cues.inDays.GetOr(0)) * DayMs +
    cues.inHours.GetOr(0) * HourMs + cues.inMinutes.GetOr(0) * MinuteMs
  }

  /**
   * From a valid date, the day offsets, hour offset and minute offset add up ("tomorrow" counts
   * as one more day) when the sum stays in the `Date` range, and give an Invalid Date beyond it;
   * an Invalid Date stays invalid.
   */
  lemma OffsetsAccumulate(cues: Cues, b: Instant)
    requires InRange(b)
    ensures Shifted(cues, At(b)) == Clip(b + OffsetMs(cues))
    ensures Shifted(cues, InvalidDate) == InvalidDate
  {
    var t1 := b + (if cues.tomorrow then DayMs else 0);
    var t2 := t1 + cues.inDays.GetOr(0) * DayMs;
    var t3 := t2 + cues.inHours.GetOr(0) * HourMs;
    assert b <= t1 <= t2 <= t3 <= b + OffsetMs(cues);
  }

  /**
   * `setHours` with an in-range hour and minute on a date in the `Date` range stays in range,
   * except on the range's last day, where only midnight does.
   */
  lemma SetHoursInRange(s: Instant, h: int, m: int)
    requires InRange(s) && 0 <= h < 24 && 0 <= m < 60
    ensures InRange(SetHours(s, h, m)) <==> s < MaxTimeValue || h * 60 + m == 0
  {
    var q := s / DayMs;
    assert SetHours(s, h, m) == q * DayMs + (h * 60 + m) * MinuteMs;
    assert -100000000 <= q <= 100000000;
    if s < MaxTimeValue {
      assert q < 100000000;
    } else {
      assert q == 100000000;
    }
  }

  /** `setHours` with an in-range hour and minute keeps the day and sets the clock to h:m. */
  lemma SetHoursPlaces(t: Instant, h: int, m: int)
    requires 0 <= h < 24 && 0 <= m < 60
    ensures DayIndex(SetHours(t, h, m)) == DayIndex(t)
    ensures ClockMinute(SetHours(t, h, m)) == h * 60 + m
    ensures SetHours(t, h, m) % MinuteMs == 0
  {
    var s := SetHours(t, h, m);
    var q := t / DayMs;
    assert s == q * DayMs + (h * 60 + m) * MinuteMs;
    DivModOf(s, DayMs, q, (h * 60 + m) * MinuteMs);
    DivModOf((h * 60 + m) * MinuteMs, MinuteMs, h * 60 + m, 0);
    DivModOf(s, MinuteMs, q * 1440 + h * 60 + m, 0);
  }

  /**
   * Without an explicit time, the words decide the clock time of the candidate, on the day the
   * offsets reached: afternoon 15:00, then evening or tonight 19:00, then morning 09:00, then
   * lunch 12:30, then dinner or supper 19:00; without any of them, the default time.
   */
  lemma KeywordTimes(cues: Cues, defaultTime: ClockText, currentTime: ClockText, s: Instant)
    requires cues.at.None? && InRange(s)
    ensures var clock := ChosenClock(cues, defaultTime, currentTime);
      var c := SetClock(At(s), clock.0, clock.1);
      (cues.afternoon || cues.evening || cues.morning || cues.lunch || cues.dinner) ==>
        (c.At? <==> s < MaxTimeValue) &&
        (c.At? ==>
           DayIndex(c.t) == DayIndex(s) &&
           ClockMinute(c.t) == (if cues.afternoon then 900
                                else if cues.evening then 1140
                                else if cues.morning then 540
                                else if cues.lunch then 750
                                else 1140))
    ensures !(cues.afternoon || cues.evening || cues.morning || cues.lunch || cues.dinner) &&
            defaultTime.Clock? ==>
      ChosenClock(cues, defaultTime, currentTime) == (defaultTime.hours, defaultTime.minutes.GetOr(Num(0)))
  {
    if cues.afternoon {
      SetHoursPlaces(s, 15, 0);
      SetHoursInRange(s, 15, 0);
    } else if cues.evening {
      SetHoursPlaces(s, 19, 0);
      SetHoursInRange(s, 19, 0);
    } else if cues.morning {
      SetHoursPlaces(s, 9, 0);
      SetHoursInRange(s, 9, 0);
    } else if cues.lunch {
      SetHoursPlaces(s, 12, 30);
      SetHoursInRange(s, 12, 30);
    } else if cues.dinner {
      SetHoursPlaces(s, 19, 0);
      SetHoursInRange(s, 19, 0);
    }
  }

  /**
   * An explicit `at` time wins over every word: with a twelve-hour reading and am/pm, or an
   * hour of the day without one, the candidate is that hour and minute on the day reached.
   */
  lemma ExplicitTimeWins(cues: Cues, defaultTime: ClockText, currentTime: ClockText, s: Instant)
    requires cues.at.Some? && InRange(s)
    requires var a := cues.at.value;
      0 <= DayHour(a.hours, a.meridiem) < 24 && a.minutes.GetOr(0) < 60
    ensures var a := cues.at.value;
      var clock := ChosenClock(cues, defaultTime, currentTime);
      var c := SetClock(At(s), clock.0, clock.1);
      (c.At? <==> s < MaxTimeValue || DayHour(a.hours, a.meridiem) * 60 + a.minutes.GetOr(0) == 0) &&
      (c.At? ==> DayIndex(c.t) == DayIndex(s) &&
                 ClockMinute(c.t) == DayHour(a.hours, a.meridiem) * 60 + a.minutes.GetOr(0))
  {
    var a := cues.at.value;
    SetHoursPlaces(s, DayHour(a.hours, a.meridiem), a.minutes.GetOr(0));
    SetHoursInRange(s, DayHour(a.hours, a.meridiem), a.minutes.GetOr(0));
  }

  /**
   * The nudge moves a candidate at most 90 minutes and never backwards; a candidate after now
   * stays, one within 30 minutes before now gains 30 minutes, any earlier one 90 minutes. The
   * candidate is a `Date`, so in range, and `now` a clock reading at least an hour before the
   * range ends.
   */
  lemma NudgeSpec(c: Instant, now: Instant)
    requires InRange(c) && now + HourMs <= MaxTimeValue
    ensures Nudge(At(c), now).At?
    ensures var n := Nudge(At(c), now).t;
      c <= n <= c + 90 * MinuteMs &&
      (c > now ==> n == c) &&
      (c <= now < c + 30 * MinuteMs ==> n == c + 30 * MinuteMs) &&
      (c + 30 * MinuteMs <= now ==> n == c + 90 * MinuteMs)
    ensures c > now - 90 * MinuteMs ==> Nudge(At(c), now).t > now
    ensures Nudge(InvalidDate, now) == InvalidDate
  {
  }

  /** Nothing more is promised: a candidate two hours in the past is still in the past. */
  lemma NudgeMayStayInPast(now: Instant)
    requires InRange(now - 2 * HourMs) && now + HourMs <= MaxTimeValue
    ensures Nudge(At(now - 2 * HourMs), now).At?
    ensures Nudge(At(now - 2 * HourMs), now).t <= now
  {
  }

  /** A clock string whose fields are all numbers. */
  predicate WellFormedClock(c: ClockText) {
    c.Clock? ==> c.hours.Num? && (c.minutes.Some? ==> c.minutes.value.Num?)
  }

  /** A clock string whose numbers are at most a million in size. */
  predicate ModerateClock(c: ClockText) {
    c.Clock? ==>
      (c.hours.Num? ==> -1000000 <= c.hours.n <= 1000000) &&
      (c.minutes.Some? && c.minutes.value.Num? ==> -1000000 <= c.minutes.value.n <= 1000000)
  }

  /**
   * Inputs whose dates stay far inside the `Date` range: a clock reading and a given date within
   * about 27 000 years of 1970, clock numbers of at most a million, an `at` match of at most two
   * digits each, and at most ten million days, a hundred million hours and a billion minutes.
   */
  predicate Moderate(cues: Cues, defaultTime: ClockText, currentDate: DateText, currentTime: ClockText,
                     now: Instant)
  {
    -864000000000000 <= now <= 864000000000000 &&
    (currentDate.Ymd? ==> -10000000 <= currentDate.day <= 10000000) &&
    ModerateClock(defaultTime) && ModerateClock(currentTime) &&
    (cues.at.Some? ==> cues.at.value.hours <= 99 && cues.at.value.minutes.GetOr(0) <= 99) &&
    cues.inDays.GetOr(0) <= 10000000 && cues.inHours.GetOr(0) <= 100000000 &&
    cues.inMinutes.GetOr(0) <= 1000000000
  }

  /**
   * With a date that is missing or parses, clock strings whose fields are numbers and moderate
   * inputs, the fallback is a valid date; an unparseable date makes it an Invalid Date whatever
   * the input.
   */
  lemma FallbackValidity(cues: Cues, defaultTime: ClockText, currentDate: DateText,
                         currentTime: ClockText, now: Instant)
    ensures !currentDate.BadDate? && WellFormedClock(defaultTime) && WellFormedClock(currentTime) &&
            Moderate(cues, defaultTime, currentDate, currentTime, now) ==>
      FallbackDateTime(cues, defaultTime, currentDate, currentTime, now).At?
    ensures currentDate.BadDate? ==>
      FallbackDateTime(cues, defaultTime, currentDate, currentTime, now) == InvalidDate
  {
    if !currentDate.BadDate? && WellFormedClock(defaultTime) && WellFormedClock(currentTime) &&
       Moderate(cues, defaultTime, currentDate, currentTime, now)
    {
      var base := FallbackBase(currentDate, currentTime, now);
      if currentDate.Ymd? && currentTime.Clock? {
        ModerateSetClock(currentDate.day * DayMs, currentTime.hours, currentTime.minutes.GetOr(Num(0)));
      }
      var shifted := Shifted(cues, base);
      OffsetsAccumulate(cues, base.t);
      var clock := ChosenClock(cues, defaultTime, currentTime);
      ModerateChosenClock(cues, defaultTime, currentTime);
      ModerateSetClock(shifted.t, clock.0, clock.1);
      var placed := SetClock(shifted, clock.0, clock.1);
      NudgeSpec(placed.t, now);
    }
  }

  /** Under moderate inputs the chosen hour and minute are numbers of at most a million. */
  lemma ModerateChosenClock(cues: Cues, defaultTime: ClockText, currentTime: ClockText)
    requires WellFormedClock(defaultTime) && WellFormedClock(currentTime)
    requires ModerateClock(defaultTime) && ModerateClock(currentTime)
    requires cues.at.Some? ==> cues.at.value.hours <= 99 && cues.at.value.minutes.GetOr(0) <= 99
    ensures var clock := ChosenClock(cues, defaultTime, currentTime);
      clock.0.Num? && clock.1.Num? && -1000000 <= clock.0.n <= 1000000 && -1000000 <= clock.1.n <= 1000000
  {
  }

  /** `setHours` with numbers of at most a million moves a date less than 44 days. */
  lemma ModerateSetClock(t: Instant, h: JsNumber, m: JsNumber)
    requires -2200000000000000 <= t <= 2200000000000000
    requires h.Num? && m.Num? && -1000000 <= h.n <= 1000000 && -1000000 <= m.n <= 1000000
    ensures SetClock(At(t), h, m).At?
    ensures t - 3800000000000 <= SetClock(At(t), h, m).t <= t + 3800000000000
  {
    assert t - DayMs < StartOfDay(t) <= t;
  }

  /**
   * Offsets past the `Date` range give an Invalid Date: "in 100000000 days" from any instant after
   * 1970 lands beyond the last valid day.
   */
  lemma HugeOffsetInvalid(cues: Cues, defaultTime: ClockText, currentTime: ClockText, now: Instant)
    requires cues.inDays == Some(100000000) && 0 < now <= MaxTimeValue
    ensures FallbackDateTime(cues, defaultTime, NoDate, currentTime, now) == InvalidDate
  {
    OffsetsAccumulate(cues, now);
  }

  // ---------------------------------------------------------------------------------------
  // parseSmartInputAction
  // ---------------------------------------------------------------------------------------

  /** The parser's output (`SmartInputParsingOutput`). */
  datatype Parsed = Parsed(
    task: string,
    date: DateText,
    time: TimeText,
    location: Option<string>,
    notes: Option<seq<string>>,
    amberInsight: Option<string>,
    priority: Option<Priority>,
    notificationMessage: Option<string>,
    personality: Option<string>)

  /** The `data` of the action's result. */
  datatype SmartInput = SmartInput(
    task: string,
    date: DateText,
    time: TimeText,
    location: Option<string>,
    notes: Option<seq<string>>,
    amberInsight: Option<string>,
    priority: Priority,
    notificationMessage: Notification,
    personality: string)

  /** `SmartInputActionResult`. */
  datatype SmartInputResult = SmartInputResult(success: bool, data: SmartInput, fallback: bool, warning: Option<string>)

  const FallbackWarning: string :=
    "Amber couldn't parse everything perfectly, so she used your defaults. Double-check the details before saving!"

  /**
   * The characters the note regex strips: '-', white space, and the three characters that the
   * mis-encoded bullet in its character class stands for ('‚' U+201A, 'Ä' U+00C4, '¢' U+00A2).
   */
  predicate IsLead(c: char) { c == '-' || c == '\U{201A}' || c == '\U{00C4}' || c == '\U{00A2}' || IsSpace(c) }

  /** Drops the leading dashes and white space of a note. */
  function StripLead(s: string): (r: string)
    ensures |r| <= |s| && r == s[|s| - |r|..]
    ensures r != [] ==> !IsLead(r[0])
    ensures forall i :: 0 <= i < |s| - |r| ==> IsLead(s[i])
  {
    if s != [] && IsLead(s[0]) then StripLead(s[1..]) else s
  }

  /** A leading 'Ä' is stripped like a dash, as the mis-encoded class does. */
  lemma MisEncodedBulletStripped()
    ensures StripLead("\U{00C4}p") == "p"
  {
    var s := "\U{00C4}p";
    assert IsLead(s[0]) && s[1..] == "p";
    assert !IsLead('p');
  }

  /** One note trimmed and stripped of its bullet. */
  function CleanNote(note: string): string { StripLead(Trim(note)) }

  /** A note with content that starts with neither a dash nor a space and ends without a space. */
  predicate IsCleanNote(n: string) { n != "" && !IsLead(n[0]) && !IsSpace(n[|n| - 1]) }

  /** The cleaned notes that are not empty, in order. */
  function NonEmptyCleaned(notes: seq<string>): (r: seq<string>)
    ensures forall i :: 0 <= i < |r| ==> r[i] != ""
    ensures |r| <= |notes|
  {
    if notes == [] then []
    else
      var n := CleanNote(notes[0]);
      (if n != "" then [n] else []) + NonEmptyCleaned(notes[1..])
  }

  /** Every note cleaned. */
  function Cleaned(notes: seq<string>): seq<string> {
    seq(|notes|, i requires 0 <= i < |notes| => CleanNote(notes[i]))
  }

  /** Which notes keep some text once cleaned. */
  function Keeps(notes: seq<string>): seq<bool> {
    seq(|notes|, i requires 0 <= i < |notes| => CleanNote(notes[i]) != "")
  }

  /** The positions of the notes whose cleaned text is not empty, in ascending order. */
  function KeptIndices(notes: seq<string>): seq<int> { Seqs.Positions(Keeps(notes)) }

  /**
   * The kept positions are exactly the notes whose cleaned text is not empty, each once, in
   * ascending order.
   */
  lemma KeptIndicesSpec(notes: seq<string>)
    ensures forall j :: 0 <= j < |KeptIndices(notes)| ==>
      0 <= KeptIndices(notes)[j] < |notes| && CleanNote(notes[KeptIndices(notes)[j]]) != ""
    ensures forall j, k :: 0 <= j < k < |KeptIndices(notes)| ==> KeptIndices(notes)[j] < KeptIndices(notes)[k]
    ensures forall i :: 0 <= i < |notes| && CleanNote(notes[i]) != "" ==> i in KeptIndices(notes)
  {
    Seqs.PositionsSpec(Keeps(notes));
  }

  /** The kept notes are the cleaned notes at the kept positions, in order. */
  lemma NonEmptyCleanedSpec(notes: seq<string>)
    ensures |NonEmptyCleaned(notes)| == |KeptIndices(notes)|
    ensures forall j :: 0 <= j < |KeptIndices(notes)| ==>
      0 <= KeptIndices(notes)[j] < |notes| &&
      NonEmptyCleaned(notes)[j] == CleanNote(notes[KeptIndices(notes)[j]])
  {
    NonEmptyCleanedFrom(notes, 0);
    Seqs.FilterFromSpec(Cleaned(notes), Keeps(notes), 0);
    assert notes[0..] == notes;
  }

  /** The kept notes from position `from` on are the cleaned notes there that keep some text. */
  lemma {:induction false} NonEmptyCleanedFrom(notes: seq<string>, from: nat)
    requires from <= |notes|
    decreases |notes| - from
    ensures NonEmptyCleaned(notes[from..]) == Seqs.FilterFrom(Cleaned(notes), Keeps(notes), from)
  {
    if from < |notes| {
      NonEmptyCleanedFrom(notes, from + 1);
      assert notes[from..][1..] == notes[from + 1..];
    }
  }

  /** `notes.map(clean).filter(Boolean).slice(0, 3)` */
  function CleanNotes(notes: seq<string>): (r: seq<string>)
    ensures |r| <= 3
    ensures forall i :: 0 <= i < |r| ==> IsCleanNote(r[i])
  {
    var kept := NonEmptyCleaned(notes);
    CleanedShape(notes);
    if |kept| <= 3 then kept
    else
      assert forall i :: 0 <= i < 3 ==> kept[..3][i] == kept[i];
      kept[..3]
  }

  /**
   * The cleaned notes are the first three notes whose cleaned text is not empty, cleaned and in
   * their original order.
   */
  lemma CleanNotesSpec(notes: seq<string>)
    ensures |CleanNotes(notes)| == if |KeptIndices(notes)| < 3 then |KeptIndices(notes)| else 3
    ensures forall j :: 0 <= j < |CleanNotes(notes)| ==>
      0 <= KeptIndices(notes)[j] < |notes| &&
      CleanNotes(notes)[j] == CleanNote(notes[KeptIndices(notes)[j]])
  {
    NonEmptyCleanedSpec(notes);
  }

  /** Every kept note is already clean: it starts with neither a dash nor a space and ends without a space. */
  lemma {:induction false} CleanedShape(notes: seq<string>)
    ensures forall i :: 0 <= i < |NonEmptyCleaned(notes)| ==> IsCleanNote(NonEmptyCleaned(notes)[i])
  {
    if notes != [] {
      CleanedShape(notes[1..]);
      var n := CleanNote(notes[0]);
      CleanNoteShape(notes[0]);
      KeptStaysClean(n, NonEmptyCleaned(notes[1..]), NonEmptyCleaned(notes));
    }
  }

  /** Putting a clean note (or nothing) in front of clean notes keeps them all clean. */
  lemma KeptStaysClean(n: string, rest: seq<string>, r: seq<string>)
    requires n != "" ==> IsCleanNote(n)
    requires forall i :: 0 <= i < |rest| ==> IsCleanNote(rest[i])
    requires r == (if n != "" then [n] else []) + rest
    ensures forall i :: 0 <= i < |r| ==> IsCleanNote(r[i])
  {
  }

  /** A non-empty cleaned note starts with neither a dash nor a space and ends without a space. */
  lemma CleanNoteShape(note: string)
    ensures CleanNote(note) != "" ==> IsCleanNote(CleanNote(note))
  {
    StrippedShape(Trim(note));
  }

  /** Stripping the bullet of a trimmed note keeps its last character. */
  lemma StrippedShape(t: string)
    requires t != [] ==> !IsSpace(t[|t| - 1])
    ensures StripLead(t) != "" ==> IsCleanNote(StripLead(t))
  {
    var n := StripLead(t);
    if n != "" {
      assert n[|n| - 1] == t[|t| - 1];
    }
  }

  /** Cleaning a clean note changes nothing. */
  lemma CleanNoteOfClean(n: string)
    requires IsCleanNote(n)
    ensures CleanNote(n) == n
  {
    assert TrimStart(n) == n;
    assert TrimEnd(n) == n;
  }

  /** Cleaning the notes of a clean list changes nothing: the cleaning is idempotent. */
  lemma {:induction false} CleanNotesIdempotent(notes: seq<string>)
    ensures CleanNotes(CleanNotes(notes)) == CleanNotes(notes)
  {
    var r := CleanNotes(notes);
    CleanedAlreadyClean(r);
  }

  /** Clean notes, at most three of them, come out of the cleaning unchanged. */
  lemma CleanedAlreadyClean(r: seq<string>)
    requires |r| <= 3
    requires forall i :: 0 <= i < |r| ==> IsCleanNote(r[i])
    ensures CleanNotes(r) == r
  {
    KeptAlreadyClean(r);
  }

  /** Clean notes are all kept, unchanged and in order. */
  lemma {:induction false} KeptAlreadyClean(r: seq<string>)
    requires forall i :: 0 <= i < |r| ==> IsCleanNote(r[i])
    ensures NonEmptyCleaned(r) == r
  {
    if r != [] {
      assert forall i :: 0 <= i < |r[1..]| ==> r[1..][i] == r[i + 1];
      KeptAlreadyClean(r[1..]);
      CleanNoteOfClean(r[0]);
      Seqs.HeadTail(r);
    }
  }

  /** `s?.trim() || undefined` */
  function TrimmedOrNone(s: Option<string>): (r: Option<string>)
    ensures r.Some? ==> r.value != "" && s.Some? && r.value == Trim(s.value)
    ensures s.Some? && !AllSpace(s.value) ==> r.Some?
  {
    if s.None? then None
    else
      TrimEmptyIffBlank(s.value);
      if Trim(s.value) != "" then Some(Trim(s.value)) else None
  }

  /** The normalised data of a successful parse. */
  function Normalized(parsed: Parsed, persona: Definition): (d: SmartInput)
    ensures d.task == Trim(parsed.task)
    ensures d.priority == parsed.priority.GetOr(Medium)
    ensures d.notes.Some? ==> |d.notes.value| <= 3
    ensures d.notificationMessage.Fallback? <==>
      parsed.notificationMessage.None? || AllSpace(parsed.notificationMessage.value)
    ensures d.notificationMessage.Generated? ==>
      d.notificationMessage.text != "" && d.notificationMessage.text == Trim(parsed.notificationMessage.value)
    ensures !persona.key.Unknown? ==> d.personality != ""
    ensures d.date == parsed.date && d.time == parsed.time
    ensures d.location == TrimmedOrNone(parsed.location) && d.amberInsight == TrimmedOrNone(parsed.amberInsight)
    ensures d.notes == if parsed.notes.Some? then Some(CleanNotes(parsed.notes.value)) else None
    ensures d.notificationMessage.Fallback? ==>
      d.notificationMessage.message == BuildFallbackMessage(parsed.task, persona)
    ensures d.personality ==
      if parsed.personality.Some? && parsed.personality.value != "" then parsed.personality.value
      else KeyName(persona.key)
  {
    var message := TrimmedOrNone(parsed.notificationMessage);
    var personality := if parsed.personality.Some? && parsed.personality.value != "" then parsed.personality.value
                       else KeyName(persona.key);
    KeyNameNonEmpty(persona);
    SmartInput(Trim(parsed.task), parsed.date, parsed.time, TrimmedOrNone(parsed.location),
      if parsed.notes.Some? then Some(CleanNotes(parsed.notes.value)) else None,
      TrimmedOrNone(parsed.amberInsight), parsed.priority.GetOr(Medium),
      if message.Some? then Generated(message.value) else Fallback(BuildFallbackMessage(parsed.task, persona)),
      personality)
  }

  /** A core definition's key has a non-empty name. */
  lemma KeyNameNonEmpty(persona: Definition)
    ensures !persona.key.Unknown? ==> KeyName(persona.key) != ""
  {
  }

  /**
   * The fallback data built from the input alone, or the error `format` throws when the fallback
   * date is invalid.
   */
  function FallbackData(trimmed: string, persona: Definition, when: Moment): (r: Result<SmartInput, string>)
    ensures r.Failure? <==> when.InvalidDate?
    ensures r.Success? ==>
      r.value.task == (if trimmed != "" then trimmed else "Reminder") &&
      (r.value.date, r.value.time) == FormatLocal(when.t) &&
      r.value.notes == (if trimmed != "" then Some([trimmed]) else None) &&
      r.value.priority == Medium && r.value.location.None? &&
      r.value.notificationMessage == Fallback(BuildFallbackMessage(if trimmed != "" then trimmed else "your task", persona)) &&
      r.value.personality == KeyName(persona.key) && r.value.amberInsight.None?
  {
    if when.InvalidDate? then Failure(InvalidTimeValue)
    else
      var (date, time) := FormatLocal(when.t);
      Success(SmartInput(if trimmed != "" then trimmed else "Reminder", date, time, None,
        if trimmed != "" then Some([trimmed]) else None, None, Medium,
        Fallback(BuildFallbackMessage(if trimmed != "" then trimmed else "your task", persona)),
        KeyName(persona.key)))
  }

  /**
   * `parseSmartInputAction`. `parsed` is the parser's answer or failure, `choice` the random draw
   * for the `random` personality, `cues` the tests on the lower-cased trimmed input, `now` the
   * clock. A failure of the result is the promise rejecting.
   */
  function ParseSmartInputAction(input: string, defaultTime: ClockText, currentDate: DateText,
                                 currentTime: ClockText, personality: Option<Key>, choice: nat,
                                 parsed: Result<Parsed, string>, cues: Cues, now: Instant)
    : (r: Result<SmartInputResult, string>)
    requires choice < |NonRandomKeys()|
    ensures r.Success? ==> r.value.success
    ensures parsed.Success? ==> r.Success? && !r.value.fallback && r.value.warning.None?
    ensures parsed.Failure? ==> (r.Success? <==>
      FallbackDateTime(cues, defaultTime, currentDate, currentTime, now).At?)
    ensures parsed.Failure? && r.Success? ==> r.value.fallback && r.value.warning == Some(FallbackWarning)
    ensures parsed.Success? ==>
      r.value.data == Normalized(parsed.value, ResolvePersonalityKey(personality.GetOr(DefaultKey), choice))
    ensures parsed.Failure? && r.Success? ==>
      r.value.data == FallbackData(Trim(input), ResolvePersonalityKey(personality.GetOr(DefaultKey), choice),
                                   FallbackDateTime(cues, defaultTime, currentDate, currentTime, now)).value
  {
    var persona := ResolvePersonalityKey(personality.GetOr(DefaultKey), choice);
    match parsed
    case Success(p) => Success(SmartInputResult(true, Normalized(p, persona), false, None))
    case Failure(_) =>
      var trimmed := Trim(input);
      var when := FallbackDateTime(cues, defaultTime, currentDate, currentTime, now);
      match FallbackData(trimmed, persona, when)
      case Failure(e) => Failure(e)
      case Success(data) => Success(SmartInputResult(true, data, true, Some(FallbackWarning)))
  }

  /**
   * The action succeeds whenever the parser answers, and on a parser failure whenever the date
   * is missing or parses, the clock strings hold numbers and the inputs are moderate; with an
   * unparseable date, or offsets past the `Date` range, the fallback's `format` throws and the
   * promise rejects.
   */
  lemma SmartInputSucceeds(input: string, defaultTime: ClockText, currentDate: DateText,
                           currentTime: ClockText, personality: Option<Key>, choice: nat,
                           parsed: Result<Parsed, string>, cues: Cues, now: Instant)
    requires choice < |NonRandomKeys()|
    ensures parsed.Success? ==>
      ParseSmartInputAction(input, defaultTime, currentDate, currentTime, personality, choice, parsed, cues, now).Success?
    ensures !currentDate.BadDate? && WellFormedClock(defaultTime) && WellFormedClock(currentTime) &&
            Moderate(cues, defaultTime, currentDate, currentTime, now) ==>
      ParseSmartInputAction(input, defaultTime, currentDate, currentTime, personality, choice, parsed, cues, now).Success?
    ensures parsed.Failure? && currentDate.BadDate? ==>
      ParseSmartInputAction(input, defaultTime, currentDate, currentTime, personality, choice, parsed, cues, now)
        == Failure(InvalidTimeValue)
    ensures parsed.Failure? && cues.inDays == Some(100000000) && currentDate.NoDate? && 0 < now <= MaxTimeValue ==>
      ParseSmartInputAction(input, defaultTime, currentDate, currentTime, personality, choice, parsed, cues, now)
        == Failure(InvalidTimeValue)
  {
    FallbackValidity(cues, defaultTime, currentDate, currentTime, now);
    if cues.inDays == Some(100000000) && currentDate.NoDate? && 0 < now <= MaxTimeValue {
      HugeOffsetInvalid(cues, defaultTime, currentTime, now);
    }
  }

  // ---------------------------------------------------------------------------------------
  // generatePlayfulNotificationAction
  // ---------------------------------------------------------------------------------------

  datatype PlayfulResult = PlayfulResult(success: bool, message: Notification)

  /**
   * `generatePlayfulNotificationAction`: the generated message, or on failure the fallback
   * template of the resolved personality with the reminder task (or "your task"); it always succeeds.
   */
  function GeneratePlayfulNotificationAction(task: string, personality: Option<Key>, choice: nat,
                                             generated: Result<string, string>): (r: PlayfulResult)
    requires choice < |NonRandomKeys()|
    ensures r.success
    ensures generated.Success? ==> r.message == Generated(generated.value)
    ensures generated.Failure? ==>
      r.message == Fallback(BuildFallbackMessage(if task != "" then task else "your task",
                                                 ResolvePersonalityKey(personality.GetOr(DefaultKey), choice)))
  {
    var persona := ResolvePersonalityKey(personality.GetOr(DefaultKey), choice);
    match generated
    case Success(m) => PlayfulResult(true, Generated(m))
    case Failure(_) => PlayfulResult(true, Fallback(BuildFallbackMessage(if task != "" then task else "your task", persona)))
  }
}
