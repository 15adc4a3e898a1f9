/**
 * The client recurrence engine of `src/lib/recurrence.ts`: the canonical form of a rule, the
 * next occurrence of a reminder under a rule, and the bounded list of upcoming occurrences.
 */
module Recurrence {
  import opened Wrappers
  import opened Seqs
  import opened Calendar
  import opened ReminderTypes

  // ---------------------------------------------------------------------------------------
  // JavaScript dates
  // ---------------------------------------------------------------------------------------

  /** A JavaScript `Date`: a valid instant, or an Invalid Date whose time value is NaN. */
  datatype Moment = At(t: Instant) | InvalidDate

  /** `d.setDate(d.getDate() + k)`; an Invalid Date stays invalid. */
  function Shift(m: Moment, k: int): Moment {
    match m
    case At(t) => At(AddDays(t, k))
    case InvalidDate => InvalidDate
  }

  /** `d.setSeconds(0, 0)` */
  function Truncate(m: Moment): Moment {
    match m
    case At(t) => At(TruncateToMinute(t))
    case InvalidDate => InvalidDate
  }

  /** `d.getDay()`; None is the NaN an Invalid Date answers. */
  function WeekdayOf(m: Moment): Option<int> {
    match m
    case At(t) => Some(Weekday(t))
    case InvalidDate => None
  }

  /** `a.getTime() > b.getTime()`: every comparison with NaN is false. */
  predicate Later(a: Moment, b: Moment) {
    a.At? && b.At? && a.t > b.t
  }

  predicate IsWeekend(d: int) { d == 0 || d == 6 }

  /** The weekday `k` days after weekday `w`. */
  function DayAfter(w: int, k: int): int { (w + k) % 7 }

  /** The weekday `k` days after `t` is `k` days after the weekday of `t`. */
  lemma WeekdayAfter(t: Instant, k: nat)
    ensures Weekday(AddDays(t, k)) == DayAfter(Weekday(t), k)
  {
    AddDaysWeekday(t, k);
  }

  // ---------------------------------------------------------------------------------------
  // Canonical rules
  // ---------------------------------------------------------------------------------------

  /** `recurrence.daysOfWeek || []` */
  function DaysOrEmpty(rule: Rule): seq<int> { rule.daysOfWeek.GetOr([]) }

  /** `days.filter(day => day >= 0 && day <= 6)` */
  function InWeek(xs: seq<int>): (r: seq<int>)
    ensures forall x :: x in r <==> x in xs && 0 <= x <= 6
    ensures |r| <= |xs|
    ensures Distinct(xs) ==> Distinct(r)
  {
    if xs == [] then []
    else
      var rest := InWeek(xs[1..]);
      assert forall x :: x in xs <==> x == xs[0] || x in xs[1..];
      assert Distinct(xs) ==> Distinct(xs[1..]) && xs[0] !in xs[1..] by {
        if Distinct(xs) {
          forall i, j | 0 <= i < j < |xs| - 1 ensures xs[1..][i] != xs[1..][j] {
            assert xs[1..][i] == xs[i + 1] && xs[1..][j] == xs[j + 1];
          }
        }
      }
      if 0 <= xs[0] <= 6 then [xs[0]] + rest else rest
  }

  /** The day list of a weekly rule: in range, duplicate-free, ascending. */
  function NormalizedDays(xs: seq<int>): seq<int> {
    SortAscending(Dedupe(InWeek(xs)))
  }

  /** The normalised day list lists exactly the distinct in-range input days, ascending. */
  lemma NormalizedDaysCanonical(xs: seq<int>)
    ensures StrictlyIncreasing(NormalizedDays(xs))
    ensures forall x :: x in NormalizedDays(xs) <==> x in xs && 0 <= x <= 6
  {
    SortDedupedIsStrict(Dedupe(InWeek(xs)));
  }

  /** A rule in the form `normalizeRecurrence` produces. */
  predicate IsCanonical(rule: Rule) {
    match rule.frequency
    case Daily => rule.daysOfWeek.None?
    case Weekdays => rule.daysOfWeek.None?
    case Weekly =>
      rule.daysOfWeek.Some? && rule.daysOfWeek.value != [] &&
      StrictlyIncreasing(rule.daysOfWeek.value) &&
      forall d :: d in rule.daysOfWeek.value ==> 0 <= d <= 6
    case Unrecognized(_) => false
  }

  /** `normalizeRecurrence`: None stands for `null`. */
  function Normalize(settings: Option<Rule>): (r: Option<Rule>)
    ensures r.Some? ==> IsCanonical(r.value)
  {
    if settings.None? then None
    else if settings.value.frequency.Weekly? then
      var deduped := NormalizedDays(DaysOrEmpty(settings.value));
      NormalizedDaysCanonical(DaysOrEmpty(settings.value));
      if |deduped| == 0 then None else Some(Rule(Weekly, Some(deduped)))
    else if settings.value.frequency.Weekdays? then Some(Rule(Weekdays, None))
    else if settings.value.frequency.Daily? then Some(Rule(Daily, None))
    else None
  }

  /**
   * `normalizeRecurrence` gives None exactly for a missing rule, an unrecognised frequency and a
   * weekly rule without an in-range day; otherwise it keeps the frequency.
   */
  lemma NormalizeNone(settings: Option<Rule>)
    ensures Normalize(settings).None? <==>
      settings.None? || settings.value.frequency.Unrecognized? ||
      (settings.value.frequency.Weekly? &&
       forall d :: d in DaysOrEmpty(settings.value) ==> !(0 <= d <= 6))
    ensures Normalize(settings).Some? ==>
      Normalize(settings).value.frequency == settings.value.frequency
  {
    if settings.Some? && settings.value.frequency.Weekly? {
      var xs := DaysOrEmpty(settings.value);
      var r := NormalizedDays(xs);
      NormalizedDaysCanonical(xs);
      assert Normalize(settings).None? <==> r == [];
      if r == [] {
        forall d | d in xs ensures !(0 <= d <= 6) {
          assert d !in r;
        }
      } else {
        assert r[0] in r;
      }
    }
  }

  /**
   * A weekly rule keeps exactly its distinct in-range days, ascending; a daily or weekdays rule
   * carries no day list.
   */
  lemma NormalizeDays(settings: Option<Rule>)
    requires settings.Some? && Normalize(settings).Some?
    ensures settings.value.frequency.Weekly? ==>
      Normalize(settings).value.daysOfWeek.Some? &&
      StrictlyIncreasing(Normalize(settings).value.daysOfWeek.value) &&
      forall d :: d in Normalize(settings).value.daysOfWeek.value <==>
        d in DaysOrEmpty(settings.value) && 0 <= d <= 6
    ensures !settings.value.frequency.Weekly? ==> Normalize(settings).value.daysOfWeek.None?
  {
    if settings.value.frequency.Weekly? {
      NormalizedDaysCanonical(DaysOrEmpty(settings.value));
    }
  }

  /** A canonical rule is its own normal form. */
  lemma NormalizeCanonical(rule: Rule)
    requires IsCanonical(rule)
    ensures Normalize(Some(rule)) == Some(rule)
  {
    if rule.frequency.Weekly? {
      var xs := rule.daysOfWeek.value;
      NormalizedDaysCanonical(xs);
      StrictlyIncreasingUnique(NormalizedDays(xs), xs);
    }
  }

  /** `normalizeRecurrence` is idempotent. */
  lemma NormalizeIdempotent(settings: Option<Rule>)
    ensures Normalize(Normalize(settings)) == Normalize(settings)
  {
    if Normalize(settings).Some? {
      NormalizeCanonical(Normalize(settings).value);
    }
  }

  // ---------------------------------------------------------------------------------------
  // The next occurrence, stated without loops
  // ---------------------------------------------------------------------------------------

  /** Days from weekday `w` to the next Monday-to-Friday day. */
  function WeekdaysGap(w: int): int {
    if w == 5 then 3 else if w == 6 then 2 else 1
  }

  /** The gap lands on a working day and skips only weekend days. */
  lemma WeekdaysGapFirst(w: int)
    requires 0 <= w < 7
    ensures 1 <= WeekdaysGap(w) <= 3
    ensures !IsWeekend(DayAfter(w, WeekdaysGap(w)))
    ensures forall k :: 1 <= k < WeekdaysGap(w) ==> IsWeekend(DayAfter(w, k))
  {
    if w == 5 {
      assert DayAfter(w, 1) == 6;
    }
  }

  /** Days from weekday `w` to the next day (at least one ahead) whose weekday is `d`. */
  function DayGap(w: int, d: int): int {
    (d - w + 6) % 7 + 1
  }

  lemma DayGapSpec(w: int, d: int)
    requires 0 <= w < 7 && 0 <= d < 7
    ensures 1 <= DayGap(w, d) <= 7
    ensures DayAfter(w, DayGap(w, d)) == d
    ensures forall k :: 1 <= k <= 7 && DayAfter(w, k) == d ==> k == DayGap(w, d)
  {
  }

  /** The smallest `DayGap` over the chosen days. */
  function WeeklyGap(w: int, days: seq<int>): (g: int)
    requires days != []
    ensures forall d :: d in days ==> g <= DayGap(w, d)
    ensures exists i :: 0 <= i < |days| && g == DayGap(w, days[i])
  {
    if |days| == 1 then DayGap(w, days[0])
    else
      var rest := WeeklyGap(w, days[1..]);
      assert forall d :: d in days <==> d == days[0] || d in days[1..];
      if DayGap(w, days[0]) <= rest then DayGap(w, days[0])
      else
        var i :| 0 <= i < |days[1..]| && rest == DayGap(w, days[1..][i]);
        assert rest == DayGap(w, days[i + 1]);
        rest
  }

  /** `WeeklyGap` is the least offset in 1..7 whose weekday is one of the chosen days. */
  lemma WeeklyGapLeast(w: int, days: seq<int>)
    requires 0 <= w < 7 && days != []
    requires forall d :: d in days ==> 0 <= d <= 6
    ensures 1 <= WeeklyGap(w, days) <= 7
    ensures DayAfter(w, WeeklyGap(w, days)) in days
    ensures forall k :: 1 <= k < WeeklyGap(w, days) ==> DayAfter(w, k) !in days
  {
    var g := WeeklyGap(w, days);
    var i :| 0 <= i < |days| && g == DayGap(w, days[i]);
    assert days[i] in days;
    DayGapSpec(w, days[i]);
    forall k | 1 <= k < g ensures DayAfter(w, k) !in days {
      if DayAfter(w, k) in days {
        DayGapSpec(w, DayAfter(w, k));
      }
    }
  }

  /** Whether a rule ever yields a next occurrence. */
  predicate Advances(rule: Rule) {
    rule.frequency.Daily? || rule.frequency.Weekdays? ||
    (rule.frequency.Weekly? && InWeek(DaysOrEmpty(rule)) != [])
  }

  /** The next occurrence after the valid instant `t`. */
  function NextInstant(t: Instant, rule: Rule): Option<Instant> {
    var base := TruncateToMinute(t);
    match rule.frequency
    case Daily => Some(AddDays(base, 1))
    case Weekdays => Some(AddDays(base, WeekdaysGap(Weekday(base))))
    case Weekly =>
      var days := InWeek(DaysOrEmpty(rule));
      if days == [] then None else Some(AddDays(base, WeeklyGap(Weekday(base), days)))
    case Unrecognized(_) => None
  }

  /** `computeNextOccurrence` on any `Date`, valid or not. */
  function NextOccurrence(current: Moment, rule: Option<Rule>): Option<Moment> {
    if rule.None? then None
    else
      match current
      case At(t) => (match NextInstant(t, rule.value) case None => None case Some(n) => Some(At(n)))
      case InvalidDate => if Advances(rule.value) then Some(InvalidDate) else None
  }

  /**
   * There is a next occurrence exactly when the rule advances; it lies strictly after `t`, within
   * seven days of it, on a whole minute and at the same hour and minute as `t`.
   */
  lemma NextKeepsClockTime(t: Instant, rule: Rule)
    ensures NextInstant(t, rule).Some? <==> Advances(rule)
    ensures NextInstant(t, rule).Some? ==>
      var n := NextInstant(t, rule).value;
      t < n <= t + 7 * DayMs && n % MinuteMs == 0 && ClockMinute(n) == ClockMinute(t)
  {
    var base := TruncateToMinute(t);
    TruncateKeepsClock(t);
    if NextInstant(t, rule).Some? {
      var k: nat;
      if rule.frequency.Daily? {
        k := 1;
      } else if rule.frequency.Weekdays? {
        k := WeekdaysGap(Weekday(base));
      } else {
        var days := InWeek(DaysOrEmpty(rule));
        WeeklyGapLeast(Weekday(base), days);
        k := WeeklyGap(Weekday(base), days);
      }
      assert 1 <= k <= 7;
      AddDaysWeekday(base, k);
      assert NextInstant(t, rule).value == AddDays(base, k);
    }
  }

  /**
   * A weekdays rule moves to the first day after `t` that is neither a Sunday nor a Saturday,
   * one to three days ahead; every day it skips is a weekend day.
   */
  lemma WeekdaysNextIsFirstWorkingDay(t: Instant, rule: Rule)
    requires rule.frequency.Weekdays?
    ensures var base := TruncateToMinute(t);
      exists k :: 1 <= k <= 3 && NextInstant(t, rule) == Some(AddDays(base, k)) &&
        !IsWeekend(Weekday(AddDays(base, k))) &&
        forall j :: 1 <= j < k ==> IsWeekend(Weekday(AddDays(base, j)))
  {
    var base := TruncateToMinute(t);
    var w := Weekday(base);
    var k := WeekdaysGap(w);
    WeekdaysGapFirst(w);
    AddDaysWeekday(base, k);
    forall j | 1 <= j < k ensures IsWeekend(Weekday(AddDays(base, j))) {
      AddDaysWeekday(base, j);
    }
  }

  /**
   * A weekly rule with an in-range day moves to the smallest offset of 1..7 days whose weekday
   * is one of the rule's days.
   */
  lemma WeeklyNextIsFirstMatch(t: Instant, rule: Rule)
    requires rule.frequency.Weekly? && exists d :: d in DaysOrEmpty(rule) && 0 <= d <= 6
    ensures var base := TruncateToMinute(t);
      exists k :: 1 <= k <= 7 && NextInstant(t, rule) == Some(AddDays(base, k)) &&
        Weekday(AddDays(base, k)) in DaysOrEmpty(rule) &&
        forall j :: 1 <= j < k ==> Weekday(AddDays(base, j)) !in DaysOrEmpty(rule)
  {
    var base := TruncateToMinute(t);
    var w := Weekday(base);
    var days := InWeek(DaysOrEmpty(rule));
    var d :| d in DaysOrEmpty(rule) && 0 <= d <= 6;
    assert d in days;
    WeeklyGapLeast(w, days);
    var k := WeeklyGap(w, days);
    WeekdayAfter(base, k);
    forall j | 1 <= j < k ensures Weekday(AddDays(base, j)) !in DaysOrEmpty(rule) {
      WeekdayAfter(base, j);
      assert DayAfter(w, j) !in days;
    }
    assert NextInstant(t, rule) == Some(AddDays(base, k));
  }

  /** The loop-free weekly gap is what the day-by-day search finds: the fallback is never used. */
  lemma SomeDayMatches(w: int, days: seq<int>)
    ensures (0 <= w < 7 && days != [] && forall d :: d in days ==> 0 <= d <= 6) ==>
      exists k :: 1 <= k <= 7 && DayAfter(w, k) in days
  {
    if 0 <= w < 7 && days != [] && forall d :: d in days ==> 0 <= d <= 6 {
      WeeklyGapLeast(w, days);
    }
  }

  // ---------------------------------------------------------------------------------------
  // The loops of the source
  // ---------------------------------------------------------------------------------------

  /** The `weekdays` case of `computeNextOccurrence`: the do-while loop over `next`. */
  method NextWeekday(base: Moment) returns (next: Moment)
    requires base.At? ==> base.t % MinuteMs == 0
    ensures base.At? ==> next == At(AddDays(base.t, WeekdaysGap(Weekday(base.t))))
    ensures base.InvalidDate? ==> next == InvalidDate
  {
    next := Shift(base, 1);
    ghost var k := 1;
    if base.At? {
      WeekdaysGapFirst(Weekday(base.t));
      AddDaysWeekday(base.t, 1);
    }
    while WeekdayOf(next) == Some(0) || WeekdayOf(next) == Some(6)
      invariant 1 <= k <= 3
      invariant base.InvalidDate? ==> next == InvalidDate
      invariant base.At? ==>
        k <= WeekdaysGap(Weekday(base.t)) && next == At(AddDays(base.t, k)) &&
        Weekday(next.t) == DayAfter(Weekday(base.t), k)
      decreases 3 - k
    {
      next := Shift(next, 1);
      k := k + 1;
      AddDaysWeekday(base.t, k);
    }
  }

  /** The `weekly` case of `computeNextOccurrence` once the day list is known to be non-empty. */
  method NextWeeklyDay(base: Moment, days: seq<int>) returns (next: Moment)
    requires days != [] && forall d :: d in days ==> 0 <= d <= 6
    ensures base.At? ==> next == At(AddDays(base.t, WeeklyGap(Weekday(base.t), days)))
    ensures base.InvalidDate? ==> next == InvalidDate
  {
    var i := 1;
    while i <= 7
      invariant 1 <= i <= 8
      invariant base.At? ==> forall j :: 1 <= j < i ==> DayAfter(Weekday(base.t), j) !in days
    {
      var candidate := Shift(base, i);
      var day := WeekdayOf(candidate);
      if base.At? {
        AddDaysWeekday(base.t, i);
        assert day == Some(DayAfter(Weekday(base.t), i));
      }
      if day.Some? && day.value in days {
        ghost var w := Weekday(base.t);
        WeeklyGapLeast(w, days);
        assert i == WeeklyGap(w, days);
        return candidate;
      }
      i := i + 1;
    }
    if base.At? {
      SomeDayMatches(Weekday(base.t), days);
      assert false;
    }
    next := Shift(base, 7);
  }

  /** `computeNextOccurrence`. */
  method ComputeNextOccurrence(current: Moment, rule: Option<Rule>) returns (next: Option<Moment>)
    ensures next == NextOccurrence(current, rule)
  {
    if rule.None? {
      return None;
    }
    var base := Truncate(current);
    match rule.value.frequency {
      case Daily =>
        next := Some(Shift(base, 1));
      case Weekdays =>
        var day := NextWeekday(base);
        next := Some(day);
      case Weekly =>
        var filtered := InWeek(DaysOrEmpty(rule.value));
        var days := SortAscending(filtered);
        SortedSameDays(filtered, days);
        if |days| == 0 {
          return None;
        }
        var day := NextWeeklyDay(base, days);
        if base.At? {
          WeeklyGapSameDays(Weekday(base.t), filtered, days);
        }
        next := Some(day);
      case Unrecognized(_) =>
        next := None;
    }
  }

  lemma SortedSameDays(xs: seq<int>, ys: seq<int>)
    requires multiset(xs) == multiset(ys)
    ensures forall x :: x in xs <==> x in ys
    ensures |xs| == |ys|
  {
    assert forall x :: x in xs <==> x in multiset(xs);
    assert forall x :: x in ys <==> x in multiset(ys);
    assert |xs| == |multiset(xs)|;
  }

  /** The weekly gap depends only on which days are chosen. */
  lemma WeeklyGapSameDays(w: int, xs: seq<int>, ys: seq<int>)
    requires 0 <= w < 7 && xs != [] && ys != [] && forall x :: x in xs <==> x in ys
    requires forall d :: d in xs ==> 0 <= d <= 6
    ensures WeeklyGap(w, xs) == WeeklyGap(w, ys)
  {
    WeeklyGapLeast(w, xs);
    WeeklyGapLeast(w, ys);
  }

  // ---------------------------------------------------------------------------------------
  // Upcoming occurrences
  // ---------------------------------------------------------------------------------------

  /** Room left for `have` elements under `maxOccurrences`. */
  function Room(maxOccurrences: int, have: int): nat {
    if maxOccurrences > have then maxOccurrences - have else 0
  }

  /** The occurrences after `current`, up to `room` of them, that are not later than `horizon`. */
  function Follow(current: Moment, rule: Rule, horizon: Moment, room: nat): seq<Moment>
    decreases room
  {
    if room == 0 then []
    else
      match NextOccurrence(current, Some(rule))
      case None => []
      case Some(n) => if Later(n, horizon) then [] else [n] + Follow(n, rule, horizon, room - 1)
  }

  /** What `computeUpcomingOccurrences` returns. */
  function Upcoming(start: Moment, rule: Option<Rule>, horizonDays: int, maxOccurrences: int)
    : seq<Moment>
  {
    if rule.None? then []
    else
      var first := if start.At? then [start] else [];
      first + Follow(start, rule.value, Shift(start, horizonDays), Room(maxOccurrences, |first|))
  }

  /**
   * `computeUpcomingOccurrences`, with the source's while loop. The source's defaults,
   * `horizonDays = 7` and `maxOccurrences = 4`, are the caller's to pass here.
   */
  method ComputeUpcomingOccurrences(start: Moment, rule: Option<Rule>, horizonDays: int,
                                    maxOccurrences: int)
    returns (occurrences: seq<Moment>)
    ensures occurrences == Upcoming(start, rule, horizonDays, maxOccurrences)
  {
    if rule.None? {
      return [];
    }
    occurrences := [];
    var horizon := Shift(start, horizonDays);
    var current := start;
    if current.At? {
      occurrences := occurrences + [current];
    }
    while |occurrences| < maxOccurrences
      invariant occurrences + Follow(current, rule.value, horizon, Room(maxOccurrences, |occurrences|))
        == Upcoming(start, rule, horizonDays, maxOccurrences)
      decreases maxOccurrences - |occurrences|
    {
      var next := ComputeNextOccurrence(current, rule);
      if next.None? {
        break;
      }
      if Later(next.value, horizon) {
        break;
      }
      occurrences := occurrences + [next.value];
      current := next.value;
    }
  }

  /** Every element is a valid instant, and each is strictly later than the one before. */
  predicate Increasing(ms: seq<Moment>) {
    (forall i :: 0 <= i < |ms| ==> ms[i].At?) &&
    forall i, j :: 0 <= i < j < |ms| ==> ms[i].t < ms[j].t
  }

  lemma {:induction false} FollowValid(c: Instant, rule: Rule, hz: Instant, room: nat)
    ensures var f := Follow(At(c), rule, At(hz), room);
      |f| <= room && Increasing(f) &&
      forall i :: 0 <= i < |f| ==> c < f[i].t <= hz
    decreases room
  {
    var f := Follow(At(c), rule, At(hz), room);
    if room > 0 && NextInstant(c, rule).Some? {
      var n := NextInstant(c, rule).value;
      NextKeepsClockTime(c, rule);
      if n <= hz {
        var rest := Follow(At(n), rule, At(hz), room - 1);
        FollowValid(n, rule, hz, room - 1);
        assert f == [At(n)] + rest;
        forall i | 0 <= i < |f| ensures f[i].At? && c < f[i].t <= hz {
          if i > 0 {
            assert f[i] == rest[i - 1];
          }
        }
        forall i, j | 0 <= i < j < |f| ensures f[i].t < f[j].t {
          assert f[j] == rest[j - 1];
          if i > 0 {
            assert f[i] == rest[i - 1];
          }
        }
      }
    }
  }

  /**
   * From a valid start: the first element is the start, the elements strictly increase, every
   * later one is at most `horizonDays` days after the start, and there are at most
   * max(1, maxOccurrences) of them.
   */
  lemma UpcomingFromValidStart(s: Instant, rule: Rule, horizonDays: int, maxOccurrences: int)
    ensures var occ := Upcoming(At(s), Some(rule), horizonDays, maxOccurrences);
      occ != [] && occ[0] == At(s) && Increasing(occ) &&
      (forall i :: 1 <= i < |occ| ==> occ[i].t <= AddDays(s, horizonDays)) &&
      |occ| <= if maxOccurrences > 1 then maxOccurrences else 1
  {
    var occ := Upcoming(At(s), Some(rule), horizonDays, maxOccurrences);
    var rest := Follow(At(s), rule, At(AddDays(s, horizonDays)), Room(maxOccurrences, 1));
    FollowValid(s, rule, AddDays(s, horizonDays), Room(maxOccurrences, 1));
    assert occ == [At(s)] + rest;
    forall i | 1 <= i < |occ| ensures occ[i].At? && s < occ[i].t <= AddDays(s, horizonDays) {
      assert occ[i] == rest[i - 1];
    }
    forall i, j | 0 <= i < j < |occ| ensures occ[i].t < occ[j].t {
      assert occ[j] == rest[j - 1];
      if i > 0 {
        assert occ[i] == rest[i - 1];
      }
    }
  }

  lemma {:induction false} FollowInvalid(rule: Rule, horizon: Moment, room: nat)
    ensures Follow(InvalidDate, rule, horizon, room) ==
      if Advances(rule) then seq(room, _ => InvalidDate) else []
    decreases room
  {
    if room > 0 && Advances(rule) {
      FollowInvalid(rule, horizon, room - 1);
    }
  }

  /**
   * From an Invalid Date, the start itself is skipped, but a rule that advances fills the whole
   * list with Invalid Dates: the NaN horizon never stops the loop.
   */
  lemma UpcomingFromInvalidStart(rule: Rule, horizonDays: int, maxOccurrences: int)
    ensures Upcoming(InvalidDate, Some(rule), horizonDays, maxOccurrences) ==
      if Advances(rule) then seq(Room(maxOccurrences, 0), _ => InvalidDate) else []
  {
    FollowInvalid(rule, InvalidDate, Room(maxOccurrences, 0));
  }

  /** A daily rule over a three-day horizon yields the start and the next three days. */
  lemma DailyThreeDayHorizon(s: Instant)
    ensures var base := TruncateToMinute(s);
      Upcoming(At(s), Some(Rule(Daily, None)), 3, 10) ==
        [At(s), At(AddDays(base, 1)), At(AddDays(base, 2)), At(AddDays(base, 3))]
  {
    var rule := Rule(Daily, None);
    var base := TruncateToMinute(s);
    var hz := At(AddDays(s, 3));
    AddDaysWeekday(base, 1);
    AddDaysWeekday(base, 2);
    AddDaysWeekday(base, 3);
    assert TruncateToMinute(AddDays(base, 1)) == AddDays(base, 1);
    assert TruncateToMinute(AddDays(base, 2)) == AddDays(base, 2);
    assert TruncateToMinute(AddDays(base, 3)) == AddDays(base, 3);
    assert Follow(At(AddDays(base, 3)), rule, hz, 6) == [];
    assert Follow(At(AddDays(base, 2)), rule, hz, 7) == [At(AddDays(base, 3))];
    assert Follow(At(AddDays(base, 1)), rule, hz, 8) ==
      [At(AddDays(base, 2)), At(AddDays(base, 3))];
  }
}
