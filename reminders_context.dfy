/**
 * The reminder-list operations of `src/context/reminders-context.tsx`: the display order, the
 * completion toggle with its recurring-reminder policy, the reschedule of a recurring reminder,
 * update, delete, add and the normalisation applied when reminders are loaded. The store writes
 * themselves are abstracted to a flag saying whether the write was accepted.
 */
module RemindersContext {
  import opened Wrappers
  import opened Calendar
  import opened ReminderTypes
  import opened Recurrence
  import Seqs

  /** `DEFAULT_AMBER_PERSONALITY_KEY`. */
  const DefaultPersonality: string := "sweet"

  // ---------------------------------------------------------------------------------------
  // sortedReminders
  // ---------------------------------------------------------------------------------------

  /** `new Date(date + 'T' + time)`: the instant a reminder is due, None for an Invalid Date. */
  function Due(r: Reminder): Option<Instant> { ParseLocal(r.date, r.time) }

  /** The comparator handed to `sort`: negative when `a` goes first, positive when `b` does. */
  function Compare(a: Reminder, b: Reminder): int {
    var da, db := Due(a), Due(b);
    if da.None? && db.None? then 0
    else if da.None? then 1
    else if db.None? then -1
    else da.value - db.value
  }

  /** `a` may stay in front of `b`. */
  predicate NotAfter(a: Reminder, b: Reminder) { Compare(a, b) <= 0 }

  /**
   * The comparator is a total preorder: reminders compare equal exactly when they are due at the
   * same instant or both have no valid instant, and a reminder without one sorts after every
   * reminder with one.
   */
  lemma CompareIsTotalPreorder(a: Reminder, b: Reminder, c: Reminder)
    ensures Compare(a, b) < 0 <==> Compare(b, a) > 0
    ensures Compare(a, b) == 0 <==> Due(a) == Due(b)
    ensures Due(a).Some? && Due(b).None? ==> Compare(a, b) < 0
    ensures Due(a).Some? && Due(b).Some? ==> (Compare(a, b) < 0 <==> Due(a).value < Due(b).value)
    ensures NotAfter(a, b) || NotAfter(b, a)
    ensures NotAfter(a, b) && NotAfter(b, c) ==> NotAfter(a, c)
  {
  }

  predicate SortedByDue(s: seq<Reminder>) {
    forall i, j :: 0 <= i < j < |s| ==> NotAfter(s[i], s[j])
  }

  /** A sorted list stays sorted under a head that may precede all of it. */
  lemma SortedCons(h: Reminder, t: seq<Reminder>)
    requires SortedByDue(t)
    requires forall k :: 0 <= k < |t| ==> NotAfter(h, t[k])
    ensures SortedByDue([h] + t)
  {
    var r := [h] + t;
    forall i, j | 0 <= i < j < |r| ensures NotAfter(r[i], r[j]) {
      if i > 0 {
        assert r[i] == t[i - 1] && r[j] == t[j - 1];
      } else {
        assert r[j] == t[j - 1];
      }
    }
  }

  /** Places `x` in front of the first element it may precede. */
  function InsertByDue(x: Reminder, s: seq<Reminder>): (r: seq<Reminder>)
    requires SortedByDue(s)
    ensures SortedByDue(r)
    ensures multiset(r) == multiset(s) + multiset{x}
  {
    if s == [] then [x]
    else if NotAfter(x, s[0]) then
      SortedCons(x, s);
      assert s == [s[0]] + s[1..];
      [x] + s
    else
      var rest := InsertByDue(x, s[1..]);
      InsertHeadFirst(x, s, rest);
      SortedCons(s[0], rest);
      assert s == [s[0]] + s[1..];
      [s[0]] + rest
  }

  /** When `x` goes after the head of `s`, that head may precede the rest of the insertion. */
  lemma InsertHeadFirst(x: Reminder, s: seq<Reminder>, rest: seq<Reminder>)
    requires SortedByDue(s) && s != [] && !NotAfter(x, s[0])
    requires multiset(rest) == multiset(s[1..]) + multiset{x}
    ensures forall k :: 0 <= k < |rest| ==> NotAfter(s[0], rest[k])
  {
    forall k | 0 <= k < |rest| ensures NotAfter(s[0], rest[k]) {
      assert rest[k] in multiset(rest);
      if rest[k] != x {
        assert rest[k] in multiset(s[1..]);
        var m :| 0 <= m < |s[1..]| && s[1..][m] == rest[k];
        assert s[m + 1] == rest[k];
      }
    }
  }

  /**
   * `[...reminders].sort(compare)`. The sort of the platform is stable, so this is the stable
   * sort by `Compare`, written as an insertion sort.
   */
  function SortByDue(s: seq<Reminder>): (r: seq<Reminder>)
    ensures SortedByDue(r)
    ensures multiset(r) == multiset(s)
  {
    if s == [] then [] else
      assert s == [s[0]] + s[1..];
      InsertByDue(s[0], SortByDue(s[1..]))
  }

  /** The reminders of `s`, in order, whose due instant is `due`. */
  function WithDue(s: seq<Reminder>, due: Option<Instant>): seq<Reminder> {
    if s == [] then []
    else (if Due(s[0]) == due then [s[0]] else []) + WithDue(s[1..], due)
  }

  lemma WithDueCons(h: Reminder, t: seq<Reminder>, due: Option<Instant>)
    ensures WithDue([h] + t, due) == (if Due(h) == due then [h] else []) + WithDue(t, due)
  {
    assert ([h] + t)[0] == h && ([h] + t)[1..] == t;
  }

  lemma {:induction false} InsertKeepsTies(x: Reminder, s: seq<Reminder>, due: Option<Instant>)
    requires SortedByDue(s)
    ensures WithDue(InsertByDue(x, s), due) == (if Due(x) == due then [x] else []) + WithDue(s, due)
  {
    if s == [] {
      WithDueCons(x, [], due);
    } else if NotAfter(x, s[0]) {
      WithDueCons(x, s, due);
    } else {
      var t := s[1..];
      assert SortedByDue(t);
      var ins := InsertByDue(x, t);
      InsertKeepsTies(x, t, due);
      TiesSwap(x, s[0], ins, t, due);
      Seqs.HeadTail(s);
    }
  }

  /** A reminder due at another instant than `x` can be passed over without changing the ties. */
  lemma TiesSwap(x: Reminder, h: Reminder, ins: seq<Reminder>, t: seq<Reminder>, due: Option<Instant>)
    requires Due(x) != Due(h)
    requires WithDue(ins, due) == (if Due(x) == due then [x] else []) + WithDue(t, due)
    ensures WithDue([h] + ins, due) == (if Due(x) == due then [x] else []) + WithDue([h] + t, due)
  {
    WithDueCons(h, ins, due);
    WithDueCons(h, t, due);
  }

  /** The sort is stable: reminders due at the same instant keep their relative order. */
  lemma {:induction false} SortIsStable(s: seq<Reminder>, due: Option<Instant>)
    ensures WithDue(SortByDue(s), due) == WithDue(s, due)
  {
    if s != [] {
      SortIsStable(s[1..], due);
      InsertKeepsTies(s[0], SortByDue(s[1..]), due);
    }
  }

  // ---------------------------------------------------------------------------------------
  // List rewrites by id
  // ---------------------------------------------------------------------------------------

  /** `reminders.find(r => r.id === id)`: the first reminder with that id. */
  function Find(rs: seq<Reminder>, id: string): (r: Option<Reminder>)
    ensures r.None? <==> forall i :: 0 <= i < |rs| ==> rs[i].id != id
    ensures r.Some? ==> exists i :: 0 <= i < |rs| && rs[i] == r.value && rs[i].id == id &&
                          forall j :: 0 <= j < i ==> rs[j].id != id
  {
    if rs == [] then None
    else if rs[0].id == id then Some(rs[0])
    else
      var r := Find(rs[1..], id);
      if r.Some? then
        var i :| 0 <= i < |rs[1..]| && rs[1..][i] == r.value && rs[1..][i].id == id &&
                 forall j :: 0 <= j < i ==> rs[1..][j].id != id;
        assert rs[i + 1] == r.value && forall j :: 0 <= j < i + 1 ==> rs[j].id != id;
        r
      else r
  }

  /** `prev.map(r => r.id === id ? x : r)`. */
  function ReplaceById(rs: seq<Reminder>, id: string, x: Reminder): seq<Reminder> {
    seq(|rs|, i requires 0 <= i < |rs| => if rs[i].id == id then x else rs[i])
  }

  /** `reminders.map(r => r.id === id ? { ...r, completed: status } : r)`. */
  function SetCompletedById(rs: seq<Reminder>, id: string, status: bool): seq<Reminder> {
    seq(|rs|, i requires 0 <= i < |rs| => if rs[i].id == id then rs[i].(completed := status) else rs[i])
  }

  /** `reminders.filter(r => r.id !== id)`: every copy with that id goes, the rest stay in order. */
  function RemoveById(rs: seq<Reminder>, id: string): (r: seq<Reminder>)
    ensures forall x: Reminder :: x.id == id ==> multiset(r)[x] == 0
    ensures forall x: Reminder :: x.id != id ==> multiset(r)[x] == multiset(rs)[x]
  {
    if rs == [] then []
    else
      assert rs == [rs[0]] + rs[1..];
      (if rs[0].id == id then [] else [rs[0]]) + RemoveById(rs[1..], id)
  }

  /** After the removal no reminder has the id. */
  lemma RemoveByIdLeavesNone(rs: seq<Reminder>, id: string)
    ensures Find(RemoveById(rs, id), id).None?
  {
    var r := RemoveById(rs, id);
    forall i | 0 <= i < |r| ensures r[i].id != id {
      assert r[i] in multiset(r);
    }
  }

  /** Removing an id no reminder has changes nothing. */
  lemma {:induction false} RemoveAbsentId(rs: seq<Reminder>, id: string)
    requires forall i :: 0 <= i < |rs| ==> rs[i].id != id
    ensures RemoveById(rs, id) == rs
  {
    if rs != [] {
      RemoveAbsentId(rs[1..], id);
      assert rs == [rs[0]] + rs[1..];
    }
  }

  /** Removing twice removes nothing more. */
  lemma RemoveByIdIdempotent(rs: seq<Reminder>, id: string)
    ensures RemoveById(RemoveById(rs, id), id) == RemoveById(rs, id)
  {
    RemoveByIdLeavesNone(rs, id);
    RemoveAbsentId(RemoveById(rs, id), id);
  }

  // ---------------------------------------------------------------------------------------
  // rescheduleRecurringReminder
  // ---------------------------------------------------------------------------------------

  /**
   * The record `rescheduleRecurringReminder` produces: None when the reminder has no rule, its
   * date and time do not parse, or the rule gives no next occurrence; otherwise the same reminder
   * moved to the next occurrence and reopened.
   */
  function Rescheduled(r: Reminder): (u: Option<Reminder>)
    ensures u.Some? <==>
      r.recurrence.Some? && ParseLocal(r.date, r.time).Some? && Advances(r.recurrence.value)
    ensures u.Some? ==>
      var t := ParseLocal(r.date, r.time).value;
      var n := ParseLocal(u.value.date, u.value.time);
      n.Some? && t < n.value <= t + 7 * DayMs && ClockMinute(n.value) == ClockMinute(t) &&
      NextOccurrence(At(t), r.recurrence) == Some(At(n.value)) &&
      u.value == r.(date := u.value.date, time := u.value.time, completed := false)
  {
    if r.recurrence.None? then None
    else
      match ParseLocal(r.date, r.time)
      case None => None
      case Some(t) =>
        NextKeepsClockTime(t, r.recurrence.value);
        match NextOccurrence(At(t), r.recurrence)
        case None => None
        case Some(next) =>
          if next.InvalidDate? then None
          else
            var (date, time) := FormatLocal(next.t);
            FormatThenParse(next.t);
            TruncateExact(next.t);
            Some(r.(date := date, time := time, completed := false))
  }

  /** An instant already on a whole minute is its own truncation. */
  lemma TruncateExact(t: Instant)
    requires t % MinuteMs == 0
    ensures TruncateToMinute(t) == t
  {
  }

  /**
   * Completing an open recurring reminder never closes anything: after the reschedule no
   * reminder of the list is completed that was not completed before.
   */
  lemma RecurringCompletionNeverCompletes(rs: seq<Reminder>, target: Reminder)
    requires target.recurrence.Some? && !target.completed && Rescheduled(target).Some?
    ensures var after := ReplaceById(rs, target.id, Rescheduled(target).value);
      |after| == |rs| && forall i :: 0 <= i < |rs| && after[i].completed ==> rs[i].completed
  {
  }

  // ---------------------------------------------------------------------------------------
  // updateReminderCallback
  // ---------------------------------------------------------------------------------------

  /**
   * The keys of a partial update. `Some(v)` sets the field to `v`; for the nullable fields `v`
   * itself may be None (an explicit `null`).
   */
  datatype Patch = Patch(
    task: Option<string>,
    details: Option<Option<string>>,
    date: Option<DateText>,
    time: Option<TimeText>,
    completed: Option<bool>,
    location: Option<Option<string>>,
    priority: Option<Priority>,
    notificationMessage: Option<Option<string>>,
    personality: Option<string>,
    recurrence: Option<Option<Rule>>)

  const EmptyPatch: Patch := Patch(None, None, None, None, None, None, None, None, None, None)

  /** `preparedUpdates`: a supplied recurrence is normalised, an invalid one becoming null. */
  function Prepared(p: Patch): (q: Patch)
    ensures q.recurrence.Some? <==> p.recurrence.Some?
    ensures q.recurrence.Some? && q.recurrence.value.Some? ==> IsCanonical(q.recurrence.value.value)
    ensures q == p.(recurrence := q.recurrence)
  {
    if p.recurrence.Some? then p.(recurrence := Some(Normalize(p.recurrence.value))) else p
  }

  /** Preparing an already prepared update changes nothing. */
  lemma PreparedIdempotent(p: Patch)
    ensures Prepared(Prepared(p)) == Prepared(p)
  {
    if p.recurrence.Some? {
      NormalizeIdempotent(p.recurrence.value);
    }
  }

  function Pick<T>(update: Option<T>, current: T): T { if update.Some? then update.value else current }

  /** `{ ...r, ...updates }`. */
  function Merge(r: Reminder, p: Patch): Reminder {
    Reminder(r.id, Pick(p.task, r.task), Pick(p.details, r.details), Pick(p.date, r.date),
      Pick(p.time, r.time), Pick(p.completed, r.completed), Pick(p.location, r.location),
      if p.priority.Some? then p.priority else r.priority,
      Pick(p.notificationMessage, r.notificationMessage),
      if p.personality.Some? then p.personality else r.personality,
      Pick(p.recurrence, r.recurrence))
  }

  /**
   * A merge keeps the id, changes exactly the supplied fields, and applying the same update twice
   * is the same as applying it once; an empty update changes nothing.
   */
  lemma MergeSpec(r: Reminder, p: Patch)
    ensures Merge(r, p).id == r.id
    ensures Merge(Merge(r, p), p) == Merge(r, p)
    ensures Merge(r, EmptyPatch) == r
    ensures p.recurrence.None? ==> Merge(r, p).recurrence == r.recurrence
    ensures p.recurrence.Some? ==> Merge(r, p).recurrence == p.recurrence.value
  {
  }

  /** The list after an update: each reminder with the id merged with the prepared update. */
  function UpdatedById(rs: seq<Reminder>, id: string, p: Patch): seq<Reminder> {
    seq(|rs|, i requires 0 <= i < |rs| => if rs[i].id == id then Merge(rs[i], Prepared(p)) else rs[i])
  }

  /** The last reminder with that id, None when there is none. */
  function LastWithId(rs: seq<Reminder>, id: string): (r: Option<Reminder>)
    ensures r.None? <==> forall i :: 0 <= i < |rs| ==> rs[i].id != id
    ensures r.Some? ==> r.value.id == id && r.value in rs
  {
    if rs == [] then None
    else if rs[|rs| - 1].id == id then Some(rs[|rs| - 1])
    else LastWithId(rs[..|rs| - 1], id)
  }

  /**
   * Updating leaves every reminder with another id as it was, and whatever the update, the
   * recurrence of an updated reminder is null or in canonical form when it was before.
   */
  lemma UpdateKeepsCanonicalRecurrence(rs: seq<Reminder>, id: string, p: Patch)
    requires forall i :: 0 <= i < |rs| && rs[i].recurrence.Some? ==> IsCanonical(rs[i].recurrence.value)
    ensures var after := UpdatedById(rs, id, p);
      |after| == |rs| &&
      (forall i :: 0 <= i < |rs| && rs[i].id != id ==> after[i] == rs[i]) &&
      (forall i :: 0 <= i < |rs| && after[i].recurrence.Some? ==> IsCanonical(after[i].recurrence.value))
  {
  }

  // ---------------------------------------------------------------------------------------
  // addReminderCallback and the load-time normalisation
  // ---------------------------------------------------------------------------------------

  /** `Omit<Reminder, "id" | "completed">`: what the form hands to `addReminder`. */
  datatype Draft = Draft(
    task: string,
    details: Option<string>,
    date: DateText,
    time: TimeText,
    location: Option<string>,
    priority: Option<Priority>,
    notificationMessage: Option<string>,
    personality: Option<string>,
    recurrence: Option<Rule>)

  /**
   * The reminder `addReminder` stores under the id the store assigned: open, priority medium
   * unless one was given, the default personality when none (or an empty one) was given, the
   * rule normalised, and every other field as drafted.
   */
  function NewReminder(d: Draft, id: string, defaultPersonality: string): (r: Reminder)
    ensures !r.completed && r.id == id
    ensures r.priority == (if d.priority.Some? then d.priority else Some(Medium))
    ensures r.personality.Some?
    ensures d.personality.Some? && d.personality.value != "" ==> r.personality == d.personality
    ensures d.personality.None? || d.personality.value == "" ==> r.personality == Some(defaultPersonality)
    ensures r.recurrence.Some? ==> IsCanonical(r.recurrence.value)
    ensures r.recurrence.None? <==> Normalize(d.recurrence).None?
    ensures r == Reminder(id, d.task, d.details, d.date, d.time, false, d.location, r.priority,
                          d.notificationMessage, r.personality, r.recurrence)
  {
    var personality := if d.personality.Some? && d.personality.value != "" then d.personality.value
                       else defaultPersonality;
    Reminder(id, d.task, d.details, d.date, d.time, false, d.location,
      Some(d.priority.GetOr(Medium)), d.notificationMessage, Some(personality), Normalize(d.recurrence))
  }

  /** A loaded reminder: `personality ?? 'sweet'` and the rule normalised. */
  function Loaded(r: Reminder): Reminder {
    r.(personality := Some(r.personality.GetOr(DefaultPersonality)), recurrence := Normalize(r.recurrence))
  }

  function LoadedAll(docs: seq<Reminder>): seq<Reminder> {
    seq(|docs|, i requires 0 <= i < |docs| => Loaded(docs[i]))
  }

  /**
   * Every loaded reminder has a personality and a canonical rule or none, keeps its id, task,
   * date and time; and loading what was loaded changes nothing.
   */
  lemma LoadNormalises(docs: seq<Reminder>)
    ensures |LoadedAll(docs)| == |docs|
    ensures forall i :: 0 <= i < |docs| ==>
      var r := LoadedAll(docs)[i];
      r.personality.Some? && (r.recurrence.Some? ==> IsCanonical(r.recurrence.value)) &&
      r == docs[i].(personality := r.personality, recurrence := r.recurrence) &&
      (docs[i].personality.Some? ==> r.personality == docs[i].personality)
    ensures LoadedAll(LoadedAll(docs)) == LoadedAll(docs)
  {
    forall i | 0 <= i < |docs| ensures Loaded(Loaded(docs[i])) == Loaded(docs[i]) {
      NormalizeIdempotent(docs[i].recurrence);
    }
  }

  // ---------------------------------------------------------------------------------------
  // The provider's state
  // ---------------------------------------------------------------------------------------

  /**
   * The reminders state of the provider and the default personality. `ready` says whether a user
   * is signed in and the store is available; `writeOk` whether the store accepted the write.
   */
  class RemindersState {
    var reminders: seq<Reminder>
    var defaultPersonality: string

    constructor ()
      ensures reminders == [] && defaultPersonality == DefaultPersonality
    {
      reminders := [];
      defaultPersonality := DefaultPersonality;
    }

    /** The list as displayed: sorted by due instant, invalid ones last. */
    function SortedReminders(): (r: seq<Reminder>)
      reads this
      ensures SortedByDue(r) && multiset(r) == multiset(reminders)
    {
      SortByDue(reminders)
    }

    /** The initial load from the store, with the stored default personality (or 'sweet'). */
    method LoadReminders(docs: seq<Reminder>, storedDefault: Option<string>)
      modifies this
      ensures reminders == LoadedAll(docs)
      ensures defaultPersonality ==
        if storedDefault.Some? && storedDefault.value != "" then storedDefault.value else DefaultPersonality
    {
      reminders := LoadedAll(docs);
      defaultPersonality :=
        if storedDefault.Some? && storedDefault.value != "" then storedDefault.value else DefaultPersonality;
    }

    /** `addReminderCallback`; `newId` is the id the store gives the new document. */
    method AddReminder(draft: Draft, newId: string, ready: bool, writeOk: bool) returns (res: Result<Reminder, string>)
      modifies this
      ensures defaultPersonality == old(defaultPersonality)
      ensures ready && writeOk ==> reminders == old(reminders) + [NewReminder(draft, newId, defaultPersonality)]
      ensures ready && writeOk && ParseLocal(draft.date, draft.time).Some? ==>
        res == Success(NewReminder(draft, newId, defaultPersonality))
      ensures ready && writeOk && ParseLocal(draft.date, draft.time).None? ==> res == Failure(InvalidTimeValue)
      ensures !(ready && writeOk) ==> res.Failure? && reminders == old(reminders)
    {
      if !ready {
        return Failure("User not logged in or Firebase services not ready");
      }
      if !writeOk {
        return Failure("the store rejected the new reminder");
      }
      var added := NewReminder(draft, newId, defaultPersonality);
      reminders := reminders + [added];
      if ParseLocal(added.date, added.time).None? {
        // The confirmation toast formats the stored date and time, and `format` throws on an
        // Invalid Date after the reminder is already stored and listed.
        return Failure(InvalidTimeValue);
      }
      res := Success(added);
    }

    /** `rescheduleRecurringReminder`. */
    method RescheduleRecurringReminder(reminder: Reminder, ready: bool, writeOk: bool)
      returns (updated: Option<Reminder>)
      modifies this
      ensures defaultPersonality == old(defaultPersonality)
      ensures updated == if ready && writeOk then Rescheduled(reminder) else None
      ensures reminders ==
        if updated.Some? then ReplaceById(old(reminders), reminder.id, updated.value) else old(reminders)
    {
      if !ready || reminder.recurrence.None? {
        return None;
      }
      var current := ParseLocal(reminder.date, reminder.time);
      if current.None? {
        return None;
      }
      var next := ComputeNextOccurrence(At(current.value), reminder.recurrence);
      if next.None? || next.value.InvalidDate? {
        return None;
      }
      var (date, time) := FormatLocal(next.value.t);
      if !writeOk {
        return None;
      }
      var moved := reminder.(date := date, time := time, completed := false);
      reminders := ReplaceById(reminders, reminder.id, moved);
      updated := Some(moved);
    }

    /**
     * `toggleReminderCompletionCallback`: completing an open recurring reminder reschedules it
     * instead; otherwise every reminder with the id gets the flipped status of the first one.
     */
    method ToggleReminderCompletion(id: string, ready: bool, writeOk: bool) returns (res: Result<(), string>)
      modifies this
      ensures defaultPersonality == old(defaultPersonality)
      ensures !ready ==> res.Failure? && reminders == old(reminders)
      ensures ready && Find(old(reminders), id).None? ==> res.Success? && reminders == old(reminders)
      ensures ready && Find(old(reminders), id).Some? ==>
        var t := Find(old(reminders), id).value;
        if !t.completed && t.recurrence.Some? then
          res.Success? &&
          reminders == (if writeOk && Rescheduled(t).Some?
                        then ReplaceById(old(reminders), id, Rescheduled(t).value) else old(reminders))
        else if writeOk then res.Success? && reminders == SetCompletedById(old(reminders), id, !t.completed)
        else res.Failure? && reminders == old(reminders)
      ensures ready && Find(old(reminders), id).Some? && Find(old(reminders), id).value.recurrence.Some? &&
              !Find(old(reminders), id).value.completed ==>
        |reminders| == |old(reminders)| &&
        forall i :: 0 <= i < |reminders| && reminders[i].completed ==> old(reminders)[i].completed
    {
      if !ready {
        return Failure("No user logged in or Firebase services not ready");
      }
      var target := Find(reminders, id);
      if target.None? {
        return Success(());
      }
      var t := target.value;
      var status := !t.completed;
      if status && t.recurrence.Some? {
        var _ := RescheduleRecurringReminder(t, ready, writeOk);
        if writeOk && Rescheduled(t).Some? {
          RecurringCompletionNeverCompletes(old(reminders), t);
        }
        return Success(());
      }
      if !writeOk {
        return Failure("the store rejected the completion update");
      }
      reminders := SetCompletedById(reminders, id, status);
      res := Success(());
    }

    /**
     * `updateReminderCallback`: merges the prepared update into every reminder with the id and
     * returns the last one merged, None when no reminder has the id.
     */
    method UpdateReminder(id: string, updates: Patch, ready: bool, writeOk: bool)
      returns (res: Result<Option<Reminder>, string>)
      modifies this
      ensures defaultPersonality == old(defaultPersonality)
      ensures ready && writeOk ==>
        reminders == UpdatedById(old(reminders), id, updates) &&
        res == Success(if LastWithId(old(reminders), id).Some?
                       then Some(Merge(LastWithId(old(reminders), id).value, Prepared(updates))) else None)
      ensures !(ready && writeOk) ==> res.Failure? && reminders == old(reminders)
    {
      if !ready {
        return Failure("User not logged in or Firebase services not ready");
      }
      var prepared := Prepared(updates);
      if !writeOk {
        return Failure("the store rejected the update");
      }
      var updated: Option<Reminder> := None;
      var result: seq<Reminder> := [];
      var i := 0;
      while i < |reminders|
        invariant 0 <= i <= |reminders|
        invariant result == UpdatedById(reminders[..i], id, updates)
        invariant updated == if LastWithId(reminders[..i], id).Some?
                             then Some(Merge(LastWithId(reminders[..i], id).value, prepared)) else None
      {
        var r := reminders[i];
        assert reminders[..i + 1][..i] == reminders[..i];
        if r.id == id {
          var merged := Merge(r, prepared);
          updated := Some(merged);
          result := result + [merged];
        } else {
          result := result + [r];
        }
        i := i + 1;
      }
      assert reminders[..i] == reminders;
      reminders := result;
      res := Success(updated);
    }

    /** `deleteReminderCallback`. */
    method DeleteReminder(id: string, ready: bool, writeOk: bool) returns (res: Result<(), string>)
      modifies this
      ensures defaultPersonality == old(defaultPersonality)
      ensures ready && writeOk ==> res.Success? && reminders == RemoveById(old(reminders), id)
      ensures !(ready && writeOk) ==> res.Failure? && reminders == old(reminders)
    {
      if !ready {
        return Failure("No user logged in or Firebase services not ready");
      }
      if !writeOk {
        return Failure("the store rejected the delete");
      }
      reminders := RemoveById(reminders, id);
      res := Success(());
    }
  }
}
