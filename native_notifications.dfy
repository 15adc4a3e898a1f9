/**
 * The on-device alarm reconciler of `src/lib/native-local-notifications.ts`: the alarm id derived
 * from a reminder id, the fire date and payload of a reminder's alarm, and the scheduling, cancelling
 * and syncing of alarms against the local-notifications plugin, behind a cached permission.
 */
module NativeNotifications {
  import opened Wrappers
  import opened Text
  import opened Calendar
  import opened ReminderTypes

  // ---------------------------------------------------------------------------------------
  // notificationIdFromReminderId
  // ---------------------------------------------------------------------------------------

  const TwoTo31: int := 0x8000_0000
  const TwoTo32: int := 0x1_0000_0000

  /** The largest alarm id plus one: ids are taken modulo this bound. */
  const IdBound: int := 2000000000

  /** ECMAScript's ToInt32: the 32-bit two's-complement value congruent to `x`. */
  function ToInt32(x: int): (r: int)
    ensures -TwoTo31 <= r < TwoTo31
    ensures (x - r) % TwoTo32 == 0
  {
    var m := x % TwoTo32;
    if m >= TwoTo31 then m - TwoTo32 else m
  }

  /** ToInt32 sees only the residue modulo 2^32. */
  lemma ToInt32Congruent(a: int, b: int)
    requires (a - b) % TwoTo32 == 0
    ensures ToInt32(a) == ToInt32(b)
  {
    var q := (a - b) / TwoTo32;
    assert a == b + q * TwoTo32;
    DivModOf(a, TwoTo32, b / TwoTo32 + q, b % TwoTo32);
  }

  /** One round of the loop: `(hash << 5) - hash + unit`, forced back to 32 bits. */
  function HashStep(hash: int, unit: int): int {
    ToInt32(ToInt32(hash * 32) - hash + unit)
  }

  /** The hash after the loop has consumed `units`, from 0. */
  function HashOf(units: seq<int>): int
  {
    if units == [] then 0 else HashStep(HashOf(units[..|units| - 1]), units[|units| - 1])
  }

  /** The shift-and-subtract step is `31 * hash + unit` with 32-bit wrap-around. */
  lemma HashStepIsTimes31(hash: int, unit: int)
    ensures HashStep(hash, unit) == ToInt32(31 * hash + unit)
  {
    var s := ToInt32(hash * 32);
    assert ((s - hash + unit) - (31 * hash + unit)) % TwoTo32 == 0 by {
      assert (s - hash + unit) - (31 * hash + unit) == -(hash * 32 - s);
    }
    ToInt32Congruent(s - hash + unit, 31 * hash + unit);
  }

  /** The derived id: the magnitude of the hash modulo 2 000 000 000, with 0 taken to 1. */
  function AlarmId(reminderId: string): (id: int)
    ensures 1 <= id < IdBound
  {
    IdOfHash(HashOf(Utf16Units(reminderId)))
  }

  /** The magnitude of a hash modulo 2 000 000 000, with 0 taken to 1. */
  function IdOfHash(h: int): (id: int)
    ensures 1 <= id < IdBound
    ensures 0 < h < IdBound ==> id == h
  {
    var m := (if h < 0 then -h else h) % IdBound;
    if m == 0 then 1 else m
  }

  /** `notificationIdFromReminderId` */
  method NotificationIdFromReminderId(reminderId: string) returns (id: int)
    ensures id == AlarmId(reminderId)
    ensures 1 <= id < IdBound
  {
    var units := Utf16Units(reminderId);
    var hash := 0;
    var i := 0;
    while i < |units|
      invariant 0 <= i <= |units|
      invariant hash == HashOf(units[..i])
      decreases |units| - i
    {
      assert units[..i + 1][..i] == units[..i];
      hash := ToInt32(ToInt32(hash * 32) - hash + units[i]);
      i := i + 1;
    }
    assert units[..i] == units;
    hash := (if hash < 0 then -hash else hash) % IdBound;
    if hash == 0 {
      return 1;
    }
    return hash;
  }

  /** Different reminder ids can share an alarm id, so their alarms replace one another. */
  lemma AlarmIdsCollide()
    ensures "Aa" != "BB" && AlarmId("Aa") == AlarmId("BB") == 2112
  {
    Utf16Pair("Aa");
    Utf16Pair("BB");
    HashOfPair(65, 97);
    HashOfPair(66, 66);
  }

  /** Two characters of the Basic Multilingual Plane are one code unit each. */
  lemma Utf16Pair(s: string)
    requires |s| == 2 && (s[0] as int) < 0x1_0000 && (s[1] as int) < 0x1_0000
    ensures Utf16Units(s) == [s[0] as int, s[1] as int]
  {
    assert s[1..][1..] == [];
    assert Utf16Units(s[1..]) == [s[1] as int];
  }

  lemma HashOfPair(a: int, b: int)
    requires (a, b) == (65, 97) || (a, b) == (66, 66)
    ensures HashOf([a, b]) == 2112
  {
    assert [a, b][..1] == [a] && [a][..0] == [];
    assert HashOf([a]) == HashStep(0, a);
    HashStepIsTimes31(0, a);
    assert ToInt32(a) == a;
    assert HashOf([a, b]) == HashStep(a, b);
    HashStepIsTimes31(a, b);
    assert 31 * a + b == 2112;
    assert ToInt32(2112) == 2112;
  }

  // ---------------------------------------------------------------------------------------
  // reminderFireDate, buildNotificationPayload
  // ---------------------------------------------------------------------------------------

  /** `reminderFireDate`: None when the date is missing or the text does not parse. */
  function FireDate(reminder: Reminder): (r: Option<Instant>)
    ensures r.Some? <==> reminder.date.Ymd? && (reminder.time.Hm? || reminder.time.NoTime?)
    ensures r.Some? && reminder.time.NoTime? ==> ClockMinute(r.value) == 9 * 60
    ensures r.Some? && reminder.time.Hm? ==> ClockMinute(r.value) == reminder.time.minute
    ensures r.Some? ==> DayIndex(r.value) == reminder.date.day
  {
    if reminder.date.NoDate? then None
    else
      var time := if reminder.time.NoTime? then Hm(9 * 60) else reminder.time;
      var r := ParseLocal(reminder.date, time);
      if r.Some? then ParseThenFormat(reminder.date.day, time.minute); r else r
  }

  /** The reminder has a fire date strictly after `now`. */
  predicate FiresAfter(reminder: Reminder, now: Instant) {
    FireDate(reminder).Some? && FireDate(reminder).value > now
  }

  const AlarmTitle: string := "Amber's gentle nudge"
  const AppChannelId: string := "amber_barks_v2"

  /** `buildNotificationPayload`: the body. */
  function AlarmBody(reminder: Reminder): (body: string)
    ensures body != []
    ensures reminder.notificationMessage.Some? && !AllSpace(reminder.notificationMessage.value) ==>
      body == Trim(reminder.notificationMessage.value)
    ensures reminder.notificationMessage.None? || AllSpace(reminder.notificationMessage.value) ==>
      body == "Hey honey, it's time for " + reminder.task
  {
    var trimmed := if reminder.notificationMessage.Some? then Trim(reminder.notificationMessage.value) else "";
    if reminder.notificationMessage.Some? then
      TrimEmptyIffBlank(reminder.notificationMessage.value);
      if trimmed != "" then trimmed else "Hey honey, it's time for " + reminder.task
    else "Hey honey, it's time for " + reminder.task
  }

  /** A pending alarm as the plugin stores it. */
  datatype Alarm = Alarm(id: int, title: string, body: string, at: Instant, channelId: string,
                         reminderId: string, route: string, priority: Priority)

  /**
   * The alarm `scheduleNativeReminder` hands to the plugin. Its channel is always the app channel:
   * the channel set-up only ever records that id or none.
   */
  function AlarmFor(reminder: Reminder, at: Instant): Alarm {
    Alarm(AlarmId(reminder.id), AlarmTitle, AlarmBody(reminder), at, AppChannelId,
          reminder.id, "/bark/" + reminder.id, reminder.priority.GetOr(Medium))
  }

  // ---------------------------------------------------------------------------------------
  // The plugin
  // ---------------------------------------------------------------------------------------

  datatype Permission = Granted | Denied | Prompt

  /** The plugin calls that change the pending alarms, in the order they were made. */
  datatype PluginCall = Scheduled(alarm: Alarm) | Cancelled(ids: set<int>)

  /**
   * The local-notifications plugin: the pending alarms by id, the display permission, the answer
   * the user gives when asked, and the ids whose scheduling the platform rejects.
   */
  class LocalNotificationsPlugin {
    var pending: map<int, Alarm>
    var display: Permission
    const promptAnswer: Permission
    const rejected: set<int>
    var calls: seq<PluginCall>

    constructor (pending: map<int, Alarm>, display: Permission, promptAnswer: Permission, rejected: set<int>)
      ensures this.pending == pending && this.display == display
      ensures this.promptAnswer == promptAnswer && this.rejected == rejected && calls == []
    {
      this.pending := pending;
      this.display := display;
      this.promptAnswer := promptAnswer;
      this.rejected := rejected;
      calls := [];
    }

    method CheckPermissions() returns (status: Permission)
      ensures status == display
    {
      status := display;
    }

    /** Asking settles a `prompt` with the user's answer; a settled permission stays. */
    method RequestPermissions() returns (status: Permission)
      modifies this
      ensures display == (if old(display) == Prompt then promptAnswer else old(display))
      ensures status == display
      ensures pending == old(pending) && calls == old(calls)
    {
      if display == Prompt {
        display := promptAnswer;
      }
      status := display;
    }

    method GetPending() returns (ids: set<int>)
      ensures ids == pending.Keys
    {
      ids := pending.Keys;
    }

    method Cancel(ids: set<int>)
      modifies this
      ensures pending == old(pending) - ids
      ensures calls == old(calls) + [Cancelled(ids)]
      ensures display == old(display)
    {
      pending := pending - ids;
      calls := calls + [Cancelled(ids)];
    }

    /** Fails, leaving the alarms as they are, for an id the platform rejects. */
    method Schedule(alarm: Alarm) returns (ok: bool)
      modifies this
      ensures ok <==> alarm.id !in rejected
      ensures pending == if ok then old(pending)[alarm.id := alarm] else old(pending)
      ensures calls == old(calls) + [Scheduled(alarm)]
      ensures display == old(display)
    {
      ok := alarm.id !in rejected;
      if ok {
        pending := pending[alarm.id := alarm];
      }
      calls := calls + [Scheduled(alarm)];
    }

    method CancelAll()
      modifies this
      ensures pending == map[]
      ensures calls == old(calls) + [Cancelled(old(pending).Keys)]
      ensures display == old(display)
    {
      calls := calls + [Cancelled(pending.Keys)];
      pending := map[];
    }
  }

  // ---------------------------------------------------------------------------------------
  // The module's caches and exported operations
  // ---------------------------------------------------------------------------------------

  /**
   * The module state: whether the runtime is native, the plugin (null when it fails to load) and
   * the cached permission status.
   */
  class NativeNotifier {
    const isNative: bool
    const plugin: LocalNotificationsPlugin?
    var cachedPermission: Option<Permission>

    constructor (isNative: bool, plugin: LocalNotificationsPlugin?)
      ensures this.isNative == isNative && this.plugin == plugin && cachedPermission == None
    {
      this.isNative := isNative;
      this.plugin := plugin;
      cachedPermission := None;
    }

    /**
     * `ensurePermission`: a cached grant answers at once; otherwise the plugin is checked, asked
     * when the permission query does not say granted, and its last word is cached.
     */
    method EnsurePermission() returns (granted: bool)
      modifies this, plugin
      ensures granted <==> cachedPermission == Some(Granted)
      ensures old(cachedPermission) == Some(Granted) ==>
        cachedPermission == old(cachedPermission) && (plugin != null ==> plugin.display == old(plugin.display))
      ensures old(cachedPermission) != Some(Granted) && plugin == null ==> cachedPermission == Some(Denied)
      ensures old(cachedPermission) != Some(Granted) && plugin != null ==>
        plugin.display == (if old(plugin.display) == Prompt then plugin.promptAnswer else old(plugin.display)) &&
        cachedPermission == Some(plugin.display)
      ensures plugin != null ==> plugin.pending == old(plugin.pending) && plugin.calls == old(plugin.calls)
    {
      if cachedPermission == Some(Granted) {
        return true;
      }
      if plugin == null {
        cachedPermission := Some(Denied);
        return false;
      }
      var status := plugin.CheckPermissions();
      if status == Granted {
        cachedPermission := Some(Granted);
        return true;
      }
      var answer := plugin.RequestPermissions();
      cachedPermission := Some(answer);
      granted := answer == Granted;
    }

    /** `requestNativeNotificationPermission` */
    method RequestNativeNotificationPermission() returns (granted: bool)
      modifies this, plugin
      ensures !isNative ==> !granted && cachedPermission == old(cachedPermission)
      ensures isNative ==> (granted <==> cachedPermission == Some(Granted))
      ensures plugin != null ==> plugin.pending == old(plugin.pending) && plugin.calls == old(plugin.calls)
    {
      if !isNative {
        return false;
      }
      granted := EnsurePermission();
    }

    /**
     * `scheduleNativeReminder`: nothing happens off the native runtime or for a reminder with no
     * fire date after `now`; without permission nothing is scheduled; otherwise the alarm under the
     * derived id is cancelled and the reminder's alarm scheduled in its place.
     */
    method ScheduleNativeReminder(reminder: Reminder, now: Instant) returns (ok: bool)
      modifies this, plugin
      ensures !(isNative && FiresAfter(reminder, now)) ==>
        !ok && cachedPermission == old(cachedPermission) &&
        (plugin != null ==> plugin.pending == old(plugin.pending) && plugin.display == old(plugin.display))
      ensures plugin != null && !(isNative && FiresAfter(reminder, now) && cachedPermission == Some(Granted)) ==>
        !ok && plugin.pending == old(plugin.pending) && plugin.calls == old(plugin.calls)
      ensures plugin != null && isNative && FiresAfter(reminder, now) && cachedPermission == Some(Granted) ==>
        var alarm := AlarmFor(reminder, FireDate(reminder).value);
        (ok <==> alarm.id !in plugin.rejected) &&
        plugin.pending == (if ok then old(plugin.pending)[alarm.id := alarm] else old(plugin.pending) - {alarm.id}) &&
        plugin.calls == old(plugin.calls) + [Cancelled({alarm.id}), Scheduled(alarm)]
      ensures old(cachedPermission) == Some(Granted) ==> cachedPermission == old(cachedPermission)
      ensures plugin == null ==> !ok
      ensures isNative && FiresAfter(reminder, now) && old(cachedPermission) != Some(Granted) && plugin != null ==>
        plugin.display == (if old(plugin.display) == Prompt then plugin.promptAnswer else old(plugin.display)) &&
        cachedPermission == Some(plugin.display)
      ensures old(cachedPermission) == Some(Granted) && plugin != null ==> plugin.display == old(plugin.display)
    {
      if !isNative {
        return false;
      }
      var fireDate := FireDate(reminder);
      if fireDate.None? || fireDate.value <= now {
        return false;
      }
      var granted := EnsurePermission();
      if !granted {
        return false;
      }
      if plugin == null {
        return false;
      }
      ok := PlaceAlarm(reminder, fireDate.value);
    }

    /** The last step of `scheduleNativeReminder`: cancel the derived id, then schedule the alarm. */
    method PlaceAlarm(reminder: Reminder, when: Instant) returns (ok: bool)
      requires plugin != null
      modifies plugin
      ensures var alarm := AlarmFor(reminder, when);
        (ok <==> alarm.id !in plugin.rejected) &&
        plugin.pending == (if ok then old(plugin.pending)[alarm.id := alarm] else old(plugin.pending) - {alarm.id}) &&
        plugin.calls == old(plugin.calls) + [Cancelled({alarm.id}), Scheduled(alarm)]
      ensures plugin.display == old(plugin.display)
    {
      var id := NotificationIdFromReminderId(reminder.id);
      plugin.Cancel({id});
      ok := plugin.Schedule(Alarm(id, AlarmTitle, AlarmBody(reminder), when, AppChannelId,
                                  reminder.id, "/bark/" + reminder.id, reminder.priority.GetOr(Medium)));
    }

    /** `cancelNativeReminder` */
    method CancelNativeReminder(reminderId: string) returns (ok: bool)
      modifies plugin
      ensures ok <==> isNative && plugin != null
      ensures plugin != null && isNative ==>
        plugin.pending == old(plugin.pending) - {AlarmId(reminderId)} &&
        plugin.calls == old(plugin.calls) + [Cancelled({AlarmId(reminderId)})]
      ensures plugin != null && !isNative ==> plugin.pending == old(plugin.pending) && plugin.calls == old(plugin.calls)
      ensures plugin != null ==> plugin.display == old(plugin.display)
    {
      if !isNative || plugin == null {
        return false;
      }
      var id := NotificationIdFromReminderId(reminderId);
      plugin.Cancel({id});
      return true;
    }

    /** `cancelAllNativeReminders` */
    method CancelAllNativeReminders()
      modifies plugin
      ensures plugin != null && isNative ==>
        plugin.pending == map[] && plugin.calls == old(plugin.calls) + [Cancelled(old(plugin.pending).Keys)]
      ensures plugin != null && !isNative ==> plugin.pending == old(plugin.pending) && plugin.calls == old(plugin.calls)
      ensures plugin != null ==> plugin.display == old(plugin.display)
    {
      if !isNative || plugin == null {
        return;
      }
      plugin.CancelAll();
    }

    /**
     * `syncNativeReminders`: with permission, schedules each upcoming reminder whose derived id is
     * not pending, then cancels in one call the pending ids no upcoming reminder derives.
     */
    method SyncNativeReminders(reminders: seq<Reminder>, now: Instant)
      modifies this, plugin
      ensures plugin != null && !(isNative && cachedPermission == Some(Granted)) ==>
        plugin.pending == old(plugin.pending) && plugin.calls == old(plugin.calls)
      ensures plugin != null && isNative && cachedPermission == Some(Granted) ==>
        Synced(plugin.calls, old(plugin.calls), plugin.pending, old(plugin.pending), plugin.rejected, reminders, now)
      ensures old(cachedPermission) == Some(Granted) ==> cachedPermission == old(cachedPermission)
      ensures !isNative ==> cachedPermission == old(cachedPermission)
      ensures plugin != null && (!isNative || old(cachedPermission) == Some(Granted)) ==>
        plugin.display == old(plugin.display)
      ensures isNative && old(cachedPermission) != Some(Granted) && plugin != null ==>
        plugin.display == (if old(plugin.display) == Prompt then plugin.promptAnswer else old(plugin.display)) &&
        cachedPermission == Some(plugin.display)
      ensures isNative && old(cachedPermission) != Some(Granted) && plugin == null ==> cachedPermission == Some(Denied)
    {
      if !isNative {
        return;
      }
      var granted := EnsurePermission();
      if !granted {
        return;
      }
      if plugin == null {
        return;
      }
      var pendingIds := plugin.GetPending();
      ghost var before := plugin.pending;
      ghost var calls0 := plugin.calls;
      var upcoming := Upcoming(reminders, now);
      var expectedIds, made := ScheduleMissing(upcoming, pendingIds, now);
      ghost var pending := plugin.pending;
      ghost var cancels := CancelStale(pendingIds, expectedIds);
      SyncCompletes(calls0, made, cancels, before, pending, plugin.rejected, reminders, now);
    }

    /** The closing step of a sync: one cancel of the pending ids no upcoming reminder derives, if any. */
    method CancelStale(pendingIds: set<int>, expectedIds: set<int>) returns (ghost cancels: seq<PluginCall>)
      requires plugin != null
      modifies plugin
      ensures plugin.display == old(plugin.display)
      ensures cancels == if pendingIds - expectedIds == {} then [] else [Cancelled(pendingIds - expectedIds)]
      ensures plugin.pending == old(plugin.pending) - (pendingIds - expectedIds)
      ensures plugin.calls == old(plugin.calls) + cancels
    {
      var toCancel := set id | id in pendingIds && id !in expectedIds;
      assert toCancel == pendingIds - expectedIds;
      cancels := [];
      if toCancel != {} {
        plugin.Cancel(toCancel);
        cancels := [Cancelled(toCancel)];
      }
    }

    /** `scheduleNativeReminder` for an upcoming reminder once permission is cached as granted. */
    method ScheduleGranted(reminder: Reminder, now: Instant)
      requires plugin != null && isNative && cachedPermission == Some(Granted) && FiresAfter(reminder, now)
      modifies this, plugin
      ensures cachedPermission == Some(Granted) && plugin.display == old(plugin.display)
      ensures var alarm := AlarmFor(reminder, FireDate(reminder).value);
        plugin.calls == old(plugin.calls) + [Cancelled({alarm.id}), Scheduled(alarm)] &&
        plugin.pending == (if alarm.id !in plugin.rejected then old(plugin.pending)[alarm.id := alarm]
                           else old(plugin.pending) - {alarm.id})
    {
      var _ := ScheduleNativeReminder(reminder, now);
    }

    /**
     * Two syncs with the same reminders and the same `now`, permission already granted, and the
     * platform accepting every expected id: the first leaves exactly the expected ids pending, and
     * the second makes no plugin call and changes no alarm.
     */
    method SyncTwice(reminders: seq<Reminder>, now: Instant)
      returns (ghost callsBetween: seq<PluginCall>, ghost pendingBetween: map<int, Alarm>)
      requires plugin != null && isNative && cachedPermission == Some(Granted)
      requires forall id :: id in ExpectedIds(reminders, now) ==> id !in plugin.rejected
      modifies this, plugin
      ensures pendingBetween.Keys == ExpectedIds(reminders, now)
      ensures plugin.calls == callsBetween && plugin.pending == pendingBetween
    {
      ghost var calls0, pending0 := plugin.calls, plugin.pending;
      SyncNativeReminders(reminders, now);
      callsBetween, pendingBetween := plugin.calls, plugin.pending;
      SyncedAccepted(callsBetween, calls0, pendingBetween, pending0, plugin.rejected, reminders, now);
      SyncNativeReminders(reminders, now);
      SyncedInStep(plugin.calls, callsBetween, plugin.pending, pendingBetween, plugin.rejected, reminders, now);
    }

    /** One pass of the scheduling loop for a reminder whose derived id is not pending. */
    method ScheduleAndRecord(reminder: Reminder, now: Instant, ghost pendingIds: set<int>, ghost expected: set<int>,
                             ghost before: map<int, Alarm>, ghost start: seq<PluginCall>,
                             ghost made: seq<PluginCall>, ghost upcoming: seq<Reminder>)
      returns (ghost made': seq<PluginCall>)
      requires plugin != null && isNative && cachedPermission == Some(Granted)
      requires reminder in upcoming && FiresAfter(reminder, now)
      requires AlarmId(reminder.id) !in pendingIds && pendingIds == before.Keys
      requires plugin.calls == start + made
      requires ScheduleCalls(made, pendingIds, expected)
      requires forall id :: id in expected - pendingIds ==> Attempted(made, id)
      requires PendingSoFar(plugin.pending, before, expected, plugin.rejected, upcoming)
      modifies this, plugin
      ensures cachedPermission == Some(Granted) && plugin.display == old(plugin.display)
      ensures plugin.calls == start + made'
      ensures ScheduleCalls(made', pendingIds, expected + {AlarmId(reminder.id)})
      ensures forall id :: id in expected + {AlarmId(reminder.id)} - pendingIds ==> Attempted(made', id)
      ensures PendingSoFar(plugin.pending, before, expected + {AlarmId(reminder.id)}, plugin.rejected, upcoming)
    {
      ghost var pending := plugin.pending;
      var alarm := AlarmFor(reminder, FireDate(reminder).value);
      ScheduleGranted(reminder, now);
      ScheduleCallsAppend(made, pendingIds, expected, expected + {alarm.id}, alarm.id, alarm);
      AppendTwo(start, made, Cancelled({alarm.id}), Scheduled(alarm));
      made' := made + [Cancelled({alarm.id}), Scheduled(alarm)];
      PendingStep(pending, plugin.pending, before, expected, plugin.rejected, upcoming, reminder);
    }

    /** The scheduling loop of `syncNativeReminders`. */
    method ScheduleMissing(upcoming: seq<Reminder>, pendingIds: set<int>, now: Instant)
      returns (expectedIds: set<int>, ghost made: seq<PluginCall>)
      requires plugin != null && isNative && cachedPermission == Some(Granted)
      requires pendingIds == plugin.pending.Keys
      requires forall r :: r in upcoming ==> FiresAfter(r, now)
      modifies this, plugin
      ensures cachedPermission == Some(Granted) && plugin.display == old(plugin.display)
      ensures expectedIds == IdsOf(upcoming)
      ensures plugin.calls == old(plugin.calls) + made
      ensures ScheduleCalls(made, pendingIds, expectedIds)
      ensures forall id :: id in expectedIds - pendingIds ==> Attempted(made, id)
      ensures PendingSoFar(plugin.pending, old(plugin.pending), expectedIds, plugin.rejected, upcoming)
    {
      ghost var before := plugin.pending;
      ghost var start := plugin.calls;
      expectedIds := {};
      made := [];
      var i := 0;
      while i < |upcoming|
        invariant 0 <= i <= |upcoming|
        invariant cachedPermission == Some(Granted) && plugin.display == old(plugin.display)
        invariant expectedIds == IdsOf(upcoming[..i])
        invariant plugin.calls == start + made
        invariant ScheduleCalls(made, pendingIds, expectedIds)
        invariant forall id :: id in expectedIds - pendingIds ==> Attempted(made, id)
        invariant PendingSoFar(plugin.pending, before, expectedIds, plugin.rejected, upcoming)
        modifies this, plugin
        decreases |upcoming| - i
      {
        var reminder := upcoming[i];
        var id := NotificationIdFromReminderId(reminder.id);
        IdsOfExtend(upcoming, i);
        ghost var expected0 := expectedIds;
        expectedIds := expectedIds + {id};
        if id !in pendingIds {
          made := ScheduleAndRecord(reminder, now, pendingIds, expected0, before, start, made, upcoming);
        } else {
          PendingKnownId(plugin.pending, before, expected0, plugin.rejected, upcoming, id);
        }
        i := i + 1;
      }
      assert upcoming[..i] == upcoming;
    }
  }

  /**
   * The alarms while the scheduling loop runs: the alarms pending at the start stay as they were,
   * and an alarm is added exactly for an expected id that was not pending and that the platform
   * accepts, carrying the alarm of the upcoming reminder whose derived id it is.
   */
  ghost predicate PendingSoFar(pending: map<int, Alarm>, before: map<int, Alarm>, expected: set<int>,
                               rejected: set<int>, upcoming: seq<Reminder>)
  {
    (forall id :: id in pending <==> id in before || (id in expected && id !in rejected)) &&
    (forall id :: id in before ==> pending[id] == before[id]) &&
    (forall id :: id in pending && id !in before ==>
      exists r :: r in upcoming && AlarmId(r.id) == id && FireDate(r).Some? && pending[id] == AlarmFor(r, FireDate(r).value))
  }

  /**
   * The alarms after a sync: exactly the expected ids that were pending or that the platform
   * accepts; the ones that were pending keep their old alarm; the new ones carry the alarm of the
   * upcoming reminder whose derived id it is.
   */
  ghost predicate Reconciled(pending: map<int, Alarm>, before: map<int, Alarm>, expected: set<int>,
                             rejected: set<int>, upcoming: seq<Reminder>)
  {
    (forall id :: id in pending <==> id in expected && (id in before || id !in rejected)) &&
    (forall id :: id in before && id in expected ==> pending[id] == before[id]) &&
    (forall id :: id in pending && id !in before ==>
      exists r :: r in upcoming && AlarmId(r.id) == id && FireDate(r).Some? && pending[id] == AlarmFor(r, FireDate(r).value))
  }

  /** When the platform accepts every expected id, a sync leaves exactly those pending. */
  lemma ReconciledAccepted(pending: map<int, Alarm>, before: map<int, Alarm>, expected: set<int>,
                           rejected: set<int>, upcoming: seq<Reminder>)
    requires Reconciled(pending, before, expected, rejected, upcoming)
    requires forall id :: id in expected ==> id !in rejected
    ensures pending.Keys == expected
  {
    forall id ensures id in pending.Keys <==> id in expected {
      if id in expected {
        assert id !in rejected;
      }
    }
  }

  /** A sync that starts with exactly the expected ids pending changes no alarm. */
  lemma ReconciledInStep(pending: map<int, Alarm>, before: map<int, Alarm>, expected: set<int>,
                         rejected: set<int>, upcoming: seq<Reminder>)
    requires Reconciled(pending, before, expected, rejected, upcoming)
    requires before.Keys == expected
    ensures pending == before
  {
    forall id ensures id in pending.Keys <==> id in before.Keys {
      if id in before.Keys {
        assert id in expected;
      }
    }
    assert pending.Keys == before.Keys;
    forall id | id in pending ensures pending[id] == before[id] {
      assert id in before && id in expected;
    }
  }

  lemma AppendTwo(start: seq<PluginCall>, made: seq<PluginCall>, c: PluginCall, d: PluginCall)
    ensures (start + made) + [c, d] == start + (made + [c, d])
  {
  }

  lemma PendingStep(pending: map<int, Alarm>, pending': map<int, Alarm>, before: map<int, Alarm>,
                    expected: set<int>, rejected: set<int>, upcoming: seq<Reminder>, r: Reminder)
    requires PendingSoFar(pending, before, expected, rejected, upcoming)
    requires r in upcoming && FireDate(r).Some? && AlarmId(r.id) !in before
    requires var alarm := AlarmFor(r, FireDate(r).value);
      pending' == if alarm.id !in rejected then pending[alarm.id := alarm] else pending - {alarm.id}
    ensures PendingSoFar(pending', before, expected + {AlarmId(r.id)}, rejected, upcoming)
  {
  }

  lemma PendingKnownId(pending: map<int, Alarm>, before: map<int, Alarm>, expected: set<int>,
                       rejected: set<int>, upcoming: seq<Reminder>, id: int)
    requires PendingSoFar(pending, before, expected, rejected, upcoming) && id in before
    ensures PendingSoFar(pending, before, expected + {id}, rejected, upcoming)
  {
  }

  /** The scheduling loop's calls followed by the closing cancel make up the calls of a whole sync. */
  lemma StaleCancelCompletes(made: seq<PluginCall>, cancels: seq<PluginCall>, pendingIds: set<int>, expected: set<int>)
    requires ScheduleCalls(made, pendingIds, expected)
    requires forall id :: id in expected - pendingIds ==> Attempted(made, id)
    requires cancels == if pendingIds - expected == {} then [] else [Cancelled(pendingIds - expected)]
    ensures SyncedCalls(made + cancels, pendingIds, expected)
  {
    var all := made + cancels;
    if pendingIds - expected == {} {
      assert all == made;
    } else {
      assert all[..|all| - 1] == made;
      forall id | id in expected - pendingIds ensures Attempted(all, id) {
        var k :| 0 <= k < |made| && made[k].Scheduled? && made[k].alarm.id == id;
        assert all[k] == made[k];
      }
    }
  }

  /**
   * The outcome of a sync with permission: the earlier calls are kept, the new ones are those of a
   * whole sync, and the alarms are reconciled with the upcoming reminders.
   */
  ghost predicate Synced(calls: seq<PluginCall>, calls0: seq<PluginCall>, pending: map<int, Alarm>,
                         before: map<int, Alarm>, rejected: set<int>, reminders: seq<Reminder>, now: Instant)
  {
    |calls0| <= |calls| && calls[..|calls0|] == calls0 &&
    SyncedCalls(calls[|calls0|..], before.Keys, ExpectedIds(reminders, now)) &&
    Reconciled(pending, before, ExpectedIds(reminders, now), rejected, Upcoming(reminders, now))
  }

  /** The scheduling loop followed by the closing cancel is a whole sync. */
  lemma SyncCompletes(calls0: seq<PluginCall>, made: seq<PluginCall>, cancels: seq<PluginCall>,
                      before: map<int, Alarm>, pending: map<int, Alarm>, rejected: set<int>,
                      reminders: seq<Reminder>, now: Instant)
    requires ScheduleCalls(made, before.Keys, ExpectedIds(reminders, now))
    requires forall id :: id in ExpectedIds(reminders, now) - before.Keys ==> Attempted(made, id)
    requires cancels == if before.Keys - ExpectedIds(reminders, now) == {} then []
                        else [Cancelled(before.Keys - ExpectedIds(reminders, now))]
    requires PendingSoFar(pending, before, ExpectedIds(reminders, now), rejected, Upcoming(reminders, now))
    ensures Synced(calls0 + made + cancels, calls0, pending - (before.Keys - ExpectedIds(reminders, now)),
                   before, rejected, reminders, now)
  {
    var calls := calls0 + made + cancels;
    StaleCancelCompletes(made, cancels, before.Keys, ExpectedIds(reminders, now));
    assert calls[..|calls0|] == calls0;
    assert calls[|calls0|..] == made + cancels;
    ReconciledAfterCancel(pending, before, ExpectedIds(reminders, now), rejected, Upcoming(reminders, now));
  }

  lemma ReconciledAfterCancel(pending: map<int, Alarm>, before: map<int, Alarm>, expected: set<int>,
                              rejected: set<int>, upcoming: seq<Reminder>)
    requires PendingSoFar(pending, before, expected, rejected, upcoming)
    ensures Reconciled(pending - (before.Keys - expected), before, expected, rejected, upcoming)
  {
  }

  /** The reminders `syncNativeReminders` keeps alarms for: open, with a fire date after `now`. */
  function Upcoming(reminders: seq<Reminder>, now: Instant): (r: seq<Reminder>)
    ensures forall x :: x in r <==> x in reminders && !x.completed && FiresAfter(x, now)
  {
    if reminders == [] then []
    else
      var rest := Upcoming(reminders[1..], now);
      if !reminders[0].completed && FiresAfter(reminders[0], now) then [reminders[0]] + rest else rest
  }

  /** The derived ids of `reminders`. */
  function IdsOf(reminders: seq<Reminder>): (ids: set<int>)
    ensures forall id :: id in ids <==> exists r :: r in reminders && AlarmId(r.id) == id
  {
    if reminders == [] then {}
    else
      var last := reminders[|reminders| - 1];
      var prefix := reminders[..|reminders| - 1];
      assert forall r :: r in reminders <==> r in prefix || r == last;
      IdsOf(prefix) + {AlarmId(last.id)}
  }

  lemma IdsOfExtend(rs: seq<Reminder>, i: int)
    requires 0 <= i < |rs|
    ensures IdsOf(rs[..i + 1]) == IdsOf(rs[..i]) + {AlarmId(rs[i].id)}
    ensures rs[i] in rs
  {
    assert rs[..i + 1][..i] == rs[..i];
  }

  /** The ids a sync expects to be pending afterwards. */
  function ExpectedIds(reminders: seq<Reminder>, now: Instant): set<int> {
    IdsOf(Upcoming(reminders, now))
  }

  /** Some call in `calls` schedules an alarm under `id`. */
  predicate Attempted(calls: seq<PluginCall>, id: int) {
    exists k :: 0 <= k < |calls| && calls[k].Scheduled? && calls[k].alarm.id == id
  }

  /**
   * The calls of the scheduling loop: a cancel of one id followed by a schedule under that id, for
   * expected ids that were not pending when the sync began, and nothing else.
   */
  predicate ScheduleCalls(calls: seq<PluginCall>, pendingIds: set<int>, expected: set<int>) {
    |calls| % 2 == 0 &&
    forall k :: 0 <= k < |calls| / 2 ==>
      calls[2 * k].Cancelled? && calls[2 * k + 1].Scheduled? &&
      calls[2 * k].ids == {calls[2 * k + 1].alarm.id} &&
      calls[2 * k + 1].alarm.id in expected && calls[2 * k + 1].alarm.id !in pendingIds
  }

  /**
   * The calls of a whole sync: the scheduling loop's, then, when some pending id is not expected,
   * one cancel of exactly the pending ids that are not expected.
   */
  predicate SyncedCalls(calls: seq<PluginCall>, pendingIds: set<int>, expected: set<int>) {
    (forall id :: id in expected - pendingIds ==> Attempted(calls, id)) &&
    if pendingIds - expected == {} then ScheduleCalls(calls, pendingIds, expected)
    else
      calls != [] && calls[|calls| - 1] == Cancelled(pendingIds - expected) &&
      ScheduleCalls(calls[..|calls| - 1], pendingIds, expected)
  }

  lemma ScheduleCallsAppend(calls: seq<PluginCall>, pendingIds: set<int>, expected: set<int>, expected': set<int>,
                            id: int, alarm: Alarm)
    requires ScheduleCalls(calls, pendingIds, expected) && expected <= expected'
    requires alarm.id == id && id in expected' && id !in pendingIds
    ensures ScheduleCalls(calls + [Cancelled({id}), Scheduled(alarm)], pendingIds, expected')
    ensures Attempted(calls + [Cancelled({id}), Scheduled(alarm)], id)
    ensures forall x :: Attempted(calls, x) ==> Attempted(calls + [Cancelled({id}), Scheduled(alarm)], x)
  {
    var calls' := calls + [Cancelled({id}), Scheduled(alarm)];
    assert calls'[|calls| + 1] == Scheduled(alarm);
    forall k | 0 <= k < |calls'| / 2
      ensures calls'[2 * k].Cancelled? && calls'[2 * k + 1].Scheduled? &&
        calls'[2 * k].ids == {calls'[2 * k + 1].alarm.id} &&
        calls'[2 * k + 1].alarm.id in expected' && calls'[2 * k + 1].alarm.id !in pendingIds
    {
      if k < |calls| / 2 {
        assert calls'[2 * k] == calls[2 * k] && calls'[2 * k + 1] == calls[2 * k + 1];
      }
    }
    forall x | Attempted(calls, x) ensures Attempted(calls', x) {
      var k :| 0 <= k < |calls| && calls[k].Scheduled? && calls[k].alarm.id == x;
      assert calls'[k] == calls[k];
    }
  }

  /**
   * A sync whose expected ids are exactly the pending ones makes no plugin call: the second of two
   * syncs with the same reminders and the same `now` is quiet once the first one's schedules took.
   */
  /** A sync that the platform accepts in full leaves exactly the expected ids pending. */
  lemma SyncedAccepted(calls: seq<PluginCall>, calls0: seq<PluginCall>, pending: map<int, Alarm>,
                       before: map<int, Alarm>, rejected: set<int>, reminders: seq<Reminder>, now: Instant)
    requires Synced(calls, calls0, pending, before, rejected, reminders, now)
    requires forall id :: id in ExpectedIds(reminders, now) ==> id !in rejected
    ensures pending.Keys == ExpectedIds(reminders, now)
  {
    ReconciledAccepted(pending, before, ExpectedIds(reminders, now), rejected, Upcoming(reminders, now));
  }

  /** A sync that starts with exactly the expected ids pending makes no call and changes no alarm. */
  lemma SyncedInStep(calls: seq<PluginCall>, calls0: seq<PluginCall>, pending: map<int, Alarm>,
                     before: map<int, Alarm>, rejected: set<int>, reminders: seq<Reminder>, now: Instant)
    requires Synced(calls, calls0, pending, before, rejected, reminders, now)
    requires before.Keys == ExpectedIds(reminders, now)
    ensures calls == calls0 && pending == before
  {
    var expected := ExpectedIds(reminders, now);
    QuietWhenInStep(calls[|calls0|..], before.Keys, expected);
    assert calls == calls0 + calls[|calls0|..];
    ReconciledInStep(pending, before, expected, rejected, Upcoming(reminders, now));
  }

  lemma QuietWhenInStep(calls: seq<PluginCall>, pendingIds: set<int>, expected: set<int>)
    requires pendingIds == expected
    requires SyncedCalls(calls, pendingIds, expected)
    ensures calls == []
  {
    assert pendingIds - expected == {};
    if calls != [] {
      ScheduleCallsFirst(calls, pendingIds, expected);
      assert false;
    }
  }

  /** A non-empty scheduling log starts with a schedule under an expected id that was not pending. */
  lemma ScheduleCallsFirst(calls: seq<PluginCall>, pendingIds: set<int>, expected: set<int>)
    requires ScheduleCalls(calls, pendingIds, expected) && calls != []
    ensures |calls| >= 2 && calls[1].Scheduled? && calls[1].alarm.id in expected - pendingIds
  {
    var k := 0;
    assert 0 <= k < |calls| / 2;
    assert calls[2 * k].Cancelled? && calls[2 * k + 1].Scheduled?;
    assert calls[2 * k + 1].alarm.id in expected && calls[2 * k + 1].alarm.id !in pendingIds;
  }
}
