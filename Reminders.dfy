/**
  The reminder store: the list of reminders mirrored to one storage key, plus
  the calls it issues to the platform's notification scheduler, kept as an
  append-only log. Whether the platform is the web is a parameter.
 */
module Reminders {
  import opened Wrappers

  const LoadError := "Failed to load reminders"
  const AddError := "Failed to add reminder"
  const ToggleError := "Failed to update reminder"
  const DeleteError := "Failed to delete reminder"

  const ReminderTitle := "Daily Blessing Reminder"
  const ReminderBody := "Time to reflect on your daily blessing"

  /** A reminder; `time` is "HH:mm" text and `days` holds weekday indices, 0 = Sunday. */
  datatype Reminder = Reminder(id: string, messageId: string, time: string, days: seq<int>, enabled: bool)

  /** A repeating weekly trigger; the scheduler numbers weekdays 1 to 7. */
  datatype Trigger = Trigger(weekday: int, hour: nat, minute: nat, repeats: bool)

  /** One call issued to the notification scheduler. */
  datatype SchedulerCall =
    | Schedule(title: string, body: string, trigger: Trigger)
    | Cancel(id: string)

  // ---------------------------------------------------------------------------
  // Time of day: the "HH:mm" text split at ':' into two decimal numbers
  // ---------------------------------------------------------------------------

  predicate IsDigit(c: char)
  {
    '0' <= c <= '9'
  }

  predicate AllDigits(s: string)
  {
    forall i :: 0 <= i < |s| ==> IsDigit(s[i])
  }

  /** `Number` of a string of decimal digits. */
  function DecimalValue(s: string): nat
    requires AllDigits(s)
  {
    if s == [] then 0 else 10 * DecimalValue(s[..|s| - 1]) + (s[|s| - 1] as int - '0' as int)
  }

  /** Index of the first ':' in `t`, or |t| when there is none. */
  function ColonIndex(t: string): (k: nat)
    ensures k <= |t|
    ensures k < |t| ==> t[k] == ':'
    ensures forall j :: 0 <= j < k ==> t[j] != ':'
  {
    if t == [] || t[0] == ':' then 0 else 1 + ColonIndex(t[1..])
  }

  /** Exactly two non-empty decimal fields around one ':' (digits exclude a second ':'). */
  predicate WellFormedTime(t: string)
  {
    var k := ColonIndex(t);
    0 < k < |t| - 1 && AllDigits(t[..k]) && AllDigits(t[k + 1..])
  }

  /** The hour and minute fields of a well-formed time. */
  function ParseTime(t: string): (hm: (nat, nat))
    requires WellFormedTime(t)
  {
    var k := ColonIndex(t);
    (DecimalValue(t[..k]), DecimalValue(t[k + 1..]))
  }

  function Digit(d: nat): char
    requires d < 10
  {
    ('0' as int + d) as char
  }

  /** Two-digit zero-padded text of a number below 100, as in "09". */
  function TwoDigits(n: nat): string
    requires n < 100
  {
    [Digit(n / 10), Digit(n % 10)]
  }

  /** The "HH:mm" text of an hour and minute below 100. */
  function FormatTime(hour: nat, minute: nat): string
    requires hour < 100 && minute < 100
  {
    TwoDigits(hour) + ":" + TwoDigits(minute)
  }

  lemma TwoDigitsValue(n: nat)
    requires n < 100
    ensures AllDigits(TwoDigits(n)) && DecimalValue(TwoDigits(n)) == n
  {
    var s := TwoDigits(n);
    assert s[..1] == [Digit(n / 10)] && s[..1][..0] == [];
    assert DecimalValue(s[..1]) == n / 10;
    assert DecimalValue(s) == 10 * (n / 10) + n % 10;
  }

  /** The first ':' after a run of digits is the one that ends the run. */
  lemma {:induction false} ColonIndexAfterDigits(h: string, rest: string)
    requires AllDigits(h)
    ensures ColonIndex(h + ":" + rest) == |h|
  {
    if h != [] {
      assert (h + ":" + rest)[1..] == h[1..] + ":" + rest;
      ColonIndexAfterDigits(h[1..], rest);
    }
  }

  /**
    Any two non-empty digit fields around one ':' form a well-formed time, of
    whatever length, and parsing it reads each field as a decimal number.
   */
  lemma ParseTimeFields(h: string, m: string)
    requires h != [] && m != [] && AllDigits(h) && AllDigits(m)
    ensures WellFormedTime(h + ":" + m)
    ensures ParseTime(h + ":" + m) == (DecimalValue(h), DecimalValue(m))
  {
    var t := h + ":" + m;
    ColonIndexAfterDigits(h, m);
    assert t[..|h|] == h;
    assert t[|h| + 1..] == m;
  }

  /** Parsing the "HH:mm" text of an hour and minute gives them back. */
  lemma ParseFormatRoundTrip(hour: nat, minute: nat)
    requires hour < 100 && minute < 100
    ensures WellFormedTime(FormatTime(hour, minute))
    ensures ParseTime(FormatTime(hour, minute)) == (hour, minute)
  {
    var t := FormatTime(hour, minute);
    assert t[0] != ':' && t[1] != ':' && t[2] == ':';
    assert ColonIndex(t[2..]) == 0;
    assert ColonIndex(t[1..]) == 1;
    assert ColonIndex(t) == 2;
    assert t[..2] == TwoDigits(hour);
    assert t[3..] == TwoDigits(minute);
    TwoDigitsValue(hour);
    TwoDigitsValue(minute);
  }

  // ---------------------------------------------------------------------------
  // Scheduling: `scheduleReminder`
  // ---------------------------------------------------------------------------

  /** The call issued for one entry of `days`: weekday `day + 1`, repeating. */
  function DayTrigger(day: int, hour: nat, minute: nat): SchedulerCall
  {
    Schedule(ReminderTitle, ReminderBody, Trigger(day + 1, hour, minute, true))
  }

  /** One repeating trigger per entry of `days`, in order, duplicates included. */
  function DayTriggers(days: seq<int>, hour: nat, minute: nat): (calls: seq<SchedulerCall>)
    ensures |calls| == |days|
    ensures forall k :: 0 <= k < |days| ==>
              calls[k].Schedule? && calls[k].title == ReminderTitle && calls[k].body == ReminderBody &&
              calls[k].trigger == Trigger(days[k] + 1, hour, minute, true)
  {
    if days == [] then [] else DayTriggers(days[..|days| - 1], hour, minute) + [DayTrigger(days[|days| - 1], hour, minute)]
  }

  /** A reminder can be scheduled on this platform: the web skips scheduling, elsewhere the time must parse. */
  predicate CanSchedule(r: Reminder, web: bool)
  {
    web || WellFormedTime(r.time)
  }

  /** The calls `scheduleReminder(r)` issues. */
  function ScheduleCalls(r: Reminder, web: bool): (calls: seq<SchedulerCall>)
    requires CanSchedule(r, web)
    ensures web ==> calls == []
    ensures !web ==> |calls| == |r.days|
  {
    if web then [] else DayTriggers(r.days, ParseTime(r.time).0, ParseTime(r.time).1)
  }

  /**
    Off the web, call k of `scheduleReminder(r)` schedules the fixed title and
    body on weekday `days[k] + 1` at the parsed hour and minute, repeating; a
    day index 0..6 becomes a scheduler weekday 1..7.
   */
  lemma ScheduleCallsAt(r: Reminder, k: nat)
    requires WellFormedTime(r.time) && k < |r.days|
    ensures ScheduleCalls(r, false)[k] ==
            Schedule(ReminderTitle, ReminderBody, Trigger(r.days[k] + 1, ParseTime(r.time).0, ParseTime(r.time).1, true))
    ensures 0 <= r.days[k] <= 6 ==> 1 <= ScheduleCalls(r, false)[k].trigger.weekday <= 7
  {
  }

  // ---------------------------------------------------------------------------
  // List transforms
  // ---------------------------------------------------------------------------

  /** A copy of the reminder with `enabled` negated. */
  function Flipped(r: Reminder): Reminder
  {
    r.(enabled := !r.enabled)
  }

  /** The list built by `toggleReminder(id)`: `enabled` flipped on every matching entry. */
  function ToggleEnabled(rs: seq<Reminder>, id: string): (r: seq<Reminder>)
    ensures |r| == |rs|
  {
    if rs == [] then []
    else
      var last := rs[|rs| - 1];
      ToggleEnabled(rs[..|rs| - 1], id) + [if last.id == id then Flipped(last) else last]
  }

  /**
    Entry k of the toggled list: flipped when its id matches, with every other
    field kept; the entry itself otherwise.
   */
  lemma {:induction false} ToggleEnabledAt(rs: seq<Reminder>, id: string, k: nat)
    requires k < |rs|
    ensures rs[k].id != id ==> ToggleEnabled(rs, id)[k] == rs[k]
    ensures rs[k].id == id ==> ToggleEnabled(rs, id)[k] == rs[k].(enabled := !rs[k].enabled)
  {
    var n := |rs| - 1;
    if k < n {
      ToggleEnabledAt(rs[..n], id, k);
    }
  }

  /** Toggling the same id twice gives back the original list. */
  lemma ToggleEnabledTwice(rs: seq<Reminder>, id: string)
    ensures ToggleEnabled(ToggleEnabled(rs, id), id) == rs
  {
    var once := ToggleEnabled(rs, id);
    var twice := ToggleEnabled(once, id);
    forall k | 0 <= k < |rs| ensures twice[k] == rs[k] {
      ToggleEnabledAt(rs, id, k);
      ToggleEnabledAt(once, id, k);
    }
  }

  /** Every disabled entry with the id, which toggling will enable, can be scheduled. */
  predicate ToggleReady(rs: seq<Reminder>, id: string, web: bool)
  {
    forall k :: 0 <= k < |rs| && rs[k].id == id && !rs[k].enabled ==> CanSchedule(rs[k], web)
  }

  /** A call that schedules the fixed reminder title and body on a repeating weekly trigger. */
  predicate IsReminderTrigger(c: SchedulerCall)
  {
    c.Schedule? && c.title == ReminderTitle && c.body == ReminderBody && c.trigger.repeats
  }

  /** The calls issued while toggling one entry: schedule if it becomes enabled, cancel by id otherwise. */
  function EntryToggleCalls(r: Reminder, id: string, web: bool): seq<SchedulerCall>
    requires r.id == id && (!r.enabled ==> CanSchedule(r, web))
  {
    if !r.enabled then ScheduleCalls(Flipped(r), web) else [Cancel(id)]
  }

  /**
    The calls for one toggled entry are a single cancellation by its id exactly
    when it was enabled; otherwise they are the fixed weekly reminder triggers.
   */
  lemma EntryToggleCallsKinds(r: Reminder, id: string, web: bool)
    requires r.id == id && (!r.enabled ==> CanSchedule(r, web))
    ensures r.enabled <==> EntryToggleCalls(r, id, web) == [Cancel(id)]
    ensures !r.enabled ==> forall k :: 0 <= k < |EntryToggleCalls(r, id, web)| ==> IsReminderTrigger(EntryToggleCalls(r, id, web)[k])
  {
    if !r.enabled && !web {
      var calls := EntryToggleCalls(r, id, web);
      if |calls| == 1 {
        assert calls[0].Schedule?;
      }
    }
  }

  /** The calls `toggleReminder(id)` issues from inside its `map`, in list order. */
  function ToggleCalls(rs: seq<Reminder>, id: string, web: bool): seq<SchedulerCall>
    requires ToggleReady(rs, id, web)
  {
    if rs == [] then []
    else
      var last := rs[|rs| - 1];
      ToggleCalls(rs[..|rs| - 1], id, web) + (if last.id == id then EntryToggleCalls(last, id, web) else [])
  }

  /**
    Toggling issues only cancellations by the toggled id and, off the web, the
    fixed weekly reminder triggers; on the web it issues cancellations only.
   */
  lemma {:induction false} ToggleCallsKinds(rs: seq<Reminder>, id: string, web: bool)
    requires ToggleReady(rs, id, web)
    ensures forall k :: 0 <= k < |ToggleCalls(rs, id, web)| ==>
              ToggleCalls(rs, id, web)[k] == Cancel(id) || (!web && IsReminderTrigger(ToggleCalls(rs, id, web)[k]))
  {
    if rs != [] {
      var n := |rs| - 1;
      assert ToggleReady(rs[..n], id, web);
      ToggleCallsKinds(rs[..n], id, web);
    }
  }

  /** One more entry walked by the toggle loop: its flipped copy and its calls are appended. */
  lemma ToggleStep(rs: seq<Reminder>, id: string, web: bool, i: nat)
    requires i < |rs| && ToggleReady(rs, id, web)
    ensures ToggleReady(rs[..i], id, web) && ToggleReady(rs[..i + 1], id, web)
    ensures ToggleEnabled(rs[..i + 1], id) == ToggleEnabled(rs[..i], id) + [if rs[i].id == id then Flipped(rs[i]) else rs[i]]
    ensures ToggleCalls(rs[..i + 1], id, web) ==
            ToggleCalls(rs[..i], id, web) + (if rs[i].id == id then EntryToggleCalls(rs[i], id, web) else [])
  {
    assert rs[..i + 1][..i] == rs[..i];
  }

  /** An id that matches no reminder issues no scheduler call. */
  lemma {:induction false} ToggleCallsNoMatch(rs: seq<Reminder>, id: string, web: bool)
    requires forall k :: 0 <= k < |rs| ==> rs[k].id != id
    ensures ToggleReady(rs, id, web) && ToggleCalls(rs, id, web) == []
  {
    if rs != [] {
      ToggleCallsNoMatch(rs[..|rs| - 1], id, web);
    }
  }

  /**
    With exactly one reminder carrying the id, toggling issues its weekly
    triggers when it was disabled, and one cancellation when it was enabled.
   */
  lemma {:induction false} ToggleCallsSingle(rs: seq<Reminder>, id: string, web: bool, j: nat)
    requires j < |rs| && rs[j].id == id
    requires forall k :: 0 <= k < |rs| && k != j ==> rs[k].id != id
    requires !rs[j].enabled ==> CanSchedule(rs[j], web)
    ensures ToggleReady(rs, id, web)
    ensures ToggleCalls(rs, id, web) == if rs[j].enabled then [Cancel(id)] else ScheduleCalls(rs[j], web)
  {
    var n := |rs| - 1;
    if j == n {
      ToggleCallsNoMatch(rs[..n], id, web);
    } else {
      ToggleCallsSingle(rs[..n], id, web, j);
      assert rs[..n][j] == rs[j];
    }
  }

  /**
    The enable cycle for a reminder whose id is unique and which starts
    enabled: one toggle cancels it by id, a second toggle re-issues exactly the
    triggers of the original reminder and restores the list.
   */
  lemma ToggleCycle(rs: seq<Reminder>, id: string, web: bool, j: nat)
    requires j < |rs| && rs[j].id == id && rs[j].enabled && CanSchedule(rs[j], web)
    requires forall k :: 0 <= k < |rs| && k != j ==> rs[k].id != id
    ensures ToggleReady(rs, id, web) && ToggleCalls(rs, id, web) == [Cancel(id)]
    ensures ToggleReady(ToggleEnabled(rs, id), id, web)
    ensures ToggleCalls(ToggleEnabled(rs, id), id, web) == ScheduleCalls(rs[j], web)
    ensures ToggleEnabled(ToggleEnabled(rs, id), id) == rs
  {
    ToggleCallsSingle(rs, id, web, j);
    var once := ToggleEnabled(rs, id);
    forall k | 0 <= k < |rs| ensures once[k].id == rs[k].id {
      ToggleEnabledAt(rs, id, k);
    }
    ToggleEnabledAt(rs, id, j);
    ToggleCallsSingle(once, id, web, j);
    ToggleEnabledTwice(rs, id);
  }

  /** The list built by `deleteReminder(id)`: the entries whose id differs, in order. */
  function RemoveId(rs: seq<Reminder>, id: string): (r: seq<Reminder>)
    ensures |r| <= |rs|
    ensures forall k :: 0 <= k < |r| ==> r[k].id != id
    ensures forall x :: x in r <==> x in rs && x.id != id
  {
    if rs == [] then []
    else if rs[0].id == id then RemoveId(rs[1..], id)
    else [rs[0]] + RemoveId(rs[1..], id)
  }

  /** Removal works piecewise on a split list, so the survivors keep their relative order. */
  lemma {:induction false} RemoveIdAppend(a: seq<Reminder>, b: seq<Reminder>, id: string)
    ensures RemoveId(a + b, id) == RemoveId(a, id) + RemoveId(b, id)
  {
    if a == [] {
      assert a + b == b;
    } else {
      assert (a + b)[0] == a[0] && (a + b)[1..] == a[1..] + b;
      RemoveIdAppend(a[1..], b, id);
    }
  }

  /** A list with no entry carrying the id is left unchanged. */
  lemma {:induction false} RemoveIdAbsent(rs: seq<Reminder>, id: string)
    requires forall k :: 0 <= k < |rs| ==> rs[k].id != id
    ensures RemoveId(rs, id) == rs
  {
    if rs != [] {
      RemoveIdAbsent(rs[1..], id);
    }
  }

  /** Deleting the same id twice is the same as deleting it once. */
  lemma RemoveIdIdempotent(rs: seq<Reminder>, id: string)
    ensures RemoveId(RemoveId(rs, id), id) == RemoveId(rs, id)
  {
    RemoveIdAbsent(RemoveId(rs, id), id);
  }

  // ---------------------------------------------------------------------------
  // The store
  // ---------------------------------------------------------------------------

  /** The state of one `useReminders` hook, its storage key and the scheduler calls issued so far. */
  class ReminderStore {
    var reminders: seq<Reminder>
    var loading: bool
    var error: Option<string>
    /** The stored list under the reminder key; None when the key is absent. */
    var persisted: Option<seq<Reminder>>
    /** Every call issued to the notification scheduler, oldest first. */
    var log: seq<SchedulerCall>

    /** The hook's initial state over whatever storage already holds. */
    constructor (stored: Option<seq<Reminder>>)
      ensures reminders == [] && loading && error == None && persisted == stored && log == []
    {
      reminders := [];
      loading := true;
      error := None;
      persisted := stored;
      log := [];
    }

    /**
      `loadReminders`: a stored list replaces the in-memory one, an absent key
      keeps it; a failed read (or parse) sets the load error; loading ends on
      both paths.
     */
    method LoadReminders(readOk: bool)
      modifies this
      ensures !loading && persisted == old(persisted) && log == old(log)
      ensures reminders == if readOk && persisted.Some? then persisted.value else old(reminders)
      ensures error == if readOk then old(error) else Some(LoadError)
    {
      if readOk {
        if persisted.Some? {
          reminders := persisted.value;
        }
        loading := false;
      } else {
        error := Some(LoadError);
        loading := false;
      }
    }

    /** `scheduleReminder`: nothing on the web, else one repeating trigger per entry of `days`. */
    method ScheduleReminder(r: Reminder, web: bool)
      requires CanSchedule(r, web)
      modifies this`log
      ensures log == old(log) + ScheduleCalls(r, web)
    {
      if web {
        return;
      }
      var (hours, minutes) := ParseTime(r.time);
      for i := 0 to |r.days|
        invariant log == old(log) + DayTriggers(r.days[..i], hours, minutes)
      {
        assert r.days[..i + 1][..i] == r.days[..i];
        log := log + [DayTrigger(r.days[i], hours, minutes)];
      }
      assert r.days[..|r.days|] == r.days;
    }

    /**
      `addReminder`: on a successful write the reminder is appended and, when
      enabled, scheduled; a failed write issues nothing and changes no list.
     */
    method AddReminder(r: Reminder, writeOk: bool, web: bool)
      requires writeOk && r.enabled ==> CanSchedule(r, web)
      modifies this
      ensures loading == old(loading)
      ensures writeOk ==> reminders == old(reminders) + [r] && persisted == Some(reminders) && error == old(error)
      ensures writeOk ==> log == old(log) + (if r.enabled then ScheduleCalls(r, web) else [])
      ensures !writeOk ==> reminders == old(reminders) && persisted == old(persisted) && log == old(log)
      ensures !writeOk ==> error == Some(AddError)
    {
      var newReminders := reminders + [r];
      if writeOk {
        persisted := Some(newReminders);
        reminders := newReminders;
        if r.enabled {
          ScheduleReminder(r, web);
        }
      } else {
        error := Some(AddError);
      }
    }

    /**
      The callback of `toggleReminder`'s `map`: a matching entry is flipped and
      then scheduled if now enabled or cancelled by id if now disabled; any
      other entry is returned as it is.
     */
    method ToggleEntry(rem: Reminder, id: string, web: bool) returns (entry: Reminder)
      requires rem.id == id && !rem.enabled ==> CanSchedule(rem, web)
      modifies this`log
      ensures entry == if rem.id == id then Flipped(rem) else rem
      ensures log == old(log) + if rem.id == id then EntryToggleCalls(rem, id, web) else []
    {
      if rem.id == id {
        var updated := Flipped(rem);
        if updated.enabled {
          ScheduleReminder(updated, web);
        } else {
          log := log + [Cancel(id)];
        }
        return updated;
      }
      return rem;
    }

    /**
      The `map` of `toggleReminder` over `rs`: builds the toggled list and
      issues each matching entry's scheduler calls in list order.
     */
    method MapToggle(rs: seq<Reminder>, id: string, web: bool) returns (updated: seq<Reminder>)
      requires ToggleReady(rs, id, web)
      modifies this`log
      ensures updated == ToggleEnabled(rs, id)
      ensures log == old(log) + ToggleCalls(rs, id, web)
    {
      updated := [];
      for i := 0 to |rs|
        invariant ToggleReady(rs[..i], id, web)
        invariant updated == ToggleEnabled(rs[..i], id)
        invariant log == old(log) + ToggleCalls(rs[..i], id, web)
      {
        ToggleStep(rs, id, web, i);
        ghost var before := log;
        var entry := ToggleEntry(rs[i], id, web);
        updated := updated + [entry];
        assert log == old(log) + (ToggleCalls(rs[..i], id, web) + (log[|before|..]));
      }
      assert rs[..|rs|] == rs;
    }

    /**
      `toggleReminder`: maps over the list, flipping each matching entry and
      issuing its scheduler calls on the way, then writes. The calls are issued
      whether or not the write then succeeds.
     */
    method ToggleReminder(id: string, writeOk: bool, web: bool)
      requires ToggleReady(reminders, id, web)
      modifies this
      ensures loading == old(loading)
      ensures log == old(log) + ToggleCalls(old(reminders), id, web)
      ensures writeOk ==> reminders == ToggleEnabled(old(reminders), id) && persisted == Some(reminders) && error == old(error)
      ensures !writeOk ==> reminders == old(reminders) && persisted == old(persisted) && error == Some(ToggleError)
    {
      var updatedReminders := MapToggle(reminders, id, web);
      if writeOk {
        persisted := Some(updatedReminders);
        reminders := updatedReminders;
      } else {
        error := Some(ToggleError);
      }
    }

    /**
      `deleteReminder`: on a successful write every entry with the id is
      removed and, off the web, one cancellation by id is issued.
     */
    method DeleteReminder(id: string, writeOk: bool, web: bool)
      modifies this
      ensures loading == old(loading)
      ensures writeOk ==> reminders == RemoveId(old(reminders), id) && persisted == Some(reminders) && error == old(error)
      ensures writeOk ==> log == old(log) + (if web then [] else [Cancel(id)])
      ensures !writeOk ==> reminders == old(reminders) && persisted == old(persisted) && log == old(log)
      ensures !writeOk ==> error == Some(DeleteError)
    {
      var updatedReminders := RemoveId(reminders, id);
      if writeOk {
        persisted := Some(updatedReminders);
        reminders := updatedReminders;
        if !web {
          log := log + [Cancel(id)];
        }
      } else {
        error := Some(DeleteError);
      }
    }
  }

  /**
    Adding an enabled Monday/Wednesday/Friday reminder at 09:00 appends it and
    issues three triggers, for scheduler weekdays 2, 4 and 6.
   */
  method AddScenario(id: string, messageId: string)
  {
    ParseFormatRoundTrip(9, 0);
    var r := Reminder(id, messageId, FormatTime(9, 0), [1, 3, 5], true);
    var store := new ReminderStore(None);
    store.AddReminder(r, true, false);
    assert store.reminders == [r] && |store.log| == 3;
    assert store.log[0].trigger == Trigger(2, 9, 0, true);
    assert store.log[2].trigger == Trigger(6, 9, 0, true);
  }

  /**
    The enable cycle of a stored reminder: a toggle cancels it by id, a second
    toggle issues its triggers again and restores the list.
   */
  method ToggleScenario(r: Reminder)
    requires r.enabled && WellFormedTime(r.time)
  {
    var store := new ReminderStore(Some([r]));
    store.LoadReminders(true);
    ToggleCycle([r], r.id, false, 0);
    store.ToggleReminder(r.id, true, false);
    assert store.log == [Cancel(r.id)];
    store.ToggleReminder(r.id, true, false);
    assert store.log == [Cancel(r.id)] + ScheduleCalls(r, false);
    assert store.reminders == [r];
  }

  /** Deleting a reminder and reloading from storage leaves no reminder with that id. */
  method DeleteReloadScenario(rs: seq<Reminder>, id: string, web: bool)
  {
    var store := new ReminderStore(Some(rs));
    store.LoadReminders(true);
    store.DeleteReminder(id, true, web);
    store.LoadReminders(true);
    assert forall k :: 0 <= k < |store.reminders| ==> store.reminders[k].id != id;
  }
}
