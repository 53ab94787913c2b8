# Daily Blessing stores in Dafny

A model of the two persistence-backed list stores of the Daily Blessing mobile
app. Each is written as a state machine over a list of records.

- **Archive store** (`useArchive`). It holds archived `Message` records, newest
  first. It loads the list from storage, prepends a message (`archiveMessage`)
  and flips `isFavorite` on matching ids (`toggleFavorite`).
- **Reminder store** (`useReminders`). It holds `Reminder` records. It loads,
  appends (`addReminder`), flips `enabled` (`toggleReminder`) and removes by id
  (`deleteReminder`). It also drives the notification scheduler:
  `scheduleReminder` issues one weekly repeating trigger per entry of `days`,
  with weekday `day + 1` and the hour and minute parsed from the `"HH:mm"` time.

Each store is a class (`Archive.ArchiveStore`, `Reminders.ReminderStore`) with:
- the in-memory list;
- `loading` and a sticky `error`;
- `persisted`, the value under the store's storage key (`None` when the key is absent).

The reminder store also has `log`, every call issued to the scheduler, oldest
first. Whether a storage read or write succeeds is a `bool` parameter of each
operation. So is whether the platform is the web (`Platform.OS === 'web'`).

The list transforms are pure functions: prepend, favorite map, enabled map,
filter by id. The operations are methods whose `ensures` give the whole new
state. The mutations share one pattern:
- a successful write replaces both `persisted` and the list, and leaves `error` alone;
- a failed write leaves both unchanged and sets the operation's fixed error string;
- nothing ever resets `error` to `None`.

`scheduleReminder` and the side-effecting `map` inside `toggleReminder` are
loops. Their invariants relate the prefix already walked to the calls issued so far.

Points of the code's behaviour that the model keeps as they are:
- `archiveMessage` and `toggleFavorite` write first. They call `setMessages`
  only after the write has succeeded (hooks/useArchive.ts:37-38, 49-50).
- A failed load keeps the current list, which is empty at start
  (hooks/useArchive.ts:28-31, hooks/useReminders.ts:30-33).
- Toggling flips every entry whose id matches, not just the first
  (hooks/useArchive.ts:46-48, hooks/useReminders.ts:74-76).
- `deleteReminder` cancels only off the web (hooks/useReminders.ts:99-101).
  The disable branch of `toggleReminder` cancels on every platform
  (hooks/useReminders.ts:81). Scheduling is skipped on the web in both
  (hooks/useReminders.ts:37-39).

## Model

| member | source | states |
|---|---|---|
| Archive.Prepend | hooks/useArchive.ts:36 | the new list has one more entry, the message at index 0 and the old list after it in order; as a multiset it is the old one plus the message, with no duplicate check |
| Archive.ArchiveAllNewestFirst | hooks/useArchive.ts:34-38 | archiving m1..mn one after another gives [mn, ..., m1] in front of the old list |
| Archive.ToggleFavoriteIn | hooks/useArchive.ts:46-48 | length and order are kept and non-matching entries are unchanged; each entry whose id matches gets `isFavorite` set to the negated truthiness of its old flag (absent counts as false), with its other fields unchanged |
| Archive.ToggleFavoriteUnknownId | hooks/useArchive.ts:46-48 | an id that matches no entry gives an element-wise identical list |
| Archive.ToggleFavoriteTwiceAt | hooks/useArchive.ts:47 | after toggling an id twice, each matching entry has its truthiness restored, with an absent flag coming back as `false` rather than absent; other entries are untouched |
| Archive.ToggleFavoriteTwiceRestores | hooks/useArchive.ts:47 | toggling an id twice gives back the very same list exactly when every matching entry had its flag present |
| Archive.ArchiveStore.constructor | hooks/useArchive.ts:13-15 | the hook starts with an empty list, `loading` true and no error |
| Archive.ArchiveStore.LoadMessages | hooks/useArchive.ts:21-32 | a stored list replaces the in-memory one; an absent key keeps it; a failed read sets "Failed to load archived messages"; `loading` is false on both paths |
| Archive.ArchiveStore.ArchiveMessage | hooks/useArchive.ts:34-42 | write succeeds: the list and the stored value are the message prepended to the old list, error kept; write fails: list and storage unchanged, error "Failed to archive message" |
| Archive.ArchiveStore.ToggleFavorite | hooks/useArchive.ts:44-54 | write succeeds: the list and the stored value are the favorite-toggled old list, error kept; write fails: list and storage unchanged, error "Failed to update favorite status" |
| Reminders.ParseTimeFields | hooks/useReminders.ts:41 | `ParseTime`: any two non-empty digit fields around one ':', of any length, form a well-formed time, and parsing it reads the text before the ':' as the hour and the text after it as the minute, each as a decimal number |
| Reminders.ParseFormatRoundTrip | hooks/useReminders.ts:41 | the "HH:mm" text of an hour and a minute below 100 is well formed, and splitting it at ':' and reading both fields as decimal numbers gives them back |
| Reminders.DayTriggers | hooks/useReminders.ts:43-56 | exactly one call per entry of `days`, in order, duplicates included; each one schedules the fixed title and body with weekday `day + 1`, the given hour and minute, and `repeats` true |
| Reminders.ScheduleCalls | hooks/useReminders.ts:36-57 | on the web no call at all; elsewhere exactly `|days|` calls |
| Reminders.ScheduleCallsAt | hooks/useReminders.ts:41-55 | off the web, call k schedules the fixed title and body on weekday `days[k] + 1` at the parsed hour and minute with `repeats` true; day indices 0..6 become weekdays 1..7 |
| Reminders.ToggleEnabled | hooks/useReminders.ts:74-86 | the toggled list has the length of the old one |
| Reminders.ToggleEnabledAt | hooks/useReminders.ts:74-86 | entry k of the toggled list is the old entry when its id differs, and the old entry with `enabled` negated and every other field kept when it matches |
| Reminders.ToggleEnabledTwice | hooks/useReminders.ts:76 | toggling the same id twice gives back the original list |
| Reminders.EntryToggleCallsKinds | hooks/useReminders.ts:77-82 | `EntryToggleCalls`, the calls for one matching entry: they are the single `Cancel(id)` exactly when the entry was enabled; otherwise every call schedules the fixed title and body on a repeating trigger |
| Reminders.ToggleCallsKinds | hooks/useReminders.ts:74-86 | `ToggleCalls`, the calls of the whole `map`: each one is `Cancel(id)` or, off the web only, a repeating trigger with the fixed title and body; on the web only cancellations are issued |
| Reminders.ToggleCallsNoMatch | hooks/useReminders.ts:74-86 | toggling an id that matches no reminder issues no scheduler call |
| Reminders.ToggleCallsSingle | hooks/useReminders.ts:74-86 | with exactly one reminder carrying the id, toggling issues that reminder's weekly triggers when it was disabled, and one `Cancel(id)` when it was enabled |
| Reminders.ToggleCycle | hooks/useReminders.ts:72-92 | for an enabled reminder with a unique id, one toggle issues only `Cancel(id)`; a second toggle re-issues exactly the original triggers and restores the list |
| Reminders.RemoveId | hooks/useReminders.ts:96 | no survivor carries the id, and an entry survives exactly when it was in the list and its id differs |
| Reminders.RemoveIdAppend | hooks/useReminders.ts:96 | removal works piecewise over a concatenation, so the survivors keep their relative order |
| Reminders.RemoveIdAbsent | hooks/useReminders.ts:96 | deleting an id no entry carries leaves the list equal |
| Reminders.RemoveIdIdempotent | hooks/useReminders.ts:96 | deleting the same id twice equals deleting it once |
| Reminders.ReminderStore.constructor | hooks/useReminders.ts:15-17 | the hook starts with an empty list, `loading` true, no error and no scheduler call |
| Reminders.ReminderStore.LoadReminders | hooks/useReminders.ts:23-34 | a stored list replaces the in-memory one; an absent key keeps it; a failed read sets "Failed to load reminders"; `loading` is false on both paths; no scheduler call |
| Reminders.ReminderStore.ScheduleReminder | hooks/useReminders.ts:36-57 | the log grows by exactly the calls `ScheduleCalls` describes: none on the web, otherwise one trigger per day in order |
| Reminders.ReminderStore.AddReminder | hooks/useReminders.ts:59-70 | write succeeds: list and storage become old + [reminder], and the reminder's triggers are logged only if it is enabled; write fails: no list, storage or log change, error "Failed to add reminder" |
| Reminders.ReminderStore.ToggleEntry | hooks/useReminders.ts:74-86 | the `map` callback: a matching entry comes back flipped, after its triggers are logged if it became enabled or `Cancel(id)` if it became disabled; any other entry comes back as it was, with nothing logged |
| Reminders.ReminderStore.MapToggle | hooks/useReminders.ts:74-86 | walking the whole list yields exactly the toggled list and logs every match's calls in list order |
| Reminders.ReminderStore.ToggleReminder | hooks/useReminders.ts:72-92 | the scheduler calls for every match are logged before the write, whatever its outcome; write succeeds: list and storage become the enabled-toggled list; write fails: both unchanged, error "Failed to update reminder" |
| Reminders.ReminderStore.DeleteReminder | hooks/useReminders.ts:94-105 | write succeeds: list and storage lose every entry with the id, and `Cancel(id)` is logged only off the web; write fails: no list, storage or log change, error "Failed to delete reminder" |

## Left out

- hooks/useNotifications.ts is not part of this model. It holds handler registration, listener wiring, the permission request and a daily cancel-all-then-schedule call, and has no logic of its own.
- Storage text is not modelled: `JSON.stringify` and `JSON.parse` are left out. The stored value is the record list itself. A failed read or parse is the `readOk` parameter; a failed write is the `writeOk` parameter.
- A rejected scheduler call is not modelled; every issued call is taken as accepted. In `addReminder`, a rejection would stop the day loop and set "Failed to add reminder" after the list had already changed. In `toggleReminder` the promise is not awaited, so a rejection never reaches the catch.
- The effect of `Cancel(id)` on live triggers is not modelled. `scheduleNotificationAsync` is called without an identifier, so nothing shows that cancelling by the reminder id removes those triggers. The log records issued calls only.
- Storage belongs to one store object here: `persisted` is a field of each store. The app creates a separate `useArchive()` hook on each of three screens over the same storage key (app/(tabs)/index.tsx:14, app/(tabs)/archive.tsx:8, app/(tabs)/reminders.tsx:12). So the model cannot show one hook writing its stale list over another's. One example: `toggleFavorite` on the archive screen can drop a message that the home screen archived after the archive screen had loaded.
- Asynchronous interleaving is not modelled. This covers overlapping calls on one store, the stale `reminders`/`messages` closure of the React state, and the React `useState`/`useEffect` lifecycle. Each operation is one atomic step.
- Order within `toggleReminder`'s log is simplified. There, `scheduleReminder` runs without `await`, so a match's later triggers may really be issued after the next match's calls or after the write. The model logs each match's calls together, in list order.
- ScheduleReminder, AddReminder and ToggleReminder require a well-formed time (two non-empty decimal fields around one ':') wherever they actually schedule off the web. For AddReminder that means only after a successful write of an enabled reminder. This precondition also excludes some strings the code does turn into numbers: "7:30:00" gives 7 and 30, because the destructuring ignores a third field; ":30" gives hour 0, because `Number("")` is 0; " 7:30" gives 7, because `Number` trims spaces. Other strings give NaN, a negative, fractional or hexadecimal value, or an undefined minute: "-1:30" gives hour -1, "7.5:30" gives 7.5, "0x10:30" gives 16, "1e1:30" gives 10, "7:" gives minute 0 and "7" leaves the minute undefined. What the platform does with such values is library behaviour. The only caller passes '09:00' (app/(tabs)/reminders.tsx:19).
- ScheduleReminder, ScheduleCalls and ParseTime read a digit field of any length exactly, as an unbounded integer (ParseTimeFields). `Number` yields a double, so a field above 2^53 is rounded: for "9007199254740993:00" the code passes hour 9007199254740992 while the model logs 9007199254740993. Double rounding is not modelled.
- Hours above 23 or minutes above 59 are passed through unchecked, as the code does. Day indices outside 0..6 are passed through the same way.
- Search and category filtering of the archive belong to the screens, not to the stores, and are left out.
