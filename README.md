# BreatheBar reminder scheduling and popover coordination, in Dafny

BreatheBar is a macOS menu-bar app for breathing exercises. This project models its non-UI core:

- **`ReminderClock`** (`clock.dfy`): the arithmetic that finds the next hourly reminder. At the configured minute past the current hour, second 0. If that instant is not strictly after now, one hour later. Instants are whole seconds read in the local zone, which is taken to have a whole-hour offset, so the hour holding `t` starts at `t - t % 3600`. Flooring Swift's fractional `Date` to a whole second does not change the outcome of the `<=` comparison against a whole-minute instant.
- **`Preferences`** (`preferences.dfy`): `PreferencesManager`, a class with the stored settings and a log of what its property observers announce. The log holds `ObjectWillChange` for each explicit `objectWillChange.send()` and `ReminderSettingsChanged` for each posted notification. Its invariant `Valid()` says the default duration's name is `DurationName` of its value.
- **`Popover`** (`popover.dfy`): `PopoverManager`, a class with `isShown` (the popover's visibility), `reminderTimer` (the single pending timer, as the instant it is due, or `None`) and `log`. The log lists, in order, what the manager asks of the popover (`Show`, `Close`) and posts to the animation surface (`StartAnim`, `StopAnim`).
- **`App`** (`app.dfy`): runs of the whole app over both classes. It also holds the wiring of the `reminderSettingsChanged` notification to its handler (see Findings).

The current time, whether a status-bar button exists, the sender of a click and the mouse event are parameters. The source reads them from `Date()`, `NSStatusItem`, the action's sender and `NSApp.currentEvent`.

Three things the code does that one might not expect, and that the model keeps:
- A close request does not stop the animation, though a primary click on a shown popover does. The close request only closes a shown popover.
- The code keeps only the boolean `isShown`. Whether the animation plays is the animation surface's state, so there is no three-valued `Hidden`/`ShownIdle`/`ShownAnimating` state. A transition is stated as the new `isShown` plus the commands that call appends.
- Changing a reminder preference does not re-arm the timer. Re-arming happens at start-up, when the app becomes active, on `updateReminderSettings`, and after a reminder fires.

## Model

| member | source | states |
|---|---|---|
| `ReminderClock.NextReminderInstant` | BreatheBar/PopoverManager.swift:102-117 | For a minute in 0..59, the result is strictly after `now` and at most 3600 s after it. It is a mark: `r % 3600 == minute * 60`, so its minute-of-hour is `minute` and its second is 0 |
| `ReminderClock.NextIsEarliestMark` | BreatheBar/PopoverManager.swift:105-114 | Every mark of the minute strictly after `now` is at or after the next reminder instant |
| `ReminderClock.NextReminderCharacterised` | BreatheBar/PopoverManager.swift:102-117 | Both directions: `t` is the next reminder instant exactly when `t` is the earliest mark of the minute strictly after `now` |
| `ReminderClock.OnMarkMovesOneHour` | BreatheBar/PopoverManager.swift:112-114 | When `now` is exactly on the mark, the result is `now + 3600`, because the comparison is `<=` |
| `ReminderClock.LateFireCatchesUp` | BreatheBar/PopoverManager.swift:96-114 | Re-arming at any `now` at or after a mark `t` gives `t` plus a whole number `(now - t) / 3600 + 1` of hours. Late by under an hour, that is the next mark |
| `ReminderClock.OnTimeFires` | BreatheBar/PopoverManager.swift:96-99 | The instants of `fires` consecutive fire-then-re-arm rounds that each go off when due: exactly `fires` instants, each one on the mark |
| `ReminderClock.OnTimeFiresAreHourly` | BreatheBar/PopoverManager.swift:96-114 | In that chain the k-th fire is exactly k hours after the first, so the one-shot re-arming keeps an hourly cadence that does not drift |
| `ReminderClock.NextIsMonotone` | BreatheBar/PopoverManager.swift:102-117 | A later `now` never gives an earlier reminder instant |
| `ReminderClock.RearmBeforeDueIsStable` | BreatheBar/PopoverManager.swift:88-100 | Re-arming at any time before the pending reminder is due schedules that same instant again |
| `ReminderClock.QuarterPastScenario` | BreatheBar/PopoverManager.swift:102-117 | On any day, at 14:37:00 with minute 15, the next reminder is at 15:15:00 that day |
| `ReminderClock.OnTheHourScenario` | BreatheBar/PopoverManager.swift:102-117 | On any day, at 14:10:00 with minute 0, the next reminder is at 15:00:00 |
| `Preferences.DurationName` | BreatheBar/PrefsManager.swift:23-30 | The name of a preset value (20 Short, 60 Medium, 180 Long, from the `Presets` table) is that preset's name. The name is "Custom" exactly when the value is no preset, so every other integer maps to "Custom" |
| `Preferences.PresetNamesDistinct` | BreatheBar/PrefsManager.swift:23-30 | Two values with the same non-"Custom" name are equal |
| `Preferences.PreferencesManager.constructor` | BreatheBar/PrefsManager.swift:4-47 | Defaults: duration 60 named "Medium" (so `Valid()` holds), `startOnPress` on, reminders off, minute 0, nothing announced |
| `Preferences.PreferencesManager.SetDefaultDurationValue` | BreatheBar/PrefsManager.swift:5-11 | After assigning the value, from any state, the value is stored, the name is `DurationName` of it, `Valid()` holds, and one `ObjectWillChange` is announced. Nothing else changes |
| `Preferences.PreferencesManager.GetDefaultDuration` | BreatheBar/PrefsManager.swift:13-14 | Reading gives exactly (stored name, stored value). Under `Valid()` the name is `DurationName` of the value |
| `Preferences.PreferencesManager.SetDefaultDuration` | BreatheBar/PrefsManager.swift:15-19 | Assigning `(name, value)` stores `value`. The stored name ends as `DurationName(value)`, not `name`. Two `ObjectWillChange` are announced |
| `Preferences.PreferencesManager.SetStartOnPress` | BreatheBar/PrefsManager.swift:36 | Stores the flag. Nothing is announced and nothing else changes |
| `Preferences.PreferencesManager.SetEnableHourlyReminders` | BreatheBar/PrefsManager.swift:42-46 | Stores the flag and announces exactly one `ReminderSettingsChanged`. Nothing else changes |
| `Preferences.PreferencesManager.SetReminderMinute` | BreatheBar/PrefsManager.swift:47-51 | Stores the minute, unchecked, and announces exactly one `ReminderSettingsChanged`. Nothing else changes |
| `Popover.IsRightClick` | BreatheBar/PopoverManager.swift:53 | A right-button release or a Control-held click counts as a right-click. A primary click does not, and when there is no current event at all the click counts as primary |
| `Popover.ArmedTimer` | BreatheBar/PopoverManager.swift:88-100 | The timer slot after arming is empty exactly when reminders are off. Otherwise it holds one instant: after `now`, within an hour, on the mark |
| `Popover.PopoverManager.constructor` | BreatheBar/PopoverManager.swift:12-21 | Starts hidden with nothing issued, and with the timer armed for `now` and the current preferences |
| `Popover.PopoverManager.TogglePopover` | BreatheBar/PopoverManager.swift:50-72 | No button: nothing changes. Shown, primary click: `StopAnim` then `Close`, then hidden. Shown, right or Control click: nothing changes. Hidden: shown after `Show`, followed by `StartAnim` exactly when the click is primary, `startOnPress` is on and there is a sender |
| `Popover.PopoverManager.HandlePopoverCloseRequested` | BreatheBar/PopoverManager.swift:80-86 | Afterwards hidden. `Close` is issued only if the popover was shown, and never `StopAnim` |
| `Popover.PopoverManager.SetupReminderTimer` | BreatheBar/PopoverManager.swift:88-100 | The previous timer is discarded. Afterwards no timer is pending when reminders are off. Otherwise exactly one is, due at `NextReminderInstant(now, reminderMinute)` |
| `Popover.PopoverManager.ShowReminder` | BreatheBar/PopoverManager.swift:125-133 | With a button: shown, with `Show`, `StartAnim` issued whatever `startOnPress` says. Without one: nothing changes |
| `Popover.PopoverManager.Fire` | BreatheBar/PopoverManager.swift:96-99 | A due timer going off shows the reminder and re-arms from the firing time. If reminders are still on, the new timer is later than the old one, and whole hours after it when the minute is unchanged |
| `Popover.PopoverManager.UpdateReminderSettings` | BreatheBar/PopoverManager.swift:140-142 | Re-arms exactly as `SetupReminderTimer` does |
| `Popover.PopoverManager.ReminderSettingsChanged` | BreatheBar/PopoverManager.swift:135-137 | The unregistered handler: re-arms exactly as `SetupReminderTimer` does |
| `App.SetEnableHourlyRemindersObserved` | BreatheBar/PrefsManager.swift:42-46 | With the handler registered, assigning the flag announces the change and re-arms. Turning reminders off leaves no timer pending |
| `App.SetReminderMinuteObserved` | BreatheBar/PrefsManager.swift:47-51 | With the handler registered, assigning the minute re-arms for the new minute |
| `App.StartWithReminders` | BreatheBar/PopoverManager.swift:12-21 | Started at 10:30:00 with reminders on for minute 0, the pending timer is due at 11:00:00 |
| `App.StaleReminderAfterDisabling` | BreatheBar/PopoverManager.swift:23-35 | As written: reminders turned off before 11:00, with nothing re-arming in between, still leave the 11:00 timer pending. It goes off and issues `Show`, `StartAnim`, and only then is no timer pending |
| `App.DisablingCancelsReminder` | BreatheBar/PopoverManager.swift:135-137 | With the handler registered, turning reminders off at 10:40 leaves no timer pending |
| `App.ReminderRearmsHourly` | BreatheBar/PopoverManager.swift:96-99 | Two `Fire` calls, on time at 11:00:00 and 12:00:00, each show the popover and start the animation. They re-arm for 12:00:00 and then 13:00:00, which are the second and third instants of `OnTimeFires` from the 10:30:00 start |
| `App.PrimaryClickOnHidden` | BreatheBar/PopoverManager.swift:62-69 | A primary click on the hidden popover shows it. The animation starts exactly when `startOnPress` is on |
| `App.RightClickOnHidden` | BreatheBar/PopoverManager.swift:62-69 | A right-click on the hidden popover shows it and never starts the animation, whatever `startOnPress` says |
| `App.ReminderThenClicks` | BreatheBar/PopoverManager.swift:50-72 | With `startOnPress` off, a reminder starts the animation. A right-click keeps the popover open. A primary click stops the animation and closes the popover |
| `App.CloseRequestAfterReminder` | BreatheBar/PopoverManager.swift:80-86 | A close request after a reminder closes the popover without `StopAnim`. A second request issues nothing |
| `App.NoButtonDoesNothing` | BreatheBar/PopoverManager.swift:51 | Without a status-bar button, neither a click nor a reminder shows anything or issues a command |
| `App.DurationNameFollowsValue` | BreatheBar/PrefsManager.swift:5-19 | Assigning `("Medium", 90)` stores the name "Custom". Then assigning 180 gives "Long" |

## Findings

| source | as written | input that shows it | evidently intended | confidence | as-written member | corrected member |
|---|---|---|---|---|---|---|
| BreatheBar/PopoverManager.swift:23-35 | `init` registers handlers only for became-active and close requests. The `reminderSettingsChanged` notification that the preference observers post (BreatheBar/PrefsManager.swift:42-51) is never routed to its handler `reminderSettingsChanged` (lines 135-137) | Reminders on for minute 0, manager armed at 10:30 for 11:00. Reminders turned off before 11:00, with nothing re-arming in between (no became-active event, no `updateReminderSettings` call) | The posted notification re-arms the timer, so turning reminders off cancels the pending reminder | not executed; medium, because a caller of `updateReminderSettings` outside these files would also cover it | `App.StaleReminderAfterDisabling` | `App.SetEnableHourlyRemindersObserved` |

## Left out

- AppKit objects (`NSStatusItem`, `NSPopover`, `createStatusBarItem`, `NSApp.currentEvent`) are not modelled. Whether a button exists, the sender and the current mouse event are parameters.
- The popover's `.transient` behaviour is left out. AppKit can close the popover on an outside click without telling the manager, and the model has no operation for that.
- Observers of `stopAnimationRequested` run before the second `isShown` check in `togglePopover` and could close the popover themselves. The model has no such observers, so that check always holds.
- `Timer`, run loops and `DispatchQueue.main.asyncAfter` are left out. The 0.05 s delay before a start-animation post is modelled as an immediate log entry, so a start arriving after a later close is not captured. A timer is its due instant. The small gap between `Date()` and `timeIntervalSinceNow` is ignored.
- `Popover.PopoverManager.Fire` requires that the pending timer is due. The run loop fires a timer no earlier than its instant. The `[weak self]` capture, which makes a fire after deallocation a no-op, is left out.
- `Calendar.current` is left out: no time zones with sub-hour offsets, no DST gaps, no normalisation of out-of-range minutes. Arming requires a minute in 0..59. The preference picker offers only 0, 15, 30 and 45, but `SetReminderMinute` itself stores any integer.
- `@AppStorage` persistence is left out. The model starts from the defaults. A persisted name and value loaded from disk could disagree, and `Valid()` is re-established only by the next value assignment. The store's own publishing on every write is not in the event log.
- The other stored preferences (`checkForUpdates`, `popoverSize`, `menuBarIcon`, `showBreathCount`, `animationStyle`, `timeBreatheIn`, `timeBreatheHold`, `timeBreatheOut`) have no observers and are not read by the core, so they are left out.
- `setupHourlyReminderTimer` (never called), the empty popover delegate stubs and the unused `shadeWindow` are left out.
- The preferences view, including its duplicate `durationName`, and `KeyboardShortcuts` and `LaunchAtLogin` are not part of this model.
- The became-active observer calls `setupReminderTimer` directly, so it is `Popover.PopoverManager.SetupReminderTimer` and has no member of its own.
