/**
 * The popover manager: it owns the status-bar popover's visibility and the
 * single pending reminder timer, and tells the animation surface to start
 * or stop.
 *
 * The popover and the animation surface are outside the model; what the
 * manager asks of them is appended to `log`, in order.  The reminder timer
 * is the instant it is due at, or `None` when no timer is pending.
 */
module Popover {
  import opened ReminderClock
  import opened Preferences

  datatype Option<T> = None | Some(value: T)

  /** What the manager asks of the popover (`Show`, `Close`) and posts to the animation (`StartAnim`, `StopAnim`). */
  datatype Command = Show | Close | StartAnim | StopAnim

  /** The mouse event being handled, if any: a right-button release, and whether Control was held. */
  datatype MouseEvent = MouseEvent(rightMouseUp: bool, controlDown: bool)

  /** A right-button release or a Control-click; no event at all counts as neither. */
  function IsRightClick(event: Option<MouseEvent>): (r: bool)
    ensures event.None? ==> !r
    ensures event.Some? && !event.value.rightMouseUp && !event.value.controlDown ==> !r
    ensures event.Some? && (event.value.rightMouseUp || event.value.controlDown) ==> r
  {
    event.Some? && (event.value.rightMouseUp || event.value.controlDown)
  }

  /**
   * The single reminder slot after arming at `now`: empty when reminders are
   * off, otherwise one timer due at the next mark of the configured minute.
   */
  function ArmedTimer(enabled: bool, minute: int, now: int): (slot: Option<int>)
    requires enabled ==> ValidMinute(minute)
    ensures slot.None? <==> !enabled
    ensures slot.Some? ==> now < slot.value <= now + SecondsPerHour && IsMark(slot.value, minute)
  {
    if enabled then Some(NextReminderInstant(now, minute)) else None
  }

  class PopoverManager {
    /** The shared preference store. */
    const prefs: PreferencesManager
    /** Whether the status item has a button; without one nothing can be shown. */
    const hasButton: bool
    /** `popover.isShown`. */
    var isShown: bool
    /** The pending reminder timer, as the instant it is due at. */
    var reminderTimer: Option<int>
    /** Commands issued so far, oldest first. */
    var log: seq<Command>

    /** The popover is only ever shown next to the status-bar button. */
    predicate Valid()
      reads this
    {
      isShown ==> hasButton
    }

    /** The timer slot is what arming at `now` with the current preferences yields. */
    predicate ArmedAt(now: int)
      reads this, prefs
    {
      (prefs.enableHourlyReminders ==> ValidMinute(prefs.reminderMinute)) &&
      reminderTimer == ArmedTimer(prefs.enableHourlyReminders, prefs.reminderMinute, now)
    }

    /** Creates a hidden popover and the status item, then arms the reminder timer. */
    constructor (prefs: PreferencesManager, hasButton: bool, now: int)
      requires prefs.enableHourlyReminders ==> ValidMinute(prefs.reminderMinute)
      ensures this.prefs == prefs && this.hasButton == hasButton
      ensures Valid() && !isShown && log == []
      ensures ArmedAt(now)
    {
      this.prefs := prefs;
      this.hasButton := hasButton;
      isShown := false;
      log := [];
      reminderTimer := ArmedTimer(prefs.enableHourlyReminders, prefs.reminderMinute, now);
    }

    /**
     * A click on the status-bar button (`hasSender` is false for a call not
     * made by the button).  A primary click closes a shown popover, stopping
     * the animation first; a right- or Control-click leaves it open.  Any
     * click shows a hidden popover, and only a primary click from the button
     * with `startOnPress` set also starts the animation.
     */
    method TogglePopover(hasSender: bool, event: Option<MouseEvent>)
      requires Valid()
      modifies this`isShown, this`log
      ensures Valid()
      ensures !hasButton ==> isShown == old(isShown) && log == old(log)
      ensures hasButton && old(isShown) && !IsRightClick(event) ==>
        !isShown && log == old(log) + [StopAnim, Close]
      ensures hasButton && old(isShown) && IsRightClick(event) ==>
        isShown && log == old(log)
      ensures hasButton && !old(isShown) ==>
        isShown &&
        log == old(log) + [Show] +
          (if !IsRightClick(event) && prefs.startOnPress && hasSender then [StartAnim] else [])
    {
      if !hasButton {
        return;
      }
      var isRightClick := IsRightClick(event);
      if isShown {
        if !isRightClick {
          log := log + [StopAnim];
          if isShown {
            isShown := false;
            log := log + [Close];
          }
        }
      } else {
        isShown := true;
        log := log + [Show];
        if !isRightClick && prefs.startOnPress && hasSender {
          log := log + [StartAnim];
        }
      }
    }

    /** A close request hides a shown popover and does nothing to a hidden one; it never stops the animation. */
    method HandlePopoverCloseRequested()
      requires Valid()
      modifies this`isShown, this`log
      ensures Valid() && !isShown
      ensures log == old(log) + (if old(isShown) then [Close] else [])
    {
      if isShown {
        isShown := false;
        log := log + [Close];
      }
    }

    /** Cancels the pending timer, then arms a new one unless reminders are off. */
    method SetupReminderTimer(now: int)
      requires Valid()
      requires prefs.enableHourlyReminders ==> ValidMinute(prefs.reminderMinute)
      modifies this`reminderTimer
      ensures Valid()
      ensures ArmedAt(now)
    {
      reminderTimer := None;
      if !prefs.enableHourlyReminders {
        return;
      }
      var nextReminderDate := NextReminderInstant(now, prefs.reminderMinute);
      reminderTimer := Some(nextReminderDate);
    }

    /** Shows the popover and always starts the animation, whatever `startOnPress` says. */
    method ShowReminder()
      requires Valid()
      modifies this`isShown, this`log
      ensures Valid()
      ensures hasButton ==> isShown && log == old(log) + [Show, StartAnim]
      ensures !hasButton ==> isShown == old(isShown) && log == old(log)
    {
      if hasButton {
        isShown := true;
        log := log + [Show, StartAnim];
      }
    }

    /**
     * The pending timer goes off at `now`, no earlier than it was due: the
     * reminder is shown and the timer re-armed from `now`.  When the minute
     * has not changed since arming, the new timer is due whole hours after
     * the old one: one hour when it fired on time, so the cadence does not drift.
     */
    method Fire(now: int)
      requires Valid()
      requires reminderTimer.Some? && reminderTimer.value <= now
      requires prefs.enableHourlyReminders ==> ValidMinute(prefs.reminderMinute)
      modifies this`isShown, this`log, this`reminderTimer
      ensures Valid()
      ensures hasButton ==> isShown && log == old(log) + [Show, StartAnim]
      ensures !hasButton ==> isShown == old(isShown) && log == old(log)
      ensures ArmedAt(now)
      ensures prefs.enableHourlyReminders ==> old(reminderTimer.value) < reminderTimer.value
      ensures prefs.enableHourlyReminders && IsMark(old(reminderTimer.value), prefs.reminderMinute) ==>
        reminderTimer == Some(old(reminderTimer.value) +
          ((now - old(reminderTimer.value)) / SecondsPerHour + 1) * SecondsPerHour)
    {
      ghost var due := reminderTimer.value;
      ShowReminder();
      SetupReminderTimer(now);
      if prefs.enableHourlyReminders && IsMark(due, prefs.reminderMinute) {
        LateFireCatchesUp(due, now, prefs.reminderMinute);
      }
    }

    /** Re-arms the reminder timer for the current preferences. */
    method UpdateReminderSettings(now: int)
      requires Valid()
      requires prefs.enableHourlyReminders ==> ValidMinute(prefs.reminderMinute)
      modifies this`reminderTimer
      ensures Valid()
      ensures ArmedAt(now)
    {
      SetupReminderTimer(now);
    }

    /**
     * The handler for `reminderSettingsChanged`, which re-arms the timer.
     * It exists but is never registered as an observer.
     */
    method ReminderSettingsChanged(now: int)
      requires Valid()
      requires prefs.enableHourlyReminders ==> ValidMinute(prefs.reminderMinute)
      modifies this`reminderTimer
      ensures Valid()
      ensures ArmedAt(now)
    {
      SetupReminderTimer(now);
    }
  }
}
