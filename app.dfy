/**
 * Whole-application runs over the preference store and the popover
 * manager, and the wiring of the `reminderSettingsChanged` notification.
 */
module App {
  import opened ReminderClock
  import opened Preferences
  import opened Popover

  /** A primary click on the button of a hidden popover. */
  const PrimaryClick := Some(MouseEvent(false, false))
  /** A right-button click. */
  const RightClick := Some(MouseEvent(true, false))

  /** 10:30:00 and 11:00:00 on the first day of the local epoch. */
  const HalfPastTen := TimeOfDay(0, 10, 30, 0)
  const Eleven := TimeOfDay(0, 11, 0, 0)

  /**
   * Assigning `enableHourlyReminders` with the manager's
   * `reminderSettingsChanged` handler registered: the notification re-arms
   * the timer, so turning reminders off cancels the pending one.
   */
  method SetEnableHourlyRemindersObserved(m: PopoverManager, b: bool, now: int)
    requires m.Valid() && m.prefs.Valid()
    requires b ==> ValidMinute(m.prefs.reminderMinute)
    modifies m.prefs`enableHourlyReminders, m.prefs`events, m`reminderTimer
    ensures m.Valid() && m.prefs.Valid()
    ensures m.prefs.enableHourlyReminders == b
    ensures m.prefs.events == old(m.prefs.events) + [ReminderSettingsChanged]
    ensures m.ArmedAt(now)
    ensures !b ==> m.reminderTimer == None
  {
    m.prefs.SetEnableHourlyReminders(b);
    m.ReminderSettingsChanged(now);
  }

  /** Assigning `reminderMinute` with the handler registered: the timer moves to the new minute. */
  method SetReminderMinuteObserved(m: PopoverManager, minute: int, now: int)
    requires m.Valid() && m.prefs.Valid()
    requires ValidMinute(minute)
    modifies m.prefs`reminderMinute, m.prefs`events, m`reminderTimer
    ensures m.Valid() && m.prefs.Valid()
    ensures m.prefs.reminderMinute == minute
    ensures m.prefs.events == old(m.prefs.events) + [ReminderSettingsChanged]
    ensures m.ArmedAt(now)
    ensures m.prefs.enableHourlyReminders ==> m.reminderTimer == Some(NextReminderInstant(now, minute))
  {
    m.prefs.SetReminderMinute(minute);
    m.ReminderSettingsChanged(now);
  }

  /** Reminders on for the top of the hour, manager started at 10:30:00: the timer is due at 11:00:00. */
  method StartWithReminders() returns (prefs: PreferencesManager, m: PopoverManager)
    ensures fresh(prefs) && fresh(m) && m.prefs == prefs && m.Valid() && prefs.Valid()
    ensures prefs.enableHourlyReminders && prefs.reminderMinute == 0
    ensures prefs.events == [ReminderSettingsChanged]
    ensures m.hasButton && !m.isShown && m.log == []
    ensures m.reminderTimer == Some(Eleven)
  {
    prefs := new PreferencesManager();
    prefs.SetEnableHourlyReminders(true);
    m := new PopoverManager(prefs, true, HalfPastTen);
  }

  /**
   * As the code stands nobody observes `reminderSettingsChanged`: turning
   * reminders off before 11:00, with nothing re-arming in between, leaves
   * the 11:00 timer pending, and when it goes off the popover is shown and
   * the animation started.
   */
  method StaleReminderAfterDisabling() returns (shown: bool, commands: seq<Command>, pending: Option<int>)
    ensures shown && commands == [Show, StartAnim] && pending == None
  {
    var prefs, m := StartWithReminders();
    prefs.SetEnableHourlyReminders(false);
    assert m.reminderTimer == Some(Eleven);
    m.Fire(Eleven);
    shown, commands, pending := m.isShown, m.log, m.reminderTimer;
  }

  /** With the handler registered, turning reminders off at 10:40 leaves no timer that could go off. */
  method DisablingCancelsReminder() returns (pending: Option<int>, events: seq<PrefEvent>)
    ensures pending == None && events == [ReminderSettingsChanged, ReminderSettingsChanged]
  {
    var prefs, m := StartWithReminders();
    SetEnableHourlyRemindersObserved(m, false, TimeOfDay(0, 10, 40, 0));
    pending, events := m.reminderTimer, prefs.events;
  }

  /**
   * Reminders that go off on time at 11:00:00 and 12:00:00 re-arm for
   * 12:00:00 and then 13:00:00: successive fires follow the hourly chain
   * `OnTimeFires` from the 10:30:00 start.
   */
  method ReminderRearmsHourly() returns (shown: bool, commands: seq<Command>, first: Option<int>, second: Option<int>)
    ensures shown && commands == [Show, StartAnim, Show, StartAnim]
    ensures first == Some(TimeOfDay(0, 12, 0, 0)) && second == Some(TimeOfDay(0, 13, 0, 0))
    ensures first == Some(OnTimeFires(HalfPastTen, 0, 3)[1]) && second == Some(OnTimeFires(HalfPastTen, 0, 3)[2])
  {
    var prefs, m := StartWithReminders();
    m.Fire(Eleven);
    first := m.reminderTimer;
    m.Fire(TimeOfDay(0, 12, 0, 0));
    shown, commands, second := m.isShown, m.log, m.reminderTimer;
    OnTimeFiresAreHourly(HalfPastTen, 0, 3, 1);
    OnTimeFiresAreHourly(HalfPastTen, 0, 3, 2);
  }

  /** A primary click on a hidden popover shows it, and starts the animation exactly when `startOnPress` is set. */
  method PrimaryClickOnHidden(startOnPress: bool) returns (shown: bool, commands: seq<Command>)
    ensures shown && commands == [Show] + (if startOnPress then [StartAnim] else [])
  {
    var prefs := new PreferencesManager();
    prefs.SetStartOnPress(startOnPress);
    var m := new PopoverManager(prefs, true, HalfPastTen);
    m.TogglePopover(true, PrimaryClick);
    shown, commands := m.isShown, m.log;
  }

  /** A right-click on a hidden popover shows it and never starts the animation. */
  method RightClickOnHidden(startOnPress: bool) returns (shown: bool, commands: seq<Command>)
    ensures shown && commands == [Show]
  {
    var prefs := new PreferencesManager();
    prefs.SetStartOnPress(startOnPress);
    var m := new PopoverManager(prefs, true, HalfPastTen);
    m.TogglePopover(true, RightClick);
    shown, commands := m.isShown, m.log;
  }

  /**
   * A reminder starts the animation even with `startOnPress` off; a right-click
   * then keeps the popover open, and a primary click stops the animation and closes it.
   */
  method ReminderThenClicks() returns (afterRight: bool, afterPrimary: bool, commands: seq<Command>)
    ensures afterRight && !afterPrimary
    ensures commands == [Show, StartAnim, StopAnim, Close]
  {
    var prefs := new PreferencesManager();
    prefs.SetStartOnPress(false);
    var m := new PopoverManager(prefs, true, HalfPastTen);
    m.ShowReminder();
    m.TogglePopover(true, RightClick);
    afterRight := m.isShown;
    m.TogglePopover(true, PrimaryClick);
    afterPrimary, commands := m.isShown, m.log;
  }

  /** A close request after a reminder hides the popover without a `StopAnim`; a second one does nothing. */
  method CloseRequestAfterReminder() returns (shown: bool, commands: seq<Command>)
    ensures !shown && commands == [Show, StartAnim, Close]
  {
    var prefs := new PreferencesManager();
    var m := new PopoverManager(prefs, true, HalfPastTen);
    m.ShowReminder();
    m.HandlePopoverCloseRequested();
    m.HandlePopoverCloseRequested();
    shown, commands := m.isShown, m.log;
  }

  /** Without a status-bar button a click or a reminder changes nothing. */
  method NoButtonDoesNothing() returns (shown: bool, commands: seq<Command>)
    ensures !shown && commands == []
  {
    var prefs := new PreferencesManager();
    var m := new PopoverManager(prefs, false, HalfPastTen);
    m.TogglePopover(true, PrimaryClick);
    m.ShowReminder();
    shown, commands := m.isShown, m.log;
  }

  /** Choosing a custom duration and then a preset: the name follows the value each time. */
  method DurationNameFollowsValue() returns (first: string, second: string, value: int)
    ensures first == "Custom" && second == "Long" && value == 180
  {
    var prefs := new PreferencesManager();
    prefs.SetDefaultDuration("Medium", 90);
    first, value := prefs.GetDefaultDuration();
    prefs.SetDefaultDurationValue(180);
    second, value := prefs.GetDefaultDuration();
  }
}
