/**
 * The preference store: stored settings whose property observers keep the
 * default duration's display name in step with its value, and announce
 * changes to the reminder settings.
 */
module Preferences {

  /** What the store announces: a SwiftUI `objectWillChange` send, or the `reminderSettingsChanged` notification. */
  datatype PrefEvent = ObjectWillChange | ReminderSettingsChanged

  const CustomName := "Custom"

  /** The named presets, as (name, seconds). */
  const Presets: seq<(string, int)> := [("Short", 20), ("Medium", 60), ("Long", 180)]

  /**
   * The human-friendly name of a duration in seconds: the preset's name when
   * the duration is a preset, and "Custom" for every other integer.
   */
  function DurationName(value: int): (name: string)
    ensures forall i :: 0 <= i < |Presets| && Presets[i].1 == value ==> name == Presets[i].0
    ensures name == CustomName <==> forall i :: 0 <= i < |Presets| ==> Presets[i].1 != value
  {
    match value
    case 20 => assert Presets[0].1 == value; "Short"
    case 60 => assert Presets[1].1 == value; "Medium"
    case 180 => assert Presets[2].1 == value; "Long"
    case _ => CustomName
  }

  class PreferencesManager {
    var defaultDurationName: string
    var defaultDurationValue: int
    var startOnPress: bool
    var enableHourlyReminders: bool
    var reminderMinute: int
    /** Everything announced so far, oldest first. */
    var events: seq<PrefEvent>

    /** The stored name describes the stored value. */
    predicate Valid()
      reads this
    {
      defaultDurationName == DurationName(defaultDurationValue)
    }

    /** The stored defaults. */
    constructor ()
      ensures Valid()
      ensures defaultDurationName == "Medium" && defaultDurationValue == 60
      ensures startOnPress && !enableHourlyReminders && reminderMinute == 0
      ensures events == []
    {
      defaultDurationName := "Medium";
      defaultDurationValue := 60;
      startOnPress := true;
      enableHourlyReminders := false;
      reminderMinute := 0;
      events := [];
    }

    /** Assigning `defaultDurationValue`: its observer re-derives the name, whatever it was. */
    method SetDefaultDurationValue(value: int)
      modifies this`defaultDurationValue, this`defaultDurationName, this`events
      ensures Valid()
      ensures defaultDurationValue == value && defaultDurationName == DurationName(value)
      ensures events == old(events) + [ObjectWillChange]
    {
      defaultDurationValue := value;
      defaultDurationName := DurationName(defaultDurationValue);
      events := events + [ObjectWillChange];
    }

    /** Reading `defaultDuration`. */
    method GetDefaultDuration() returns (name: string, value: int)
      ensures name == defaultDurationName && value == defaultDurationValue
      ensures Valid() ==> name == DurationName(value)
    {
      name, value := defaultDurationName, defaultDurationValue;
    }

    /**
     * Assigning `defaultDuration`: the name is written first, then the value,
     * whose observer overwrites the name, so the given name is discarded.
     */
    method SetDefaultDuration(name: string, value: int)
      modifies this`defaultDurationValue, this`defaultDurationName, this`events
      ensures Valid()
      ensures defaultDurationValue == value && defaultDurationName == DurationName(value)
      ensures events == old(events) + [ObjectWillChange, ObjectWillChange]
    {
      defaultDurationName := name;
      SetDefaultDurationValue(value);
      events := events + [ObjectWillChange];
    }

    /** Assigning `startOnPress`, which has no observer. */
    method SetStartOnPress(b: bool)
      requires Valid()
      modifies this`startOnPress
      ensures Valid()
      ensures startOnPress == b
    {
      startOnPress := b;
    }

    /** Assigning `enableHourlyReminders`: its observer posts `reminderSettingsChanged`. */
    method SetEnableHourlyReminders(b: bool)
      requires Valid()
      modifies this`enableHourlyReminders, this`events
      ensures Valid()
      ensures enableHourlyReminders == b
      ensures events == old(events) + [ReminderSettingsChanged]
    {
      enableHourlyReminders := b;
      events := events + [ReminderSettingsChanged];
    }

    /** Assigning `reminderMinute`: its observer posts `reminderSettingsChanged`; the value is not checked. */
    method SetReminderMinute(minute: int)
      requires Valid()
      modifies this`reminderMinute, this`events
      ensures Valid()
      ensures reminderMinute == minute
      ensures events == old(events) + [ReminderSettingsChanged]
    {
      reminderMinute := minute;
      events := events + [ReminderSettingsChanged];
    }
  }

  /** Distinct preset values have distinct names, none of them "Custom". */
  lemma PresetNamesDistinct(v: int, w: int)
    requires DurationName(v) == DurationName(w) != CustomName
    ensures v == w
  {
  }
}
