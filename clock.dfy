/**
 * Wall-clock arithmetic of the hourly reminder.
 *
 * An instant is a whole number of seconds, read in the user's local zone
 * (a fixed offset of whole hours), so that the start of the hour holding
 * `t` is `t - t % 3600`.  A reminder is due at every "mark": the instant
 * whose minute-of-hour is the configured minute and whose second is 0.
 */
module ReminderClock {

  const SecondsPerMinute := 60
  const SecondsPerHour := 3600

  /** A minute-of-hour the scheduler accepts (the preferences offer 0, 15, 30 and 45). */
  predicate ValidMinute(minute: int) {
    0 <= minute < 60
  }

  /** `t` with its minutes and seconds cleared. */
  function HourStart(t: int): (h: int) {
    t - t % SecondsPerHour
  }

  /** Minute-of-hour of `t`. */
  function MinuteOf(t: int): (m: int) {
    (t % SecondsPerHour) / SecondsPerMinute
  }

  /** Second-of-minute of `t`. */
  function SecondOf(t: int): (sec: int) {
    t % SecondsPerMinute
  }

  /** `t` is a reminder mark for `minute`: it falls exactly on that minute past some hour. */
  predicate IsMark(t: int, minute: int) {
    t % SecondsPerHour == minute * SecondsPerMinute
  }

  /**
   * The instant the next reminder is due: the target minute of the current
   * hour, or of the following hour when that is not strictly after `now`.
   */
  function NextReminderInstant(now: int, minute: int): (r: int)
    requires ValidMinute(minute)
    ensures now < r <= now + SecondsPerHour
    ensures IsMark(r, minute)
    ensures MinuteOf(r) == minute && SecondOf(r) == 0
  {
    var candidate := HourStart(now) + minute * SecondsPerMinute;
    var r := if candidate <= now then candidate + SecondsPerHour else candidate;
    r
  }

  /**
   * The next reminder instant is the earliest mark strictly after `now`:
   * every mark strictly after `now` is at or after it.
   */
  lemma NextIsEarliestMark(now: int, minute: int, t: int)
    requires ValidMinute(minute)
    requires IsMark(t, minute) && now < t
    ensures NextReminderInstant(now, minute) <= t
  {
  }

  /**
   * Both directions of the characterisation: `t` is the next reminder
   * instant exactly when it is a mark after `now` and no mark after `now`
   * comes before it.
   */
  lemma NextReminderCharacterised(now: int, minute: int, t: int)
    requires ValidMinute(minute)
    ensures NextReminderInstant(now, minute) == t <==>
      (now < t && IsMark(t, minute) &&
       forall u :: now < u && IsMark(u, minute) ==> t <= u)
  {
  }

  /**
   * On the mark itself the comparison is `<=`, so the reminder is pushed a
   * full hour ahead: a timer firing on time re-arms exactly one hour later.
   */
  lemma OnMarkMovesOneHour(now: int, minute: int)
    requires ValidMinute(minute) && IsMark(now, minute)
    ensures NextReminderInstant(now, minute) == now + SecondsPerHour
  {
  }

  /**
   * A timer that fires late (after sleep, say) at `now`, `t` being the mark
   * it was armed for, re-arms for the first mark after `now`: late by less
   * than an hour it is the mark after `t`, and no stale alarm is repeated.
   */
  lemma LateFireCatchesUp(t: int, now: int, minute: int)
    requires ValidMinute(minute) && IsMark(t, minute) && t <= now
    ensures NextReminderInstant(now, minute) ==
      t + ((now - t) / SecondsPerHour + 1) * SecondsPerHour
  {
  }

  /**
   * The instants at which a timer armed at `now` goes off, `fires` times in
   * a row, when each fire happens exactly when due and re-arms from there.
   */
  function OnTimeFires(now: int, minute: int, fires: nat): (s: seq<int>)
    requires ValidMinute(minute)
    ensures |s| == fires
    ensures forall k :: 0 <= k < fires ==> IsMark(s[k], minute)
    decreases fires
  {
    if fires == 0 then []
    else
      var t := NextReminderInstant(now, minute);
      [t] + OnTimeFires(t, minute, fires - 1)
  }

  /** Fire-then-re-arm keeps an exact hourly cadence: the k-th fire is k hours after the first. */
  lemma {:induction false} OnTimeFiresAreHourly(now: int, minute: int, fires: nat, k: nat)
    requires ValidMinute(minute) && k < fires
    ensures OnTimeFires(now, minute, fires)[k] == NextReminderInstant(now, minute) + k * SecondsPerHour
    decreases k
  {
    var t := NextReminderInstant(now, minute);
    if k > 0 {
      OnTimeFiresAreHourly(t, minute, fires - 1, k - 1);
      OnMarkMovesOneHour(t, minute);
    }
  }

  /** A later clock never yields an earlier reminder. */
  lemma NextIsMonotone(now1: int, now2: int, minute: int)
    requires ValidMinute(minute) && now1 <= now2
    ensures NextReminderInstant(now1, minute) <= NextReminderInstant(now2, minute)
  {
  }

  /**
   * Re-arming any time before the pending reminder is due (the app becoming
   * active again, say) schedules that same reminder again.
   */
  lemma RearmBeforeDueIsStable(now1: int, now2: int, minute: int)
    requires ValidMinute(minute)
    requires now1 <= now2 < NextReminderInstant(now1, minute)
    ensures NextReminderInstant(now2, minute) == NextReminderInstant(now1, minute)
  {
  }

  const SecondsPerDay := 24 * SecondsPerHour

  /** A given time of day, `day` days after the epoch of the local zone. */
  function TimeOfDay(day: int, hour: int, minute: int, second: int): (t: int) {
    day * SecondsPerDay + hour * SecondsPerHour + minute * SecondsPerMinute + second
  }

  /** At 14:37:00, a reminder for a quarter past is due at 15:15:00 the same day. */
  lemma QuarterPastScenario(day: int)
    ensures NextReminderInstant(TimeOfDay(day, 14, 37, 0), 15) == TimeOfDay(day, 15, 15, 0)
  {
  }

  /** At 14:10:00, a reminder on the hour is due at 15:00:00. */
  lemma OnTheHourScenario(day: int)
    ensures NextReminderInstant(TimeOfDay(day, 14, 10, 0), 0) == TimeOfDay(day, 15, 0, 0)
  {
  }
}
