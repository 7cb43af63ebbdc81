/** How long a relay has been down (torweather/utils.py). */
module Utils {

  const SecondsPerHour: int := 3600

  /** Whole hours elapsed from `lastSeen` to `now`, both in seconds: the
      elapsed time floored to hours. The current time is a parameter. */
  function NodeDownDuration(lastSeen: int, now: int): (hours: int)
    ensures hours * SecondsPerHour <= now - lastSeen < (hours + 1) * SecondsPerHour
  {
    (now - lastSeen) / SecondsPerHour
  }

  /** Less than an hour of downtime counts as zero hours. */
  lemma UnderAnHourIsZero(lastSeen: int, now: int)
    requires lastSeen <= now < lastSeen + SecondsPerHour
    ensures NodeDownDuration(lastSeen, now) == 0
  {
  }

  /** The duration is never negative once `now` has reached `lastSeen`. */
  lemma NonNegative(lastSeen: int, now: int)
    requires lastSeen <= now
    ensures NodeDownDuration(lastSeen, now) >= 0
  {
  }

  /** For a fixed `lastSeen` the duration never decreases as time passes. */
  lemma Monotone(lastSeen: int, now: int, later: int)
    requires now <= later
    ensures NodeDownDuration(lastSeen, now) <= NodeDownDuration(lastSeen, later)
  {
  }

  /** `h` whole hours plus less than one more hour gives exactly `h`. */
  lemma WholeHours(lastSeen: int, h: int, extra: int)
    requires 0 <= extra < SecondsPerHour
    ensures NodeDownDuration(lastSeen, lastSeen + h * SecondsPerHour + extra) == h
  {
  }
}
