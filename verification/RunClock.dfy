/**
  Mapping database authority onto a worker's own monotonic clock
  (internal/runclock/clock.go). Database instants are nanoseconds; the worker reads
  whole milliseconds of a clock that runs at the same rate with an unknown offset.
*/
module RunClock {
  import opened Wrappers

  type Time = int

  const NANOS_PER_MILLI := 1_000_000
  const MAX_MILLIS := 0x1F_FFFF_FFFF_FFFF
  const DAY: Time := 24 * 3600 * 1_000_000_000

  datatype ClockError = BadSample | AlreadyExpired

  /** None stands for an unset instant. */
  function FromAuthority(start: int, received: int, observed: Option<Time>, expires: Option<Time>, maxTTL: Time)
    : Result<int, ClockError>
  {
    if start < 0 || received < start || received > MAX_MILLIS || observed.None? || expires.None? || maxTTL <= 0 || maxTTL > DAY
    then Failure(BadSample)
    else
      var remaining := expires.value - observed.value;
      if remaining <= 0 then Failure(AlreadyExpired)
      else if remaining > maxTTL then Failure(BadSample)
      else
        var delta := remaining / NANOS_PER_MILLI;
        if delta > MAX_MILLIS - start then Failure(BadSample)
        else if received >= start + delta then Failure(AlreadyExpired)
        else Success(start + delta)
  }

  /** What a clock with the given offset shows at database instant t. */
  function LocalMillis(t: Time, offset: int): int {
    (t + offset) / NANOS_PER_MILLI
  }

  /** The database instant at which that clock first shows the given reading. */
  function Instant(reading: int, offset: int): Time {
    reading * NANOS_PER_MILLI - offset
  }

  lemma ReadingBelow(t: Time, offset: int, reading: int)
    ensures LocalMillis(t, offset) < reading <==> t < Instant(reading, offset)
  {
  }

  /**
    Conservative: a local reading strictly below the mapped deadline proves that the database
    clock is before the expiry by more than the request's outbound delay, for every offset,
    every sampling instant inside the call and every rounding.
  */
  lemma Conservative(sentAt: Time, observed: Time, expires: Time, maxTTL: Time, offset: int, received: int, t: Time)
    requires sentAt <= observed
    requires FromAuthority(LocalMillis(sentAt, offset), received, Some(observed), Some(expires), maxTTL).Success?
    ensures var deadline := FromAuthority(LocalMillis(sentAt, offset), received, Some(observed), Some(expires), maxTTL).value;
            && Instant(deadline, offset) <= expires - (observed - sentAt)
            && (LocalMillis(t, offset) < deadline ==> t < expires - (observed - sentAt) <= expires)
  {
    var start := LocalMillis(sentAt, offset);
    var delta := (expires - observed) / NANOS_PER_MILLI;
    assert start * NANOS_PER_MILLI <= sentAt + offset;
    assert delta * NANOS_PER_MILLI <= expires - observed;
    ReadingBelow(t, offset, start + delta);
  }

  /** Rounding costs less than two milliseconds beyond the outbound delay. */
  lemma NearlyTight(sentAt: Time, observed: Time, expires: Time, maxTTL: Time, offset: int, received: int, t: Time)
    requires FromAuthority(LocalMillis(sentAt, offset), received, Some(observed), Some(expires), maxTTL).Success?
    requires t + 2 * NANOS_PER_MILLI <= expires - (observed - sentAt)
    ensures LocalMillis(t, offset)
            < FromAuthority(LocalMillis(sentAt, offset), received, Some(observed), Some(expires), maxTTL).value
  {
    var start := LocalMillis(sentAt, offset);
    var delta := (expires - observed) / NANOS_PER_MILLI;
    assert sentAt + offset < (start + 1) * NANOS_PER_MILLI;
    assert expires - observed < (delta + 1) * NANOS_PER_MILLI;
    ReadingBelow(t, offset, start + delta);
  }

  /** A reply that arrives two milliseconds before the expiry, less the outbound delay, is mapped and still leaves authority. */
  lemma PromptReplyMapped(sentAt: Time, observed: Time, expires: Time, maxTTL: Time, offset: int, t: Time)
    requires sentAt <= observed && sentAt <= t && 0 < expires - observed <= maxTTL <= DAY
    requires 0 <= LocalMillis(sentAt, offset) && LocalMillis(observed, offset) + DAY / NANOS_PER_MILLI <= MAX_MILLIS
    requires t + 2 * NANOS_PER_MILLI <= expires - (observed - sentAt)
    ensures var received := LocalMillis(t, offset);
            var deadline := FromAuthority(LocalMillis(sentAt, offset), received, Some(observed), Some(expires), maxTTL);
            deadline.Success? && received < deadline.value
  {
    var start, received := LocalMillis(sentAt, offset), LocalMillis(t, offset);
    var delta := (expires - observed) / NANOS_PER_MILLI;
    assert sentAt + offset < (start + 1) * NANOS_PER_MILLI;
    assert expires - observed < (delta + 1) * NANOS_PER_MILLI;
    ReadingBelow(t, offset, start + delta);
  }
}
