/** The contact window of libs/domain/src/utils/time-compliance.ts. */
module TimeCompliance {
  import opened Contracts

  const IST_OFFSET_MS := 330 * 60_000

  /** Hour of the day in India; division of integers rounds down, as HourFromTime does. */
  function IstHour(now: int): (h: int)
    ensures 0 <= h < 24
  {
    (now + IST_OFFSET_MS) / HOUR_MS % 24
  }

  predicate IsOutsideTraiWindow(now: int) {
    IstHour(now) < 9 || IstHour(now) >= 20
  }

  /** Milliseconds since the last midnight in India. */
  function IstTimeOfDay(now: int): (t: int) {
    (now + IST_OFFSET_MS) % (24 * HOUR_MS)
  }

  /** The window is [09:00, 20:00) of the Indian day. */
  lemma WindowInTimeOfDay(now: int)
    ensures !IsOutsideTraiWindow(now) <==> 9 * HOUR_MS <= IstTimeOfDay(now) < 20 * HOUR_MS
  {
    var t := now + IST_OFFSET_MS;
    var day, rest := t / (24 * HOUR_MS), t % (24 * HOUR_MS);
    assert t / HOUR_MS == 24 * day + rest / HOUR_MS;
  }

  lemma HoursAdd(now: int, hours: int)
    ensures IstHour(now + hours * HOUR_MS) == (IstHour(now) + hours) % 24
  {
    var t := now + IST_OFFSET_MS;
    assert (t + hours * HOUR_MS) / HOUR_MS == t / HOUR_MS + hours;
  }

  lemma WindowIsDaily(now: int, days: int)
    ensures IsOutsideTraiWindow(now + 24 * days * HOUR_MS) == IsOutsideTraiWindow(now)
  {
    HoursAdd(now, 24 * days);
  }

  /** A delay given in whole hours lands inside the window exactly when the shifted hour does. */
  lemma DelayedRetryLands(now: int, hours: int)
    ensures !IsOutsideTraiWindow(now + hours * HOUR_MS) <==> 9 <= (IstHour(now) + hours) % 24 < 20
  {
    HoursAdd(now, hours);
  }

  /** The fixed twelve hour delay works from every closed hour but 8 and 20. */
  lemma TwelveHourRetry(now: int)
    requires IsOutsideTraiWindow(now)
    ensures IsOutsideTraiWindow(now + 12 * HOUR_MS) <==> IstHour(now) in {8, 20}
  {
    DelayedRetryLands(now, 12);
  }

  /** From those two hours no number of twelve hour delays ever reaches the window. */
  lemma {:induction false} TwelveHourRetryNeverLands(now: int, times: nat)
    requires IstHour(now) in {8, 20}
    ensures IsOutsideTraiWindow(now + 12 * times * HOUR_MS)
  {
    HoursAdd(now, 12 * times);
    assert 12 * times % 24 in {0, 12} by {
      assert times == 2 * (times / 2) + times % 2;
    }
  }
}
