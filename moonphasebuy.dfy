/** The MoonPhaseBuy strategy (neobabix/strategies/moonphasebuy.py): a table
    based moon phase calculator and a filter that buys near full moon. The
    current UTC date is an input. */
module MoonPhaseBuy {
  import opened Common

  const Ages: seq<int> := [18, 0, 11, 22, 3, 14, 25, 6, 17, 28, 9, 20, 1, 12, 23, 4, 15, 26, 7]
  const Offsets: seq<int> := [-1, 1, 0, 1, 2, 3, 4, 5, 7, 7, 9, 9]
  const Descriptions: seq<string> := [
    "new (totally dark)",
    "waxing crescent (increasing to full)",
    "in its first quarter (increasing to full)",
    "waxing gibbous (increasing to full)",
    "full (full light)",
    "waning gibbous (decreasing from full)",
    "in its last quarter (decreasing from full)",
    "waning crescent (decreasing from full)"]
  const Months: seq<string> := ["Jan", "Feb", "Mar", "Apr", "May", "Jun", "Jul", "Aug", "Sep", "Oct", "Nov", "Dec"]

  /** The element a Python list of length n reads at index i: negative indices
      count from the end, anything else out of range raises IndexError. */
  function PyIndex(n: nat, i: int): (k: Option<nat>)
    ensures k.Some? <==> -(n as int) <= i < n
    ensures k.Some? ==> k.value < n && (k.value == i || k.value == n + i)
  {
    if 0 <= i < n then Some(i) else if -(n as int) <= i < 0 then Some(n + i) else None
  }

  /** days_into_phase for the table position m of the month (after day 31 has
      become day 1): the age for the year's place in the 19-year cycle, plus the
      month-adjusted day modulo 30, plus one before 1900, all modulo 30. The
      moduli are positive, so Python's floored % and Dafny's agree. */
  function DaysIntoPhase(m: nat, day: int, year: int): (d: int)
    requires m < 12
    ensures 0 <= d < 30
  {
    (Ages[(year + 1) % 19] + (day + Offsets[m]) % 30 + (if year < 1900 then 1 else 0)) % 30
  }

  /** int((days_into_phase + 2) * 16 / 59.0) clamped to 7. The quotient is
      non-negative, so the truncation is the floor. */
  function PhaseIndex(d: int): (i: nat)
    requires 0 <= d < 30
    ensures i <= 7
  {
    var q := (d + 2) * 16 / 59;
    if q > 7 then 7 else q
  }

  /** int(2 * days_into_phase * 100 / 29), folded back with |light - 200| above 100. */
  function Light(d: int): (l: int)
    requires 0 <= d < 30
    ensures 0 <= l <= 100
  {
    var l := 2 * d * 100 / 29;
    if l > 100 then if l - 200 < 0 then 200 - l else l - 200 else l
  }

  /** The (date, status, light) triple moon_phase returns. */
  datatype Phase = Phase(date: string, status: string, light: int)

  /** moon_phase(month, day, year). A month outside -11..12 raises IndexError
      at the offsets lookup; months 0 and below read the tables from the end. */
  function MoonPhase(month: int, day: int, year: int): (r: Result<Phase>)
    ensures r.Ok? <==> -11 <= month <= 12
    ensures r.Err? ==> r.error == IndexError
    ensures r.Ok? ==> 0 <= r.value.light <= 100 && r.value.status in Descriptions
    ensures 1 <= month <= 12 ==> (r.Ok? && r.value.date ==
      IntToString(if day == 31 then 1 else day) + Months[month - 1] + IntToString(year))
  {
    var d := if day == 31 then 1 else day;
    match PyIndex(|Offsets|, month - 1)
    case None => Err(IndexError)
    case Some(m) =>
      var phase := DaysIntoPhase(m, d, year);
      Ok(Phase(IntToString(d) + Months[m] + IntToString(year), Descriptions[PhaseIndex(phase)], Light(phase)))
  }

  /** Day 31 is read as day 1, in the phase as in the date string. */
  lemma MoonPhaseDay31(month: int, year: int)
    ensures MoonPhase(month, 31, year) == MoonPhase(month, 1, year)
  {
  }

  lemma ModPeriod(a: int, k: nat)
    ensures (a + 19 * k) % 19 == a % 19
  {
    assert (a + 19 * k) == a % 19 + 19 * (a / 19 + k);
  }

  /** Years before 1900 are one day further into the phase than the year of the
      same place in the 19-year cycle from 1900 on. */
  lemma EarlyYearsOneDayOn(m: nat, day: int, year: int, k: nat)
    requires m < 12 && year < 1900 <= year + 19 * k
    ensures DaysIntoPhase(m, day, year) == (DaysIntoPhase(m, day, year + 19 * k) + 1) % 30
  {
    ModPeriod(year + 1, k);
    assert (year + 19 * k + 1) % 19 == (year + 1) % 19;
  }

  /** The light is highest, 97, on day 15 of the phase, and at least 90 exactly
      on days 14, 15 and 16. */
  lemma LightPeak(d: int)
    requires 0 <= d < 30
    ensures Light(d) <= 97
    ensures Light(d) >= 90 <==> 14 <= d <= 16
    ensures Light(15) == 97
  {
    if d <= 13 {
      assert 2 * d * 100 <= 2600;
    } else if d >= 17 {
      assert 2 * d * 100 >= 3400;
    }
  }

  /** The status reads full moon exactly on days 13 to 16 of the phase. */
  lemma FullOnMiddleDays(d: int)
    requires 0 <= d < 30
    ensures Descriptions[PhaseIndex(d)] == "full (full light)" <==> 13 <= d <= 16
  {
    assert forall i, j :: 0 <= i < j < 8 ==> Descriptions[i] != Descriptions[j];
  }

  /** filter(): LONG when the light is at least 90, NOTHING otherwise. */
  function Filter(light: int): (a: Action)
    ensures a != Short
    ensures a == Long <==> light >= 90
  {
    if light >= 90 then Long else Nothing
  }

  /** The strategy buys on days 14, 15 and 16 of the moon's phase only. */
  lemma FilterOnPhaseDays(month: int, day: int, year: int)
    requires 1 <= month <= 12
    ensures var d := DaysIntoPhase(month - 1, if day == 31 then 1 else day, year);
      Filter(MoonPhase(month, day, year).value.light) == Long <==> 14 <= d <= 16
  {
    LightPeak(DaysIntoPhase(month - 1, if day == 31 then 1 else day, year));
  }
}
