/**
 * The time keeping of the ESP32 controller (esp32/ntp_sync.py): the EU summer-time
 * decision of `is_dst`, with its two searches for the switch-over day, and the
 * millisecond timestamps derived from the clock reading taken at synchronisation.
 * MicroPython's `time.time()` counts whole seconds from 2000-01-01; it is a parameter.
 */
module TimeSync {
  import opened Arith
  import opened Calendar

  // ===== The weekday expression and the switch-over day it selects =====

  /**
   * The weekday expression of the searches, months before March counted as months 13 and
   * 14 of the previous year. Python's `//` and `%` with a positive divisor floor, which is
   * Dafny's Euclidean division. `WeekdayIsCalendarDay` below shows that 0 is a Saturday.
   */
  function Weekday(year: int, month: int, day: int): (w: int)
    ensures 0 <= w < 7
  {
    var m := if month < 3 then month + 12 else month;
    var y := if month < 3 then year - 1 else year;
    (day + (13 * (m + 1)) / 5 + y + y / 4 - y / 100 + y / 400) % 7
  }

  /** The day the searches stop at: the weekday expression falls by one per day. */
  function SwitchDay(year: int, month: int): int {
    31 - Weekday(year, month, 31)
  }

  /**
   * Counting down from the 31st, the weekday expression falls by one per day until it
   * reaches 0 at the switch-over day.
   */
  lemma WeekdayCountsDown(year: int, month: int, day: int)
    requires SwitchDay(year, month) <= day <= 31
    ensures Weekday(year, month, day) == Weekday(year, month, 31) - (31 - day)
  {
    var m := if month < 3 then month + 12 else month;
    var y := if month < 3 then year - 1 else year;
    var c := (13 * (m + 1)) / 5 + y + y / 4 - y / 100 + y / 400;
    assert Weekday(year, month, 31) == (31 + c) % 7;
    assert Weekday(year, month, day) == (day + c) % 7;
    ShiftMod7(c, day);
  }

  /** Moving `31 + c` down by at most its remainder moves the remainder down by as much. */
  lemma ShiftMod7(c: int, day: int)
    requires 31 - (31 + c) % 7 <= day <= 31
    ensures (day + c) % 7 == (31 + c) % 7 - (31 - day)
  {
    var q := (31 + c) / 7;
    var w := (31 + c) % 7;
    DivUnique(day + c, 7, q, w - (31 - day));
  }

  /**
   * The switch-over day is the last day of 25..31 on which the weekday expression is 0,
   * which is where both searches stop.
   */
  lemma SwitchDaySpec(year: int, month: int)
    ensures 25 <= SwitchDay(year, month) <= 31
    ensures Weekday(year, month, SwitchDay(year, month)) == 0
    ensures forall e :: SwitchDay(year, month) < e <= 31 ==> Weekday(year, month, e) != 0
  {
    WeekdayCountsDown(year, month, SwitchDay(year, month));
    forall e | SwitchDay(year, month) < e <= 31 ensures Weekday(year, month, e) != 0 {
      WeekdayCountsDown(year, month, e);
    }
  }

  /** The 2000-01-01 epoch of MicroPython as seconds after 1970-01-01. */
  const UnixOffset: int := 946684800

  class NTPSync {
    /** UTC milliseconds since 1970 at the last synchronisation; 0 before the first one. */
    var ntpSyncTimestamp: int
    /** The device clock (seconds since 2000) at the last synchronisation. */
    var ntpSyncLocaltime: int
    const servers: seq<string>

    constructor()
      ensures ntpSyncTimestamp == 0 && ntpSyncLocaltime == 0
      ensures Consistent()
      ensures servers == ["de.pool.ntp.org", "europe.pool.ntp.org", "pool.ntp.org", "time.google.com"]
    {
      ntpSyncTimestamp := 0;
      ntpSyncLocaltime := 0;
      servers := ["de.pool.ntp.org", "europe.pool.ntp.org", "pool.ntp.org", "time.google.com"];
    }

    /**
     * `is_dst(year, month, day, hour)`: summer time runs from the March switch-over day at
     * 02:00 to the October switch-over day at 03:00, both found by counting down from the
     * 31st to the first day whose weekday expression is 0.
     */
    method IsDst(year: int, month: int, day: int, hour: int) returns (dst: bool)
      ensures month < 3 || month > 10 ==> !dst
      ensures 3 < month < 10 ==> dst
      ensures month == 3 ==>
        (dst <==> day > SwitchDay(year, 3) || (day == SwitchDay(year, 3) && hour >= 2))
      ensures month == 10 ==>
        (dst <==> day < SwitchDay(year, 10) || (day == SwitchDay(year, 10) && hour < 3))
    {
      SwitchDaySpec(year, 3);
      var marchLastSunday := 31;
      while marchLastSunday > 0
        invariant SwitchDay(year, 3) <= marchLastSunday <= 31
        decreases marchLastSunday
      {
        var m, y, d := 3, year, marchLastSunday;
        if m < 3 {
          m := m + 12;
          y := y - 1;
        }
        var weekday := (d + (13 * (m + 1)) / 5 + y + y / 4 - y / 100 + y / 400) % 7;
        if weekday == 0 {
          break;
        }
        WeekdayCountsDown(year, 3, marchLastSunday);
        marchLastSunday := marchLastSunday - 1;
      }
      WeekdayCountsDown(year, 3, marchLastSunday);

      SwitchDaySpec(year, 10);
      var octoberLastSunday := 31;
      while octoberLastSunday > 0
        invariant SwitchDay(year, 10) <= octoberLastSunday <= 31
        decreases octoberLastSunday
      {
        var m, y, d := 10, year, octoberLastSunday;
        var weekday := (d + (13 * (m + 1)) / 5 + y + y / 4 - y / 100 + y / 400) % 7;
        if weekday == 0 {
          break;
        }
        WeekdayCountsDown(year, 10, octoberLastSunday);
        octoberLastSunday := octoberLastSunday - 1;
      }
      WeekdayCountsDown(year, 10, octoberLastSunday);

      if month < 3 || month > 10 {
        dst := false;
      } else if month > 3 && month < 10 {
        dst := true;
      } else if month == 3 {
        if day < marchLastSunday {
          dst := false;
        } else if day > marchLastSunday {
          dst := true;
        } else {
          dst := hour >= 2;
        }
      } else {
        if day < octoberLastSunday {
          dst := true;
        } else if day > octoberLastSunday {
          dst := false;
        } else {
          dst := hour < 3;
        }
      }
    }

    /**
     * `sync()`: the servers are tried in order; the first whose `settime()` succeeds stores
     * the clock read just after it (`clockAfter`) and the matching UTC milliseconds.
     * `reachable[i]` says whether `settime()` succeeds against `servers[i]`.
     */
    method Sync(reachable: seq<bool>, clockAfter: int) returns (ok: bool)
      requires |reachable| == |servers|
      modifies this
      ensures ok <==> true in reachable
      ensures ok ==> ntpSyncLocaltime == clockAfter && ntpSyncTimestamp == (clockAfter + UnixOffset) * 1000
      ensures !ok ==> ntpSyncLocaltime == old(ntpSyncLocaltime) && ntpSyncTimestamp == old(ntpSyncTimestamp)
      ensures ok ==> Consistent()
      ensures old(Consistent()) ==> Consistent()
    {
      for i := 0 to |servers|
        invariant forall j :: 0 <= j < i ==> !reachable[j]
        invariant ntpSyncLocaltime == old(ntpSyncLocaltime) && ntpSyncTimestamp == old(ntpSyncTimestamp)
      {
        if reachable[i] {
          ntpSyncLocaltime := clockAfter;
          ntpSyncTimestamp := (ntpSyncLocaltime + UnixOffset) * 1000;
          return true;
        }
      }
      return false;
    }

    /** The stored timestamp is the stored clock reading in UTC milliseconds. */
    predicate Consistent()
      reads this
    {
      ntpSyncTimestamp == 0 || ntpSyncTimestamp == (ntpSyncLocaltime + UnixOffset) * 1000
    }

    /** `get_timestamp()` at device clock `now`. */
    function GetTimestamp(now: int): int
      reads this
    {
      if ntpSyncTimestamp == 0 then (now + UnixOffset) * 1000
      else ntpSyncTimestamp + (now - ntpSyncLocaltime) * 1000
    }

    /** `get_time()` at device clock `now`; the synced branch divides by 1000 exactly. */
    function GetTime(now: int): real
      reads this
    {
      if ntpSyncTimestamp == 0 then (now + UnixOffset) as real
      else ntpSyncTimestamp as real / 1000.0 + (now - ntpSyncLocaltime) as real
    }
  }

  /**
   * In a consistent state both readings are the device clock moved to the 1970 epoch:
   * whether or not a synchronisation happened, seconds and milliseconds agree.
   */
  lemma ReadingsFollowClock(s: NTPSync, now: int)
    requires s.Consistent()
    ensures s.GetTimestamp(now) == (now + UnixOffset) * 1000
    ensures s.GetTime(now) == (now + UnixOffset) as real
    ensures s.GetTime(now) * 1000.0 == s.GetTimestamp(now) as real
  {
  }

  /** Once synchronised, the timestamp advances by 1000 per elapsed second of the device clock. */
  lemma TimestampAdvances(s: NTPSync, now: int, elapsed: int)
    requires s.ntpSyncTimestamp != 0
    ensures s.GetTimestamp(now + elapsed) == s.GetTimestamp(now) + elapsed * 1000
    ensures s.GetTimestamp(s.ntpSyncLocaltime) == s.ntpSyncTimestamp
  {
  }

  // ===== Which weekday the expression stands for =====

  /** The year part of the weekday expression. */
  function YearTerm(y: int): int {
    y + y / 4 - y / 100 + y / 400
  }

  /** Floor division by `k` steps up by one exactly at the multiples of `k`. */
  lemma DivStep(y: int, k: int)
    requires k > 0
    ensures (y + 1) / k == y / k + (if (y + 1) % k == 0 then 1 else 0)
  {
    var q, r := y / k, y % k;
    if r == k - 1 {
      assert k * (q + 1) == k * q + k;
      DivUnique(y + 1, k, q + 1, 0);
    } else {
      DivUnique(y + 1, k, q, r + 1);
    }
  }

  lemma DivisibleChain(n: int)
    ensures n % 400 == 0 ==> n % 100 == 0
    ensures n % 100 == 0 ==> n % 4 == 0
  {
    if n % 400 == 0 {
      DivUnique(n, 100, 4 * (n / 400), 0);
    }
    if n % 100 == 0 {
      DivUnique(n, 4, 25 * (n / 100), 0);
    }
  }

  /** From one year to the next the year part grows by one, and one more into a leap year. */
  lemma YearTermStep(y: int)
    ensures YearTerm(y + 1) == YearTerm(y) + 1 + LeapDay(y + 1)
  {
    DivStep(y, 4);
    DivStep(y, 100);
    DivStep(y, 400);
    DivisibleChain(y + 1);
  }

  /** The year part and the day count differ by a constant modulo 7. */
  lemma {:induction false} CalendarOffset(y: int)
    requires y >= 2000
    ensures (YearTerm(y) - DaysBeforeYear(y) - LeapDay(y)) % 7 == 6
    decreases y - 2000
  {
    if y > 2000 {
      CalendarOffset(y - 1);
      YearTermStep(y - 1);
      var g := YearTerm(y - 1) - DaysBeforeYear(y - 1) - LeapDay(y - 1);
      assert YearTerm(y) - DaysBeforeYear(y) - LeapDay(y) == g - 364;
      DivUnique(g - 364, 7, g / 7 - 52, 6);
    }
  }

  /**
   * In March and October the weekday expression is the day number modulo 7: it is 0 on
   * Saturdays and 1 on Sundays.
   */
  lemma WeekdayIsCalendarDay(y: int, m: int, d: int)
    requires y >= 2000 && (m == 3 || m == 10)
    ensures Weekday(y, m, d) == DayNumber(y, m, d) % 7
  {
    CalendarOffset(y);
    var g := YearTerm(y) - DaysBeforeYear(y) - LeapDay(y);
    var n := DayNumber(y, m, d);
    var a := d + (13 * (m + 1)) / 5 + YearTerm(y);
    if m == 3 {
      assert a == n + g - 48;
      DivUnique(a, 7, n / 7 + g / 7 - 6, n % 7);
    } else {
      assert a == n + g - 244;
      DivUnique(a, 7, n / 7 + g / 7 - 34, n % 7);
    }
  }

  /**
   * The searches stop at weekday 0, which is the last Saturday of the month, not the last
   * Sunday the comments name: `is_dst` switches on the wrong day.
   */
  lemma SwitchDayIsLastSaturday(y: int, m: int)
    requires y >= 2000 && (m == 3 || m == 10)
    ensures IsSaturday(y, m, SwitchDay(y, m))
    ensures forall e :: SwitchDay(y, m) < e <= 31 ==> !IsSaturday(y, m, e)
  {
    SwitchDaySpec(y, m);
    WeekdayIsCalendarDay(y, m, SwitchDay(y, m));
    forall e | SwitchDay(y, m) < e <= 31 ensures !IsSaturday(y, m, e) {
      WeekdayIsCalendarDay(y, m, e);
    }
  }

  /**
   * In 2024 summer time began on Sunday 31 March; the search stops on Saturday 30 March,
   * so `is_dst(2024, 3, 30, 12)` already reports summer time.
   */
  lemma SwitchDays2024()
    ensures SwitchDay(2024, 3) == 30 && IsSaturday(2024, 3, 30) && !IsSunday(2024, 3, 30)
    ensures IsSunday(2024, 3, 31)
  {
    WeekdayIsCalendarDay(2024, 3, 30);
    WeekdayIsCalendarDay(2024, 3, 31);
  }

  /** Where the searches were meant to stop: the last day whose weekday expression is 1. */
  function LastSunday(year: int, month: int): int {
    31 - (Weekday(year, month, 31) + 6) % 7
  }

  /** The corrected day is the last Sunday of March or October. */
  lemma LastSundaySpec(y: int, m: int)
    requires y >= 2000 && (m == 3 || m == 10)
    ensures 25 <= LastSunday(y, m) <= 31
    ensures IsSunday(y, m, LastSunday(y, m))
    ensures forall e :: LastSunday(y, m) < e <= 31 ==> !IsSunday(y, m, e)
  {
    WeekdayIsCalendarDay(y, m, 31);
    var n := DayNumber(y, m, 31);
    OneSundayInAWeek(n, 31 - LastSunday(y, m));
    forall e | LastSunday(y, m) < e <= 31 ensures !IsSunday(y, m, e) {
      OneSundayInAWeek(n, 31 - e);
    }
  }
}
