/**
 * The weekly expiry of api/webhook.js (`weeklyExpiry`): the next Thursday,
 * rolled a week forward once that Thursday's 15:30 cutoff has passed.
 *
 * Time is wall-clock time in the trading time zone, given as calendar
 * fields: a day number (days since 1970-01-01, which was a Thursday) and the
 * second of that day. The reading comes from a locale string, which has no
 * milliseconds, so whole seconds are exact.
 */
module Expiry {
  import opened Calendar

  const SECONDS_PER_DAY: int := 24 * 3600
  /** Weekdays are numbered as `Date.getDay` numbers them: Sunday is 0. */
  const THURSDAY: int := 4
  /** The intraday cutoff, 15:30:00, in seconds after midnight. */
  const CUTOFF: int := 15 * 3600 + 30 * 60

  /** A wall-clock reading: a day number and the second of that day. */
  datatype LocalTime = LocalTime(day: int, seconds: int)

  predicate ValidTime(t: LocalTime) {
    0 <= t.seconds < SECONDS_PER_DAY
  }

  /** The weekday of a day number; day 0 is a Thursday. */
  function Weekday(day: int): (w: int)
    ensures 0 <= w < 7
  {
    (day + 4) % 7
  }

  /** The time value a `Date` compares by: seconds since 1970-01-01 00:00 on this clock. */
  function Instant(t: LocalTime): int {
    t.day * SECONDS_PER_DAY + t.seconds
  }

  /**
   * `a > b` on `Date`s, which compares time values. For valid readings it
   * means a later day, or the same day at a later second.
   */
  predicate Later(a: LocalTime, b: LocalTime)
    ensures ValidTime(a) && ValidTime(b) ==>
      (Later(a, b) <==> a.day > b.day || (a.day == b.day && a.seconds > b.seconds))
  {
    Instant(a) > Instant(b)
  }

  /** The moment a Thursday's contract stops trading. */
  function CutoffOf(thursday: int): LocalTime {
    LocalTime(thursday, CUTOFF)
  }

  /**
   * What the weekly expiry means: `e` is a Thursday no earlier than today
   * whose cutoff has not passed, and every Thursday from today up to `e`
   * has had its cutoff pass.
   */
  ghost predicate IsNextExpiry(now: LocalTime, e: int) {
    && Weekday(e) == THURSDAY
    && now.day <= e
    && !Later(now, CutoffOf(e))
    && forall t :: now.day <= t < e && Weekday(t) == THURSDAY ==> Later(now, CutoffOf(t))
  }

  /** Two Thursdays less than a week apart are the same day. */
  lemma ThursdaysAWeekApart(a: int, b: int)
    requires Weekday(a) == THURSDAY && Weekday(b) == THURSDAY
    requires a <= b < a + 7
    ensures a == b
  {
    var k := (a + 4) / 7;
    assert a + 4 == 7 * k + 4;
    assert b + 4 == 7 * ((b + 4) / 7) + 4;
  }

  /** `diff`: how many days from a weekday to the next Thursday, 0 on a Thursday. */
  function DaysToThursday(weekday: int): (diff: int)
    requires 0 <= weekday < 7
    ensures 0 <= diff < 7
    ensures (weekday + diff) % 7 == THURSDAY
    ensures diff == 0 <==> weekday == THURSDAY
  {
    (THURSDAY - weekday + 7) % 7
  }

  lemma DaysToThursdayLands(day: int)
    ensures Weekday(day + DaysToThursday(Weekday(day))) == THURSDAY
  {
    var w := Weekday(day);
    var diff := DaysToThursday(w);
    assert day + 4 == 7 * ((day + 4) / 7) + w;
    assert (day + diff + 4) == 7 * ((day + 4) / 7) + (w + diff);
  }

  /**
   * The expiry as a function of the clock reading, following the source's
   * steps: advance to Thursday, then add a week if its cutoff has passed.
   */
  function ExpiryDay(now: LocalTime): (e: int)
    requires ValidTime(now)
    ensures IsNextExpiry(now, e)
  {
    var thursday := now.day + DaysToThursday(Weekday(now.day));
    DaysToThursdayLands(now.day);
    if Later(now, CutoffOf(thursday)) then
      assert forall t :: now.day <= t < thursday + 7 && Weekday(t) == THURSDAY ==> t == thursday by {
        forall t | now.day <= t < thursday + 7 && Weekday(t) == THURSDAY ensures t == thursday {
          if t < thursday { ThursdaysAWeekApart(t, thursday); } else { ThursdaysAWeekApart(thursday, t); }
        }
      }
      thursday + 7
    else
      assert forall t :: now.day <= t < thursday && Weekday(t) == THURSDAY ==> false by {
        forall t | now.day <= t < thursday && Weekday(t) == THURSDAY ensures false {
          ThursdaysAWeekApart(t, thursday);
        }
      }
      thursday
  }

  /** Only one day meets the description of the weekly expiry. */
  lemma NextExpiryUnique(now: LocalTime, e1: int, e2: int)
    requires IsNextExpiry(now, e1) && IsNextExpiry(now, e2)
    ensures e1 == e2
  {
  }

  /** A Thursday up to and including 15:30:00 expires the same day. */
  lemma ThursdayBeforeCutoff(now: LocalTime)
    requires ValidTime(now) && Weekday(now.day) == THURSDAY && now.seconds <= CUTOFF
    ensures ExpiryDay(now) == now.day
  {
  }

  /** A Thursday strictly after 15:30:00 rolls over to the next Thursday. */
  lemma ThursdayAfterCutoff(now: LocalTime)
    requires ValidTime(now) && Weekday(now.day) == THURSDAY && now.seconds > CUTOFF
    ensures ExpiryDay(now) == now.day + 7
  {
  }

  /** On any other weekday the cutoff plays no part: the first Thursday ahead. */
  lemma OtherWeekday(now: LocalTime)
    requires ValidTime(now) && Weekday(now.day) != THURSDAY
    ensures 1 <= ExpiryDay(now) - now.day <= 6
    ensures ExpiryDay(now) == now.day + DaysToThursday(Weekday(now.day))
  {
  }

  /** The expiry is always a Thursday between today and a week from today. */
  lemma ExpiryWithinAWeek(now: LocalTime)
    requires ValidTime(now)
    ensures Weekday(ExpiryDay(now)) == THURSDAY
    ensures now.day <= ExpiryDay(now) <= now.day + 7
  {
  }

  /** Thursday 15:29:59 and 15:30:00 expire today, 15:30:01 a week later. */
  lemma CutoffBoundary(thursday: int)
    requires Weekday(thursday) == THURSDAY
    ensures ExpiryDay(LocalTime(thursday, 15 * 3600 + 29 * 60 + 59)) == thursday
    ensures ExpiryDay(LocalTime(thursday, CUTOFF)) == thursday
    ensures ExpiryDay(LocalTime(thursday, CUTOFF + 1)) == thursday + 7
  {
  }

  /**
   * A `Date` as `weeklyExpiry` uses it: a mutable reading whose day and
   * time of day are set one after the other.
   */
  class DateTime {
    var day: int
    var seconds: int

    ghost predicate Valid()
      reads this
    {
      0 <= seconds < SECONDS_PER_DAY
    }

    function Fields(): LocalTime
      reads this
    {
      LocalTime(day, seconds)
    }

    /** `new Date(...)` at the given reading. */
    constructor (t: LocalTime)
      requires ValidTime(t)
      ensures Valid() && Fields() == t
    {
      day := t.day;
      seconds := t.seconds;
    }

    /** `new Date(other)`: a copy. */
    constructor Copy(other: DateTime)
      requires other.Valid()
      ensures Valid() && Fields() == other.Fields()
    {
      day := other.day;
      seconds := other.seconds;
    }

    /** `setDate`: move to another day, keeping the time of day. */
    method SetDate(d: int)
      requires Valid()
      modifies this
      ensures Valid() && day == d && seconds == old(seconds)
    {
      day := d;
    }

    /** `setHours(h, m, s, 0)`: keep the day, set the time of day. */
    method SetHours(h: int, m: int, s: int)
      requires 0 <= h < 24 && 0 <= m < 60 && 0 <= s < 60
      modifies this
      ensures Valid() && day == old(day) && seconds == h * 3600 + m * 60 + s
    {
      seconds := h * 3600 + m * 60 + s;
    }
  }

  /**
   * `weeklyExpiry`, step by step on `Date` objects as the source does it,
   * returning the expiry's `YYYY-MM-DD` text.
   */
  method WeeklyExpiry(now: LocalTime) returns (date: string)
    requires ValidTime(now)
    ensures date == IsoDate(ExpiryDay(now))
  {
    var istNow := new DateTime(now);
    var weekday := Weekday(istNow.day);
    var diff := (THURSDAY - weekday + 7) % 7;
    var thu := new DateTime.Copy(istNow);
    thu.SetDate(istNow.day + diff);
    thu.SetHours(0, 0, 0);
    var cutoff := new DateTime.Copy(thu);
    cutoff.SetHours(15, 30, 0);
    ghost var thursday := now.day + DaysToThursday(Weekday(now.day));
    assert thu.day == thursday && cutoff.Fields() == CutoffOf(thursday);
    if Later(istNow.Fields(), cutoff.Fields()) {
      thu.SetDate(thu.day + 7);
    }
    assert thu.day == ExpiryDay(now);
    date := IsoDate(thu.day);
  }
}
