/**
 * The schedule record (VpnSchedule) and its time calculations.
 *
 * Instants are milliseconds since the epoch, in UTC. Weekdays are numbered
 * 0 = Sunday .. 6 = Saturday, which is bit `Calendar.DAY_OF_WEEK - 1` of the
 * recurrence mask.
 */
module Schedules {
  import opened Wrappers

  /** Java's `int`. */
  type Int32 = x: int | -0x8000_0000 <= x < 0x8000_0000

  const DayMillis := 86_400_000
  /** Tolerance of the trigger-window test, one minute either way. */
  const TriggerToleranceMillis := 60_000

  /** Day of the week of instant `t` in UTC. The epoch, 1970-01-01, was a Thursday (4). */
  function WeekdayUTC(t: int): (d: int)
    ensures 0 <= d < 7
  {
    (t / DayMillis + 4) % 7
  }

  /**
   * WeekdayUTC follows the calendar: the epoch is a Thursday, the weekday
   * advances by one each UTC day and repeats every seven days, and it is the
   * same at every instant of one UTC day.
   */
  lemma WeekdayUTCCalendar(t: int, ms: int)
    requires 0 <= ms < DayMillis
    ensures WeekdayUTC(0) == 4
    ensures WeekdayUTC(t + DayMillis) == (WeekdayUTC(t) + 1) % 7
    ensures WeekdayUTC(t + 7 * DayMillis) == WeekdayUTC(t)
    ensures WeekdayUTC((t / DayMillis) * DayMillis + ms) == WeekdayUTC(t)
  {
    var q := t / DayMillis;
    assert (t + DayMillis) / DayMillis == q + 1;
    assert (t + 7 * DayMillis) / DayMillis == q + 7;
    assert (q * DayMillis + ms) / DayMillis == q;
  }

  function Pow2(n: nat): (p: nat)
    ensures p >= 1
  {
    if n == 0 then 1 else 2 * Pow2(n - 1)
  }

  /**
   * Java's `(mask & (1 << day)) != 0`. Division by a power of two rounds
   * down here, so this is the bit of the two's-complement representation,
   * negative masks included.
   */
  predicate InMask(mask: Int32, day: int)
    requires 0 <= day < 7
  {
    (mask / Pow2(day)) % 2 == 1
  }

  /**
   * The bit test reads single bits: the mask `1 << d` holds day d and no
   * other, the mask -1 (every bit set) holds every day, and 0 holds none.
   */
  lemma InMaskBits(d: int, e: int)
    requires 0 <= d < 7 && 0 <= e < 7
    ensures Pow2(d) <= 64
    ensures InMask(Pow2(d) as Int32, e) <==> d == e
    ensures InMask(-1, d)
    ensures !InMask(0, d)
  {
    assert Pow2(0) == 1 && Pow2(1) == 2 && Pow2(2) == 4 && Pow2(3) == 8;
    assert Pow2(4) == 16 && Pow2(5) == 32 && Pow2(6) == 64;
  }

  /** The serialisable state of a VpnSchedule: what the store and the "schedule" intent extra carry. */
  datatype Schedule = Schedule(
    id: string,
    config: Option<string>,
    name: Option<string>,
    username: Option<string>,
    password: Option<string>,
    connectTimeUTC: int,
    disconnectTimeUTC: int,
    isActive: bool,
    isRecurring: bool,
    recurringDays: Int32,
    bypassPackages: Option<seq<string>>)

  // ---------------------------------------------------------------------------
  // Next connect time

  /** The i-th candidate of the weekly search: the anchor moved i whole UTC days on. */
  function Candidate(s: Schedule, i: nat): int
  {
    s.connectTimeUTC + i * DayMillis
  }

  /** Candidate i qualifies: its UTC weekday is in the mask and it lies after `now`. */
  predicate IsOccurrence(s: Schedule, now: int, i: nat)
  {
    InMask(s.recurringDays, WeekdayUTC(Candidate(s, i))) && Candidate(s, i) > now
  }

  /** The first qualifying candidate among i..6, or the anchor itself when there is none. */
  function FirstOccurrenceFrom(s: Schedule, now: int, i: nat): int
    requires i <= 7
    decreases 7 - i
  {
    if i == 7 then s.connectTimeUTC
    else if IsOccurrence(s, now, i) then Candidate(s, i)
    else FirstOccurrenceFrom(s, now, i + 1)
  }

  /** What `getNextConnectTime` computes when the clock reads `now`. */
  function NextConnectTime(s: Schedule, now: int): int
  {
    if !s.isRecurring then s.connectTimeUTC
    else if s.connectTimeUTC > now then s.connectTimeUTC
    else FirstOccurrenceFrom(s, now, 0)
  }

  /** With no qualifying candidate among i..6 the search falls back to the anchor. */
  lemma {:induction false} FirstOccurrenceFromFallback(s: Schedule, now: int, i: nat)
    requires i <= 7
    requires forall k :: i <= k < 7 ==> !IsOccurrence(s, now, k)
    ensures FirstOccurrenceFrom(s, now, i) == s.connectTimeUTC
    decreases 7 - i
  {
    if i < 7 {
      assert !IsOccurrence(s, now, i);
      FirstOccurrenceFromFallback(s, now, i + 1);
    }
  }

  /** When candidate k qualifies and none of i..k-1 does, the search from i returns candidate k. */
  lemma {:induction false} FirstOccurrenceFromFinds(s: Schedule, now: int, i: nat, k: nat)
    requires i <= k < 7
    requires IsOccurrence(s, now, k)
    requires forall j :: i <= j < k ==> !IsOccurrence(s, now, j)
    ensures FirstOccurrenceFrom(s, now, i) == Candidate(s, k)
    decreases k - i
  {
    if i < k {
      assert !IsOccurrence(s, now, i);
      FirstOccurrenceFromFinds(s, now, i + 1, k);
    }
  }

  /** Some candidate qualifies, so there is a least one. */
  lemma {:induction false} LeastOccurrence(s: Schedule, now: int, m: nat) returns (k: nat)
    requires m < 7 && IsOccurrence(s, now, m)
    ensures k <= m && IsOccurrence(s, now, k)
    ensures forall j :: 0 <= j < k ==> !IsOccurrence(s, now, j)
  {
    k := 0;
    while !IsOccurrence(s, now, k)
      invariant k <= m
      invariant forall j :: 0 <= j < k ==> !IsOccurrence(s, now, j)
      decreases m - k
    {
      k := k + 1;
    }
  }

  /** A one-shot schedule's next connect time is its connect time, whatever the clock says. */
  lemma NextConnectTimeOneShot(s: Schedule, now: int)
    requires !s.isRecurring
    ensures NextConnectTime(s, now) == s.connectTimeUTC
  {
  }

  /** A recurring schedule whose anchor is still in the future fires at the anchor. */
  lemma NextConnectTimeFutureAnchor(s: Schedule, now: int)
    requires s.isRecurring && s.connectTimeUTC > now
    ensures NextConnectTime(s, now) == s.connectTimeUTC
  {
  }

  /**
   * Once the anchor has passed, the result is the earliest of the six
   * following days that is in the mask and after `now`; the anchor comes
   * back exactly when no such day exists.
   */
  lemma NextConnectTimeSearch(s: Schedule, now: int)
    requires s.isRecurring && s.connectTimeUTC <= now
    ensures NextConnectTime(s, now) == s.connectTimeUTC <==>
              forall k :: 0 <= k < 7 ==> !IsOccurrence(s, now, k)
    ensures NextConnectTime(s, now) != s.connectTimeUTC ==>
              exists k :: 1 <= k < 7 && IsOccurrence(s, now, k)
                     && NextConnectTime(s, now) == Candidate(s, k)
                     && forall j :: 0 <= j < k ==> !IsOccurrence(s, now, j)
  {
    assert !IsOccurrence(s, now, 0);
    if m :| 0 <= m < 7 && IsOccurrence(s, now, m) {
      var k := LeastOccurrence(s, now, m);
      FirstOccurrenceFromFinds(s, now, 0, k);
      assert k >= 1;
      assert Candidate(s, k) != s.connectTimeUTC;
    } else {
      FirstOccurrenceFromFallback(s, now, 0);
    }
  }

  /**
   * A recurring schedule either keeps its anchor or moves to an instant
   * strictly after `now`, at most six days past the anchor, at the anchor's
   * UTC time of day, on a weekday in the mask.
   */
  lemma NextConnectTimeBounds(s: Schedule, now: int)
    requires s.isRecurring
    ensures var r := NextConnectTime(s, now);
            r == s.connectTimeUTC ||
            (now < r <= s.connectTimeUTC + 6 * DayMillis
             && (r - s.connectTimeUTC) % DayMillis == 0
             && InMask(s.recurringDays, WeekdayUTC(r)))
  {
    if s.connectTimeUTC <= now {
      if m :| 0 <= m < 7 && IsOccurrence(s, now, m) {
        var k := LeastOccurrence(s, now, m);
        FirstOccurrenceFromFinds(s, now, 0, k);
        assert Candidate(s, k) - s.connectTimeUTC == k * DayMillis;
      } else {
        FirstOccurrenceFromFallback(s, now, 0);
      }
    }
  }

  /** No day in the mask (a zero mask in particular): the search ends and returns the anchor. */
  lemma EmptyMaskKeepsAnchor(s: Schedule, now: int)
    requires s.isRecurring
    requires forall d :: 0 <= d < 7 ==> !InMask(s.recurringDays, d)
    ensures NextConnectTime(s, now) == s.connectTimeUTC
  {
    if s.connectTimeUTC <= now {
      NextConnectTimeSearch(s, now);
    }
  }

  lemma ZeroMaskKeepsAnchor(s: Schedule, now: int)
    requires s.isRecurring && s.recurringDays == 0
    ensures NextConnectTime(s, now) == s.connectTimeUTC
  {
    forall d | 0 <= d < 7 ensures !InMask(s.recurringDays, d) {
      assert 0 / Pow2(d) == 0;
    }
    EmptyMaskKeepsAnchor(s, now);
  }

  /** An anchor six or more days old has no candidate after `now`: the anchor, now in the past, comes back. */
  lemma StaleAnchorIsReturned(s: Schedule, now: int)
    requires s.isRecurring && now >= s.connectTimeUTC + 6 * DayMillis
    ensures NextConnectTime(s, now) == s.connectTimeUTC
    ensures NextConnectTime(s, now) <= now
  {
    forall k | 0 <= k < 7 ensures !IsOccurrence(s, now, k) {
      assert Candidate(s, k) <= s.connectTimeUTC + 6 * DayMillis;
    }
    NextConnectTimeSearch(s, now);
  }

  /** With every weekday in the mask and an anchor less than six days old, the next connect is within a day. */
  lemma DailyMaskNextWithinADay(s: Schedule, now: int)
    requires s.isRecurring
    requires forall d :: 0 <= d < 7 ==> InMask(s.recurringDays, d)
    requires s.connectTimeUTC <= now < s.connectTimeUTC + 6 * DayMillis
    ensures now < NextConnectTime(s, now) <= now + DayMillis
  {
    var q := (now - s.connectTimeUTC) / DayMillis;
    assert q * DayMillis <= now - s.connectTimeUTC < (q + 1) * DayMillis;
    assert 0 <= q < 6;
    assert IsOccurrence(s, now, q + 1);
    NextConnectTimeSearch(s, now);
    var k :| 1 <= k < 7 && IsOccurrence(s, now, k)
             && NextConnectTime(s, now) == Candidate(s, k)
             && forall j :: 0 <= j < k ==> !IsOccurrence(s, now, j);
    assert !IsOccurrence(s, now, k - 1);
    assert Candidate(s, k - 1) <= now;
  }

  /**
   * The worked example: anchor on Tuesday 1970-01-06 09:00 UTC, mask
   * {Tuesday, Friday}, clock on the following Wednesday at 10:00 UTC. The
   * next connect is Friday 1970-01-09 09:00 UTC.
   */
  lemma TuesdayFridayExample(s: Schedule)
    requires s.isRecurring
    requires s.connectTimeUTC == 5 * DayMillis + 9 * 3_600_000
    requires s.recurringDays == 4 + 32
    ensures WeekdayUTC(s.connectTimeUTC) == 2
    ensures NextConnectTime(s, 6 * DayMillis + 10 * 3_600_000) == 8 * DayMillis + 9 * 3_600_000
    ensures WeekdayUTC(8 * DayMillis + 9 * 3_600_000) == 5
  {
    var now := 6 * DayMillis + 10 * 3_600_000;
    assert Pow2(2) == 4 && Pow2(3) == 8 && Pow2(4) == 16;
    assert !IsOccurrence(s, now, 0);
    assert WeekdayUTC(Candidate(s, 1)) == 3 && !IsOccurrence(s, now, 1);
    assert WeekdayUTC(Candidate(s, 2)) == 4 && !IsOccurrence(s, now, 2);
    assert WeekdayUTC(Candidate(s, 3)) == 5 && IsOccurrence(s, now, 3);
  }

  // ---------------------------------------------------------------------------
  // Trigger-window and disconnect tests

  function Abs(x: int): int
  {
    if x < 0 then -x else x
  }

  /**
   * `shouldTriggerAt`: an inactive schedule never triggers; otherwise the
   * clock must be within a minute of the connect time, and for a recurring
   * schedule the clock's UTC weekday must also be in the mask.
   */
  function ShouldTriggerAt(s: Schedule, now: int): (r: bool)
    ensures r <==> s.isActive
                   && s.connectTimeUTC - TriggerToleranceMillis <= now <= s.connectTimeUTC + TriggerToleranceMillis
                   && (s.isRecurring ==> InMask(s.recurringDays, WeekdayUTC(now)))
  {
    if !s.isActive then false
    else if s.isRecurring then
      InMask(s.recurringDays, WeekdayUTC(now)) && Abs(now - s.connectTimeUTC) <= TriggerToleranceMillis
    else
      Abs(now - s.connectTimeUTC) <= TriggerToleranceMillis
  }

  /** `shouldDisconnectAt`: an active schedule whose disconnect time has been reached. */
  function ShouldDisconnectAt(s: Schedule, now: int): (r: bool)
    ensures r <==> s.isActive && now >= s.disconnectTimeUTC
  {
    if !s.isActive then false else now >= s.disconnectTimeUTC
  }

  /** An active one-shot schedule passes the trigger test at the instant its alarm is set for. */
  lemma OneShotTriggersAtNextConnect(s: Schedule, now: int)
    requires s.isActive && !s.isRecurring
    ensures ShouldTriggerAt(s, NextConnectTime(s, now))
  {
  }

  /**
   * The trigger window is anchored at `connectTimeUTC`, not at the
   * occurrence: a recurring occurrence moved to a later day never passes the
   * trigger test at its own instant.
   */
  lemma MovedOccurrenceFailsTriggerTest(s: Schedule, now: int)
    requires s.isRecurring
    requires NextConnectTime(s, now) != s.connectTimeUTC
    ensures !ShouldTriggerAt(s, NextConnectTime(s, now))
  {
    NextConnectTimeSearch(s, now);
  }

  /** Once a schedule should disconnect it stays that way as the clock advances. */
  lemma ShouldDisconnectIsMonotone(s: Schedule, t: int, later: int)
    requires t <= later && ShouldDisconnectAt(s, t)
    ensures ShouldDisconnectAt(s, later)
  {
  }

  // ---------------------------------------------------------------------------
  // The mutable object

  /** The Java object: constructed, then changed field by field through its setters. */
  class VpnSchedule {
    var id: string
    var config: Option<string>
    var name: Option<string>
    var username: Option<string>
    var password: Option<string>
    var connectTimeUTC: int
    var disconnectTimeUTC: int
    var isActive: bool
    var isRecurring: bool
    var recurringDays: Int32
    var bypassPackages: Option<seq<string>>

    /** The record this object serialises to. */
    function Value(): Schedule
      reads this
    {
      Schedule(id, config, name, username, password, connectTimeUTC, disconnectTimeUTC,
               isActive, isRecurring, recurringDays, bypassPackages)
    }

    /** The no-argument constructor; `freshId` is the random UUID it draws. */
    constructor (freshId: string)
      ensures Value() == Schedule(freshId, None, None, None, None, 0, 0, true, false, 0, None)
    {
      id := freshId;
      config, name, username, password := None, None, None, None;
      connectTimeUTC, disconnectTimeUTC := 0, 0;
      isActive, isRecurring, recurringDays := true, false, 0;
      bypassPackages := None;
    }

    /** The six-argument constructor: defaults of the no-argument one, then the given fields. */
    constructor Create(freshId: string, config: Option<string>, name: Option<string>,
                       username: Option<string>, password: Option<string>,
                       connectTimeUTC: int, disconnectTimeUTC: int)
      ensures Value() == Schedule(freshId, config, name, username, password,
                                  connectTimeUTC, disconnectTimeUTC, true, false, 0, None)
    {
      id := freshId;
      isActive, isRecurring, recurringDays := true, false, 0;
      bypassPackages := None;
      this.config := config;
      this.name := name;
      this.username := username;
      this.password := password;
      this.connectTimeUTC := connectTimeUTC;
      this.disconnectTimeUTC := disconnectTimeUTC;
    }

    /** Deserialisation of a record (an intent extra): a new object with the same fields. */
    constructor Restore(record: Schedule)
      ensures Value() == record
    {
      id, config, name, username, password := record.id, record.config, record.name, record.username, record.password;
      connectTimeUTC, disconnectTimeUTC := record.connectTimeUTC, record.disconnectTimeUTC;
      isActive, isRecurring, recurringDays := record.isActive, record.isRecurring, record.recurringDays;
      bypassPackages := record.bypassPackages;
    }

    method SetId(id: string)
      modifies this
      ensures Value() == old(Value()).(id := id)
    {
      this.id := id;
    }

    method SetConfig(config: Option<string>)
      modifies this
      ensures Value() == old(Value()).(config := config)
    {
      this.config := config;
    }

    method SetName(name: Option<string>)
      modifies this
      ensures Value() == old(Value()).(name := name)
    {
      this.name := name;
    }

    method SetUsername(username: Option<string>)
      modifies this
      ensures Value() == old(Value()).(username := username)
    {
      this.username := username;
    }

    method SetPassword(password: Option<string>)
      modifies this
      ensures Value() == old(Value()).(password := password)
    {
      this.password := password;
    }

    method SetConnectTimeUTC(connectTimeUTC: int)
      modifies this
      ensures Value() == old(Value()).(connectTimeUTC := connectTimeUTC)
    {
      this.connectTimeUTC := connectTimeUTC;
    }

    method SetDisconnectTimeUTC(disconnectTimeUTC: int)
      modifies this
      ensures Value() == old(Value()).(disconnectTimeUTC := disconnectTimeUTC)
    {
      this.disconnectTimeUTC := disconnectTimeUTC;
    }

    method SetActive(active: bool)
      modifies this
      ensures Value() == old(Value()).(isActive := active)
    {
      isActive := active;
    }

    method SetRecurring(recurring: bool)
      modifies this
      ensures Value() == old(Value()).(isRecurring := recurring)
    {
      isRecurring := recurring;
    }

    method SetRecurringDays(recurringDays: Int32)
      modifies this
      ensures Value() == old(Value()).(recurringDays := recurringDays)
    {
      this.recurringDays := recurringDays;
    }

    method SetBypassPackages(bypassPackages: Option<seq<string>>)
      modifies this
      ensures Value() == old(Value()).(bypassPackages := bypassPackages)
    {
      this.bypassPackages := bypassPackages;
    }

    /** `getNextConnectTime`, the clock reading passed in as `now`: seven candidates, first match wins. */
    method GetNextConnectTime(now: int) returns (t: int)
      ensures t == NextConnectTime(Value(), now)
    {
      if !isRecurring {
        return connectTimeUTC;
      }
      if connectTimeUTC > now {
        return connectTimeUTC;
      }
      var i := 0;
      while i < 7
        invariant 0 <= i <= 7
        invariant NextConnectTime(Value(), now) == FirstOccurrenceFrom(Value(), now, i)
      {
        var next := connectTimeUTC + i * DayMillis;
        if InMask(recurringDays, WeekdayUTC(next)) && next > now {
          return next;
        }
        i := i + 1;
      }
      return connectTimeUTC;
    }
  }
}
