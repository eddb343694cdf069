/** Wall-clock times in a zone whose offset changes now and then: resolving them, quiet hours, and rescheduling. */
module LocalTime {
  import opened Core

  const DAY: int := 1440 * MINUTE
  const QUARTER: int := 15 * MINUTE

  /** From instant `at` on, local time is ahead of UTC by `offset`. */
  datatype Change = Change(at: Instant, offset: int)

  datatype Zone = Zone(first: int, changes: seq<Change>)

  function OffsetBefore(z: Zone, i: nat): int
    requires i < |z.changes|
  {
    if i == 0 then z.first else z.changes[i - 1].offset
  }

  /** The wall times between which a change repeats or skips: its end, and its start. */
  function WallEnd(z: Zone, i: nat): int
    requires i < |z.changes|
  {
    z.changes[i].at + Max(OffsetBefore(z, i), z.changes[i].offset)
  }

  function WallStart(z: Zone, i: nat): int
    requires i < |z.changes|
  {
    z.changes[i].at + Min(OffsetBefore(z, i), z.changes[i].offset)
  }

  /** Changes come at least a minute apart, and no repeated or skipped stretch of wall time runs into the next. */
  predicate ValidZone(z: Zone) {
    forall i :: 0 < i < |z.changes| ==> z.changes[i - 1].at + MINUTE <= z.changes[i].at && WallEnd(z, i - 1) <= WallStart(z, i)
  }

  /** The offset in force at an instant, by the first `n` changes. */
  function Offset(z: Zone, n: nat, u: Instant): int
    requires n <= |z.changes|
  {
    if n == 0 then z.first
    else if u >= z.changes[n - 1].at then z.changes[n - 1].offset
    else Offset(z, n - 1, u)
  }

  function Local(z: Zone, u: Instant): int {
    u + Offset(z, |z.changes|, u)
  }

  /** The offset that a wall time is read with: in a repeated or skipped stretch, the one before the change, or the one
      after it if `fold` is set. */
  function WallOffset(z: Zone, n: nat, wall: int, fold: bool): int
    requires n <= |z.changes|
  {
    if n == 0 then z.first
    else if wall >= (if fold then WallStart(z, n - 1) else WallEnd(z, n - 1)) then z.changes[n - 1].offset
    else WallOffset(z, n - 1, wall, fold)
  }

  function Utc(z: Zone, wall: int, fold: bool): Instant {
    wall - WallOffset(z, |z.changes|, wall, fold)
  }

  /** The wall time really occurs. */
  ghost predicate Occurs(z: Zone, wall: int) {
    exists u :: Local(z, u) == wall
  }

  // ---------------------------------------------------------------- wall times and instants

  /** Before a change, local time stays below the wall time the change is reached at. */
  lemma {:induction false} LocalBelow(z: Zone, n: nat, u: Instant)
    requires ValidZone(z) && 0 < n <= |z.changes| && u < z.changes[n - 1].at
    ensures u + Offset(z, n - 1, u) < z.changes[n - 1].at + OffsetBefore(z, n - 1)
    decreases n
  {
    if n > 1 && u < z.changes[n - 2].at {
      LocalBelow(z, n - 1, u);
      assert WallEnd(z, n - 2) <= WallStart(z, n - 1);
    }
  }

  /** If a wall time occurs at all, the reading before the change is its first occurrence. */
  lemma {:induction false} FirstReading(z: Zone, n: nat, wall: int, u: Instant)
    requires ValidZone(z) && n <= |z.changes| && u + Offset(z, n, u) == wall
    ensures var first := wall - WallOffset(z, n, wall, false); first + Offset(z, n, first) == wall && first <= u
    decreases n
  {
    if n > 0 {
      var at := z.changes[n - 1].at;
      if u < at {
        LocalBelow(z, n, u);
        FirstReading(z, n - 1, wall, u);
      } else if wall < WallEnd(z, n - 1) && n > 1 {
        assert WallEnd(z, n - 2) <= WallStart(z, n - 1) <= wall;
        assert WallOffset(z, n - 1, wall, false) == OffsetBefore(z, n - 1);
      }
    }
  }

  /** A wall time that does not occur is skipped by some change. */
  lemma {:induction false} OccursOrSkipped(z: Zone, n: nat, wall: int) returns (u: Instant, i: nat, skipped: bool)
    requires ValidZone(z) && n <= |z.changes|
    ensures if skipped then i < n && z.changes[i].at + OffsetBefore(z, i) <= wall < z.changes[i].at + z.changes[i].offset
            else u + Offset(z, n, u) == wall
    decreases n
  {
    if n == 0 {
      u, i, skipped := wall - z.first, 0, false;
    } else {
      var c := z.changes[n - 1];
      if wall >= WallEnd(z, n - 1) {
        u, i, skipped := wall - c.offset, 0, false;
      } else if wall >= c.at + OffsetBefore(z, n - 1) {
        u, i, skipped := 0, n - 1, true;
      } else {
        u, i, skipped := OccursOrSkipped(z, n - 1, wall);
      }
    }
  }

  lemma {:induction false} WallsInOrder(z: Zone, i: nat, j: nat)
    requires ValidZone(z) && i < j < |z.changes|
    ensures WallEnd(z, i) <= WallStart(z, j)
    ensures z.changes[i].at + z.changes[i].offset + MINUTE <= z.changes[j].at + OffsetBefore(z, j)
    decreases j
  {
    if i < j - 1 {
      WallsInOrder(z, i, j - 1);
    }
  }

  // ---------------------------------------------------------------- resolving a wall time

  const TRIES: int := 181

  ghost predicate ResolvesTo(z: Zone, wall: int, u: Instant) {
    exists k :: 0 <= k <= 180 && FirstAfter(z, wall, k, u)
  }

  /** The `k`-th minute after the wall time is the first that occurs, and `u` is when it occurs first. */
  ghost predicate FirstAfter(z: Zone, wall: int, k: int, u: Instant) {
    && Local(z, u) == wall + k * MINUTE
    && (forall v :: Local(z, v) == wall + k * MINUTE ==> u <= v)
    && (forall j :: 0 <= j < k ==> !Occurs(z, wall + j * MINUTE))
  }

  /** None of the minutes that are tried occurs. */
  ghost predicate NeverResolves(z: Zone, wall: int) {
    forall k :: 0 <= k <= 180 ==> !Occurs(z, wall + k * MINUTE)
  }

  /** The search for a wall time that exists: minute by minute, the earlier reading first. */
  method ResolveLocal(z: Zone, wall: int) returns (result: Option<Instant>)
    requires ValidZone(z)
    ensures result.Some? ==> forall u :: ResolvesTo(z, wall, u) <==> u == result.value
    ensures result.None? <==> NeverResolves(z, wall)
  {
    for k := 0 to TRIES
      invariant forall j :: 0 <= j < k ==> !Occurs(z, wall + j * MINUTE)
    {
      var candidate := wall + k * MINUTE;
      for fold := 0 to 2
        invariant fold >= 1 ==> Local(z, Utc(z, candidate, false)) != candidate
      {
        var u := Utc(z, candidate, fold == 1);
        if Local(z, u) == candidate {
          FirstReading(z, |z.changes|, candidate, u);
          forall v | Local(z, v) == candidate ensures u <= v {
            FirstReading(z, |z.changes|, candidate, v);
          }
          assert FirstAfter(z, wall, k, u);
          assert Occurs(z, wall + k * MINUTE);
          forall v | ResolvesTo(z, wall, v) ensures v == u {
            ResolvesToOne(z, wall, u, v);
          }
          return Some(u);
        }
      }
      if u :| Local(z, u) == candidate {
        FirstReading(z, |z.changes|, candidate, u);
      }
    }
    return None;
  }

  /** Two answers to the same question are the same. */
  lemma ResolvesToOne(z: Zone, wall: int, u: Instant, v: Instant)
    requires ResolvesTo(z, wall, u) && ResolvesTo(z, wall, v)
    ensures u == v
  {
    var j :| 0 <= j <= 180 && FirstAfter(z, wall, j, u);
    var k :| 0 <= k <= 180 && FirstAfter(z, wall, k, v);
    assert Occurs(z, wall + j * MINUTE) && Occurs(z, wall + k * MINUTE);
  }

  /** The wall time just after a skipped stretch, on the minute grid of the requested one. */
  function MinutesUpTo(wall: int, end: int): (k: int)
    requires wall < end
    ensures k >= 0 && end <= wall + k * MINUTE < end + MINUTE
    ensures end - wall <= 180 * MINUTE ==> k <= 180
  {
    (end - wall + MINUTE - 1) / MINUTE
  }

  /** A zone whose gaps last at most three hours has an answer for every wall time. */
  lemma ShortGapsResolve(z: Zone, wall: int)
    requires ValidZone(z)
    requires forall i :: 0 <= i < |z.changes| ==> z.changes[i].offset - OffsetBefore(z, i) <= 180 * MINUTE
    ensures !NeverResolves(z, wall)
  {
    hide Offset;
    var u, i, skipped := OccursOrSkipped(z, |z.changes|, wall);
    if !skipped {
      assert Local(z, u) == wall + 0 * MINUTE;
      assert Occurs(z, wall + 0 * MINUTE);
    } else {
      var end := z.changes[i].at + z.changes[i].offset;
      var k := MinutesUpTo(wall, end);
      var v, j, again := OccursOrSkipped(z, |z.changes|, wall + k * MINUTE);
      if again {
        if i < j {
          WallsInOrder(z, i, j);
        } else if j < i {
          WallsInOrder(z, j, i);
        }
        assert false;
      }
      assert Local(z, v) == wall + k * MINUTE;
      assert Occurs(z, wall + k * MINUTE);
    }
  }

  // ---------------------------------------------------------------- quiet hours

  /** The daily window, which runs over midnight unless it starts before it ends. */
  predicate InWindow(wall: int, start: int, end: int) {
    var time := wall % DAY;
    if start < end then start <= time < end else time >= start || time < end
  }

  function EndWall(wall: int, start: int, end: int): int {
    var date := wall / DAY;
    if start >= end && wall % DAY >= start then (date + 1) * DAY + end else date * DAY + end
  }

  datatype Quiet = NotQuiet | Until(at: Instant) | Unresolved

  method QuietHoursEnd(z: Zone, now: Instant, start: int, end: int) returns (quiet: Quiet)
    requires ValidZone(z) && 0 <= start < DAY && 0 <= end < DAY
    ensures quiet.NotQuiet? <==> !InWindow(Local(z, now), start, end)
    ensures quiet.Until? ==> ResolvesTo(z, EndWall(Local(z, now), start, end), quiet.at)
    ensures quiet.Unresolved? ==> NeverResolves(z, EndWall(Local(z, now), start, end))
  {
    hide Offset;
    var local := Local(z, now);
    var time, date := local % DAY, local / DAY;
    if start < end {
      if !(start <= time < end) {
        return NotQuiet;
      }
    } else if time >= start {
      date := date + 1;
    } else if !(time < end) {
      return NotQuiet;
    }
    var resolved := ResolveLocal(z, date * DAY + end);
    return if resolved.Some? then Until(resolved.value) else Unresolved;
  }

  lemma DayParts(wall: int)
    ensures wall == wall / DAY * DAY + wall % DAY && 0 <= wall % DAY < DAY
  {}

  lemma SameDay(wall: int, date: int, time: int)
    requires wall == date * DAY + time && 0 <= time < DAY
    ensures wall / DAY == date && wall % DAY == time
  {}

  /** From any wall time in the window, the window's end lies strictly ahead and at most a day away, and the window
      lasts until then. */
  lemma WindowLasts(wall: int, start: int, end: int, later: int)
    requires 0 <= start < DAY && 0 <= end < DAY && InWindow(wall, start, end)
    ensures 0 < EndWall(wall, start, end) - wall <= DAY
    ensures start != end ==> EndWall(wall, start, end) - wall < DAY
    ensures wall <= later < EndWall(wall, start, end) ==> InWindow(later, start, end)
    ensures EndWall(wall, start, end) % DAY == end && (start != end ==> !InWindow(EndWall(wall, start, end), start, end))
  {
    var date, time := wall / DAY, wall % DAY;
    DayParts(wall);
    if start >= end && time >= start {
      SameDay(EndWall(wall, start, end), date + 1, end);
      if wall <= later < EndWall(wall, start, end) {
        if later < (date + 1) * DAY {
          SameDay(later, date, later - date * DAY);
        } else {
          SameDay(later, date + 1, later - (date + 1) * DAY);
        }
      }
    } else {
      SameDay(EndWall(wall, start, end), date, end);
      if wall <= later < EndWall(wall, start, end) {
        SameDay(later, date, later - date * DAY);
      }
    }
  }

  /** The offset does not change between two instants. */
  ghost predicate Steady(z: Zone, from: Instant, to: Instant) {
    forall u :: from <= u <= to ==> Local(z, u) - u == Local(z, from) - from
  }

  /** While no change of offset intervenes, a reminder in quiet hours waits exactly for their end: later than now by at
      most a day, and quiet at every instant before. The one exception is an end whose wall time had occurred before
      already; then, and only then, the answer lies in the past. */
  lemma QuietHoursLast(z: Zone, now: Instant, start: int, end: int, until: Instant)
    requires 0 <= start < DAY && 0 <= end < DAY && InWindow(Local(z, now), start, end)
    requires ResolvesTo(z, EndWall(Local(z, now), start, end), until)
    requires Steady(z, now, now + EndWall(Local(z, now), start, end) - Local(z, now))
    ensures var wait := EndWall(Local(z, now), start, end) - Local(z, now);
            && 0 < wait <= DAY && (start != end ==> wait < DAY)
            && (forall u :: now <= u < now + wait ==> InWindow(Local(z, u), start, end))
            && (until > now <==> !exists v :: v < now && Local(z, v) == EndWall(Local(z, now), start, end))
            && (until > now ==> until == now + wait)
  {
    hide Local, InWindow, EndWall;
    var wall := Local(z, now);
    var target := EndWall(wall, start, end);
    var wait := target - wall;
    WindowLasts(wall, start, end, wall);
    forall u | now <= u < now + wait ensures InWindow(Local(z, u), start, end) {
      WindowLasts(wall, start, end, Local(z, u));
    }
    assert Local(z, now + wait) == target + 0 * MINUTE;
    var k :| 0 <= k <= 180 && FirstAfter(z, target, k, until);
    assert Occurs(z, target + 0 * MINUTE);
    assert k == 0;
  }

  /** Deferred reminders are spread over two minutes by their identity. */
  function DeferredUntil(end: Instant, identity: nat): (until: Instant)
    ensures end <= until <= end + 119 * SECOND
  {
    end + identity % 120 * SECOND
  }

  /** The spread is by identity: two reminders are put off to the same second exactly if their identities agree modulo two
      minutes. */
  lemma DeferralsSpread(end: Instant, a: nat, b: nat)
    ensures DeferredUntil(end, a) / SECOND == DeferredUntil(end, b) / SECOND <==> a % 120 == b % 120
    ensures (DeferredUntil(end, a) - end) % SECOND == 0
  {
    assert (end + a % 120 * SECOND) / SECOND == end / SECOND + a % 120;
    assert (end + b % 120 * SECOND) / SECOND == end / SECOND + b % 120;
  }

  // ---------------------------------------------------------------- rescheduling

  predicate IsNextQuarter(quarter: int, wall: int) {
    quarter % QUARTER == 0 && wall <= quarter < wall + QUARTER
  }

  /** "Later today": three hours on, rounded up to a quarter of an hour, if that is still today. */
  method LaterToday(wall: int) returns (later: Option<int>)
    ensures later.Some? ==> IsNextQuarter(later.value, wall + 180 * MINUTE) && later.value / DAY == wall / DAY
    ensures later.None? ==> forall q :: IsNextQuarter(q, wall + 180 * MINUTE) ==> q / DAY != wall / DAY
  {
    var candidate := wall + 180 * MINUTE;
    var time := candidate % DAY;
    var minutes := time / MINUTE;
    if time % MINUTE != 0 {
      minutes := minutes + 1;
    }
    var rounded := (minutes + 14) / 15 * 15;
    var date := candidate / DAY;
    ghost var quarter := date * DAY + rounded * MINUTE;
    RoundedIsNext(candidate, minutes);
    if rounded / 60 == 24 {
      date := date + 1;
      rounded := 0;
    }
    DayParts(candidate);
    SameDay(quarter, date, rounded * MINUTE);
    if date != wall / DAY {
      forall q | IsNextQuarter(q, candidate) ensures q / DAY != wall / DAY {
        NextQuarterIsOne(q, quarter, candidate);
      }
      return None;
    }
    return Some(date * DAY + rounded * MINUTE);
  }

  lemma RoundedIsNext(candidate: int, minutes: int)
    requires var time := candidate % DAY; minutes == time / MINUTE + (if time % MINUTE != 0 then 1 else 0)
    ensures var rounded := (minutes + 14) / 15 * 15;
            IsNextQuarter(candidate / DAY * DAY + rounded * MINUTE, candidate) && 0 <= rounded <= 1440
  {
    var time := candidate % DAY;
    var rounded := (minutes + 14) / 15 * 15;
    DayParts(candidate);
    var n := candidate / DAY * 96 + (minutes + 14) / 15;
    assert candidate / DAY * DAY + rounded * MINUTE == n * QUARTER;
    MultipleOfQuarter(n);
  }

  lemma MultipleOfQuarter(n: int)
    ensures n * QUARTER % QUARTER == 0
  {}

  lemma NextQuarterIsOne(p: int, q: int, wall: int)
    requires IsNextQuarter(p, wall) && IsNextQuarter(q, wall)
    ensures p == q
  {}

  /** Monday is 0; day 0 of the epoch was a Thursday. */
  function Weekday(date: int): int {
    (date + 3) % 7
  }

  /** The loop to the next working day, which is at most three days away. */
  method NextWeekday(date: int) returns (next: int)
    ensures date < next <= date + 3 && Weekday(next) < 5
    ensures forall d :: date < d < next ==> Weekday(d) >= 5
  {
    next := date + 1;
    while Weekday(next) >= 5
      invariant date < next <= date + 3
      invariant forall d :: date < d < next ==> Weekday(d) >= 5
      decreases date + 3 - next
    {
      assert next == date + 3 ==> Weekday(date + 1) >= 5 && Weekday(date + 2) >= 5;
      next := next + 1;
    }
  }

  datatype Preset = LaterTodayPreset | TomorrowMorning | NextWorkingDay | InAWeek

  datatype Rescheduled = At(at: Instant) | LaterTodayUnavailable | Unresolvable

  /** The time of day of the item's current date, or the user's default. */
  function TimeOfDay(z: Zone, current: Option<Instant>, default: int): int {
    if current.Some? then Local(z, current.value) % DAY else default
  }

  method ResolvePreset(z: Zone, now: Instant, current: Option<Instant>, preset: Preset, default: int) returns (result: Rescheduled)
    requires ValidZone(z)
    ensures result.LaterTodayUnavailable? ==> preset.LaterTodayPreset?
    ensures result.LaterTodayUnavailable? <==>
              preset.LaterTodayPreset? && forall q :: IsNextQuarter(q, Local(z, now) + 180 * MINUTE) ==> q / DAY != Local(z, now) / DAY
    ensures result.At? ==> exists wall :: ResolvesTo(z, wall, result.at) && PresetWall(z, now, current, preset, default, wall)
    ensures result.Unresolvable? ==> exists wall :: NeverResolves(z, wall) && PresetWall(z, now, current, preset, default, wall)
  {
    hide Local, IsNextQuarter, ResolvesTo, NeverResolves;
    var local := Local(z, now);
    var time := TimeOfDay(z, current, default);
    var wall: int;
    match preset {
      case LaterTodayPreset =>
        var later := LaterToday(local);
        if later.None? {
          return LaterTodayUnavailable;
        }
        NextQuarterExists(later.value, local);
        wall := later.value;
      case TomorrowMorning => wall := (local / DAY + 1) * DAY + default;
      case NextWorkingDay =>
        var next := NextWeekday(local / DAY);
        wall := next * DAY + time;
      case InAWeek => wall := (local / DAY + 7) * DAY + time;
    }
    var resolved := ResolveLocal(z, wall);
    if resolved.None? {
      return Unresolvable;
    }
    assert ResolvesTo(z, wall, resolved.value);
    return At(resolved.value);
  }

  lemma NextQuarterExists(q: int, wall: int)
    requires IsNextQuarter(q, wall + 180 * MINUTE) && q / DAY == wall / DAY
    ensures !(forall p :: IsNextQuarter(p, wall + 180 * MINUTE) ==> p / DAY != wall / DAY)
  {}

  /** The wall time a preset asks for. */
  ghost predicate PresetWall(z: Zone, now: Instant, current: Option<Instant>, preset: Preset, default: int, wall: int) {
    var local := Local(z, now);
    match preset
    case LaterTodayPreset => IsNextQuarter(wall, local + 180 * MINUTE) && wall / DAY == local / DAY
    case TomorrowMorning => wall == (local / DAY + 1) * DAY + default
    case NextWorkingDay =>
      exists d :: local / DAY < d && Weekday(d) < 5 && (forall e :: local / DAY < e < d ==> Weekday(e) >= 5)
                  && wall == d * DAY + TimeOfDay(z, current, default)
    case InAWeek => wall == (local / DAY + 7) * DAY + TimeOfDay(z, current, default)
  }

  /** The presets in words: tomorrow at the default time; on the first working day after today or on the same weekday in a
      week, at the item's own time. */
  lemma PresetMeans(z: Zone, now: Instant, current: Option<Instant>, preset: Preset, default: int, wall: int)
    requires PresetWall(z, now, current, preset, default, wall) && 0 <= default < DAY
    ensures var today, day := Local(z, now) / DAY, wall / DAY;
            var time := if current.Some? then Local(z, current.value) % DAY else default;
            match preset
            case LaterTodayPreset => day == today && wall % (15 * MINUTE) == 0 && 0 <= wall - Local(z, now) - 180 * MINUTE < 15 * MINUTE
            case TomorrowMorning => day == today + 1 && wall % DAY == default
            case NextWorkingDay =>
              && day == today + (if (today + 3) % 7 == 4 then 3 else if (today + 3) % 7 == 5 then 2 else 1) // Friday, Saturday
              && wall % DAY == time
            case InAWeek => day == today + 7 && day % 7 == today % 7 && wall % DAY == time
  {
    hide Local;
    var local := Local(z, now);
    var time := TimeOfDay(z, current, default);
    DayParts(if current.Some? then Local(z, current.value) else 0);
    match preset
    case LaterTodayPreset =>
    case TomorrowMorning => SameDay(wall, local / DAY + 1, default);
    case NextWorkingDay =>
      var d :| local / DAY < d && Weekday(d) < 5 && (forall e :: local / DAY < e < d ==> Weekday(e) >= 5) && wall == d * DAY + time;
      SameDay(wall, d, time);
      WorkingDayIsNear(local / DAY, d);
    case InAWeek => SameDay(wall, local / DAY + 7, time);
  }

  lemma WorkingDayIsNear(today: int, d: int)
    requires today < d && Weekday(d) < 5 && forall e :: today < e < d ==> Weekday(e) >= 5
    ensures d == today + (if (today + 3) % 7 == 4 then 3 else if (today + 3) % 7 == 5 then 2 else 1)
  {
    var next := today + (if (today + 3) % 7 == 4 then 3 else if (today + 3) % 7 == 5 then 2 else 1);
    assert Weekday(next) < 5;
    assert forall e :: today < e < next ==> Weekday(e) >= 5;
  }

  /** A local day on which the offset never changes. */
  ghost predicate PlainDay(z: Zone, date: int, offset: int) {
    && (forall u :: Local(z, u) / DAY == date ==> Local(z, u) == u + offset)
    && (forall u :: (u + offset) / DAY == date ==> Local(z, u) == u + offset)
  }

  /** On a plain day every wall time occurs once, so it resolves to itself. */
  lemma PlainDayResolves(z: Zone, date: int, offset: int, wall: int, u: Instant)
    requires PlainDay(z, date, offset) && wall / DAY == date && ResolvesTo(z, wall, u)
    ensures u == wall - offset
  {
    hide Local;
    var v := wall - offset;
    assert Local(z, v) == wall + 0 * MINUTE;
    assert Occurs(z, wall + 0 * MINUTE);
    var k :| 0 <= k <= 180 && FirstAfter(z, wall, k, u);
    assert k == 0;
  }

  /** "Later today" on a plain day is between three hours and three and a quarter hours away, on the same local day. */
  lemma LaterTodayIsSoon(z: Zone, now: Instant, current: Option<Instant>, default: int, wall: int, u: Instant, offset: int)
    requires PlainDay(z, Local(z, now) / DAY, offset)
    requires PresetWall(z, now, current, LaterTodayPreset, default, wall) && ResolvesTo(z, wall, u)
    ensures now + 180 * MINUTE <= u < now + 195 * MINUTE && Local(z, u) / DAY == Local(z, now) / DAY
  {
    hide Local;
    PlainDayResolves(z, Local(z, now) / DAY, offset, wall, u);
  }

  /** Moving an item to today keeps its time of day if that is still ahead, and takes the next quarter of an hour
      otherwise; wall times are compared as they read. */
  method ResolveBucket(z: Zone, now: Instant, current: Option<Instant>, tomorrow: bool, default: int) returns (result: Rescheduled)
    requires ValidZone(z) && 0 <= default < DAY
    ensures result.At? && !tomorrow ==> exists u :: TodayTarget(z, now, TimeOfDay(z, current, default), u, result.at)
    ensures result.At? && tomorrow ==> ResolvesTo(z, (Local(z, now) / DAY + 1) * DAY + TimeOfDay(z, current, default), result.at)
    ensures result.LaterTodayUnavailable? ==> !tomorrow && exists u :: PastForToday(z, now, TimeOfDay(z, current, default), u)
    ensures result.Unresolvable? <==>
              NeverResolves(z, (Local(z, now) / DAY + (if tomorrow then 1 else 0)) * DAY + TimeOfDay(z, current, default))
  {
    hide Offset, ResolvesTo, NeverResolves;
    var local := Local(z, now);
    var time := TimeOfDay(z, current, default);
    var resolved := ResolveLocal(z, (local / DAY + (if tomorrow then 1 else 0)) * DAY + time);
    if resolved.None? {
      return Unresolvable;
    }
    if !tomorrow && Local(z, resolved.value) <= local {
      var hour := local / (60 * MINUTE);
      var quarter := local % (60 * MINUTE) / MINUTE / 15 + 1;
      var target := hour * 60 * MINUTE + quarter * 15 * MINUTE;
      QuarterAfterIs(local, hour, quarter);
      if target / DAY != local / DAY {
        assert PastForToday(z, now, time, resolved.value);
        return LaterTodayUnavailable;
      }
      assert TodayTarget(z, now, time, resolved.value, Utc(z, target, false));
      return At(Utc(z, target, false));
    }
    assert tomorrow || TodayTarget(z, now, time, resolved.value, resolved.value);
    return At(resolved.value);
  }

  /** The first quarter of an hour strictly after a wall time. */
  function QuarterAfter(wall: int): int {
    wall - wall % QUARTER + QUARTER
  }

  lemma QuarterAfterIs(wall: int, hour: int, quarter: int)
    requires hour == wall / (60 * MINUTE) && quarter == wall % (60 * MINUTE) / MINUTE / 15 + 1
    ensures hour * 60 * MINUTE + quarter * 15 * MINUTE == QuarterAfter(wall)
  {
    var rest := wall % (60 * MINUTE);
    assert wall == hour * (60 * MINUTE) + rest;
    assert rest / MINUTE / 15 == rest / QUARTER;
    assert rest == rest / QUARTER * QUARTER + rest % QUARTER;
    assert wall % QUARTER == rest % QUARTER by {
      assert wall == (4 * hour + rest / QUARTER) * QUARTER + rest % QUARTER;
      QuarterRemainder(4 * hour + rest / QUARTER, rest % QUARTER);
    }
  }

  lemma QuarterRemainder(n: int, rest: int)
    requires 0 <= rest < QUARTER
    ensures (n * QUARTER + rest) % QUARTER == rest
  {}

  /** The target of "today": the time of day where it resolves, if that reads later than now, else the next quarter. */
  ghost predicate TodayTarget(z: Zone, now: Instant, time: int, resolved: Instant, at: Instant) {
    && ResolvesTo(z, Local(z, now) / DAY * DAY + time, resolved)
    && if Local(z, resolved) <= Local(z, now) then
         at == Utc(z, QuarterAfter(Local(z, now)), false) && QuarterAfter(Local(z, now)) / DAY == Local(z, now) / DAY
       else at == resolved
  }

  /** The time of day has passed today, and so has the last quarter of an hour. */
  ghost predicate PastForToday(z: Zone, now: Instant, time: int, resolved: Instant) {
    && ResolvesTo(z, Local(z, now) / DAY * DAY + time, resolved)
    && Local(z, resolved) <= Local(z, now)
    && QuarterAfter(Local(z, now)) / DAY != Local(z, now) / DAY
  }

  /** On a plain day the target of "today" is strictly later than now and on the same local day. */
  lemma TodayIsAhead(z: Zone, now: Instant, time: int, resolved: Instant, at: Instant, offset: int)
    requires ValidZone(z) && 0 <= time < DAY && PlainDay(z, Local(z, now) / DAY, offset)
    requires TodayTarget(z, now, time, resolved, at)
    ensures at > now && Local(z, at) / DAY == Local(z, now) / DAY
  {
    hide Offset, WallOffset;
    var date := Local(z, now) / DAY;
    SameDay(date * DAY + time, date, time);
    PlainDayResolves(z, date, offset, date * DAY + time, resolved);
    if Local(z, resolved) <= Local(z, now) {
      var wall := QuarterAfter(Local(z, now));
      var v := wall - offset;
      assert Local(z, v) == wall;
      FirstReading(z, |z.changes|, wall, v);
      assert Local(z, Utc(z, wall, false)) == wall;
    }
  }
}
