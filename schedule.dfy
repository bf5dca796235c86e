/**
 * The `/schedule` command: the weekly plan (activity lists per day, the
 * Monday-to-Sunday bounds of the current week), the week shown by `view`,
 * and weekly reminders (HH:MM parsing and the next occurrence of a day and
 * time). The hosted schedule and reminder tables are values here: the plan
 * write appends a row to a sequence and a reminder is the row handed to the
 * insert.
 */
module Schedule {
  import opened Wrappers
  import opened JsString
  import opened Calendar

  /** The days of the weekly plan, in option order. */
  const Days: seq<string> := ["monday", "tuesday", "wednesday", "thursday", "friday", "saturday", "sunday"]

  /** The reminder's day names, indexed like `getDay`. */
  const WeekDayNames: seq<string> := ["sunday", "monday", "tuesday", "wednesday", "thursday", "friday", "saturday"]

  // ---------------------------------------------------------------------
  // Activity lists

  /** `.map(a => a.trim()).filter(a => a)`: trimmed pieces, empty ones dropped. */
  function CleanPieces(pieces: seq<string>): (r: seq<string>)
    ensures |r| <= |pieces|
    ensures forall k :: 0 <= k < |r| ==> r[k] != "" && Trimmed(r[k])
    ensures (forall j :: 0 <= j < |pieces| ==> ',' !in pieces[j]) ==> forall k :: 0 <= k < |r| ==> ',' !in r[k]
  {
    if pieces == [] then []
    else
      var t := Trim(pieces[0]);
      var rest := CleanPieces(pieces[1..]);
      if t == "" then rest else [t] + rest
  }

  /** Clean pieces are kept as they are. */
  lemma {:induction false} CleanPiecesOfClean(xs: seq<string>)
    requires forall k :: 0 <= k < |xs| ==> xs[k] != "" && Trimmed(xs[k])
    ensures CleanPieces(xs) == xs
  {
    if xs != [] {
      CleanPiecesOfClean(xs[1..]);
      assert Trim(xs[0]) == xs[0];
      assert xs == [xs[0]] + xs[1..];
    }
  }

  /** All-whitespace pieces all disappear. */
  lemma {:induction false} CleanPiecesOfBlank(xs: seq<string>)
    requires forall k, i :: 0 <= k < |xs| && 0 <= i < |xs[k]| ==> IsWhitespace(xs[k][i])
    ensures CleanPieces(xs) == []
  {
    if xs != [] {
      CleanPiecesOfBlank(xs[1..]);
    }
  }

  /** Cleaning works piece by piece: the cleaned pieces keep their order. */
  lemma {:induction false} CleanPiecesAppend(a: seq<string>, b: seq<string>)
    ensures CleanPieces(a + b) == CleanPieces(a) + CleanPieces(b)
  {
    if a == [] {
      assert a + b == b;
    } else {
      assert (a + b)[0] == a[0] && (a + b)[1..] == a[1..] + b;
      CleanPiecesAppend(a[1..], b);
    }
  }

  /** A single piece is trimmed, and dropped when nothing is left of it. */
  lemma CleanPiecesOne(p: string)
    ensures CleanPieces([p]) == if Trim(p) == "" then [] else [Trim(p)]
  {
    assert [p][1..] == [];
  }

  /** One day's option text as a list: split on commas, trimmed, empty entries dropped. */
  function ParseActivities(s: string): (r: seq<string>)
    ensures forall k :: 0 <= k < |r| ==> r[k] != "" && ',' !in r[k] && Trimmed(r[k])
  {
    CleanPieces(Split(s, ','))
  }

  /** Comma-free text is one activity, trimmed, or none when it is blank. */
  lemma ParseActivitiesOne(s: string)
    requires ',' !in s
    ensures ParseActivities(s) == if Trim(s) == "" then [] else [Trim(s)]
  {
    SplitWithoutSeparator(s, ',');
    CleanPiecesOne(s);
  }

  /** The activities before and after a comma are parsed separately and kept in order. */
  lemma ParseActivitiesAppend(a: string, b: string)
    ensures ParseActivities(a + "," + b) == ParseActivities(a) + ParseActivities(b)
  {
    assert a + "," + b == a + [','] + b;
    SplitAppend(a, b, ',');
    CleanPiecesAppend(Split(a, ','), Split(b, ','));
  }

  /** Joining clean activities with commas and parsing them again gives them back. */
  lemma ParseJoined(xs: seq<string>)
    requires forall k :: 0 <= k < |xs| ==> xs[k] != "" && ',' !in xs[k] && Trimmed(xs[k])
    ensures ParseActivities(Join(xs, ",")) == xs
  {
    if xs == [] {
      assert Split("", ',') == [""];
    } else {
      SplitJoin(xs, ',');
      CleanPiecesOfClean(xs);
    }
  }

  /** An empty entry between two commas is dropped. */
  lemma ParseActivitiesDropsEmpty(x: string, y: string)
    requires x != "" && ',' !in x && Trimmed(x)
    requires y != "" && ',' !in y && Trimmed(y)
    ensures ParseActivities(x + ",," + y) == [x, y]
  {
    SplitDoubleSeparator(x, y, ',');
    assert x + ",," + y == x + [',', ','] + y;
    CleanPiecesDropsEmpty(x, y);
  }

  /** The pieces of `x,,y` lose the empty middle one. */
  lemma CleanPiecesDropsEmpty(x: string, y: string)
    requires x != "" && Trimmed(x) && y != "" && Trimmed(y)
    ensures CleanPieces([x, "", y]) == [x, y]
  {
    var pieces := [x, "", y];
    CleanPiecesOfClean([y]);
    assert pieces[1..] == ["", y] && pieces[1..][1..] == [y];
    assert CleanPieces(pieces[1..]) == [y];
    assert Trim(x) == x;
  }

  /** Text made only of commas and whitespace gives the empty list. */
  lemma ParseSeparatorsOnly(s: string)
    requires forall i :: 0 <= i < |s| ==> s[i] == ',' || IsWhitespace(s[i])
    ensures ParseActivities(s) == []
  {
    SplitBlankPieces(s, ',');
    CleanPiecesOfBlank(Split(s, ','));
  }

  /**
   * The `for` over the seven days. `options` holds the day options that were
   * given; a day enters the plan iff its text is non-empty, the empty string
   * being falsy like a missing option.
   */
  method CollectActivities(options: map<string, string>) returns (data: map<string, seq<string>>)
    ensures forall d :: d in data <==> d in Days && d in options && options[d] != ""
    ensures forall d :: d in data ==> data[d] == ParseActivities(options[d])
  {
    data := map[];
    for i := 0 to |Days|
      invariant forall d :: d in data <==> d in Days[..i] && d in options && options[d] != ""
      invariant forall d :: d in data ==> data[d] == ParseActivities(options[d])
    {
      var day := Days[i];
      assert Days[..i + 1] == Days[..i] + [day];
      if day in options && options[day] != "" {
        data := data[day := ParseActivities(options[day])];
      }
    }
    assert Days[..|Days|] == Days;
  }

  // ---------------------------------------------------------------------
  // Week bounds

  /** Days from `getDay()` back to that week's Monday; Sunday counts as the week's last day. */
  function MondayOffset(day: int): (r: int)
    requires 0 <= day < 7
    ensures -6 <= r <= 0
    ensures (day + r) % 7 == 1
  {
    if day == 0 then -6 else 1 - day
  }

  /** Midnight of the Monday that starts the week holding `now`. */
  function WeekStartOf(now: int): (r: int)
    ensures WeekDay(r) == 1 && TimeOfDay(r) == 0
    ensures r <= now < r + WEEK
  {
    var w := AddDays(DayStart(now), MondayOffset(WeekDay(now)));
    assert DayStart(DayStart(now)) == DayStart(now);
    w
  }

  /** A Monday midnight no more than a week before `now` is that week's start. */
  lemma WeekStartUnique(now: int, w: int)
    requires WeekDay(w) == 1 && TimeOfDay(w) == 0
    requires w <= now < w + WEEK
    ensures w == WeekStartOf(now)
  {
    var v := WeekStartOf(now);
    if w < v {
      WeekApart(w, v, 1, 0);
    } else if v < w {
      WeekApart(v, w, 1, 0);
    }
  }

  /** Two integers less than seven apart with one residue modulo seven are equal. */
  lemma SameResidue(x: int, y: int)
    requires x % 7 == y % 7 && -7 < x - y < 7
    ensures x == y
  {
    var q, p := x / 7, y / 7;
    assert x == 7 * q + x % 7 && y == 7 * p + y % 7;
    assert x - y == 7 * (q - p);
  }

  /**
   * The Date-setter steps of the weekly plan: back to Monday at 00:00:00.000,
   * then six days on at 23:59:59.999.
   */
  method WeekBounds(now: int) returns (weekStart: int, weekEnd: int)
    ensures weekStart == WeekStartOf(now)
    ensures weekStart <= now <= weekEnd
    ensures DayStart(weekEnd) == weekStart + 6 * DAY && TimeOfDay(weekEnd) == DAY - 1
    ensures weekEnd == weekStart + WEEK - 1
  {
    var currentDay := WeekDay(now);
    var mondayOffset := MondayOffset(currentDay);
    weekStart := AddDays(now, mondayOffset);
    weekStart := SetHours(weekStart, 0, 0, 0, 0);
    weekEnd := weekStart;
    weekEnd := AddDays(weekEnd, 6);
    weekEnd := SetHours(weekEnd, 23, 59, 59, 999);
    WeekStartUnique(now, weekStart);
  }

  /** `getInteger('week_offset') || 0`: a missing option and 0 both mean this week. */
  function OffsetOrZero(weekOffset: Option<int>): (r: int)
    ensures weekOffset.Some? ==> r == weekOffset.value
    ensures weekOffset.None? ==> r == 0
  {
    match weekOffset
    case Some(k) => k
    case None => 0
  }

  /** The `view` subcommand's week: this week's Monday moved by whole weeks. */
  method ViewWeekStart(now: int, weekOffset: Option<int>) returns (target: int)
    ensures target == WeekStartOf(now) + OffsetOrZero(weekOffset) * WEEK
    ensures WeekDay(target) == 1 && TimeOfDay(target) == 0
    ensures target <= now + OffsetOrZero(weekOffset) * WEEK < target + WEEK
  {
    var k := OffsetOrZero(weekOffset);
    var currentDay := WeekDay(now);
    var mondayOffset := MondayOffset(currentDay);
    target := AddDays(now, mondayOffset + k * 7);
    target := SetHours(target, 0, 0, 0, 0);
    assert DayStart(target) == DayStart(now) + mondayOffset * DAY + k * WEEK;
  }

  // ---------------------------------------------------------------------
  // The weekly plan write

  datatype ScheduleRow = ScheduleRow(
    userId: string,
    serverId: Option<string>,
    weekStart: int,
    weekEnd: int,
    days: map<string, seq<string>>,
    updatedAt: Option<int>)

  /** How `handleWeeklySchedule` ends: the success embed after a saved row, or the failure embed. */
  datatype ScheduleReply = Saved(row: ScheduleRow) | SaveFailed

  /**
   * `handleWeeklySchedule`. `lookup` is what the hosted lookup for this week
   * returned: `Some(found)` when it answered (whether rows were there), `None`
   * when it threw. `accepted` is whether the hosted insert succeeded, and
   * `updateNow` the second clock reading taken for `updatedAt`. Both branches
   * hand a new row to the insert; the update branch only adds `updatedAt`.
   * Any thrown error ends in the failure embed with nothing saved.
   */
  method WeeklySchedule(
    store: seq<ScheduleRow>, lookup: Option<bool>, accepted: bool, now: int, updateNow: int,
    userId: string, serverId: Option<string>, options: map<string, string>)
    returns (reply: ScheduleReply, store': seq<ScheduleRow>)
    ensures reply.SaveFailed? <==> lookup.None? || !accepted
    ensures reply.SaveFailed? ==> store' == store
    ensures reply.Saved? ==> store' == store + [reply.row]
    ensures reply.Saved? ==> reply.row.userId == userId && reply.row.serverId == serverId
    ensures reply.Saved? ==> reply.row.weekStart == WeekStartOf(now) && reply.row.weekEnd == reply.row.weekStart + WEEK - 1
    ensures reply.Saved? ==> forall d :: d in reply.row.days <==> d in Days && d in options && options[d] != ""
    ensures reply.Saved? ==> forall d :: d in reply.row.days ==> reply.row.days[d] == ParseActivities(options[d])
    ensures reply.Saved? ==> reply.row.updatedAt == (if lookup.value then Some(updateNow) else None)
  {
    var weekStart, weekEnd := WeekBounds(now);
    var data := CollectActivities(options);
    if lookup.None? {
      return SaveFailed, store;
    }
    var row;
    if lookup.value {
      row := ScheduleRow(userId, serverId, weekStart, weekEnd, data, Some(updateNow));
    } else {
      row := ScheduleRow(userId, serverId, weekStart, weekEnd, data, None);
    }
    if !accepted {
      return SaveFailed, store;
    }
    reply, store' := Saved(row), store + [row];
  }

  // ---------------------------------------------------------------------
  // HH:MM

  predicate IsDigit(c: char) {
    '0' <= c <= '9'
  }

  /** The value of a string of decimal digits, most significant first. */
  function DigitsValue(s: string): (n: nat)
    requires forall i :: 0 <= i < |s| ==> IsDigit(s[i])
  {
    if s == [] then 0
    else
      assert IsDigit(s[|s| - 1]);
      DigitsValue(s[..|s| - 1]) * 10 + (s[|s| - 1] as int - '0' as int)
  }

  /** The decimal spelling of `n`, without leading zeros. */
  function Decimal(n: nat): (s: string)
    ensures s != [] && forall i :: 0 <= i < |s| ==> IsDigit(s[i])
  {
    var last := [('0' as int + n % 10) as char];
    if n < 10 then last else Decimal(n / 10) + last
  }

  /** Reading a decimal spelling gives the number back. */
  lemma {:induction false} DecimalValue(n: nat)
    ensures DigitsValue(Decimal(n)) == n
  {
    var s := Decimal(n);
    var last := [('0' as int + n % 10) as char];
    if n >= 10 {
      DecimalValue(n / 10);
      assert s == Decimal(n / 10) + last;
      assert s[..|s| - 1] == Decimal(n / 10);
    }
  }

  /** A leading zero does not change the value. */
  lemma {:induction false} LeadingZero(s: string)
    requires forall i :: 0 <= i < |s| ==> IsDigit(s[i])
    ensures DigitsValue("0" + s) == DigitsValue(s)
  {
    if s != [] {
      LeadingZero(s[..|s| - 1]);
      assert ("0" + s)[..|"0" + s| - 1] == "0" + s[..|s| - 1];
    }
  }

  /**
   * `Number(s)` for the strings this handler meets: after trimming, the
   * empty string is 0 and decimal digits are their value; anything else is
   * NaN (`None`).
   */
  function NumberOf(s: string): (r: Option<int>)
    ensures r.Some? ==> 0 <= r.value
    ensures Trim(s) == "" ==> r == Some(0)
  {
    var t := Trim(s);
    if t == "" then Some(0)
    else if forall i :: 0 <= i < |t| ==> IsDigit(t[i]) then Some(DigitsValue(t))
    else None
  }

  /** Digits round-trip through `Number`. */
  lemma NumberOfDecimal(n: nat)
    ensures NumberOf(Decimal(n)) == Some(n)
  {
    var s := Decimal(n);
    assert Trimmed(s) by {
      assert IsDigit(s[0]) && IsDigit(s[|s| - 1]);
    }
    DecimalValue(n);
  }

  /**
   * `const [hours, minutes] = time.split(':').map(Number)`: a missing
   * minutes piece is `undefined`, which `isNaN` reports like NaN; pieces after
   * the second are ignored.
   */
  function ParseTime(time: string): (r: (Option<int>, Option<int>))
    ensures r.0 == NumberOf(Split(time, ':')[0])
    ensures ':' !in time ==> r.1.None?
  {
    var parts := Split(time, ':');
    SplitWithoutSeparator(time, ':');
    (NumberOf(parts[0]), if |parts| >= 2 then NumberOf(parts[1]) else None)
  }

  /** The guard before a reminder is written. */
  predicate ValidTime(t: (Option<int>, Option<int>)) {
    t.0.Some? && t.1.Some? && 0 <= t.0.value <= 23 && 0 <= t.1.value <= 59
  }

  /** `"HH:MM"`: two colon-free pieces parse to their own numbers. */
  lemma ParseClock(h: string, m: string)
    requires ':' !in h && ':' !in m
    ensures ParseTime(h + ":" + m) == (NumberOf(h), NumberOf(m))
  {
    SplitJoin([h, m], ':');
    assert Join([h, m], ":") == h + ":" + m;
  }

  /** Pieces after a second colon are ignored. */
  lemma ExtraPiecesIgnored(h: string, m: string, rest: string)
    requires ':' !in h && ':' !in m
    ensures ParseTime(h + ":" + m + ":" + rest) == ParseTime(h + ":" + m)
  {
    var r := Split(rest, ':');
    var second := [':'] + rest;
    assert second[1..] == rest;
    assert Split(second, ':') == [[]] + r;
    SplitPrefix(m, second, ':');
    assert m + [] == m;
    var middle := m + second;
    assert Split(middle, ':') == [m] + r;
    var first := [':'] + middle;
    assert first[1..] == middle;
    assert Split(first, ':') == [[], m] + r;
    SplitPrefix(h, first, ':');
    assert h + [] == h;
    assert Split(h + first, ':') == [h, m] + r;
    assert h + ":" + m + ":" + rest == h + first;
    ParseClock(h, m);
  }

  // ---------------------------------------------------------------------
  // Next weekly occurrence

  /** `(targetDay - currentDay + 7) % 7`; the dividend is never negative, so JavaScript's `%` agrees. */
  function DaysUntil(targetDay: int, currentDay: int): (r: int)
    requires 0 <= targetDay < 7 && 0 <= currentDay < 7
    ensures 0 <= r < 7
    ensures (currentDay + r) % 7 == targetDay
  {
    (targetDay - currentDay + 7) % 7
  }

  /** `t` falls on the given week day at the given time of day. */
  predicate Matches(t: int, targetDay: int, clock: int) {
    WeekDay(t) == targetDay && TimeOfDay(t) == clock
  }

  /** Two instants at the same week day and time of day are whole weeks apart; if `s < t`, at least one. */
  lemma WeekApart(s: int, t: int, targetDay: int, clock: int)
    requires Matches(s, targetDay, clock) && Matches(t, targetDay, clock) && s < t
    ensures s + WEEK <= t
  {
    var a, b := s / DAY, t / DAY;
    DivModDay(s, a, clock);
    DivModDay(t, b, clock);
    assert a < b;
    if b - a < 7 {
      SameResidue(a + 4, b + 4);
    }
  }

  /**
   * The Date-setter steps of `handleScheduleReminder`: on to the target day,
   * set the clock, and a week further if that is not after `now`. The result
   * is the first matching instant after `now`.
   */
  method NextOccurrence(now: int, targetDay: int, hours: int, minutes: int) returns (r: int)
    requires 0 <= targetDay < 7 && 0 <= hours <= 23 && 0 <= minutes <= 59
    ensures Matches(r, targetDay, ClockTime(hours, minutes, 0, 0))
    ensures now < r <= now + WEEK
    ensures forall t :: now < t < r ==> !Matches(t, targetDay, ClockTime(hours, minutes, 0, 0))
    ensures r == now + WEEK <==> Matches(now, targetDay, ClockTime(hours, minutes, 0, 0))
  {
    var clock := ClockTime(hours, minutes, 0, 0);
    ClockTimeInDay(hours, minutes, 0, 0);
    var currentDay := WeekDay(now);
    var daysUntilTarget := DaysUntil(targetDay, currentDay);
    r := AddDays(now, daysUntilTarget);
    r := SetHours(r, hours, minutes, 0, 0);
    var first := r;
    if r <= now {
      r := AddDays(r, 7);
    }
    assert Matches(r, targetDay, clock);
    FirstAfter(now, r, targetDay, clock);
    if Matches(now, targetDay, clock) {
      SameDayAndTime(first, now);
    }
    if r == now + WEEK {
      WeekBeforeMatches(now, r, targetDay, clock);
    }
  }

  /** A matching instant at most a week after `now` is the first one after `now`. */
  lemma FirstAfter(now: int, r: int, targetDay: int, clock: int)
    requires Matches(r, targetDay, clock) && now < r <= now + WEEK
    ensures forall t :: now < t < r ==> !Matches(t, targetDay, clock)
  {
    forall t | now < t < r
      ensures !Matches(t, targetDay, clock)
    {
      if Matches(t, targetDay, clock) {
        WeekApart(t, r, targetDay, clock);
      }
    }
  }

  /** The instant a week before a matching one matches too. */
  lemma WeekBeforeMatches(now: int, r: int, targetDay: int, clock: int)
    requires Matches(r, targetDay, clock) && r == now + WEEK
    ensures Matches(now, targetDay, clock)
  {
    ShiftByDays(now, 7);
    assert now == r - 7 * DAY;
    ShiftByDays(r, -7);
  }

  // ---------------------------------------------------------------------
  // The reminder subcommand

  datatype ReminderRow = ReminderRow(
    userId: string,
    serverId: Option<string>,
    reminderType: string,
    reminderText: string,
    scheduledFor: int,
    isActive: bool)

  datatype ReminderReply = InvalidTime | Insert(row: ReminderRow)

  /**
   * `handleScheduleReminder` up to the insert: an invalid time writes
   * nothing; otherwise one active weekly row is handed to the insert,
   * scheduled at the next occurrence. `day` is one of the command's choices.
   */
  method ScheduleReminder(now: int, userId: string, serverId: Option<string>, day: string, time: string, message: string)
    returns (reply: ReminderReply)
    requires day in WeekDayNames
    ensures reply.InvalidTime? <==> !ValidTime(ParseTime(time))
    ensures reply.Insert? ==>
      var (h, m) := ParseTime(time);
      && reply.row == ReminderRow(userId, serverId, "weekly", message, reply.row.scheduledFor, true)
      && WeekDayNames[WeekDay(reply.row.scheduledFor)] == day
      && TimeOfDay(reply.row.scheduledFor) == ClockTime(h.value, m.value, 0, 0)
      && now < reply.row.scheduledFor <= now + WEEK
      && forall t :: now < t < reply.row.scheduledFor ==> !Matches(t, WeekDay(reply.row.scheduledFor), TimeOfDay(reply.row.scheduledFor))
  {
    var (hours, minutes) := ParseTime(time);
    if !ValidTime((hours, minutes)) {
      return InvalidTime;
    }
    var targetDay := IndexOfDay(day);
    var at := NextOccurrence(now, targetDay, hours.value, minutes.value);
    reply := Insert(ReminderRow(userId, serverId, "weekly", message, at, true));
  }

  /** `WeekDayNames.indexOf(day)` for a listed day. */
  function IndexOfDay(day: string): (k: int)
    requires day in WeekDayNames
    ensures 0 <= k < 7 && WeekDayNames[k] == day
    ensures forall j :: 0 <= j < k ==> WeekDayNames[j] != day
  {
    if day == "sunday" then 0 else if day == "monday" then 1 else if day == "tuesday" then 2
    else if day == "wednesday" then 3 else if day == "thursday" then 4 else if day == "friday" then 5
    else 6
  }
}
