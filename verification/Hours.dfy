/** Opening hours: points read in pairs, windows that may cross midnight, and the
    question "open now?". The schedule is untrusted data; the conversion into the
    restaurant's zone is a parameter, absent when the zone is unknown. Times of day
    are in microseconds. */
module Hours {
  import opened Options
  import opened HourPoints

  const MINUTE := 60_000_000
  const DAY := 24 * 60 * MINUTE
  const WEEK := 7 * DAY

  const DAYS := ["mon", "tue", "wed", "thu", "fri", "sat", "sun"]

  /** A point of the schedule is what `ParseHhmm` reads there: minutes, or nothing. */
  type Point = Option<Minute>

  /** What a schedule holds under a weekday: nothing, a list of points, or junk. */
  datatype Entry = Null | Points(points: seq<Point>) | Junk

  type Schedule = map<string, Entry>

  datatype Local = Local(weekday: nat, time: nat)

  predicate IsLocal(l: Local) { l.weekday < 7 && l.time < DAY }

  datatype Window = Window(opens: nat, closes: nat)

  // ── windows ──

  predicate Readable(points: seq<Point>) {
    |points| % 2 == 0 && forall i :: 0 <= i < |points| ==> points[i].Some?
  }

  function At(points: seq<Point>, i: nat): nat
    requires i < |points|
  {
    match points[i]
    case None => 0
    case Some(minutes) => minutes * MINUTE
  }

  function PairAt(points: seq<Point>, k: nat): Window
    requires 2 * k + 1 < |points|
  {
    Window(At(points, 2 * k), At(points, 2 * k + 1))
  }

  function Pairs(points: seq<Point>): seq<Window> {
    seq(|points| / 2, k requires 0 <= k < |points| / 2 => PairAt(points, k))
  }

  function EntryOf(hours: Schedule, day: nat): Entry
    requires day < 7
  {
    if DAYS[day] in hours then hours[DAYS[day]] else Null
  }

  /** The windows a day really has: none unless its entry can be read. */
  function WindowsOf(e: Entry): seq<Window> { if e.Points? && Readable(e.points) then Pairs(e.points) else [] }

  predicate Malformed(e: Entry) { e.Junk? || (e.Points? && !Readable(e.points)) }

  method Windows(e: Entry) returns (r: Option<seq<Window>>)
    ensures r == if e.Points? && Readable(e.points) then Some(WindowsOf(e)) else None
    ensures r.Some? ==> 2 * |r.value| == |e.points| && forall k :: 0 <= k < |r.value| ==>
              r.value[k] == Window(e.points[2 * k].value * MINUTE, e.points[2 * k + 1].value * MINUTE)
  {
    if !e.Points? {
      return None;
    }
    var points := e.points;
    if |points| % 2 != 0 {
      return None;
    }
    var pairs: seq<Window> := [];
    var i := 0;
    while i < |points|
      invariant i == 2 * |pairs| && |pairs| <= |points| / 2
      invariant forall j :: 0 <= j < i ==> points[j].Some?
      invariant forall k :: 0 <= k < |pairs| ==> pairs[k] == PairAt(points, k)
    {
      var opens, closes := points[i], points[i + 1];
      if opens.None? || closes.None? {
        return None;
      }
      pairs := pairs + [Window(opens.value * MINUTE, closes.value * MINUTE)];
      i := i + 2;
    }
    assert pairs == Pairs(points);
    r := Some(pairs);
  }

  // ── the cyclic week ──

  /** A window starts on its day and runs until its closing time comes round. */
  function Length(w: Window): nat { (w.closes - w.opens) % DAY }

  /** The half-open interval of the cyclic week that a window of a day covers. */
  predicate Covers(day: nat, w: Window, now: Local) {
    (now.weekday * DAY + now.time - (day * DAY + w.opens)) % WEEK < Length(w)
  }

  /** Monday is day 0. */
  predicate IsWeekday(day: nat, name: string) {
    || (day == 0 && name == "mon") || (day == 1 && name == "tue") || (day == 2 && name == "wed") || (day == 3 && name == "thu")
    || (day == 4 && name == "fri") || (day == 5 && name == "sat") || (day == 6 && name == "sun")
  }

  /** The schedule's list for a day can be read, and its k-th pair opens and closes at
      these minutes. */
  ghost predicate PairOn(hours: Schedule, day: nat, k: nat, opens: Minute, closes: Minute) {
    exists name :: IsWeekday(day, name) && name in hours && hours[name].Points?
      && var points := hours[name].points;
         && |points| % 2 == 0 && (forall i :: 0 <= i < |points| ==> points[i].Some?)
         && 2 * k + 1 < |points| && points[2 * k] == Some(opens) && points[2 * k + 1] == Some(closes)
  }

  /** The instant lies in some window of the schedule, on the cyclic week. */
  ghost predicate InUnion(hours: Schedule, now: Local) {
    exists day: nat, k: nat, opens: Minute, closes: Minute ::
      PairOn(hours, day, k, opens, closes) && Covers(day, Window(opens * MINUTE, closes * MINUTE), now)
  }

  /** Something stands under the day's name that is no list of readable pairs. */
  ghost predicate Unreadable(hours: Schedule, day: nat) {
    exists name :: IsWeekday(day, name) && name in hours && !hours[name].Null?
      && !(hours[name].Points? && |hours[name].points| % 2 == 0
           && forall i :: 0 <= i < |hours[name].points| ==> hours[name].points[i].Some?)
  }

  lemma UnreadableIff(hours: Schedule, day: nat)
    requires day < 7
    ensures Unreadable(hours, day) <==> Malformed(EntryOf(hours, day))
  {
    assert IsWeekday(day, DAYS[day]);
    forall name | IsWeekday(day, name) ensures name == DAYS[day] {
    }
  }

  lemma PairIff(hours: Schedule, day: nat, k: nat)
    requires day < 7
    ensures k < |WindowsOf(EntryOf(hours, day))| ==>
              exists opens: Minute, closes: Minute :: PairOn(hours, day, k, opens, closes)
                && WindowsOf(EntryOf(hours, day))[k] == Window(opens * MINUTE, closes * MINUTE)
    ensures forall opens: Minute, closes: Minute :: PairOn(hours, day, k, opens, closes) ==>
              k < |WindowsOf(EntryOf(hours, day))| && WindowsOf(EntryOf(hours, day))[k] == Window(opens * MINUTE, closes * MINUTE)
  {
    assert IsWeekday(day, DAYS[day]);
    if k < |WindowsOf(EntryOf(hours, day))| {
      var points := hours[DAYS[day]].points;
      assert WindowsOf(EntryOf(hours, day))[k] == PairAt(points, k);
      assert PairOn(hours, day, k, points[2 * k].value, points[2 * k + 1].value);
    }
    forall opens: Minute, closes: Minute | PairOn(hours, day, k, opens, closes)
      ensures k < |WindowsOf(EntryOf(hours, day))| && WindowsOf(EntryOf(hours, day))[k] == Window(opens * MINUTE, closes * MINUTE)
    {
      assert WindowsOf(EntryOf(hours, day))[k] == PairAt(hours[DAYS[day]].points, k);
    }
  }

  /** What the schedule says, pair by pair, is what the windows are. */
  lemma UnionIsWindows(hours: Schedule, now: Local)
    ensures InUnion(hours, now) <==> InWindows(hours, now)
  {
    if InUnion(hours, now) {
      var day: nat, k: nat, opens: Minute, closes: Minute :|
        PairOn(hours, day, k, opens, closes) && Covers(day, Window(opens * MINUTE, closes * MINUTE), now);
      PairIff(hours, day, k);
    }
    if InWindows(hours, now) {
      var day: nat, k: nat :|
        day < 7 && k < |WindowsOf(EntryOf(hours, day))| && Covers(day, WindowsOf(EntryOf(hours, day))[k], now);
      PairIff(hours, day, k);
    }
  }

  ghost predicate InWindows(hours: Schedule, now: Local) {
    exists day: nat, k: nat ::
      day < 7 && k < |WindowsOf(EntryOf(hours, day))| && Covers(day, WindowsOf(EntryOf(hours, day))[k], now)
  }

  predicate SameDay(w: Window, time: nat) {
    if w.opens <= w.closes then w.opens <= time < w.closes else time >= w.opens
  }

  predicate SpilledOver(w: Window, time: nat) { w.closes < w.opens && time < w.closes }

  function Yesterday(day: nat): nat
    requires day < 7
  {
    (day + 6) % 7
  }

  lemma AroundTheWeek(x: int)
    requires -WEEK <= x < WEEK
    ensures x % WEEK == if x < 0 then x + WEEK else x
  {
  }

  lemma LengthIs(w: Window)
    requires w.opens < DAY && w.closes < DAY
    ensures Length(w) == if w.opens <= w.closes then w.closes - w.opens else w.closes - w.opens + DAY
  {
  }

  /** The interval's offset on its own day, the day after, and any other day. */
  lemma CoversAt(d: int, w: Window, time: nat)
    requires -7 < d < 7 && w.opens < DAY && w.closes < DAY && time < DAY
    ensures (d * DAY + (time - w.opens)) % WEEK < Length(w) <==>
            (d == 0 && SameDay(w, time)) || ((d == 1 || d == -6) && SpilledOver(w, time))
  {
    var offset := d * DAY + (time - w.opens);
    AroundTheWeek(offset);
    LengthIs(w);
  }

  lemma YesterdayIs(day: nat, weekday: nat)
    requires day < 7 && weekday < 7
    ensures day == Yesterday(weekday) <==> weekday - day == 1 || weekday - day == -6
  {
  }

  lemma CoversBy(day: nat, w: Window, now: Local)
    requires day < 7 && w.opens < DAY && w.closes < DAY && IsLocal(now)
    ensures Covers(day, w, now) <==>
            || (day == now.weekday && SameDay(w, now.time))
            || (day == Yesterday(now.weekday) && SpilledOver(w, now.time))
  {
    CoversAt(now.weekday - day, w, now.time);
    YesterdayIs(day, now.weekday);
    assert now.weekday * DAY + now.time - (day * DAY + w.opens) == (now.weekday - day) * DAY + (now.time - w.opens);
  }

  lemma TomorrowIs(day: nat, weekday: nat)
    requires day < 7 && weekday < 7
    ensures day == Yesterday(weekday) <==> weekday == (day + 1) % 7
  {
  }

  /** A window reaches an instant on its own day, from its opening to before its closing
      or, if it crosses midnight, to the day's end; and then on the next day before its
      closing. It reaches no other day. */
  lemma CoversMeans(day: nat, w: Window, now: Local)
    requires day < 7 && w.opens < DAY && w.closes < DAY && IsLocal(now)
    ensures Covers(day, w, now) <==>
            || (day == now.weekday && if w.opens <= w.closes then w.opens <= now.time < w.closes else w.opens <= now.time)
            || (now.weekday == (day + 1) % 7 && now.time < w.closes < w.opens)
  {
    CoversBy(day, w, now);
    TomorrowIs(day, now.weekday);
  }

  lemma WindowsAreInTheDay(e: Entry, k: nat)
    requires k < |WindowsOf(e)|
    ensures WindowsOf(e)[k].opens < DAY && WindowsOf(e)[k].closes < DAY
  {
    assert WindowsOf(e)[k] == PairAt(e.points, k);
  }

  // ── open now? ──

  ghost predicate OpenToday(hours: Schedule, now: Local)
    requires IsLocal(now)
  {
    var ws := WindowsOf(EntryOf(hours, now.weekday));
    exists k :: 0 <= k < |ws| && SameDay(ws[k], now.time)
  }

  ghost predicate OpenSinceYesterday(hours: Schedule, now: Local)
    requires IsLocal(now)
  {
    var ws := WindowsOf(EntryOf(hours, Yesterday(now.weekday)));
    exists k :: 0 <= k < |ws| && SpilledOver(ws[k], now.time)
  }

  /** Asking today and yesterday is asking the whole week. */
  lemma TwoDaysSuffice(hours: Schedule, now: Local)
    requires IsLocal(now)
    ensures InWindows(hours, now) <==> OpenToday(hours, now) || OpenSinceYesterday(hours, now)
  {
    if InWindows(hours, now) {
      var day: nat, k: nat :| day < 7 && k < |WindowsOf(EntryOf(hours, day))| && Covers(day, WindowsOf(EntryOf(hours, day))[k], now);
      WindowsAreInTheDay(EntryOf(hours, day), k);
      CoversBy(day, WindowsOf(EntryOf(hours, day))[k], now);
    }
    if OpenToday(hours, now) {
      TodayCovers(hours, now);
    }
    if OpenSinceYesterday(hours, now) {
      YesterdayCovers(hours, now);
    }
  }

  lemma TodayCovers(hours: Schedule, now: Local)
    requires IsLocal(now) && OpenToday(hours, now)
    ensures InWindows(hours, now)
  {
    var ws := WindowsOf(EntryOf(hours, now.weekday));
    var k: nat :| k < |ws| && SameDay(ws[k], now.time);
    WindowsAreInTheDay(EntryOf(hours, now.weekday), k);
    CoversBy(now.weekday, ws[k], now);
  }

  lemma YesterdayCovers(hours: Schedule, now: Local)
    requires IsLocal(now) && OpenSinceYesterday(hours, now)
    ensures InWindows(hours, now)
  {
    var day := Yesterday(now.weekday);
    var ws := WindowsOf(EntryOf(hours, day));
    var k: nat :| k < |ws| && SpilledOver(ws[k], now.time);
    WindowsAreInTheDay(EntryOf(hours, day), k);
    CoversBy(day, ws[k], now);
  }

  method AnyToday(ws: seq<Window>, time: nat) returns (found: bool)
    ensures found <==> exists k :: 0 <= k < |ws| && SameDay(ws[k], time)
  {
    for i := 0 to |ws|
      invariant forall k :: 0 <= k < i ==> !SameDay(ws[k], time)
    {
      if ws[i].opens <= ws[i].closes {
        if ws[i].opens <= time < ws[i].closes {
          return true;
        }
      } else if time >= ws[i].opens {
        return true;
      }
    }
    found := false;
  }

  method AnySpill(ws: seq<Window>, time: nat) returns (found: bool)
    ensures found <==> exists k :: 0 <= k < |ws| && SpilledOver(ws[k], time)
  {
    for i := 0 to |ws|
      invariant forall k :: 0 <= k < i ==> !SpilledOver(ws[k], time)
    {
      if ws[i].closes < ws[i].opens && time < ws[i].closes {
        return true;
      }
    }
    found := false;
  }

  /** No schedule, an unknown zone and an unreadable entry for today all mean open.
      Otherwise the restaurant is open exactly inside the union of its windows on the
      cyclic week; an unreadable other day contributes nothing. */
  method IsOpenAt(hours: Option<Schedule>, local: Option<Local>) returns (open: bool)
    requires local.Some? ==> IsLocal(local.value)
    ensures open <==>
            || hours.None? || hours.value == map[] || local.None?
            || Unreadable(hours.value, local.value.weekday)
            || InUnion(hours.value, local.value)
  {
    if hours.None? || hours.value == map[] || local.None? {
      return true;
    }
    var now, week := local.value, hours.value;
    TwoDaysSuffice(week, now);
    UnionIsWindows(week, now);
    UnreadableIff(week, now.weekday);
    var today := Windows(EntryOf(week, now.weekday));
    if today.None? && !EntryOf(week, now.weekday).Null? {
      return true;
    }
    open := AnyToday(if today.Some? then today.value else [], now.time);
    if !open {
      var yesterday := Windows(EntryOf(week, Yesterday(now.weekday)));
      open := AnySpill(if yesterday.Some? then yesterday.value else [], now.time);
    }
  }
}
