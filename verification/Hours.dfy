/** Weekly working hours (internal/catalog/hours.go). */
module Hours {
  // An instant is a whole number of nanoseconds of Tashkent wall time, counted from some Monday
  // midnight. The zone is fixed at UTC+5, so a day is always twenty-four hours long and adding a day is
  // adding DAY.

  import opened Outcomes
  import opened Sorting

  const MINUTE: int := 60_000_000_000
  const DAY: int := 86_400_000_000_000
  const DAY_MINUTES: int := 1440
  const WEEK_MINUTES: int := 10080

  datatype DayHours = DayHours(day: int, enabled: bool, open: string, close: string)

  /** A restaurant without a schedule is never restricted by the clock. */
  datatype Schedule = Unrestricted | Weekly(days: seq<DayHours>)

  // ----- "HH:MM" -----

  predicate IsDigit(c: char) { '0' <= c <= '9' }

  function DigitValue(c: char): (r: int)
    requires IsDigit(c)
    ensures 0 <= r <= 9
  {
    c as int - '0' as int
  }

  /** Minutes after midnight; exactly two digits, a colon and two digits are accepted. */
  function ParseClock(s: string): Option<int> {
    if |s| != 5 || s[2] != ':' then None
    else if !(IsDigit(s[0]) && IsDigit(s[1]) && IsDigit(s[3]) && IsDigit(s[4])) then None
    else
      var h := DigitValue(s[0]) * 10 + DigitValue(s[1]);
      var m := DigitValue(s[3]) * 10 + DigitValue(s[4]);
      if h > 23 || m > 59 then None else Some(h * 60 + m)
  }

  function Digit(n: int): char
    requires 0 <= n <= 9
  {
    ('0' as int + n) as char
  }

  /** The one spelling of a minute of the day. */
  function FormatClock(n: int): string
    requires 0 <= n < DAY_MINUTES
  {
    [Digit(n / 60 / 10), Digit(n / 60 % 10), ':', Digit(n % 60 / 10), Digit(n % 60 % 10)]
  }

  /** A clock string is accepted exactly when it is the canonical spelling of its minute. */
  lemma ClockRoundTrip(s: string, n: int)
    ensures ParseClock(s) == Some(n) <==> 0 <= n < DAY_MINUTES && s == FormatClock(n)
  {
    if ParseClock(s) == Some(n) {
      var h := DigitValue(s[0]) * 10 + DigitValue(s[1]);
      var m := DigitValue(s[3]) * 10 + DigitValue(s[4]);
      assert n / 60 == h && n % 60 == m;
      DigitsAreRead(s[0], s[1]);
      DigitsAreRead(s[3], s[4]);
      assert s == [s[0], s[1], s[2], s[3], s[4]];
    }
    if 0 <= n < DAY_MINUTES && s == FormatClock(n) {
      assert n / 60 * 60 + n % 60 == n;
    }
  }

  lemma DigitsAreRead(a: char, b: char)
    requires IsDigit(a) && IsDigit(b)
    ensures var n := DigitValue(a) * 10 + DigitValue(b); Digit(n / 10) == a && Digit(n % 10) == b
  {
  }

  // ----- Is the restaurant open -----

  function Lookup(days: seq<DayHours>, n: int): Option<DayHours> {
    if days == [] then None
    else if days[0].day == n then Some(days[0])
    else Lookup(days[1..], n)
  }

  /** Opening and closing minute of a weekday, if that day is listed, enabled and well formed. */
  function Window(days: seq<DayHours>, day: int): (w: Option<(int, int)>)
    ensures w.Some? ==> 0 <= w.value.0 < DAY_MINUTES && 0 <= w.value.1 < DAY_MINUTES
  {
    match Lookup(days, day)
    case None => None
    case Some(d) =>
      if !d.enabled then None
      else
        match (ParseClock(d.open), ParseClock(d.close))
        case (Some(o), Some(c)) => Some((o, c))
        case _ => None
  }

  predicate OpensToday(w: Option<(int, int)>, m: int) {
    w.Some? &&
    var (o, c) := w.value;
    if o == c then true else if o < c then o <= m < c else m >= o
  }

  /** The part of yesterday's hours that runs past midnight. */
  predicate SpillsOver(w: Option<(int, int)>, m: int) {
    w.Some? && w.value.0 > w.value.1 && m < w.value.1
  }

  /** ISO weekday of the n-th day after the origin: 1 is Monday. */
  function Weekday(day: int): (r: int)
    ensures 1 <= r <= 7
  {
    day % 7 + 1
  }

  function DayBefore(weekday: int): int {
    if weekday == 1 then 7 else weekday - 1
  }

  predicate OpenAtMinute(days: seq<DayHours>, n: int) {
    var m := n % DAY_MINUTES;
    var today := Weekday(n / DAY_MINUTES);
    OpensToday(Window(days, today), m) || SpillsOver(Window(days, DayBefore(today)), m)
  }

  predicate IsOpenAt(w: Schedule, t: int) {
    w.Unrestricted? || w.days == [] || OpenAtMinute(w.days, t / MINUTE)
  }

  // ----- The opening hours themselves -----

  /** The i-th entry is the first one for that weekday. */
  ghost predicate ListedFor(days: seq<DayHours>, i: int, weekday: int) {
    && 0 <= i < |days| && days[i].day == weekday
    && forall j :: 0 <= j < i ==> days[j].day != weekday
  }

  /** t is within the hours of calendar day d, counted from the first Monday: from its opening to its closing,
      which is on the next day if it is earlier; equal times are the whole day. */
  ghost predicate WithinHours(days: seq<DayHours>, d: int, t: int) {
    exists i ::
      && ListedFor(days, i, d % 7 + 1) && days[i].enabled
      && ParseClock(days[i].open).Some? && ParseClock(days[i].close).Some?
      && var o, c := ParseClock(days[i].open).value * MINUTE, ParseClock(days[i].close).value * MINUTE;
         if o == c then d * DAY <= t < (d + 1) * DAY
         else d * DAY + o <= t < d * DAY + c + if c < o then DAY else 0
  }

  lemma {:induction false} LookupIsFirst(days: seq<DayHours>, weekday: int)
    ensures Lookup(days, weekday).Some? ==> exists i :: ListedFor(days, i, weekday) && Lookup(days, weekday) == Some(days[i])
    ensures forall i :: ListedFor(days, i, weekday) ==> Lookup(days, weekday) == Some(days[i])
  {
    if days != [] {
      LookupIsFirst(days[1..], weekday);
      if days[0].day == weekday {
        assert ListedFor(days, 0, weekday);
      } else {
        if i :| ListedFor(days[1..], i, weekday) {
          assert ListedFor(days, i + 1, weekday);
        }
        forall i | ListedFor(days, i, weekday) ensures Lookup(days, weekday) == Some(days[i]) {
          assert ListedFor(days[1..], i - 1, weekday);
        }
      }
    }
  }

  /** The same, with the window of the day. */
  lemma WithinWindow(days: seq<DayHours>, d: int, t: int)
    ensures WithinHours(days, d, t) <==>
            var w := Window(days, Weekday(d));
            w.Some? && var o, c := w.value.0 * MINUTE, w.value.1 * MINUTE;
            if o == c then d * DAY <= t < (d + 1) * DAY else d * DAY + o <= t < d * DAY + c + if c < o then DAY else 0
  {
    LookupIsFirst(days, Weekday(d));
    var w := Window(days, Weekday(d));
    if w.Some? {
      var i :| ListedFor(days, i, Weekday(d)) && Lookup(days, Weekday(d)) == Some(days[i]);
    }
  }

  lemma InMinutes(t: int, d: int, m: int)
    requires d == t / MINUTE / DAY_MINUTES && m == t / MINUTE % DAY_MINUTES
    ensures d * DAY + m * MINUTE <= t < d * DAY + (m + 1) * MINUTE
    ensures 0 <= m < DAY_MINUTES
  {
  }

  /** A restaurant with a schedule is open exactly during the hours of some day; and that day is today or
      yesterday. Without one it is always open. */
  lemma OpenExactly(w: Schedule, t: int)
    ensures w.Weekly? && w.days != [] ==>
              && (IsOpenAt(w, t) <==> exists d :: WithinHours(w.days, d, t))
              && (forall d :: WithinHours(w.days, d, t) ==> d == t / DAY || d == t / DAY - 1)
    ensures w.Unrestricted? || w.days == [] ==> IsOpenAt(w, t)
  {
    if w.Weekly? && w.days != [] {
      var n := t / MINUTE;
      var d, m := n / DAY_MINUTES, n % DAY_MINUTES;
      InMinutes(t, d, m);
      forall x | WithinHours(w.days, x, t) ensures x == d || x == d - 1 {
        WithinWindow(w.days, x, t);
      }
      assert d == t / DAY;
      TodaysHours(w.days, d, m, t);
      YesterdaysHours(w.days, d, m, t);
      assert DayBefore(Weekday(d)) == Weekday(d - 1);
    }
  }

  lemma TodaysHours(days: seq<DayHours>, d: int, m: int, t: int)
    requires 0 <= m < DAY_MINUTES && d * DAY + m * MINUTE <= t < d * DAY + (m + 1) * MINUTE
    ensures WithinHours(days, d, t) <==> OpensToday(Window(days, Weekday(d)), m)
  {
    WithinWindow(days, d, t);
  }

  lemma YesterdaysHours(days: seq<DayHours>, d: int, m: int, t: int)
    requires 0 <= m < DAY_MINUTES && d * DAY + m * MINUTE <= t < d * DAY + (m + 1) * MINUTE
    ensures WithinHours(days, d - 1, t) <==> SpillsOver(Window(days, Weekday(d - 1)), m)
  {
    WithinWindow(days, d - 1, t);
  }

  // ----- Candidate instants -----

  /** The minutes at which one calendar day may start or end a stretch of opening hours. */
  function DayCandidates(days: seq<DayHours>, day: int): seq<int> {
    var midnight := day * DAY_MINUTES;
    match Window(days, Weekday(day))
    case None => [midnight]
    case Some((o, c)) => [midnight, midnight + o, midnight + c + (if c < o then DAY_MINUTES else 0)]
  }

  lemma MinuteBefore(n: int)
    requires n % DAY_MINUTES > 0
    ensures (n - 1) / DAY_MINUTES == n / DAY_MINUTES && (n - 1) % DAY_MINUTES == n % DAY_MINUTES - 1
    ensures DayBefore(Weekday(n / DAY_MINUTES)) == Weekday(n / DAY_MINUTES - 1)
  {
  }

  /** Wherever the answer changes from one minute to the next, that minute is a candidate of its
      own day or of the day before. */
  lemma FlipIsCandidate(days: seq<DayHours>, n: int)
    requires OpenAtMinute(days, n) != OpenAtMinute(days, n - 1)
    ensures n in DayCandidates(days, n / DAY_MINUTES) || n in DayCandidates(days, n / DAY_MINUTES - 1)
  {
    var d, m := n / DAY_MINUTES, n % DAY_MINUTES;
    assert n == d * DAY_MINUTES + m;
    if m == 0 {
      assert DayCandidates(days, d)[0] == n;
    } else {
      MinuteBefore(n);
      var w, y := Window(days, Weekday(d)), Window(days, Weekday(d - 1));
      if OpensToday(w, m) != OpensToday(w, m - 1) {
        var c := DayCandidates(days, d);
        assert c[1] == n || c[2] == n;
      } else {
        assert SpillsOver(y, m) != SpillsOver(y, m - 1);
        assert DayCandidates(days, d - 1)[2] == n;
      }
    }
  }

  lemma WeeklyPeriod(days: seq<DayHours>, n: int)
    ensures OpenAtMinute(days, n) == OpenAtMinute(days, n % WEEK_MINUTES)
  {
    var q, r := n / WEEK_MINUTES, n % WEEK_MINUTES;
    assert n == q * 7 * DAY_MINUTES + r;
    assert n / DAY_MINUTES == q * 7 + r / DAY_MINUTES;
    assert n % DAY_MINUTES == r % DAY_MINUTES;
    assert (q * 7 + r / DAY_MINUTES) % 7 == r / DAY_MINUTES % 7;
  }

  /** A week without a change is a schedule without a change. */
  lemma QuietWeekIsConstant(days: seq<DayHours>, from: int, n: int)
    requires forall k :: from <= k < from + WEEK_MINUTES ==> OpenAtMinute(days, k) == OpenAtMinute(days, from)
    ensures OpenAtMinute(days, n) == OpenAtMinute(days, from)
  {
    var k := from + (n - from) % WEEK_MINUTES;
    assert k % WEEK_MINUTES == n % WEEK_MINUTES;
    WeeklyPeriod(days, k);
    WeeklyPeriod(days, n);
  }

  /** If every change in the range [n0, n) is among the instants that agree with n0, there is none. */
  lemma {:induction false} QuietStretch(days: seq<DayHours>, n0: int, n: int)
    requires n0 <= n
    requires forall k :: n0 < k <= n ==>
               OpenAtMinute(days, k) == OpenAtMinute(days, k - 1) || OpenAtMinute(days, k) == OpenAtMinute(days, n0)
    ensures OpenAtMinute(days, n) == OpenAtMinute(days, n0)
    decreases n - n0
  {
    if n0 < n {
      QuietStretch(days, n0, n - 1);
    }
  }

  // ----- The next change -----

  function SortInstants(s: seq<int>): (r: seq<int>)
    ensures forall i, j :: 0 <= i < j < |r| ==> r[i] <= r[j]
    ensures forall x :: x in r <==> x in s
  {
    var before := (a: int, b: int) => a < b;
    SortIsOrderedPermutation(s, before);
    SameMembers(SortStable(s, before), s);
    SortStable(s, before)
  }

  /** Every candidate of the ten days around `today` is listed, as an instant on a minute. */
  predicate Lists(days: seq<DayHours>, candidates: seq<int>, from: int, until: int) {
    && (forall d, n :: from <= d < until && n in DayCandidates(days, d) ==> n * MINUTE in candidates)
    && (forall x :: x in candidates ==> x == x / MINUTE * MINUTE)
  }

  /** What one day contributes: its beginning, and its opening and closing. */
  ghost function DayInstants(days: seq<DayHours>, day: int): seq<int> {
    match Window(days, Weekday(day))
    case None => [day * DAY]
    case Some((o, c)) => [day * DAY, day * DAY + o * MINUTE, day * DAY + c * MINUTE + if c < o then DAY else 0]
  }

  lemma DayInstantsAreMinutes(days: seq<DayHours>, day: int)
    ensures forall x :: x in DayInstants(days, day) ==> x == x / MINUTE * MINUTE
    ensures forall n :: n in DayCandidates(days, day) ==> n * MINUTE in DayInstants(days, day)
  {
    assert DAY == DAY_MINUTES * MINUTE;
  }

  lemma ListsOneMore(days: seq<DayHours>, before: seq<int>, from: int, day: int)
    requires from <= day && Lists(days, before, from, day)
    ensures Lists(days, before + DayInstants(days, day), from, day + 1)
  {
    DayInstantsAreMinutes(days, day);
  }

  lemma DayBegins(t: int, i: int)
    ensures var start := t - t % DAY + i * DAY; start == (t / DAY + i) * DAY && start / DAY == t / DAY + i
  {
  }

  method CollectCandidates(days: seq<DayHours>, t: int) returns (candidates: seq<int>)
    ensures Lists(days, candidates, t / DAY - 1, t / DAY + 9)
  {
    var midnight := t - t % DAY;
    candidates := [];
    for i := -1 to 9
      invariant Lists(days, candidates, t / DAY - 1, t / DAY + i)
    {
      var dayStart := midnight + i * DAY;
      ghost var day := t / DAY + i;
      DayBegins(t, i);
      ListsOneMore(days, candidates, t / DAY - 1, day);
      ghost var before := candidates;
      candidates := candidates + [dayStart];
      var w := Window(days, Weekday(dayStart / DAY));
      if w.Some? {
        var (o, c) := w.value;
        var openAt := dayStart + o * MINUTE;
        var closeAt := dayStart + c * MINUTE;
        if c < o {
          closeAt := closeAt + DAY;
        }
        candidates := candidates + [openAt, closeAt];
      }
      assert candidates == before + DayInstants(days, day);
    }
  }

  /** The first instant after `t` at which the schedule gives another answer than at `t`. */
  ghost predicate FirstChange(w: Schedule, t: int, at: int) {
    && t < at
    && IsOpenAt(w, at) != IsOpenAt(w, t)
    && forall u :: t <= u < at ==> IsOpenAt(w, u) == IsOpenAt(w, t)
  }

  ghost predicate Constant(w: Schedule, t: int) {
    forall u :: IsOpenAt(w, u) == IsOpenAt(w, t)
  }

  lemma WithinTheDays(t: int, k: int)
    requires t / MINUTE < k < (t / DAY + 9) * DAY_MINUTES
    ensures t / DAY <= k / DAY_MINUTES < t / DAY + 9 && t < k * MINUTE
  {
    assert t / MINUTE / DAY_MINUTES == t / DAY;
  }

  /** With no differing candidate in (t, n], minute n agrees with t. */
  lemma QuietBelow(days: seq<DayHours>, raw: seq<int>, t: int, n: int)
    requires Lists(days, raw, t / DAY - 1, t / DAY + 9)
    requires t / MINUTE <= n < (t / DAY + 9) * DAY_MINUTES
    requires forall x :: x in raw && t < x <= n * MINUTE ==> OpenAtMinute(days, x / MINUTE) == OpenAtMinute(days, t / MINUTE)
    ensures OpenAtMinute(days, n) == OpenAtMinute(days, t / MINUTE)
  {
    var n0 := t / MINUTE;
    assert n0 / DAY_MINUTES == t / DAY;
    forall k | n0 < k <= n
      ensures OpenAtMinute(days, k) == OpenAtMinute(days, k - 1) || OpenAtMinute(days, k) == OpenAtMinute(days, n0)
    {
      if OpenAtMinute(days, k) != OpenAtMinute(days, k - 1) {
        FlipIsCandidate(days, k);
        WithinTheDays(t, k);
        assert k * MINUTE in raw;
      }
    }
    QuietStretch(days, n0, n);
  }

  /** No differing candidate after t: the listed days cover a whole week, so nothing ever changes. */
  lemma NoCandidateNoChange(days: seq<DayHours>, raw: seq<int>, t: int, until: int)
    requires Lists(days, raw, t / DAY - 1, t / DAY + 9)
    requires until >= (t / DAY + 9) * DAY
    requires forall x :: x in raw && t < x < until ==> OpenAtMinute(days, x / MINUTE) == OpenAtMinute(days, t / MINUTE)
    ensures forall n :: OpenAtMinute(days, n) == OpenAtMinute(days, t / MINUTE)
  {
    var n0 := t / MINUTE;
    assert n0 / DAY_MINUTES == t / DAY;
    forall k | n0 <= k < n0 + WEEK_MINUTES ensures OpenAtMinute(days, k) == OpenAtMinute(days, n0) {
      QuietBelow(days, raw, t, k);
    }
    forall n ensures OpenAtMinute(days, n) == OpenAtMinute(days, n0) {
      QuietWeekIsConstant(days, n0, n);
    }
  }

  lemma QuietUntil(days: seq<DayHours>, raw: seq<int>, t: int, at: int)
    requires Lists(days, raw, t / DAY - 1, t / DAY + 9)
    requires at in raw && t < at && OpenAtMinute(days, at / MINUTE) != OpenAtMinute(days, t / MINUTE)
    requires forall x :: x in raw && t < x < at ==> OpenAtMinute(days, x / MINUTE) == OpenAtMinute(days, t / MINUTE)
    ensures forall u :: t <= u < at ==> OpenAtMinute(days, u / MINUTE) == OpenAtMinute(days, t / MINUTE)
  {
    var limit := (t / DAY + 9) * DAY;
    if at >= limit {
      NoCandidateNoChange(days, raw, t, at);
    } else {
      forall u | t <= u < at ensures OpenAtMinute(days, u / MINUTE) == OpenAtMinute(days, t / MINUTE) {
        assert u / MINUTE * MINUTE <= u && at == at / MINUTE * MINUTE;
        QuietBelow(days, raw, t, u / MINUTE);
      }
    }
  }

  method NextChangeAfter(w: Schedule, t: int) returns (next: Option<int>)
    ensures next.Some? ==> FirstChange(w, t, next.value)
    ensures next.None? <==> Constant(w, t)
  {
    if w.Unrestricted? || w.days == [] {
      return None;
    }
    var raw := CollectCandidates(w.days, t);
    var candidates := SortInstants(raw);
    var openNow := IsOpenAt(w, t);
    for i := 0 to |candidates|
      invariant forall j :: 0 <= j < i ==> candidates[j] <= t || IsOpenAt(w, candidates[j]) == openNow
    {
      var at := candidates[i];
      if at > t && IsOpenAt(w, at) != openNow {
        QuietUntil(w.days, raw, t, at);
        return Some(at);
      }
    }
    NoCandidateNoChange(w.days, raw, t, (t / DAY + 9) * DAY);
    return None;
  }

  // ----- What the customer is shown -----

  datatype Restaurant = Restaurant(open: bool, hours: Schedule)

  datatype Refusal = ManuallyClosed | OutsideHours

  datatype OpenState = OpenState(open: bool, reason: Option<Refusal>, changesAt: Option<int>)

  /** The error that keeps a restaurant from taking an order, if there is one. */
  function OrderableAt(r: Restaurant, t: int): Option<Refusal> {
    if !r.open then Some(ManuallyClosed)
    else if !IsOpenAt(r.hours, t) then Some(OutsideHours)
    else None
  }

  predicate AcceptingOrdersAt(r: Restaurant, t: int) { OrderableAt(r, t).None? }

  /** The shown state says what OrderableAt says, and keeps saying it until `changesAt`; without a
      `changesAt` it never stops being right, as long as nobody presses the button. */
  method OpenStateAt(r: Restaurant, t: int) returns (st: OpenState)
    ensures st.open == AcceptingOrdersAt(r, t)
    ensures st.reason == OrderableAt(r, t)
    ensures st.reason == Some(ManuallyClosed) <==> !r.open
    ensures st.reason == Some(OutsideHours) <==> r.open && !st.open
    ensures st.open <==> r.open && (r.hours.Unrestricted? || r.hours.days == [] || exists d :: WithinHours(r.hours.days, d, t))
    ensures st.changesAt.Some? ==>
              && st.changesAt.value > t
              && AcceptingOrdersAt(r, st.changesAt.value) != st.open
              && forall u :: t <= u < st.changesAt.value ==> AcceptingOrdersAt(r, u) == st.open
    ensures st.changesAt.None? ==> forall u :: AcceptingOrdersAt(r, u) == st.open
  {
    OpenExactly(r.hours, t);
    if !r.open {
      return OpenState(false, Some(ManuallyClosed), None);
    }
    var open := IsOpenAt(r.hours, t);
    var next := NextChangeAfter(r.hours, t);
    st := OpenState(open, if open then None else Some(OutsideHours), next);
  }

  // ----- Accepting a schedule from the panel -----

  predicate IsSpace(c: char) {
    c in {' ', '\t', '\n', '\r', '\U{000B}', '\U{000C}', '\U{0085}', '\U{00A0}', '\U{1680}', '\U{2028}',
          '\U{2029}', '\U{202F}', '\U{205F}', '\U{3000}'} || '\U{2000}' <= c <= '\U{200A}'
  }

  function TrimLeft(s: string): string {
    if s != [] && IsSpace(s[0]) then TrimLeft(s[1..]) else s
  }

  function TrimRight(s: string): string {
    if s != [] && IsSpace(s[|s| - 1]) then TrimRight(s[..|s| - 1]) else s
  }

  function TrimSpace(s: string): string { TrimRight(TrimLeft(s)) }

  /** Blanks go from both ends, and nothing else. */
  lemma {:induction false} TrimsBothEnds(s: string)
    ensures var t := TrimSpace(s);
            && (t != [] ==> !IsSpace(t[0]) && !IsSpace(t[|t| - 1]))
            && exists a, b :: s == a + t + b && (forall i :: 0 <= i < |a| ==> IsSpace(a[i])) && (forall i :: 0 <= i < |b| ==> IsSpace(b[i]))
  {
    var a := TrimsLeft(s);
    var b := TrimsRight(TrimLeft(s));
    assert s == a + TrimSpace(s) + b;
  }

  lemma {:induction false} TrimsLeft(s: string) returns (a: string)
    ensures s == a + TrimLeft(s) && forall i :: 0 <= i < |a| ==> IsSpace(a[i])
    ensures TrimLeft(s) != [] ==> !IsSpace(TrimLeft(s)[0])
  {
    if s != [] && IsSpace(s[0]) {
      a := TrimsLeft(s[1..]);
      a := [s[0]] + a;
    } else {
      a := [];
    }
  }

  lemma {:induction false} TrimsRight(s: string) returns (b: string)
    ensures s == TrimRight(s) + b && forall i :: 0 <= i < |b| ==> IsSpace(b[i])
    ensures TrimRight(s) != [] ==> !IsSpace(TrimRight(s)[|TrimRight(s)| - 1]) && TrimRight(s)[0] == s[0]
    ensures |TrimRight(s)| <= |s|
    decreases |s|
  {
    if s != [] && IsSpace(s[|s| - 1]) {
      var front, last := s[..|s| - 1], s[|s| - 1];
      assert s == front + [last] && TrimRight(s) == TrimRight(front);
      var rest := TrimsRight(front);
      assert TrimRight(front) + rest + [last] == TrimRight(front) + (rest + [last]);
      b := rest + [last];
    } else {
      b := [];
    }
  }

  function Trimmed(d: DayHours): DayHours {
    d.(open := TrimSpace(d.open), close := TrimSpace(d.close))
  }

  /** Each of the seven weekdays once, with two readable clocks. */
  ghost predicate Complete(days: seq<DayHours>) {
    && |days| == 7
    && (forall i :: 0 <= i < 7 ==> 1 <= days[i].day <= 7)
    && (forall i, j :: 0 <= i < j < 7 ==> days[i].day != days[j].day)
    && (forall i :: 0 <= i < 7 ==> ReadableClocks(days[i]))
  }

  predicate ReadableClocks(d: DayHours) {
    ParseClock(TrimSpace(d.open)).Some? && ParseClock(TrimSpace(d.close)).Some?
  }

  function ByDay(s: seq<DayHours>): (r: seq<DayHours>)
    ensures forall i, j :: 0 <= i < j < |r| ==> r[i].day <= r[j].day
    ensures multiset(r) == multiset(s)
  {
    var less := (a: DayHours, b: DayHours) => a.day < b.day;
    SortIsOrderedPermutation(s, less);
    SortStable(s, less)
  }

  /** Distinct days between 1 and 7 in increasing order are exactly Monday to Sunday. */
  lemma InOrder(v: seq<DayHours>)
    requires |v| == 7
    requires forall i :: 0 <= i < 7 ==> 1 <= v[i].day <= 7
    requires forall i, j :: 0 <= i < j < 7 ==> v[i].day < v[j].day
    ensures forall i :: 0 <= i < 7 ==> v[i].day == i + 1
  {
    assert v[0].day < v[1].day < v[2].day < v[3].day < v[4].day < v[5].day < v[6].day;
  }

  lemma SortedWeek(out: seq<DayHours>)
    requires |out| == 7
    requires forall i :: 0 <= i < 7 ==> 1 <= out[i].day <= 7
    requires forall i, j :: 0 <= i < j < 7 ==> out[i].day != out[j].day
    ensures |ByDay(out)| == 7
    ensures forall i :: 0 <= i < 7 ==> ByDay(out)[i] in out && ByDay(out)[i].day == i + 1
  {
    var v := ByDay(out);
    SameMembers(v, out);
    assert forall i :: 0 <= i < 7 ==> v[i] in v && v[i] in out;
    forall i, j | 0 <= i < j < 7 ensures v[i].day < v[j].day {
      if v[i].day == v[j].day {
        var a :| 0 <= a < 7 && out[a] == v[i];
        var b :| 0 <= b < 7 && out[b] == v[j];
        assert a == b;
        TwiceInside(v, i, j);
        OnceInside(out, a);
      }
    }
    InOrder(v);
  }

  lemma TwiceInside(s: seq<DayHours>, i: int, j: int)
    requires 0 <= i < j < |s| && s[i] == s[j]
    ensures multiset(s)[s[i]] >= 2
  {
    assert s == s[..j] + s[j..];
    assert s[i] in multiset(s[..j]) && s[j] in multiset(s[j..]);
  }

  lemma OnceInside(s: seq<DayHours>, a: int)
    requires 0 <= a < |s|
    requires forall i, j :: 0 <= i < j < |s| ==> s[i] != s[j]
    ensures multiset(s)[s[a]] == 1
  {
    assert s == s[..a] + [s[a]] + s[a + 1..];
    assert s[a] !in multiset(s[..a]) && s[a] !in multiset(s[a + 1..]);
  }

  /** A schedule is accepted exactly when it is complete, and comes back trimmed and in order. */
  method Validate(days: seq<DayHours>) returns (r: Option<seq<DayHours>>)
    ensures r.Some? <==> Complete(days)
    ensures r.Some? ==> |r.value| == 7
    ensures r.Some? ==> forall i :: 0 <= i < 7 ==>
              r.value[i].day == i + 1 && exists j :: 0 <= j < 7 && r.value[i] == Trimmed(days[j])
  {
    if |days| != 7 {
      return None;
    }
    var seen: set<int> := {};
    var out: seq<DayHours> := [];
    for i := 0 to 7
      invariant |out| == i
      invariant forall k :: 0 <= k < i ==> out[k] == Trimmed(days[k])
      invariant forall k :: 0 <= k < i ==> 1 <= days[k].day <= 7 && ReadableClocks(days[k])
      invariant forall d :: d in seen <==> exists k :: 0 <= k < i && days[k].day == d
      invariant forall k, l :: 0 <= k < l < i ==> days[k].day != days[l].day
    {
      var d := days[i];
      if d.day < 1 || d.day > 7 || d.day in seen {
        return None;
      }
      seen := seen + {d.day};
      var open, close := TrimSpace(d.open), TrimSpace(d.close);
      if ParseClock(open).None? {
        return None;
      }
      if ParseClock(close).None? {
        return None;
      }
      out := out + [DayHours(d.day, d.enabled, open, close)];
    }
    SortedWeek(out);
    return Some(ByDay(out));
  }

  lemma {:induction false} LookupFinds(days: seq<DayHours>, k: int)
    requires 0 <= k < |days|
    requires forall i, j :: 0 <= i < j < |days| ==> days[i].day != days[j].day
    ensures Lookup(days, days[k].day) == Some(days[k])
  {
    if k > 0 {
      LookupFinds(days[1..], k - 1);
    }
  }

  function TrimmedAll(days: seq<DayHours>): (r: seq<DayHours>)
    ensures |r| == |days| && forall i :: 0 <= i < |days| ==> r[i] == Trimmed(days[i])
  {
    seq(|days|, i requires 0 <= i < |days| => Trimmed(days[i]))
  }

  /** Putting the week in order changes no answer: the validated copy means what the panel sent, without
      the blanks around its clocks. */
  lemma ValidationKeepsMeaning(days: seq<DayHours>, v: seq<DayHours>, t: int)
    requires Complete(days)
    requires |v| == 7
    requires forall i :: 0 <= i < 7 ==> v[i].day == i + 1 && exists j :: 0 <= j < 7 && v[i] == Trimmed(days[j])
    ensures IsOpenAt(Weekly(v), t) == IsOpenAt(Weekly(TrimmedAll(days)), t)
  {
    var trimmed := TrimmedAll(days);
    forall d | 1 <= d <= 7 ensures Lookup(v, d) == Lookup(trimmed, d) {
      LookupFinds(v, d - 1);
      var j :| 0 <= j < 7 && v[d - 1] == Trimmed(days[j]);
      LookupFinds(trimmed, j);
    }
    var n := t / MINUTE;
    var today := Weekday(n / DAY_MINUTES);
    assert 1 <= DayBefore(today) <= 7;
    assert Window(v, today) == Window(trimmed, today);
    assert Window(v, DayBefore(today)) == Window(trimmed, DayBefore(today));
  }
}
