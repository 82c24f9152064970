/**
 * The weekly work schedule (machine/pauseRules.ts, windowsAround and scheduleAt): a search over the windows of 17 days
 * stands for a schedule that has run, and will run, every week. Times are whole milliseconds on a grid of equal local
 * days; day 0 is a Thursday, as 1970-01-01 was.
 */
module Schedule {
  import opened Prelude
  import opened Spans
  import Sorting

  const MINUTE := 60_000
  const DAY := 1440 * MINUTE
  /** windowsAround's default: the search takes this many days before and after today. */
  const REACH := 8

  /** `start` and `end` are minutes of the day, `days` the weekdays (0 is Sunday) a window starts on. */
  datatype RawSchedule = Schedule(enabled: bool, start: int, end: int, days: set<int>)

  /** What cleanSettings lets through. */
  predicate Clean(s: RawSchedule) {
    0 <= s.start < 1440 && 0 <= s.end < 1440 && forall x :: x in s.days ==> 0 <= x < 7
  }

  /** Any two times of a day and any weekdays are a schedule. */
  lemma TimesAreClean(enabled: bool, h: int, m: int, toH: int, toM: int, days: set<int>)
    requires 0 <= h < 24 && 0 <= m < 60 && 0 <= toH < 24 && 0 <= toM < 60 && days <= {0, 1, 2, 3, 4, 5, 6}
    ensures Clean(RawSchedule.Schedule(enabled, h * 60 + m, toH * 60 + toM, days))
  {
  }

  type Schedule = s: RawSchedule | Clean(s) witness Schedule(false, 1320, 480, {})

  /** What scheduleAt answers: inside a window, the last edge at or before now, the next edge after it. */
  datatype At = At(inside: bool, lastEdge: Option<int>, nextEdge: Option<int>)

  function Today(now: int): int { now / DAY }

  predicate Enabled(s: Schedule, day: int) { (day + 4) % 7 in s.days }

  /** The window that starts on `day`; an end not after the start is the next day's. */
  function Window(s: Schedule, day: int): Span {
    Span(day * DAY + s.start * MINUTE, (if s.end > s.start then day else day + 1) * DAY + s.end * MINUTE)
  }

  // ------------------------------------------------------------------ the code's search

  /** The windows of the `n` days from `first`, in order. */
  function Windows(s: Schedule, first: int, n: nat): seq<Span> {
    if n == 0 then []
    else
      var front := Windows(s, first, n - 1);
      if Enabled(s, first + n - 1) then front + [Window(s, first + n - 1)] else front
  }

  function WindowsAround(s: Schedule, now: int): seq<Span> {
    Windows(s, Today(now) - REACH, 2 * REACH + 1)
  }

  function From(w: Span): int { w.from }

  function Id(x: int): int { x }

  function Flatten(merged: seq<Span>): seq<int> {
    if merged == [] then [] else Flatten(merged[..|merged| - 1]) + [merged[|merged| - 1].from, merged[|merged| - 1].to]
  }

  /** `edges.filter((e) => e <= now).at(-1)` */
  function LastAtMost(edges: seq<int>, now: int): Option<int> {
    if edges == [] then None
    else if edges[|edges| - 1] <= now then Some(edges[|edges| - 1])
    else LastAtMost(edges[..|edges| - 1], now)
  }

  /** `edges.find((e) => e > now)` */
  function FirstAfter(edges: seq<int>, now: int): Option<int> {
    if edges == [] then None
    else if edges[0] > now then Some(edges[0])
    else FirstAfter(edges[1..], now)
  }

  function Judge(merged: seq<Span>, now: int): At {
    var edges := Sorting.Sort(Flatten(merged), Id);
    At(Covers(merged, now), LastAtMost(edges, now), FirstAfter(edges, now))
  }

  /** scheduleAt, as a function of its inputs; None is "no schedule". */
  function ScheduleAt(s: Schedule, now: int): Option<At> {
    if !s.enabled || s.days == {} then None
    else Some(Judge(Merge(Sorting.Sort(WindowsAround(s, now), From)), now))
  }

  // ------------------------------------------------------------------ the loops

  method WindowsAroundLoop(s: Schedule, now: int) returns (out: seq<Span>)
    ensures out == WindowsAround(s, now)
  {
    out := [];
    var base := Today(now);
    for k := -REACH to REACH + 1
      invariant out == Windows(s, base - REACH, k + REACH)
    {
      if Enabled(s, base + k) {
        out := out + [Window(s, base + k)];
      }
    }
  }

  method ScheduleAtLoop(s: Schedule, now: int) returns (r: Option<At>)
    ensures r == ScheduleAt(s, now)
  {
    if !s.enabled || s.days == {} {
      return None;
    }
    var wins := WindowsAroundLoop(s, now);
    wins := Sorting.Sort(wins, From);
    var merged: seq<Span> := [];
    for i := 0 to |wins|
      invariant merged == Merge(wins[..i])
    {
      assert wins[..i + 1][..i] == wins[..i];
      var w := wins[i];
      if merged != [] && w.from <= merged[|merged| - 1].to {
        var last := merged[|merged| - 1];
        merged := merged[|merged| - 1 := Span(last.from, Max(last.to, w.to))];
      } else {
        merged := merged + [w];
      }
    }
    assert wins[..|wins|] == wins;
    r := Some(Judge(merged, now));
  }

  // ------------------------------------------------------------------ the schedule without bounds

  /** Some window, over all days there ever are, contains `t`. */
  ghost predicate InsideEver(s: Schedule, t: int) {
    exists d: int :: Enabled(s, d) && Window(s, d).from <= t < Window(s, d).to
  }

  /** An edge of the merged union of all windows: the schedule starts or stops at `e`. */
  ghost predicate EdgeEver(s: Schedule, e: int) {
    InsideEver(s, e) != InsideEver(s, e - 1)
  }

  ghost predicate IsLastEdge(s: Schedule, now: int, e: Option<int>) {
    match e
    case Some(x) => x <= now && EdgeEver(s, x) && forall y :: x < y <= now ==> !EdgeEver(s, y)
    case None => forall y :: y <= now ==> !EdgeEver(s, y)
  }

  ghost predicate IsNextEdge(s: Schedule, now: int, e: Option<int>) {
    match e
    case Some(x) => now < x && EdgeEver(s, x) && forall y :: now < y < x ==> !EdgeEver(s, y)
    case None => forall y :: now < y ==> !EdgeEver(s, y)
  }

  /** The answer is the one the unbounded schedule gives. */
  ghost predicate Agrees(s: Schedule, now: int, at: At) {
    && (at.inside <==> InsideEver(s, now))
    && IsLastEdge(s, now, at.lastEdge)
    && IsNextEdge(s, now, at.nextEdge)
  }

  /** The schedule is off at some time of the week: some day is off, or a window does not fill its day. */
  predicate HasGap(s: Schedule) {
    s.start != s.end || exists x :: 0 <= x < 7 && x !in s.days
  }

  // ------------------------------------------------------------------ windows in order

  lemma WindowBounds(s: Schedule, d: int)
    ensures Window(s, d).from < Window(s, d).to <= Window(s, d + 1).from
    ensures s.start != s.end ==> Window(s, d).to < Window(s, d + 1).from
    ensures s.start == s.end ==> Window(s, d).to == Window(s, d + 1).from
    ensures d * DAY <= Window(s, d).from < (d + 1) * DAY
  {
  }

  lemma WindowsAscend(s: Schedule, c: int, d: int)
    requires c < d
    ensures Window(s, c).to <= Window(s, d).from
    ensures s.start != s.end ==> Window(s, c).to < Window(s, d).from
    ensures Window(s, c).from < Window(s, d).from
  {
    assert c * DAY + DAY <= d * DAY;
  }

  /** The searched windows are proper, ascending and exactly those of the enabled days searched. */
  lemma {:induction false} WindowsAre(s: Schedule, first: int, n: nat)
    ensures Proper(Windows(s, first, n)) && Ascending(Windows(s, first, n))
    ensures forall i :: 0 <= i < |Windows(s, first, n)| ==> Windows(s, first, n)[i].from < Window(s, first + n).from
    ensures forall t :: Covers(Windows(s, first, n), t) <==>
              exists d :: first <= d < first + n && Enabled(s, d) && Window(s, d).from <= t < Window(s, d).to
  {
    if n > 0 {
      var last := first + n - 1;
      WindowsAre(s, first, n - 1);
      WindowsAscend(s, last, last + 1);
      WindowBounds(s, last);
      var front := Windows(s, first, n - 1);
      forall t ensures Covers(Windows(s, first, n), t) <==>
                 exists d :: first <= d < first + n && Enabled(s, d) && Window(s, d).from <= t < Window(s, d).to
      {
        CoversAppend(front, Window(s, last), t);
        if Enabled(s, last) && Window(s, last).from <= t < Window(s, last).to {
          assert first <= last < first + n;
        }
      }
    }
  }

  /** The search reaches from the start of its first day's window to that of the day after its last. */
  function Lo(s: Schedule, now: int): int { Window(s, Today(now) - REACH).from }

  function Hi(s: Schedule, now: int): int { Window(s, Today(now) + REACH + 1).from }

  /** Where the 17 days reach, the search sees what the unbounded schedule does. */
  lemma SearchSees(s: Schedule, now: int, t: int)
    requires Lo(s, now) <= t < Hi(s, now)
    ensures Covers(WindowsAround(s, now), t) <==> InsideEver(s, t)
  {
    var first := Today(now) - REACH;
    WindowsAre(s, first, 2 * REACH + 1);
    if InsideEver(s, t) {
      var d :| Enabled(s, d) && Window(s, d).from <= t < Window(s, d).to;
      if d < first {
        WindowsAscend(s, d, first);
      }
      if d > Today(now) + REACH + 1 {
        WindowsAscend(s, Today(now) + REACH + 1, d);
      }
      assert first <= d < first + 2 * REACH + 1;
    }
  }

  // ------------------------------------------------------------------ the edges of a merged list

  ghost predicate Boundary(spans: seq<Span>, e: int) {
    Covers(spans, e) != Covers(spans, e - 1)
  }

  ghost predicate Strict(edges: seq<int>) {
    forall i, j :: 0 <= i < j < |edges| ==> edges[i] < edges[j]
  }

  lemma {:induction false} FlattenStrict(m: seq<Span>)
    requires Proper(m) && Apart(m)
    ensures Strict(Flatten(m))
    ensures forall i :: 0 <= i < |Flatten(m)| ==> Flatten(m)[i] <= m[|m| - 1].to
  {
    if m != [] {
      FlattenStrict(m[..|m| - 1]);
    }
  }

  /** Starts and ends of apart spans are exactly the instants where coverage changes. */
  lemma {:induction false} FlattenIsBoundary(m: seq<Span>, e: int)
    requires Proper(m) && Apart(m)
    ensures e in Flatten(m) <==> Boundary(m, e)
  {
    if m != [] {
      var front, w := m[..|m| - 1], m[|m| - 1];
      assert m == front + [w];
      FlattenStrict(front);
      FlattenIsBoundary(front, e);
      CoversAppend(front, w, e);
      CoversAppend(front, w, e - 1);
      CoveredBefore(front, w, e);
    }
  }

  /** Nothing of the spans in front of `w` reaches it, nor the instant before it. */
  lemma CoveredBefore(front: seq<Span>, w: Span, e: int)
    requires Proper(front + [w]) && Apart(front + [w])
    ensures Covers(front, e) ==> e + 1 < w.from
    ensures Covers(front, e - 1) ==> e < w.from
  {
    var m := front + [w];
    forall t | Covers(front, t) ensures t + 1 < w.from {
      var i :| 0 <= i < |front| && front[i].from <= t < front[i].to;
      assert m[i] == front[i] && m[|front|] == w;
    }
  }

  lemma {:induction false} LastAtMostIs(edges: seq<int>, now: int)
    requires Strict(edges)
    ensures match LastAtMost(edges, now)
            case Some(x) => x in edges && x <= now && forall y :: y in edges && y <= now ==> y <= x
            case None => forall y :: y in edges ==> now < y
  {
    if edges != [] && edges[|edges| - 1] > now {
      LastAtMostIs(edges[..|edges| - 1], now);
      assert edges == edges[..|edges| - 1] + [edges[|edges| - 1]];
    }
  }

  lemma {:induction false} FirstAfterIs(edges: seq<int>, now: int)
    requires Strict(edges)
    ensures match FirstAfter(edges, now)
            case Some(x) => x in edges && now < x && forall y :: y in edges && now < y ==> x <= y
            case None => forall y :: y in edges ==> y <= now
  {
    if edges != [] && edges[0] <= now {
      FirstAfterIs(edges[1..], now);
      assert edges == [edges[0]] + edges[1..];
    }
  }

  /** What Judge says of an apart list, in terms of its coverage alone. */
  ghost predicate Judged(spans: seq<Span>, now: int, at: At) {
    && (at.inside <==> Covers(spans, now))
    && (match at.lastEdge
        case Some(x) => Boundary(spans, x) && x <= now && forall y :: x < y <= now ==> !Boundary(spans, y)
        case None => forall y :: y <= now ==> !Boundary(spans, y))
    && (match at.nextEdge
        case Some(x) => Boundary(spans, x) && now < x && forall y :: now < y < x ==> !Boundary(spans, y)
        case None => forall y :: now < y ==> !Boundary(spans, y))
  }

  lemma JudgeIs(m: seq<Span>, now: int)
    requires Proper(m) && Apart(m)
    ensures Judged(m, now, Judge(m, now))
  {
    FlattenStrict(m);
    forall e ensures e in Flatten(m) <==> Boundary(m, e) {
      FlattenIsBoundary(m, e);
    }
    var edges := Flatten(m);
    Sorting.SortKeepsSorted(edges, Id);
    LastAtMostIs(edges, now);
    FirstAfterIs(edges, now);
  }

  /** scheduleAt answers by the coverage of the searched windows. */
  lemma SearchJudged(s: Schedule, now: int)
    requires s.enabled && s.days != {}
    ensures Judged(WindowsAround(s, now), now, ScheduleAt(s, now).value)
  {
    var wins := WindowsAround(s, now);
    WindowsAre(s, Today(now) - REACH, 2 * REACH + 1);
    Sorting.SortKeepsSorted(wins, From);
    MergeIsUnion(wins);
    JudgeIs(Merge(wins), now);
    assert forall e :: Boundary(Merge(wins), e) <==> Boundary(wins, e);
  }

  // ------------------------------------------------------------------ agreement with the unbounded schedule

  lemma BoundarySees(s: Schedule, now: int, e: int)
    requires Lo(s, now) < e < Hi(s, now)
    ensures Boundary(WindowsAround(s, now), e) <==> EdgeEver(s, e)
  {
    SearchSees(s, now, e);
    SearchSees(s, now, e - 1);
  }

  /** Seven days in a row hold every weekday. */
  lemma DayInWeek(first: int, weekday: int) returns (d: int)
    requires 0 <= weekday < 7
    ensures first <= d < first + 7 && (d + 4) % 7 == weekday
  {
    d := first + (weekday - (first + 4)) % 7;
  }

  /** A day that starts a run of on or of off days, among the last six of seven, when some day is on and some is off. */
  lemma TurnInWeek(s: Schedule, first: int, off: int) returns (d: int)
    requires s.days != {} && 0 <= off < 7 && off !in s.days
    ensures first < d < first + 7 && Enabled(s, d) != Enabled(s, d - 1)
  {
    var on := AnyOf(s.days);
    var x := DayInWeek(first, on);
    var y := DayInWeek(first, off);
    var z := if Enabled(s, first) then y else x;
    d := first + 1;
    while Enabled(s, d) == Enabled(s, d - 1)
      invariant first < d <= z && Enabled(s, d - 1) == Enabled(s, first)
      decreases z - d
    {
      d := d + 1;
    }
  }

  /** A window no earlier one touches starts an edge. */
  lemma StartIsEdge(s: Schedule, d: int)
    requires s.start != s.end && Enabled(s, d)
    ensures EdgeEver(s, Window(s, d).from)
  {
    var e := Window(s, d).from;
    WindowBounds(s, d);
    assert InsideEver(s, e);
    if InsideEver(s, e - 1) {
      var c :| Enabled(s, c) && Window(s, c).from <= e - 1 < Window(s, c).to;
      if c < d {
        WindowsAscend(s, c, d);
      } else if c > d {
        WindowsAscend(s, d, c);
      }
      assert false;
    }
  }

  /** With whole-day windows, `t` in day `d` (counted from the start time) is inside just when that day is on. */
  lemma WholeDays(s: Schedule, d: int, t: int)
    requires s.start == s.end && Window(s, d).from <= t < Window(s, d).to
    ensures InsideEver(s, t) <==> Enabled(s, d)
  {
    if InsideEver(s, t) {
      var c :| Enabled(s, c) && Window(s, c).from <= t < Window(s, c).to;
      if c < d {
        WindowsAscend(s, c, d);
      } else if c > d {
        WindowsAscend(s, d, c);
      }
    }
  }

  lemma TurnIsEdge(s: Schedule, d: int)
    requires s.start == s.end && Enabled(s, d) != Enabled(s, d - 1)
    ensures EdgeEver(s, Window(s, d).from)
  {
    WindowBounds(s, d);
    WindowBounds(s, d - 1);
    WholeDays(s, d, Window(s, d).from);
    WholeDays(s, d - 1, Window(s, d).from - 1);
  }

  /** A schedule with a gap has an edge at the start of some day of every seven. */
  lemma EdgeInWeek(s: Schedule, first: int) returns (d: int)
    requires s.days != {} && HasGap(s)
    ensures first <= d < first + 7 && EdgeEver(s, Window(s, d).from)
  {
    if s.start != s.end {
      var on := AnyOf(s.days);
      d := DayInWeek(first, on);
      StartIsEdge(s, d);
    } else {
      var off :| 0 <= off < 7 && off !in s.days;
      d := TurnInWeek(s, first, off);
      TurnIsEdge(s, d);
    }
  }

  lemma NowInDay(s: Schedule, now: int)
    ensures Today(now) * DAY <= now < (Today(now) + 1) * DAY
    ensures Window(s, Today(now) - 1).from < now < Window(s, Today(now) + 1).from
  {
    WindowBounds(s, Today(now) - 1);
    WindowBounds(s, Today(now) + 1);
    assert Today(now) * DAY <= now < (Today(now) + 1) * DAY;
  }

  /** An answer judged over a stretch (lo, hi) that holds an edge on either side of now is the unbounded one. */
  lemma AgreesOver(s: Schedule, now: int, wins: seq<Span>, at: At, lo: int, p: int, q: int, hi: int)
    requires Judged(wins, now, at) && (Covers(wins, now) <==> InsideEver(s, now))
    requires forall e :: lo < e < hi ==> (Boundary(wins, e) <==> EdgeEver(s, e))
    requires lo < p <= now < q < hi && EdgeEver(s, p) && EdgeEver(s, q)
    ensures Agrees(s, now, at) && at.lastEdge.Some? && at.nextEdge.Some?
  {
    assert Boundary(wins, p) && Boundary(wins, q);
  }

  lemma NowInReach(s: Schedule, now: int)
    ensures Lo(s, now) < now < Hi(s, now)
  {
    NowInDay(s, now);
    WindowsAscend(s, Today(now) - REACH, Today(now) - 1);
    WindowsAscend(s, Today(now) + 1, Today(now) + REACH + 1);
  }

  /** A gap puts an edge on either side of now within the search's reach. */
  lemma EdgesAround(s: Schedule, now: int) returns (p: int, q: int)
    requires s.days != {} && HasGap(s)
    ensures Lo(s, now) < p <= now < q < Hi(s, now) && EdgeEver(s, p) && EdgeEver(s, q)
  {
    var today := Today(now);
    var c := EdgeInWeek(s, today - 7);
    var d := EdgeInWeek(s, today + 1);
    InReach(s, now, c, d);
    p, q := Window(s, c).from, Window(s, d).from;
  }

  lemma InReach(s: Schedule, now: int, c: int, d: int)
    requires Today(now) - REACH < c < Today(now) < d <= Today(now) + REACH
    ensures Lo(s, now) < Window(s, c).from <= now < Window(s, d).from < Hi(s, now)
  {
    NowInDay(s, now);
    WindowsAscend(s, Today(now) - REACH, c);
    WindowsAscend(s, d, Today(now) + REACH + 1);
    if c < Today(now) - 1 { WindowsAscend(s, c, Today(now) - 1); }
    if Today(now) + 1 < d { WindowsAscend(s, Today(now) + 1, d); }
  }

  /** A schedule with a gap: the 17-day search gives the unbounded schedule's answer. */
  lemma SearchAgrees(s: Schedule, now: int)
    requires s.enabled && s.days != {} && HasGap(s)
    ensures Agrees(s, now, ScheduleAt(s, now).value)
    ensures ScheduleAt(s, now).value.lastEdge.Some? && ScheduleAt(s, now).value.nextEdge.Some?
  {
    var p, q := EdgesAround(s, now);
    forall e | Lo(s, now) < e < Hi(s, now) ensures Boundary(WindowsAround(s, now), e) <==> EdgeEver(s, e) {
      BoundarySees(s, now, e);
    }
    SearchSees(s, now, now);
    SearchJudged(s, now);
    AgreesOver(s, now, WindowsAround(s, now), ScheduleAt(s, now).value, Lo(s, now), p, q, Hi(s, now));
  }

  lemma AlwaysInside(s: Schedule, t: int)
    requires !HasGap(s)
    ensures InsideEver(s, t)
  {
    var d := (t - s.start * MINUTE) / DAY;
    assert 0 <= (d + 4) % 7 < 7;
    assert Enabled(s, d) && Window(s, d).from <= t < Window(s, d).to;
  }

  lemma NothingBefore(s: Schedule, first: int, n: nat, t: int)
    requires t < Window(s, first).from
    ensures !Covers(Windows(s, first, n), t)
  {
    WindowsAre(s, first, n);
    forall d | first <= d < first + n ensures t < Window(s, d).from {
      if first < d { WindowsAscend(s, first, d); }
    }
  }

  lemma LastIs(wins: seq<Span>, now: int, at: At, lo: int)
    requires Judged(wins, now, at) && lo <= now && Boundary(wins, lo)
    requires forall e :: lo < e <= now ==> !Boundary(wins, e)
    ensures at.lastEdge == Some(lo)
  {
  }

  /** Without a gap there is no edge, and the search takes the start of its first day for one. */
  lemma SearchWithoutGap(s: Schedule, now: int)
    requires s.enabled && s.days != {} && !HasGap(s)
    ensures forall t :: InsideEver(s, t)
    ensures ScheduleAt(s, now).value.inside
    ensures ScheduleAt(s, now).value.lastEdge == Some(Lo(s, now))
  {
    var first, wins := Today(now) - REACH, WindowsAround(s, now);
    var lo := Lo(s, now);
    forall t ensures InsideEver(s, t) {
      AlwaysInside(s, t);
    }
    NowInReach(s, now);
    forall t | lo <= t < Hi(s, now) ensures Covers(wins, t) {
      SearchSees(s, now, t);
    }
    NothingBefore(s, first, 2 * REACH + 1, lo - 1);
    SearchJudged(s, now);
    LastIs(wins, now, ScheduleAt(s, now).value, lo);
  }

  /** The search agrees with the unbounded schedule exactly when the schedule has a gap. */
  lemma SearchAgreesIffGap(s: Schedule, now: int)
    requires s.enabled && s.days != {}
    ensures Agrees(s, now, ScheduleAt(s, now).value) <==> HasGap(s)
  {
    if HasGap(s) {
      SearchAgrees(s, now);
    } else {
      SearchWithoutGap(s, now);
    }
  }

  lemma LastEdgesOrdered(s: Schedule, now: int, e: Option<int>, later: int, f: Option<int>)
    requires now <= later && IsLastEdge(s, now, e) && IsLastEdge(s, later, f) && e.Some? && f.Some?
    ensures e.value <= now && e.value <= f.value
  {
  }

  function LastOf(at: Option<At>): Option<int> { if at.Some? then at.value.lastEdge else None }

  function NextOf(at: Option<At>): Option<int> { if at.Some? then at.value.nextEdge else None }

  /** scheduleAt's last and next edge, when it finds one. */
  function LastEdge(s: Schedule, now: int): Option<int> { LastOf(ScheduleAt(s, now)) }

  function NextEdge(s: Schedule, now: int): Option<int> { NextOf(ScheduleAt(s, now)) }

  lemma LastEdgeIs(s: Schedule, now: int)
    requires s.enabled && s.days != {}
    ensures LastEdge(s, now).Some?
    ensures HasGap(s) ==> IsLastEdge(s, now, LastEdge(s, now))
    ensures !HasGap(s) ==> LastEdge(s, now).value == Lo(s, now)
  {
    if HasGap(s) {
      SearchAgrees(s, now);
    } else {
      SearchWithoutGap(s, now);
    }
  }

  /** Every enabled schedule, with or without a gap: a last edge is always found, and it never moves back. */
  lemma LastEdgeMonotone(s: Schedule, now: int, later: int)
    requires s.enabled && s.days != {} && now <= later
    ensures LastEdge(s, now).Some? && LastEdge(s, later).Some?
    ensures LastEdge(s, now).value <= LastEdge(s, later).value
    ensures LastEdge(s, now).value <= now
  {
    LastEdgeIs(s, now);
    LastEdgeIs(s, later);
    if HasGap(s) {
      LastEdgesOrdered(s, now, LastEdge(s, now), later, LastEdge(s, later));
    } else {
      FirstDayMonotone(s, now, later);
    }
  }

  lemma FirstDayMonotone(s: Schedule, now: int, later: int)
    requires now <= later
    ensures Lo(s, now) <= Lo(s, later) && Lo(s, now) <= now
  {
    NowInReach(s, now);
    NowInDay(s, now);
    NowInDay(s, later);
    if Today(now) < Today(later) {
      WindowsAscend(s, Today(now) - REACH, Today(later) - REACH);
    }
  }
}
