/**
 * What a machine's exclusive bench tickets cost it per hour (`machine/benchHours.ts`). Every figure of a row is a
 * charge: a span of time and a weight, split over the hours the span touches.
 */
module BenchHours {
  import opened Prelude
  import opened Spans
  import opened Sorting
  import opened BenchHistory

  const HOUR := 3_600_000

  function FloorHour(t: int): int { t / HOUR * HOUR }

  function Overlap(a0: int, a1: int, b0: int, b1: int): int { Max(0, Min(a1, b1) - Max(a0, b0)) }

  predicate OnHour(h: int) { h % HOUR == 0 }

  /** `excl`, `idle`, `wait` and `shared` in ms; `byReq` in the order the requests came. */
  datatype Row = Row(excl: int, holds: int, idle: int, wait: int, shared: int, byReq: seq<(string, int)>)

  const EMPTY := Row(0, 0, 0, 0, 0, [])

  function At(rows: map<int, Row>, h: int): Row { if h in rows then rows[h] else EMPTY }

  // The requests of a row.

  function Of(byReq: seq<(string, int)>, req: string): int {
    if byReq == [] then 0 else if byReq[0].0 == req then byReq[0].1 else Of(byReq[1..], req)
  }

  function Sum(byReq: seq<(string, int)>): int { if byReq == [] then 0 else byReq[0].1 + Sum(byReq[1..]) }

  function AddTo(byReq: seq<(string, int)>, req: string, ms: int): seq<(string, int)> {
    if byReq == [] then [(req, ms)]
    else if byReq[0].0 == req then [(req, byReq[0].1 + ms)] + byReq[1..]
    else [byReq[0]] + AddTo(byReq[1..], req, ms)
  }

  lemma {:induction false} AddToSum(byReq: seq<(string, int)>, req: string, ms: int, other: string)
    ensures Sum(AddTo(byReq, req, ms)) == Sum(byReq) + ms
    ensures Of(AddTo(byReq, req, ms), other) == Of(byReq, other) + if other == req then ms else 0
  {
    if byReq != [] {
      if byReq[0].0 == req {
        assert ([(req, byReq[0].1 + ms)] + byReq[1..])[1..] == byReq[1..];
      } else {
        AddToSum(byReq[1..], req, ms, other);
        assert ([byReq[0]] + AddTo(byReq[1..], req, ms))[1..] == AddTo(byReq[1..], req, ms);
      }
    }
  }

  // Tickets.

  function TakeOf(t: Ticket): Option<int> {
    if t.take.Some? then t.take
    else if t.grant.Some? then Some(t.grant.value - if t.waited.Some? then t.waited.value else 0)
    else None
  }

  function EndOf(t: Ticket, now: int): int { if t.end.Some? then t.end.value else now }

  function Box(t: Ticket): string { if t.sandbox != "" then t.sandbox else t.what }

  function Joined(requests: seq<string>): string {
    if requests == [] then "" else if |requests| == 1 then requests[0] else requests[0] + "," + Joined(requests[1..])
  }

  function Req(t: Ticket): string { if Joined(t.requests) != "" then Joined(t.requests) else "-" }

  predicate IsHold(t: Ticket) { t.mode == Exclusive && t.grant.Some? }

  predicate IsShared(t: Ticket) { t.mode == Shared && TakeOf(t).Some? }

  function Filter<T>(s: seq<T>, keep: T -> bool): seq<T> {
    if s == [] then [] else Filter(s[..|s| - 1], keep) + if keep(s[|s| - 1]) then [s[|s| - 1]] else []
  }

  lemma {:induction false} FilterKeeps<T>(s: seq<T>, keep: T -> bool)
    ensures forall x :: x in Filter(s, keep) <==> x in s && keep(x)
  {
    if s != [] {
      FilterKeeps(s[..|s| - 1], keep);
      assert s == s[..|s| - 1] + [s[|s| - 1]];
    }
  }

  // Charges.

  datatype Charge = Charge(from: int, to: int, weight: int)

  function ChargedOne(c: Charge, h: int): int { c.weight * Overlap(c.from, c.to, h, h + HOUR) }

  /** What the charges put on the hour [h, h + HOUR). */
  function Charged(cs: seq<Charge>, h: int): int {
    if cs == [] then 0 else Charged(cs[..|cs| - 1], h) + ChargedOne(cs[|cs| - 1], h)
  }

  /** What the charges come to altogether. */
  function Spent(cs: seq<Charge>): int {
    if cs == [] then 0 else Spent(cs[..|cs| - 1]) + cs[|cs| - 1].weight * (cs[|cs| - 1].to - cs[|cs| - 1].from)
  }

  function ChargedOver(cs: seq<Charge>, h: int, now: int): int
    decreases now - h
  {
    if h >= now then 0 else Charged(cs, h) + ChargedOver(cs, h + HOUR, now)
  }

  lemma ChargedAppend(cs: seq<Charge>, c: Charge, h: int)
    ensures Charged(cs + [c], h) == Charged(cs, h) + ChargedOne(c, h)
    ensures Spent(cs + [c]) == Spent(cs) + c.weight * (c.to - c.from)
  {
    assert (cs + [c])[..|cs|] == cs;
  }

  lemma {:induction false} ChargedConcat(cs: seq<Charge>, ds: seq<Charge>, h: int)
    ensures Charged(cs + ds, h) == Charged(cs, h) + Charged(ds, h)
    ensures Spent(cs + ds) == Spent(cs) + Spent(ds)
  {
    if ds == [] {
      assert cs + ds == cs;
    } else {
      var front, d := ds[..|ds| - 1], ds[|ds| - 1];
      assert ds == front + [d] && cs + ds == cs + front + [d];
      ChargedConcat(cs, front, h);
      ChargedAppend(cs + front, d, h);
      ChargedAppend(front, d, h);
    }
  }

  lemma ChargedAlone(c: Charge, h: int)
    ensures Charged([c], h) == ChargedOne(c, h)
  {
    ChargedAppend([], c, h);
    assert [] + [c] == [c];
  }

  /** One span's parts in the hours from `h` on add up to what of it lies at or after `h`. */
  lemma {:induction false} SplitOne(c: Charge, h: int, now: int)
    requires c.from <= c.to <= now
    ensures ChargedOver([c], h, now) == c.weight * Overlap(c.from, c.to, h, now)
    decreases now - h
  {
    if h < now {
      SplitOne(c, h + HOUR, now);
      ChargedAlone(c, h);
      var here, rest := Overlap(c.from, c.to, h, h + HOUR), Overlap(c.from, c.to, h + HOUR, now);
      assert here + rest == Overlap(c.from, c.to, h, now);
      assert c.weight * here + c.weight * rest == c.weight * (here + rest);
    } else {
      assert Overlap(c.from, c.to, h, now) == 0;
    }
  }

  lemma {:induction false} ChargedOverAppend(cs: seq<Charge>, c: Charge, h: int, now: int)
    ensures ChargedOver(cs + [c], h, now) == ChargedOver(cs, h, now) + ChargedOver([c], h, now)
    decreases now - h
  {
    if h < now {
      ChargedOverAppend(cs, c, h + HOUR, now);
      ChargedAppend(cs, c, h);
      ChargedAlone(c, h);
    }
  }

  ghost predicate Within(cs: seq<Charge>, since: int, now: int) {
    forall i :: 0 <= i < |cs| ==> since <= cs[i].from <= cs[i].to <= now
  }

  lemma WithinConcat(cs: seq<Charge>, ds: seq<Charge>, since: int, now: int)
    requires Within(cs, since, now) && Within(ds, since, now)
    ensures Within(cs + ds, since, now)
  {
  }

  /** Conservation: what all hours are charged is what the charges come to. */
  lemma {:induction false} HoursConserve(cs: seq<Charge>, since: int, now: int)
    requires Within(cs, since, now)
    ensures ChargedOver(cs, FloorHour(since), now) == Spent(cs)
  {
    if cs == [] {
      NothingCharged(FloorHour(since), now);
    } else {
      var front, c := cs[..|cs| - 1], cs[|cs| - 1];
      assert cs == front + [c];
      HoursConserve(front, since, now);
      ChargedOverAppend(front, c, FloorHour(since), now);
      SplitOne(c, FloorHour(since), now);
      assert Overlap(c.from, c.to, FloorHour(since), now) == c.to - c.from;
    }
  }

  lemma {:induction false} NothingCharged(h: int, now: int)
    ensures ChargedOver([], h, now) == 0
    decreases now - h
  {
    if h < now {
      NothingCharged(h + HOUR, now);
    }
  }

  // What the holds are billed.

  function Start(t: Ticket, since: int): int { if t.grant.Some? then Max(t.grant.value, since) else since }

  function Stop(t: Ticket, now: int): int { Min(EndOf(t, now), now) }

  /** The clipped length of a hold. */
  function Length(t: Ticket, since: int, now: int): int { Max(0, Stop(t, now) - Start(t, since)) }

  predicate SameSession(t: Ticket, s: Ticket) { t.session != "" && s.session == t.session }

  predicate AliveIn(s: Ticket, g: int, e: int, now: int) {
    TakeOf(s).Some? && TakeOf(s).value < e && EndOf(s, now) > g
  }

  /** A ticket alive at some point of the hold, in a sandbox other than the holder's. */
  predicate Contends(t: Ticket, s: Ticket, since: int, now: int) {
    !SameSession(t, s) && AliveIn(s, Start(t, since), Stop(t, now), now) && Box(s) != "" && Box(s) != Box(t)
  }

  /** The sandboxes a hold keeps idle. */
  function Others(t: Ticket, shared: seq<Ticket>, since: int, now: int): set<string> {
    set s | s in shared && Contends(t, s, since, now) :: Box(s)
  }

  lemma OthersGrow(t: Ticket, shared: seq<Ticket>, s: Ticket, since: int, now: int)
    ensures Others(t, shared + [s], since, now) ==
            Others(t, shared, since, now) + if Contends(t, s, since, now) then {Box(s)} else {}
  {
    hide Contends;
    hide Box;
    var before, after := Others(t, shared, since, now), Others(t, shared + [s], since, now);
    forall b | b in before ensures b in after {
      var x :| x in shared && Contends(t, x, since, now) && Box(x) == b;
      assert x in shared + [s];
    }
    if Contends(t, s, since, now) {
      assert s in shared + [s];
    }
  }

  /** A shared ticket waits from its take to its grant; one never granted, to its end. */
  function Waiting(s: Ticket, now: int): Span {
    Span(if TakeOf(s).Some? then TakeOf(s).value else now, if s.grant.Some? then s.grant.value else EndOf(s, now))
  }

  function WaitOf(t: Ticket, s: Ticket, since: int, now: int): seq<Charge> {
    var w := Waiting(s, now);
    if !SameSession(t, s) && Overlap(w.from, w.to, Start(t, since), Stop(t, now)) > 0 then
      [Charge(Max(w.from, Start(t, since)), Min(w.to, Stop(t, now)), 1)]
    else []
  }

  function Waits(t: Ticket, shared: seq<Ticket>, since: int, now: int): seq<Charge> {
    if shared == [] then []
    else Waits(t, shared[..|shared| - 1], since, now) + WaitOf(t, shared[|shared| - 1], since, now)
  }

  datatype Figure = Excl | Idle | Wait | ForReq(req: string)

  /** One hold's charges to one figure. */
  function Bill(f: Figure, t: Ticket, shared: seq<Ticket>, since: int, now: int): seq<Charge> {
    if Length(t, since, now) == 0 then []
    else
      match f
      case Excl => [Charge(Start(t, since), Stop(t, now), 1)]
      case Idle => [Charge(Start(t, since), Stop(t, now), |Others(t, shared, since, now)|)]
      case Wait => Waits(t, shared, since, now)
      case ForReq(req) => if Req(t) == req then [Charge(Start(t, since), Stop(t, now), 1)] else []
  }

  function Bills(f: Figure, holds: seq<Ticket>, shared: seq<Ticket>, since: int, now: int): seq<Charge> {
    if holds == [] then []
    else Bills(f, holds[..|holds| - 1], shared, since, now) + Bill(f, holds[|holds| - 1], shared, since, now)
  }

  /** The holds that have a part in the hour. */
  function HoldsIn(holds: seq<Ticket>, since: int, now: int, h: int): int {
    if holds == [] then 0
    else
      var t := holds[|holds| - 1];
      HoldsIn(holds[..|holds| - 1], since, now, h) +
      if Overlap(Start(t, since), Stop(t, now), h, h + HOUR) > 0 then 1 else 0
  }

  /** What a row must say about the holds. */
  ghost predicate Fits(r: Row, holds: seq<Ticket>, shared: seq<Ticket>, since: int, now: int, h: int) {
    && r.excl == Charged(Bills(Excl, holds, shared, since, now), h)
    && r.idle == Charged(Bills(Idle, holds, shared, since, now), h)
    && r.wait == Charged(Bills(Wait, holds, shared, since, now), h)
    && r.holds == HoldsIn(holds, since, now, h)
    && Sum(r.byReq) == r.excl
    && forall req :: Of(r.byReq, req) == Charged(Bills(ForReq(req), holds, shared, since, now), h)
  }

  // Filling the rows.

  /** The part of [a, b) in the hour that starts at `h`. */
  function Part(a: int, b: int, h: int): int { if OnHour(h) then Overlap(a, b, h, h + HOUR) else 0 }

  lemma PartOutside(a: int, b: int)
    ensures forall h :: h < FloorHour(a) || b <= h ==> Part(a, b, h) == 0
  {
  }

  lemma PartBetween(a: int, b: int, h: int)
    requires OnHour(h)
    ensures OnHour(h + HOUR)
    ensures Part(a, b, h) == Overlap(a, b, h, h + HOUR) >= 0
    ensures forall k :: h < k < h + HOUR ==> Part(a, b, k) == 0
  {
  }

  function HeldRow(r: Row, ms: int, req: string, others: int): Row {
    if ms > 0 then Row(r.excl + ms, r.holds + 1, r.idle + ms * others, r.wait, r.shared, AddTo(r.byReq, req, ms)) else r
  }

  method ChargeHold(rows: map<int, Row>, g: int, e: int, req: string, others: int) returns (out: map<int, Row>)
    ensures forall h :: At(out, h) == HeldRow(At(rows, h), Part(g, e, h), req, others)
    ensures forall h :: h in out <==> h in rows || Part(g, e, h) > 0
  {
    assert forall r :: HeldRow(r, 0, req, others) == r;
    hide HeldRow;
    PartOutside(g, e);
    out := rows;
    var h := FloorHour(g);
    assert OnHour(h);
    hide Part;
    hide OnHour;
    hide Overlap;
    while h < e
      invariant OnHour(h) && h >= FloorHour(g)
      invariant forall k :: At(out, k) == if k < h then HeldRow(At(rows, k), Part(g, e, k), req, others)
        else At(rows, k)
      invariant forall k :: k in out <==> k in rows || (k < h && Part(g, e, k) > 0)
      decreases e - h
    {
      PartBetween(g, e, h);
      var ms := Overlap(g, e, h, h + HOUR);
      if ms > 0 {
        out := out[h := HeldRow(At(out, h), ms, req, others)];
      }
      h := h + HOUR;
    }
  }

  function SpanRow(r: Row, ms: int, waits: bool): Row {
    if waits then r.(wait := r.wait + ms) else r.(shared := r.shared + ms)
  }

  method ChargeSpan(rows: map<int, Row>, a: int, b: int, waits: bool) returns (out: map<int, Row>)
    ensures forall h :: At(out, h) == SpanRow(At(rows, h), Part(a, b, h), waits)
    ensures forall h :: h in out <==> h in rows || Part(a, b, h) > 0
  {
    assert forall r :: SpanRow(r, 0, waits) == r;
    hide SpanRow;
    PartOutside(a, b);
    out := rows;
    var h := FloorHour(a);
    assert OnHour(h);
    hide Part;
    hide OnHour;
    hide Overlap;
    while h < b
      invariant OnHour(h) && h >= FloorHour(a)
      invariant forall k :: At(out, k) == if k < h then SpanRow(At(rows, k), Part(a, b, k), waits) else At(rows, k)
      invariant forall k :: k in out <==> k in rows || (k < h && Part(a, b, k) > 0)
      decreases b - h
    {
      PartBetween(a, b, h);
      var ms := Overlap(a, b, h, h + HOUR);
      if ms > 0 {
        out := out[h := SpanRow(At(out, h), ms, waits)];
      }
      h := h + HOUR;
    }
  }

  /** The other sandboxes alive in a hold, and what waited through it. */
  method Contend(t: Ticket, shared: seq<Ticket>, since: int, now: int) returns (others: set<string>, waits: seq<Charge>)
    requires forall s :: s in shared ==> IsShared(s)
    ensures others == Others(t, shared, since, now)
    ensures waits == Waits(t, shared, since, now)
  {
    var g, e := Start(t, since), Stop(t, now);
    others, waits := {}, [];
    assert Others(t, shared[..0], since, now) == {};
    hide Others;
    hide Box;
    for i := 0 to |shared|
      invariant others == Others(t, shared[..i], since, now)
      invariant waits == Waits(t, shared[..i], since, now)
    {
      var s := shared[i];
      assert IsShared(s);
      assert shared[..i + 1] == shared[..i] + [s] && shared[..i + 1][..i] == shared[..i];
      OthersGrow(t, shared[..i], s, since, now);
      if !SameSession(t, s) {
        var s0, s1 := TakeOf(s).value, EndOf(s, now);
        if s0 < e && s1 > g && Box(s) != "" && Box(s) != Box(t) {
          others := others + {Box(s)};
        }
        var w1 := if s.grant.Some? then s.grant.value else s1;
        if Overlap(s0, w1, g, e) > 0 {
          waits := waits + [Charge(Max(s0, g), Min(w1, e), 1)];
        }
      }
    }
    assert shared[..|shared|] == shared;
  }

  // Shared time: the union of the granted spans.

  function From(w: Span): int { w.from }

  function GrantedOf(s: Ticket, since: int, now: int): seq<Span> {
    if s.grant.Some? && Start(s, since) < Stop(s, now) then [Span(Start(s, since), Stop(s, now))] else []
  }

  function Granted(shared: seq<Ticket>, since: int, now: int): seq<Span> {
    if shared == [] then []
    else Granted(shared[..|shared| - 1], since, now) + GrantedOf(shared[|shared| - 1], since, now)
  }

  lemma {:induction false} GrantedProper(shared: seq<Ticket>, since: int, now: int)
    ensures Proper(Granted(shared, since, now))
    ensures forall w :: w in Granted(shared, since, now) ==> since <= w.from && w.to <= now
  {
    if shared != [] {
      GrantedProper(shared[..|shared| - 1], since, now);
    }
  }

  method Union(spans: seq<Span>) returns (out: seq<Span>)
    ensures out == Merge(Sort(spans, From))
  {
    hide Sort;
    var sorted := Sort(spans, From);
    out := [];
    for i := 0 to |sorted|
      invariant out == Merge(sorted[..i])
    {
      var w := sorted[i];
      assert sorted[..i + 1][..i] == sorted[..i];
      if out != [] && w.from <= out[|out| - 1].to {
        out := out[|out| - 1 := Span(out[|out| - 1].from, Max(out[|out| - 1].to, w.to))];
      } else {
        out := out + [w];
      }
    }
    assert sorted[..|sorted|] == sorted;
  }

  /** The union is ordered, disjoint and apart, and covers exactly the instants its spans cover. */
  lemma UnionCovers(spans: seq<Span>)
    requires Proper(spans)
    ensures Proper(Merge(Sort(spans, From))) && Apart(Merge(Sort(spans, From)))
    ensures forall t :: Covers(Merge(Sort(spans, From)), t) <==> Covers(spans, t)
  {
    hide Sort;
    hide Merge;
    var sorted := Sort(spans, From);
    SortSorts(spans, From);
    SameElements(spans, From);
    forall i | 0 <= i < |sorted| ensures sorted[i].from < sorted[i].to {
      assert sorted[i] in spans;
    }
    forall i, j | 0 <= i < j < |sorted| ensures sorted[i].from <= sorted[j].from {
      assert From(sorted[i]) <= From(sorted[j]);
    }
    MergeIsUnion(sorted);
    forall t ensures Covers(sorted, t) <==> Covers(spans, t) {
      if Covers(sorted, t) {
        var i :| 0 <= i < |sorted| && sorted[i].from <= t < sorted[i].to;
        assert sorted[i] in spans;
      }
      if Covers(spans, t) {
        var i :| 0 <= i < |spans| && spans[i].from <= t < spans[i].to;
        assert spans[i] in sorted;
      }
    }
  }

  /** The instants of [lo, hi) at which some span runs. */
  function Instants(spans: seq<Span>, lo: int, hi: int): int
    decreases hi - lo
  {
    if lo >= hi then 0 else Instants(spans, lo, hi - 1) + if Covers(spans, hi - 1) then 1 else 0
  }

  lemma {:induction false} InstantsBounded(spans: seq<Span>, lo: int, hi: int)
    requires lo <= hi
    ensures 0 <= Instants(spans, lo, hi) <= hi - lo
    decreases hi - lo
  {
    if lo < hi {
      InstantsBounded(spans, lo, hi - 1);
    }
  }

  lemma {:induction false} InstantsSame(spans: seq<Span>, others: seq<Span>, lo: int, hi: int)
    requires forall t :: Covers(spans, t) <==> Covers(others, t)
    ensures Instants(spans, lo, hi) == Instants(others, lo, hi)
    decreases hi - lo
  {
    if lo < hi {
      InstantsSame(spans, others, lo, hi - 1);
    }
  }

  lemma {:induction false} InstantsAppend(spans: seq<Span>, w: Span, lo: int, hi: int)
    requires w.from <= w.to && forall t :: w.from <= t < w.to ==> !Covers(spans, t)
    ensures Instants(spans + [w], lo, hi) == Instants(spans, lo, hi) + Overlap(w.from, w.to, lo, hi)
    decreases hi - lo
  {
    if lo < hi {
      InstantsAppend(spans, w, lo, hi - 1);
      CoversAppend(spans, w, hi - 1);
      hide Covers;
      assert Overlap(w.from, w.to, lo, hi) ==
             Overlap(w.from, w.to, lo, hi - 1) + if w.from <= hi - 1 < w.to then 1 else 0;
    }
  }

  function AsCharges(spans: seq<Span>): seq<Charge> {
    if spans == [] then []
    else AsCharges(spans[..|spans| - 1]) + [Charge(spans[|spans| - 1].from, spans[|spans| - 1].to, 1)]
  }

  lemma {:induction false} NoInstants(lo: int, hi: int)
    ensures Instants([], lo, hi) == 0
    decreases hi - lo
  {
    if lo < hi {
      NoInstants(lo, hi - 1);
    }
  }

  /** Spans apart: their parts in an hour add up to the instants of the hour they cover. */
  lemma {:induction false} ApartCount(spans: seq<Span>, h: int)
    requires Proper(spans) && Apart(spans)
    ensures Charged(AsCharges(spans), h) == Instants(spans, h, h + HOUR)
  {
    if spans == [] {
      NoInstants(h, h + HOUR);
    } else {
      var front, w := spans[..|spans| - 1], spans[|spans| - 1];
      assert spans == front + [w];
      ApartCount(front, h);
      ChargedAppend(AsCharges(front), Charge(w.from, w.to, 1), h);
      forall t | w.from <= t < w.to ensures !Covers(front, t) {
        assert forall i :: 0 <= i < |front| ==> front[i] == spans[i];
      }
      InstantsAppend(front, w, h, h + HOUR);
    }
  }

  // The whole account.

  lemma BillOne(f: Figure, t: Ticket, shared: seq<Ticket>, since: int, now: int, h: int)
    ensures var ms := Overlap(Start(t, since), Stop(t, now), h, h + HOUR);
            Charged(Bill(f, t, shared, since, now), h) ==
            match f
            case Excl => ms
            case Idle => ms * |Others(t, shared, since, now)|
            case Wait => (if Length(t, since, now) == 0 then 0 else Charged(Waits(t, shared, since, now), h))
            case ForReq(req) => (if Req(t) == req then ms else 0)
  {
    hide Others;
    hide Waits;
    hide Req;
    ChargedAlone(Charge(Start(t, since), Stop(t, now), 1), h);
    ChargedAlone(Charge(Start(t, since), Stop(t, now), |Others(t, shared, since, now)|), h);
  }

  lemma BillsGrow(f: Figure, holds: seq<Ticket>, t: Ticket, shared: seq<Ticket>, since: int, now: int, h: int)
    ensures Charged(Bills(f, holds + [t], shared, since, now), h) ==
            Charged(Bills(f, holds, shared, since, now), h) + Charged(Bill(f, t, shared, since, now), h)
  {
    hide Bill;
    assert (holds + [t])[..|holds|] == holds;
    ChargedConcat(Bills(f, holds, shared, since, now), Bill(f, t, shared, since, now), h);
  }

  /** A row that fits the holds so far fits them and one more, once that hold and what waited through it are charged. */
  lemma RowGrows(r: Row, holds: seq<Ticket>, t: Ticket, shared: seq<Ticket>, since: int, now: int, h: int)
    requires Fits(r, holds, shared, since, now, h) && Length(t, since, now) > 0
    ensures var ms := Overlap(Start(t, since), Stop(t, now), h, h + HOUR);
            var held := HeldRow(r, ms, Req(t), |Others(t, shared, since, now)|);
            Fits(held.(wait := held.wait + Charged(Waits(t, shared, since, now), h)), holds + [t], shared, since, now,
              h)
  {
    hide Bill;
    hide Bills;
    hide Others;
    hide Waits;
    hide Charged;
    hide Req;
    hide Sum;
    hide AddTo;
    hide Of;
    var ms := Overlap(Start(t, since), Stop(t, now), h, h + HOUR);
    assert ms >= 0;
    hide Overlap;
    forall f ensures Charged(Bills(f, holds + [t], shared, since, now), h) ==
                     Charged(Bills(f, holds, shared, since, now), h) + Charged(Bill(f, t, shared, since, now), h) {
      BillsGrow(f, holds, t, shared, since, now, h);
    }
    BillOne(Excl, t, shared, since, now, h);
    BillOne(Idle, t, shared, since, now, h);
    BillOne(Wait, t, shared, since, now, h);
    assert (holds + [t])[..|holds|] == holds;
    var held := HeldRow(r, ms, Req(t), |Others(t, shared, since, now)|);
    forall req ensures Of(held.byReq, req) == Charged(Bills(ForReq(req), holds + [t], shared, since, now), h) {
      BillOne(ForReq(req), t, shared, since, now, h);
      AddToSum(r.byReq, Req(t), ms, req);
    }
    AddToSum(r.byReq, Req(t), ms, Req(t));
  }

  lemma RowStays(r: Row, holds: seq<Ticket>, t: Ticket, shared: seq<Ticket>, since: int, now: int, h: int)
    requires Fits(r, holds, shared, since, now, h) && Length(t, since, now) == 0
    ensures Fits(r, holds + [t], shared, since, now, h)
  {
    assert (holds + [t])[..|holds|] == holds;
    forall f ensures Bills(f, holds + [t], shared, since, now) == Bills(f, holds, shared, since, now) {
      assert Bill(f, t, shared, since, now) == [];
    }
  }

  /** The rows of a history say, hour by hour, what its holds and its shared tickets come to. */
  ghost predicate Accounts(rows: map<int, Row>, all: seq<Ticket>, since: int, now: int) {
    && (forall h :: h in rows ==> OnHour(h))
    && forall h :: OnHour(h) ==>
      && Fits(At(rows, h), Filter(all, IsHold), Filter(all, IsShared), since, now, h)
      && At(rows, h).shared == Instants(Granted(Filter(all, IsShared), since, now), h, h + HOUR)
  }

  method ChargeWaits(rows: map<int, Row>, waits: seq<Charge>) returns (out: map<int, Row>)
    requires forall w :: w in waits ==> w.weight == 1
    ensures forall h :: OnHour(h) ==> At(out, h) == At(rows, h).(wait := At(rows, h).wait + Charged(waits, h))
    ensures (forall h :: h in rows ==> OnHour(h)) ==> forall h :: h in out ==> OnHour(h)
  {
    out := rows;
    for i := 0 to |waits|
      invariant forall h :: OnHour(h) ==> At(out, h) == At(rows, h).(wait := At(rows, h).wait + Charged(waits[..i], h))
      invariant (forall h :: h in rows ==> OnHour(h)) ==> forall h :: h in out ==> OnHour(h)
    {
      assert waits[..i + 1][..i] == waits[..i];
      assert waits[i] in waits;
      out := ChargeSpan(out, waits[i].from, waits[i].to, true);
    }
    assert waits[..|waits|] == waits;
  }

  method ChargeShared(rows: map<int, Row>, spans: seq<Span>) returns (out: map<int, Row>)
    ensures forall h :: OnHour(h) ==>
      At(out, h) == At(rows, h).(shared := At(rows, h).shared + Charged(AsCharges(spans), h))
    ensures (forall h :: h in rows ==> OnHour(h)) ==> forall h :: h in out ==> OnHour(h)
  {
    hide Charged;
    hide AsCharges;
    NoSpans();
    out := rows;
    for i := 0 to |spans|
      invariant forall h :: OnHour(h) ==>
        At(out, h) == At(rows, h).(shared := At(rows, h).shared + Charged(AsCharges(spans[..i]), h))
      invariant (forall h :: h in rows ==> OnHour(h)) ==> forall h :: h in out ==> OnHour(h)
    {
      assert spans[..i + 1] == spans[..i] + [spans[i]];
      forall h ensures Charged(AsCharges(spans[..i + 1]), h) ==
                       Charged(AsCharges(spans[..i]), h) + Overlap(spans[i].from, spans[i].to, h, h + HOUR) {
        OneSpanMore(spans[..i], spans[i], h);
      }
      out := ChargeSpan(out, spans[i].from, spans[i].to, false);
    }
    assert spans[..|spans|] == spans;
  }

  lemma NoSpans()
    ensures forall h :: Charged(AsCharges([]), h) == 0
  {
  }

  lemma OneSpanMore(spans: seq<Span>, w: Span, h: int)
    ensures Charged(AsCharges(spans + [w]), h) == Charged(AsCharges(spans), h) + Overlap(w.from, w.to, h, h + HOUR)
  {
    hide Charged;
    assert (spans + [w])[..|spans|] == spans;
    ChargedAppend(AsCharges(spans), Charge(w.from, w.to, 1), h);
  }

  lemma {:induction false} WaitsPlain(t: Ticket, shared: seq<Ticket>, since: int, now: int)
    ensures forall w :: w in Waits(t, shared, since, now) ==> w.weight == 1 && since <= w.from <= w.to <= now
  {
    if shared != [] {
      WaitsPlain(t, shared[..|shared| - 1], since, now);
    }
  }

  method Account(all: seq<Ticket>, since: int, now: int) returns (rows: map<int, Row>)
    ensures now <= since ==> rows == map[]
    ensures since < now ==> Accounts(rows, all, since, now)
  {
    rows := map[];
    if now <= since {
      return;
    }
    var holds, shared := Filter(all, IsHold), Filter(all, IsShared);
    FilterKeeps(all, IsShared);
    rows := ChargeHolds(holds, shared, since, now);
    var granted := GrantedSpans(shared, since, now);
    var union := Union(granted);
    ghost var before := rows;
    rows := ChargeShared(rows, union);
    GrantedProper(shared, since, now);
    UnionCovers(granted);
    forall h | OnHour(h)
      ensures Fits(At(rows, h), holds, shared, since, now, h)
      ensures At(rows, h).shared == Instants(granted, h, h + HOUR)
    {
      ApartCount(union, h);
      InstantsSame(union, granted, h, h + HOUR);
      assert Fits(At(before, h), holds, shared, since, now, h);
    }
  }

  method ChargeHolds(holds: seq<Ticket>, shared: seq<Ticket>, since: int, now: int) returns (rows: map<int, Row>)
    requires forall s :: s in shared ==> IsShared(s)
    ensures forall h :: h in rows ==> OnHour(h)
    ensures forall h :: OnHour(h) ==> Fits(At(rows, h), holds, shared, since, now, h) && At(rows, h).shared == 0
  {
    hide Fits;
    hide Others;
    hide Waits;
    rows := map[];
    forall h ensures Fits(EMPTY, [], shared, since, now, h) {
      EmptyFits(shared, since, now, h);
    }
    for i := 0 to |holds|
      invariant forall h :: h in rows ==> OnHour(h)
      invariant forall h :: OnHour(h) ==>
        Fits(At(rows, h), holds[..i], shared, since, now, h) && At(rows, h).shared == 0
    {
      var t := holds[i];
      ghost var before := rows;
      var g, e := Start(t, since), Stop(t, now);
      assert holds[..i + 1] == holds[..i] + [t];
      if g < e {
        var others, waits := Contend(t, shared, since, now);
        WaitsPlain(t, shared, since, now);
        rows := ChargeHold(rows, g, e, Req(t), |others|);
        rows := ChargeWaits(rows, waits);
        forall h | OnHour(h)
          ensures Fits(At(rows, h), holds[..i + 1], shared, since, now, h) && At(rows, h).shared == 0 {
          RowGrows(At(before, h), holds[..i], t, shared, since, now, h);
        }
      } else {
        forall h | OnHour(h) ensures Fits(At(rows, h), holds[..i + 1], shared, since, now, h) {
          RowStays(At(before, h), holds[..i], t, shared, since, now, h);
        }
      }
    }
    assert holds[..|holds|] == holds;
  }

  lemma EmptyFits(shared: seq<Ticket>, since: int, now: int, h: int)
    ensures Fits(EMPTY, [], shared, since, now, h)
  {
  }

  method GrantedSpans(shared: seq<Ticket>, since: int, now: int) returns (granted: seq<Span>)
    ensures granted == Granted(shared, since, now)
  {
    granted := [];
    for i := 0 to |shared|
      invariant granted == Granted(shared[..i], since, now)
    {
      var s := shared[i];
      assert shared[..i + 1][..i] == shared[..i];
      if s.grant.Some? {
        var a, b := Max(s.grant.value, since), Min(EndOf(s, now), now);
        if b > a {
          granted := granted + [Span(a, b)];
        }
      }
    }
    assert shared[..|shared|] == shared;
  }

  // Conservation.

  /** What one hold costs, told from the tickets alone. */
  function Cost(f: Figure, t: Ticket, shared: seq<Ticket>, since: int, now: int): int {
    match f
    case Excl => Length(t, since, now)
    case Idle => Length(t, since, now) * |Others(t, shared, since, now)|
    case Wait => WaitedThrough(t, shared, since, now)
    case ForReq(req) => if Req(t) == req then Length(t, since, now) else 0
  }

  /** The time tickets of other sessions waited while `t` held the bench. */
  function WaitedThrough(t: Ticket, shared: seq<Ticket>, since: int, now: int): int {
    if shared == [] then 0
    else
      var s := shared[|shared| - 1];
      WaitedThrough(t, shared[..|shared| - 1], since, now) +
      if SameSession(t, s) then 0
      else Overlap(Waiting(s, now).from, Waiting(s, now).to, Start(t, since), Stop(t, now))
  }

  function Costs(f: Figure, holds: seq<Ticket>, shared: seq<Ticket>, since: int, now: int): int {
    if holds == [] then 0
    else Costs(f, holds[..|holds| - 1], shared, since, now) + Cost(f, holds[|holds| - 1], shared, since, now)
  }

  lemma {:induction false} WaitsCome(t: Ticket, shared: seq<Ticket>, since: int, now: int)
    ensures Spent(Waits(t, shared, since, now)) == WaitedThrough(t, shared, since, now)
  {
    if shared != [] {
      var front, s := shared[..|shared| - 1], shared[|shared| - 1];
      WaitsCome(t, front, since, now);
      ChargedConcat(Waits(t, front, since, now), WaitOf(t, s, since, now), 0);
      SpentOne(WaitOf(t, s, since, now));
    }
  }

  lemma SpentOne(cs: seq<Charge>)
    requires |cs| <= 1
    ensures Spent(cs) == if cs == [] then 0 else cs[0].weight * (cs[0].to - cs[0].from)
  {
    if cs != [] {
      assert cs[..0] == [];
    }
  }

  lemma {:induction false} NoWaitThrough(t: Ticket, shared: seq<Ticket>, since: int, now: int)
    requires Length(t, since, now) == 0
    ensures WaitedThrough(t, shared, since, now) == 0
  {
    if shared != [] {
      NoWaitThrough(t, shared[..|shared| - 1], since, now);
    }
  }

  lemma BillComes(f: Figure, t: Ticket, shared: seq<Ticket>, since: int, now: int)
    ensures Spent(Bill(f, t, shared, since, now)) == Cost(f, t, shared, since, now)
    ensures Within(Bill(f, t, shared, since, now), since, now)
  {
    hide Others;
    hide Waits;
    hide WaitedThrough;
    WaitsCome(t, shared, since, now);
    WaitsPlain(t, shared, since, now);
    var bill := Bill(f, t, shared, since, now);
    if Length(t, since, now) == 0 {
      NoWaitThrough(t, shared, since, now);
    } else if f.Wait? {
      forall i | 0 <= i < |bill| ensures since <= bill[i].from <= bill[i].to <= now {
        assert bill[i] in bill;
      }
    } else {
      SpentOne(bill);
    }
  }

  lemma {:induction false} BillsCome(f: Figure, holds: seq<Ticket>, shared: seq<Ticket>, since: int, now: int)
    ensures Spent(Bills(f, holds, shared, since, now)) == Costs(f, holds, shared, since, now)
    ensures Within(Bills(f, holds, shared, since, now), since, now)
  {
    if holds != [] {
      hide Bill;
      hide Cost;
      hide Spent;
      hide Charged;
      hide Within;
      var front, t := holds[..|holds| - 1], holds[|holds| - 1];
      BillsCome(f, front, shared, since, now);
      BillComes(f, t, shared, since, now);
      ChargedConcat(Bills(f, front, shared, since, now), Bill(f, t, shared, since, now), 0);
      WithinConcat(Bills(f, front, shared, since, now), Bill(f, t, shared, since, now), since, now);
    }
  }

  /** A figure of the row at `h`. */
  function Reading(rows: map<int, Row>, f: Figure, h: int): int {
    match f
    case Excl => At(rows, h).excl
    case Idle => At(rows, h).idle
    case Wait => At(rows, h).wait
    case ForReq(req) => Of(At(rows, h).byReq, req)
  }

  /** A figure summed over the hours from `h` to `now`. */
  function Readings(rows: map<int, Row>, f: Figure, h: int, now: int): int
    decreases now - h
  {
    if h >= now then 0 else Reading(rows, f, h) + Readings(rows, f, h + HOUR, now)
  }

  lemma {:induction false} ReadingsCharged(rows: map<int, Row>, f: Figure, cs: seq<Charge>, h: int, now: int)
    requires OnHour(h) && forall k :: OnHour(k) ==> Reading(rows, f, k) == Charged(cs, k)
    ensures Readings(rows, f, h, now) == ChargedOver(cs, h, now)
    decreases now - h
  {
    hide Reading;
    hide Charged;
    if h < now {
      ReadingsCharged(rows, f, cs, h + HOUR, now);
    }
  }

  /**
   * Every figure, summed over the hours, is what the holds cost: no time is lost or counted twice at an hour's edge.
   */
  lemma AccountConserves(rows: map<int, Row>, all: seq<Ticket>, since: int, now: int, f: Figure)
    requires since < now && Accounts(rows, all, since, now)
    ensures Readings(rows, f, FloorHour(since), now) == Costs(f, Filter(all, IsHold), Filter(all, IsShared), since, now)
  {
    var holds, shared := Filter(all, IsHold), Filter(all, IsShared);
    var cs := Bills(f, holds, shared, since, now);
    forall k | OnHour(k) ensures Reading(rows, f, k) == Charged(cs, k) {
      assert Fits(At(rows, k), holds, shared, since, now, k);
    }
    hide *;
    BillsCome(f, holds, shared, since, now);
    assert OnHour(FloorHour(since)) by {
      FloorIsHour(since);
    }
    ReadingsCharged(rows, f, cs, FloorHour(since), now);
    HoursConserve(cs, since, now);
  }

  lemma FloorIsHour(t: int)
    ensures OnHour(FloorHour(t)) && FloorHour(t) <= t < FloorHour(t) + HOUR
  {
  }

  /** Within an hour: the requests share out the exclusive time, and the shared time fits into the hour. */
  lemma HourAddsUp(rows: map<int, Row>, all: seq<Ticket>, since: int, now: int, h: int)
    requires Accounts(rows, all, since, now)
    ensures Sum(At(rows, h).byReq) == At(rows, h).excl
    ensures 0 <= At(rows, h).shared <= HOUR
  {
    if OnHour(h) {
      InstantsBounded(Granted(Filter(all, IsShared), since, now), h, h + HOUR);
    }
  }

  // Shared time, summed over the hours.

  function SharedOver(rows: map<int, Row>, h: int, now: int): int
    decreases now - h
  {
    if h >= now then 0 else At(rows, h).shared + SharedOver(rows, h + HOUR, now)
  }

  lemma {:induction false} InstantsSplit(spans: seq<Span>, lo: int, mid: int, hi: int)
    requires lo <= mid <= hi
    ensures Instants(spans, lo, hi) == Instants(spans, lo, mid) + Instants(spans, mid, hi)
    decreases hi - mid
  {
    hide Covers;
    if mid < hi {
      InstantsSplit(spans, lo, mid, hi - 1);
    }
  }

  lemma {:induction false} NoneCovered(spans: seq<Span>, lo: int, hi: int)
    requires forall t :: lo <= t < hi ==> !Covers(spans, t)
    ensures Instants(spans, lo, hi) == 0
    decreases hi - lo
  {
    if lo < hi {
      NoneCovered(spans, lo, hi - 1);
    }
  }

  lemma {:induction false} HoursOfShared(rows: map<int, Row>, spans: seq<Span>, h: int, now: int)
    requires OnHour(h) && forall k :: OnHour(k) ==> At(rows, k).shared == Instants(spans, k, k + HOUR)
    requires forall t :: now <= t ==> !Covers(spans, t)
    ensures SharedOver(rows, h, now) == Instants(spans, h, now)
    decreases now - h
  {
    hide Covers;
    hide Instants;
    if h >= now {
      NoInstantsBack(spans, h, now);
    } else {
      HoursOfShared(rows, spans, h + HOUR, now);
      if h + HOUR <= now {
        InstantsSplit(spans, h, h + HOUR, now);
      } else {
        InstantsSplit(spans, h, now, h + HOUR);
        NoneCovered(spans, now, h + HOUR);
        NoInstantsBack(spans, h + HOUR, now);
      }
    }
  }

  lemma NoInstantsBack(spans: seq<Span>, lo: int, hi: int)
    requires lo >= hi
    ensures Instants(spans, lo, hi) == 0
  {
  }

  /**
   * Shared time, summed over the hours, is the number of instants of the window at which some shared ticket was held.
   */
  lemma SharedConserves(rows: map<int, Row>, all: seq<Ticket>, since: int, now: int)
    requires since < now && Accounts(rows, all, since, now)
    ensures SharedOver(rows, FloorHour(since), now) == Instants(Granted(Filter(all, IsShared), since, now), since, now)
  {
    var spans := Granted(Filter(all, IsShared), since, now);
    GrantedProper(Filter(all, IsShared), since, now);
    FloorIsHour(since);
    forall t | now <= t || t < since ensures !Covers(spans, t) {
      assert forall i :: 0 <= i < |spans| ==> spans[i] in spans;
    }
    assert forall k :: OnHour(k) ==> At(rows, k).shared == Instants(spans, k, k + HOUR);
    hide *;
    HoursOfShared(rows, spans, FloorHour(since), now);
    InstantsSplit(spans, FloorHour(since), since, now);
    NoneCovered(spans, FloorHour(since), since);
  }

  // From the lines of a history to its account.

  function Values(book: map<string, Ticket>, ids: seq<string>): seq<Ticket> {
    seq(|ids|, i requires 0 <= i < |ids| => TicketIn(book, ids[i]))
  }

  /** The account of a history: of the tickets in its book, each once. */
  method Hours(evs: seq<Event>, since: int, now: int) returns (ids: seq<string>, rows: map<int, Row>)
    ensures now <= since ==> rows == map[]
    ensures var book := Book(Sort(evs, Stamp));
            since < now ==>
              && (forall id :: id in ids <==> id in book) && (forall i, j :: 0 <= i < j < |ids| ==> ids[i] != ids[j])
              && Accounts(rows, Values(book, ids), since, now)
  {
    ids, rows := [], map[];
    if now > since {
      var book;
      ids, book := Tickets(evs);
      rows := Account(Values(book, ids), since, now);
    }
  }

  /** Of this kind, and of this ticket. */
  ghost predicate HasLine(evs: seq<Event>, id: string,
                          kind: Kind) { exists e :: e in evs && e.id == id && e.kind == kind }

  /** The earliest line that tells the ticket's mode tells this one. */
  ghost predicate ModeTold(evs: seq<Event>, id: string, mode: Mode) {
    Telling(evs, id, ItsMode).Some? && Telling(evs, id, ItsMode).value.mode == mode
  }

  lemma LineTells(evs: seq<Event>, id: string, f: Field, kind: Kind)
    requires (f == ItsTake && kind == Take) || (f == ItsGrant && kind == Grant) || (f == ItsEnd && kind == End)
    ensures Telling(evs, id, f).Some? <==> HasLine(evs, id, kind)
  {
    if HasLine(evs, id, kind) {
      var e :| e in evs && e.id == id && e.kind == kind;
      var i :| 0 <= i < |evs| && evs[i] == e;
    }
  }

  /**
   * Which tickets of a history are holds and which are shared, by its lines alone: the mode the earliest line that
   * tells one tells, and whether a line says it was granted, or taken.
   */
  lemma TicketsByLines(evs: seq<Event>, id: string)
    ensures var t := TicketIn(Book(Sort(evs, Stamp)), id);
            && (IsHold(t) <==> ModeTold(evs, id, Exclusive) && HasLine(evs, id, Grant))
            && (IsShared(t) <==> ModeTold(evs, id, Shared) && (HasLine(evs, id, Take) || HasLine(evs, id, Grant)))
  {
    TicketTells(evs, id, ItsMode);
    TicketTells(evs, id, ItsGrant);
    TicketTells(evs, id, ItsTake);
    LineTells(evs, id, ItsGrant, Grant);
    LineTells(evs, id, ItsTake, Take);
    hide Telling;
    hide Sort;
    hide Book;
    hide HasLine;
  }

  /** So the account of a history is of exactly these tickets: its holds, and its shared ones. */
  lemma AccountedTickets(evs: seq<Event>, ids: seq<string>, t: Ticket)
    ensures var book := Book(Sort(evs, Stamp));
            && (t in Filter(Values(book, ids), IsHold) <==>
                  exists id :: id in ids && t == TicketIn(book, id) && ModeTold(evs, id, Exclusive) &&
                    HasLine(evs, id, Grant))
            && (t in Filter(Values(book, ids), IsShared) <==>
                  exists id :: id in ids && t == TicketIn(book, id) && ModeTold(evs, id, Shared)
                               && (HasLine(evs, id, Take) || HasLine(evs, id, Grant)))
  {
    var book := Book(Sort(evs, Stamp));
    var all := Values(book, ids);
    FilterKeeps(all, IsHold);
    FilterKeeps(all, IsShared);
    forall id ensures IsHold(TicketIn(book, id)) <==> ModeTold(evs, id, Exclusive) && HasLine(evs, id, Grant)
      ensures IsShared(TicketIn(book, id)) <==>
              ModeTold(evs, id, Shared) && (HasLine(evs, id, Take) || HasLine(evs, id, Grant))
    {
      TicketsByLines(evs, id);
    }
    hide Sort;
    hide Book;
    hide Filter;
    hide HasLine;
    hide ModeTold;
    hide IsHold;
    hide IsShared;
    if t in all {
      var i :| 0 <= i < |all| && all[i] == t;
      assert t == TicketIn(book, ids[i]);
    }
    forall id | id in ids && t == TicketIn(book, id) ensures t in all {
      var i :| 0 <= i < |ids| && ids[i] == id;
      assert all[i] == t;
    }
  }
}
