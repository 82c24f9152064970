/**
 * The account of exclusive tickets (`machine/benchHours.ts`) told instant by instant: what every figure of a row
 * counts, in terms of which tickets hold the bench, and which wait for it, at each millisecond of the hour.
 */
module BenchInstants {
  import opened Prelude
  import opened Spans
  import opened BenchHistory
  import opened BenchHours

  /** The ticket is held at `x`, an instant of the window: granted by then, and not yet ended. */
  predicate HeldAt(t: Ticket, x: int, since: int, now: int) {
    t.grant.Some? && t.grant.value <= x && (t.end.Some? ==> x < t.end.value) && since <= x < now
  }

  /** When the ticket was taken; one never seen to be, as long before its grant as that said it had waited. */
  predicate TakenBy(s: Ticket, x: int) {
    match s.take
    case Some(take) => take <= x
    case None => s.grant.Some? && s.grant.value - (if s.waited.Some? then s.waited.value else 0) <= x
  }

  /** The ticket waits at `x`: taken, and neither granted nor, when it never is, ended. */
  predicate WaitsAt(s: Ticket, x: int) {
    TakenBy(s, x) && if s.grant.Some? then x < s.grant.value else s.end.Some? ==> x < s.end.value
  }

  /** No other ticket is of the session of one that names none. */
  predicate Stranger(t: Ticket, s: Ticket) { t.session == "" || s.session != t.session }

  predicate RunsIn(s: Ticket, box: string) { s.sandbox == box || (s.sandbox == "" && s.what == box) }

  /**
   * The hold keeps the sandbox idle: one other than its own, in which a stranger's ticket was taken before the hold was
   * over and ended after it had begun.
   */
  ghost predicate KeepsIdle(t: Ticket, shared: seq<Ticket>, since: int, now: int, box: string) {
    && box != "" && !RunsIn(t, box)
    && exists s :: s in shared && Stranger(t, s) && RunsIn(s, box)
         && TakenBy(s, (if t.end.Some? then Min(t.end.value, now) else now) - 1)
         && (if s.end.Some? then s.end.value else now) > (if t.grant.Some? then Max(t.grant.value, since) else since)
  }

  lemma OthersAre(t: Ticket, shared: seq<Ticket>, since: int, now: int, box: string)
    ensures box in Others(t, shared, since, now) <==> KeepsIdle(t, shared, since, now, box)
  {
  }

  function Waiters(t: Ticket, shared: seq<Ticket>, x: int): int {
    if shared == [] then 0
    else
      var s := shared[|shared| - 1];
      Waiters(t, shared[..|shared| - 1], x) + if Stranger(t, s) && WaitsAt(s, x) then 1 else 0
  }

  /** What one instant of a hold counts for. */
  function Weight(f: Figure, t: Ticket, shared: seq<Ticket>, since: int, now: int, x: int): int {
    match f
    case Excl => 1
    case Idle => |Others(t, shared, since, now)|
    case Wait => Waiters(t, shared, x)
    case ForReq(req) => if Req(t) == req then 1 else 0
  }

  function AtInstant(f: Figure, holds: seq<Ticket>, shared: seq<Ticket>, since: int, now: int, x: int): int {
    if holds == [] then 0
    else
      var t := holds[|holds| - 1];
      AtInstant(f, holds[..|holds| - 1], shared, since, now, x) +
      if HeldAt(t, x, since, now) then Weight(f, t, shared, since, now, x) else 0
  }

  function Counted(f: Figure, holds: seq<Ticket>, shared: seq<Ticket>, since: int, now: int, lo: int, hi: int): int
    decreases hi - lo
  {
    if hi <= lo then 0
    else Counted(f, holds, shared, since, now, lo, hi - 1) + AtInstant(f, holds, shared, since, now, hi - 1)
  }

  // Charges by the instant.

  function RateOne(c: Charge, x: int): int { if c.from <= x < c.to then c.weight else 0 }

  function Rate(cs: seq<Charge>, x: int): int {
    if cs == [] then 0 else Rate(cs[..|cs| - 1], x) + RateOne(cs[|cs| - 1], x)
  }

  function Total(cs: seq<Charge>, lo: int, hi: int): int
    decreases hi - lo
  {
    if hi <= lo then 0 else Total(cs, lo, hi - 1) + Rate(cs, hi - 1)
  }

  lemma {:induction false} RateConcat(cs: seq<Charge>, ds: seq<Charge>, x: int)
    ensures Rate(cs + ds, x) == Rate(cs, x) + Rate(ds, x)
  {
    if ds == [] {
      assert cs + ds == cs;
    } else {
      RateConcat(cs, ds[..|ds| - 1], x);
      assert (cs + ds)[..|cs + ds| - 1] == cs + ds[..|ds| - 1];
    }
  }

  lemma RateAlone(c: Charge, x: int)
    ensures Rate([c], x) == RateOne(c, x)
  {
    assert [c][..0] == [];
    assert Rate([c][..0], x) == 0;
  }

  lemma {:induction false} TotalNone(lo: int, hi: int)
    ensures Total([], lo, hi) == 0
    decreases hi - lo
  {
    if lo < hi {
      TotalNone(lo, hi - 1);
    }
  }

  lemma {:induction false} TotalAppend(cs: seq<Charge>, c: Charge, lo: int, hi: int)
    requires lo <= hi
    ensures Total(cs + [c], lo, hi) == Total(cs, lo, hi) + c.weight * Overlap(c.from, c.to, lo, hi)
    decreases hi - lo
  {
    if lo < hi {
      TotalAppend(cs, c, lo, hi - 1);
      RateConcat(cs, [c], hi - 1);
      RateAlone(c, hi - 1);
      var before, here := Overlap(c.from, c.to, lo, hi - 1), if c.from <= hi - 1 < c.to then 1 else 0;
      assert Overlap(c.from, c.to, lo, hi) == before + here;
      assert c.weight * (before + here) == c.weight * before + c.weight * here;
    }
  }

  /** What an hour is charged is the sum over its instants of the weights that run then. */
  lemma {:induction false} ChargedIsTotal(cs: seq<Charge>, h: int)
    ensures Charged(cs, h) == Total(cs, h, h + HOUR)
  {
    if cs == [] {
      TotalNone(h, h + HOUR);
    } else {
      ChargedIsTotal(cs[..|cs| - 1], h);
      TotalAppend(cs[..|cs| - 1], cs[|cs| - 1], h, h + HOUR);
      assert cs[..|cs| - 1] + [cs[|cs| - 1]] == cs;
    }
  }

  lemma HeldIs(t: Ticket, x: int, since: int, now: int)
    requires IsHold(t) || (IsShared(t) && t.grant.Some?)
    ensures HeldAt(t, x, since, now) <==> Start(t, since) <= x < Stop(t, now)
  {
  }

  lemma WaitRate(t: Ticket, s: Ticket, since: int, now: int, x: int)
    requires IsShared(s) && Start(t, since) <= x < Stop(t, now)
    ensures Rate(WaitOf(t, s, since, now), x) == if Stranger(t, s) && WaitsAt(s, x) then 1 else 0
  {
    var w := Waiting(s, now);
    RateAlone(Charge(Max(w.from, Start(t, since)), Min(w.to, Stop(t, now)), 1), x);
  }

  lemma {:induction false} WaitsRate(t: Ticket, shared: seq<Ticket>, since: int, now: int, x: int)
    requires forall s :: s in shared ==> IsShared(s)
    ensures Start(t, since) <= x < Stop(t, now) ==> Rate(Waits(t, shared, since, now), x) == Waiters(t, shared, x)
    ensures !(Start(t, since) <= x < Stop(t, now)) ==> Rate(Waits(t, shared, since, now), x) == 0
  {
    if shared != [] {
      var front, s := shared[..|shared| - 1], shared[|shared| - 1];
      WaitsRate(t, front, since, now, x);
      RateConcat(Waits(t, front, since, now), WaitOf(t, s, since, now), x);
      assert s in shared;
      if Start(t, since) <= x < Stop(t, now) {
        WaitRate(t, s, since, now, x);
      } else {
        var w := Waiting(s, now);
        RateAlone(Charge(Max(w.from, Start(t, since)), Min(w.to, Stop(t, now)), 1), x);
      }
    }
  }

  lemma BillRate(f: Figure, t: Ticket, shared: seq<Ticket>, since: int, now: int, x: int)
    requires IsHold(t) && forall s :: s in shared ==> IsShared(s)
    ensures Rate(Bill(f, t, shared, since, now), x) ==
            if HeldAt(t, x, since, now) then Weight(f, t, shared, since, now, x) else 0
  {
    HeldIs(t, x, since, now);
    WaitsRate(t, shared, since, now, x);
    RateAlone(Charge(Start(t, since), Stop(t, now), 1), x);
    RateAlone(Charge(Start(t, since), Stop(t, now), |Others(t, shared, since, now)|), x);
    hide Others;
    hide Waits;
    hide Waiters;
    hide Req;
  }

  lemma {:induction false} BillsRate(f: Figure, holds: seq<Ticket>, shared: seq<Ticket>, since: int, now: int, x: int)
    requires (forall t :: t in holds ==> IsHold(t)) && forall s :: s in shared ==> IsShared(s)
    ensures Rate(Bills(f, holds, shared, since, now), x) == AtInstant(f, holds, shared, since, now, x)
  {
    if holds != [] {
      var front, t := holds[..|holds| - 1], holds[|holds| - 1];
      assert t in holds;
      BillsRate(f, front, shared, since, now, x);
      BillRate(f, t, shared, since, now, x);
      RateConcat(Bills(f, front, shared, since, now), Bill(f, t, shared, since, now), x);
    }
  }

  lemma {:induction false} BillsTotal(
    f: Figure, holds: seq<Ticket>, shared: seq<Ticket>, since: int, now: int, lo: int, hi: int)
    requires (forall t :: t in holds ==> IsHold(t)) && forall s :: s in shared ==> IsShared(s)
    ensures Total(Bills(f, holds, shared, since, now), lo, hi) == Counted(f, holds, shared, since, now, lo, hi)
    decreases hi - lo
  {
    if lo < hi {
      BillsTotal(f, holds, shared, since, now, lo, hi - 1);
      BillsRate(f, holds, shared, since, now, hi - 1);
    }
  }

  /**
   * Every row of an account, instant by instant. Exclusive time counts the holds at each instant of the hour, waiting
   * time the strangers' tickets that wait at it under each hold, idle time the sandboxes each hold keeps idle, and a
   * request's time the holds made for it.
   */
  lemma RowByInstants(rows: map<int, Row>, all: seq<Ticket>, since: int, now: int, h: int, f: Figure)
    requires Accounts(rows, all, since, now) && OnHour(h)
    ensures Reading(rows, f, h) == Counted(f, Filter(all, IsHold), Filter(all, IsShared), since, now, h, h + HOUR)
  {
    var holds, shared := Filter(all, IsHold), Filter(all, IsShared);
    FilterKeeps(all, IsHold);
    FilterKeeps(all, IsShared);
    assert Fits(At(rows, h), holds, shared, since, now, h);
    hide Bills;
    hide Counted;
    hide Total;
    hide Charged;
    hide Filter;
    ChargedIsTotal(Bills(f, holds, shared, since, now), h);
    BillsTotal(f, holds, shared, since, now, h, h + HOUR);
  }

  /** The shared tickets held at some instant are those whose spans cover it. */
  lemma {:induction false} GrantedCovers(shared: seq<Ticket>, since: int, now: int, x: int)
    requires forall s :: s in shared ==> IsShared(s)
    ensures Covers(Granted(shared, since, now), x) <==> exists s :: s in shared && HeldAt(s, x, since, now)
  {
    if shared != [] {
      var front, s := shared[..|shared| - 1], shared[|shared| - 1];
      assert s in shared && shared == front + [s];
      GrantedCovers(front, since, now, x);
      if s.grant.Some? && Start(s, since) < Stop(s, now) {
        CoversAppend(Granted(front, since, now), Span(Start(s, since), Stop(s, now)), x);
      } else {
        assert Granted(shared, since, now) == Granted(front, since, now);
      }
    }
  }

  ghost function SharedCounted(shared: seq<Ticket>, since: int, now: int, lo: int, hi: int): int
    decreases hi - lo
  {
    if hi <= lo then 0
    else
      SharedCounted(shared, since, now, lo, hi - 1) +
      if exists s :: s in shared && HeldAt(s, hi - 1, since, now) then 1 else 0
  }

  lemma {:induction false} InstantsCounted(shared: seq<Ticket>, since: int, now: int, lo: int, hi: int)
    requires forall s :: s in shared ==> IsShared(s)
    ensures Instants(Granted(shared, since, now), lo, hi) == SharedCounted(shared, since, now, lo, hi)
    decreases hi - lo
  {
    if lo < hi {
      InstantsCounted(shared, since, now, lo, hi - 1);
      GrantedCovers(shared, since, now, hi - 1);
    }
  }

  /** Shared time counts the instants of the hour at which some shared ticket was held. */
  lemma SharedByInstants(rows: map<int, Row>, all: seq<Ticket>, since: int, now: int, h: int)
    requires Accounts(rows, all, since, now) && OnHour(h)
    ensures At(rows, h).shared == SharedCounted(Filter(all, IsShared), since, now, h, h + HOUR)
  {
    FilterKeeps(all, IsShared);
    InstantsCounted(Filter(all, IsShared), since, now, h, h + HOUR);
  }

  ghost predicate HeldDuring(t: Ticket, since: int, now: int, h: int) {
    exists x :: h <= x < h + HOUR && HeldAt(t, x, since, now)
  }

  ghost function HoldsCounted(holds: seq<Ticket>, since: int, now: int, h: int): int {
    if holds == [] then 0
    else
      HoldsCounted(holds[..|holds| - 1], since, now, h) +
      if HeldDuring(holds[|holds| - 1], since, now, h) then 1 else 0
  }

  lemma {:induction false} HoldsInAre(holds: seq<Ticket>, since: int, now: int, h: int)
    requires forall t :: t in holds ==> IsHold(t)
    ensures HoldsIn(holds, since, now, h) == HoldsCounted(holds, since, now, h)
  {
    if holds != [] {
      var t := holds[|holds| - 1];
      assert t in holds;
      HoldsInAre(holds[..|holds| - 1], since, now, h);
      if Overlap(Start(t, since), Stop(t, now), h, h + HOUR) > 0 {
        assert HeldAt(t, Max(Start(t, since), h), since, now);
      }
    }
  }

  /** An hour's holds are those held at some instant of it. */
  lemma HoldsByInstants(rows: map<int, Row>, all: seq<Ticket>, since: int, now: int, h: int)
    requires Accounts(rows, all, since, now) && OnHour(h)
    ensures At(rows, h).holds == HoldsCounted(Filter(all, IsHold), since, now, h)
  {
    FilterKeeps(all, IsHold);
    assert Fits(At(rows, h), Filter(all, IsHold), Filter(all, IsShared), since, now, h);
    HoldsInAre(Filter(all, IsHold), since, now, h);
  }

  // Names.

  /** The request a hold is booked under. */
  lemma ReqTold(t: Ticket)
    ensures t.requests == [] || t.requests == [""] ==> Req(t) == "-"
    ensures |t.requests| == 1 && t.requests[0] != "" ==> Req(t) == t.requests[0]
    ensures |t.requests| > 1 ==> Req(t) == t.requests[0] + "," + Joined(t.requests[1..])
  {
    if |t.requests| > 1 {
      JoinedConcat([t.requests[0]], t.requests[1..]);
      assert [t.requests[0]] + t.requests[1..] == t.requests;
    }
  }

  /** The requests joined with commas: of two lists one after the other, the first's text, a comma and the second's. */
  lemma {:induction false} JoinedConcat(a: seq<string>, b: seq<string>)
    requires a != [] && b != []
    ensures Joined(a + b) == Joined(a) + "," + Joined(b)
  {
    if |a| == 1 {
      assert (a + b)[1..] == b;
    } else {
      JoinedConcat(a[1..], b);
      assert (a + b)[1..] == a[1..] + b;
    }
  }
}
