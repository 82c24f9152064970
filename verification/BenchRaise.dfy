/**
 * The raise of passed shared tickets (`machine/benchRaise.ts`) judged by the queue's order (`machine/benchState.ts`):
 * a shared ticket an exclusive turn has passed goes to the top priority while it waits.
 */
module BenchRaise {
  import opened Prelude

  datatype Priority = Urgent | High | Normal | Low

  function Rank(p: Priority): int {
    match p
    case Urgent => 0
    case High => 1
    case Normal => 2
    case Low => 3
  }

  /**
   * A queue ticket by its number. `pos` is its place when the queue gave it one; `life` says it is the life ticket of
   * an editor or a player; `box` is the sandbox it runs in and `own` the sandboxes it names, in lower case, empty when
   * none.
   */
  datatype Ticket = Ticket(
    number: nat, exclusive: bool, granted: bool, revoked: bool, session: string, requests: seq<string>,
      pos: Option<int>,
    life: bool, box: string, own: set<string>)

  datatype Standing = Standing(priority: Priority, requests: seq<string>, raisedFrom: Option<Priority>,
    raisedFor: Option<nat>)

  type Sessions = map<string, Standing>

  datatype Mark = Mark(turn: nat, since: int)

  type Marks = map<nat, Mark>

  predicate Distinct(tickets: seq<Ticket>) {
    forall i, j :: 0 <= i < j < |tickets| ==> tickets[i].number != tickets[j].number
  }

  predicate Waits(t: Ticket) { !t.exclusive && !t.granted && !t.revoked }

  predicate Holds(t: Ticket) { t.exclusive && t.granted && !t.revoked }

  predicate WaitsExclusive(t: Ticket) { t.exclusive && !t.granted && !t.revoked }

  predicate RidesAlong(t: Ticket, ex: Ticket, placed: map<string, string>) {
    && !t.exclusive && ex.exclusive && t.life
    && ( || (ex.session != "" && t.session == ex.session)
         || (t.box != "" && (t.box in ex.own ||
           (ex.session in placed && ex.session != "" && placed[ex.session] == t.box))))
  }

  /** The priority the queue reads for a session; one it does not name counts as normal. */
  function PriorityOf(sessions: Sessions, session: string): Priority {
    if session != "" && session in sessions then sessions[session].priority else Normal
  }

  function RankIn(sessions: Sessions, t: Ticket): int { Rank(PriorityOf(sessions, t.session)) }

  // The queue's order.

  function Place(t: Ticket): int { if t.pos.Some? then t.pos.value else t.number }

  predicate Before(sessions: Sessions, a: Ticket, b: Ticket) {
    var p, q := RankIn(sessions, a), RankIn(sessions, b);
    p < q || (p == q && (Place(a) < Place(b) || (Place(a) == Place(b) && a.number < b.number)))
  }

  /**
   * The order puts any two tickets one before the other, and goes by rank, then by place, then by number: a place of
   * its own only for a ticket the queue gave one.
   */
  lemma OrderIsTotal(sessions: Sessions, a: Ticket, b: Ticket)
    requires a.number != b.number
    ensures Before(sessions, a, b) <==> !Before(sessions, b, a)
    ensures RankIn(sessions, a) < RankIn(sessions, b) ==> Before(sessions, a, b)
    ensures var p, q := PriorityOf(sessions, a.session), PriorityOf(sessions, b.session);
            (p.Urgent? && !q.Urgent?) || (p.High? && q.Normal?) || (!p.Low? && q.Low?) ==> Before(sessions, a, b)
    ensures RankIn(sessions, a) == RankIn(sessions, b) ==>
            && (Place(a) < Place(b) ==> Before(sessions, a, b))
            && (Place(a) == Place(b) ==> (Before(sessions, a, b) <==> a.number < b.number))
            && (a.pos.None? && b.pos.None? ==> (Before(sessions, a, b) <==> a.number < b.number))
  {
  }

  lemma OrderIsStrict(sessions: Sessions, a: Ticket, b: Ticket, c: Ticket)
    ensures !Before(sessions, a, a)
    ensures Before(sessions, a, b) && Before(sessions, b, c) ==> Before(sessions, a, c)
  {
  }

  // The marks.

  /** One look at the queue. */
  datatype Look = Look(tickets: seq<Ticket>, sessions: Sessions, placed: map<string, string>, now: int)

  /** An exclusive turn that passes `t`: a holder of the lock. */
  predicate PassesNow(l: Look, t: Ticket, x: Ticket) { Holds(x) && !RidesAlong(t, x, l.placed) }

  /** An exclusive ticket taken after `t` that outranks it. */
  predicate PassesNext(l: Look, t: Ticket, x: Ticket) {
    && WaitsExclusive(x) && x.number > t.number && RankIn(l.sessions, x) < RankIn(l.sessions, t)
    && !RidesAlong(t, x, l.placed)
  }

  function PassedBy(l: Look, t: Ticket): Option<Ticket> {
    var h := FirstSuch(l.tickets, x => PassesNow(l, t, x));
    if h.Some? then h else FirstSuch(l.tickets, x => PassesNext(l, t, x))
  }

  predicate IsPassed(l: Look, t: Ticket) {
    exists x :: x in l.tickets && (PassesNow(l, t, x) || PassesNext(l, t, x))
  }

  lemma PassedByIff(l: Look, t: Ticket)
    ensures PassedBy(l, t).Some? <==> IsPassed(l, t)
  {
  }

  /** The sandboxes an exclusive ticket counts as its own. */
  function OwnBoxes(x: Ticket, placed: map<string, string>): set<string> {
    x.own + if x.session != "" && x.session in placed then {placed[x.session]} else {}
  }

  /**
   * What passes a waiting shared ticket, told by the tickets alone: an exclusive one that holds the lock, or one that
   * waits, was taken later and outranks it; but not when the shared one is the life ticket of an editor or a player of
   * the exclusive one's own session or in one of its own sandboxes.
   */
  ghost predicate Passes(l: Look, t: Ticket, x: Ticket) {
    && x.exclusive && !x.revoked
    && (x.granted || (x.number > t.number && RankIn(l.sessions, x) < RankIn(l.sessions, t)))
    && (t.life ==> !(x.session != "" && t.session == x.session) && !(t.box != "" && t.box in OwnBoxes(x, l.placed)))
  }

  lemma PassedExactly(l: Look, t: Ticket)
    requires !t.exclusive
    ensures IsPassed(l, t) <==> exists x :: x in l.tickets && Passes(l, t, x)
  {
    forall x ensures Passes(l, t, x) <==> PassesNow(l, t, x) || PassesNext(l, t, x) {}
  }

  /** So a look marks exactly the shared tickets still waiting that were marked before, or that one passes. */
  lemma MarkedExactly(l: Look, prev: Marks, t: Ticket)
    ensures MarkOf(l, prev, t).Some? <==>
            && !t.exclusive && !t.granted && !t.revoked
            && (t.number in prev || exists x :: x in l.tickets && Passes(l, t, x))
  {
    if Waits(t) {
      PassedExactly(l, t);
      PassedByIff(l, t);
    }
  }

  /** The mark a look gives one ticket. */
  function MarkOf(l: Look, prev: Marks, t: Ticket): Option<Mark> {
    if !Waits(t) then None
    else if t.number in prev then Some(prev[t.number])
    else
      var h := PassedBy(l, t);
      if h.Some? then Some(Mark(h.value.number, l.now)) else None
  }

  /** The marks of a look: each ticket's own, and nobody else's. */
  ghost predicate IsMarks(l: Look, prev: Marks, out: Marks) {
    && (forall t :: t in l.tickets ==>
          match MarkOf(l, prev, t)
          case None => t.number !in out
          case Some(m) => t.number in out && out[t.number] == m)
    && (forall n :: n in out ==> exists t :: t in l.tickets && t.number == n)
  }

  method PassedShared(l: Look, prev: Marks) returns (out: Marks)
    requires Distinct(l.tickets)
    ensures IsMarks(l, prev, out)
  {
    hide PassedBy;
    out := map[];
    for i := 0 to |l.tickets|
      invariant forall j :: 0 <= j < i ==>
        match MarkOf(l, prev, l.tickets[j])
        case None => l.tickets[j].number !in out
        case Some(m) => l.tickets[j].number in out && out[l.tickets[j].number] == m
      invariant forall n :: n in out ==> exists j :: 0 <= j < i && l.tickets[j].number == n
    {
      var t := l.tickets[i];
      assert t.number !in out;
      if !t.exclusive && !t.granted && !t.revoked {
        if t.number in prev {
          out := out[t.number := prev[t.number]];
        } else {
          var h := PassedBy(l, t);
          if h.Some? {
            out := out[t.number := Mark(h.value.number, l.now)];
          }
        }
      }
    }
  }

  // The raise.

  /** The sessions with a live exclusive ticket of their own. */
  function Timed(tickets: seq<Ticket>): set<string> {
    set t | t in tickets && t.exclusive && !t.revoked && t.session != "" :: t.session
  }

  lemma TimedAre(tickets: seq<Ticket>, s: string)
    ensures s in Timed(tickets) <==> s != "" && exists t :: t in tickets && t.exclusive && !t.revoked && t.session == s
  {
  }

  function BaseOf(sessions: Sessions, t: Ticket): Standing {
    if t.session in sessions then sessions[t.session] else Standing(Normal, t.requests, None, None)
  }

  predicate Raisable(tickets: seq<Ticket>, passed: Marks, t: Ticket) {
    t.number in passed && t.session != "" && t.session !in Timed(tickets)
  }

  /** One turn of the raise over the tickets. */
  function RaiseOne(timed: set<string>, passed: Marks, out: Sessions, t: Ticket): Sessions {
    if t.number !in passed || t.session == "" || t.session in timed then out
    else if t.session in out && out[t.session].raisedFor.Some? then out
    else
      var base := BaseOf(out, t);
      if base.priority == Urgent then out
      else out[t.session := base.(priority := Urgent, raisedFrom := Some(base.priority), raisedFor := Some(t.number))]
  }

  function RaiseAll(timed: set<string>, passed: Marks, sessions: Sessions, tickets: seq<Ticket>): Sessions {
    if tickets == [] then sessions
    else RaiseOne(timed, passed, RaiseAll(timed, passed, sessions, tickets[..|tickets| - 1]), tickets[|tickets| - 1])
  }

  function Raised(sessions: Sessions, tickets: seq<Ticket>, passed: Marks): Sessions {
    RaiseAll(Timed(tickets), passed, sessions, tickets)
  }

  ghost predicate RaisedFor(out: Sessions, n: nat) {
    exists s :: s in out && out[s].raisedFor == Some(n) && out[s].priority == Urgent
  }

  method RaisedSessions(sessions: Sessions, tickets: seq<Ticket>, passed: Marks)
    returns (out: Sessions, raised: seq<nat>)
    ensures out == Raised(sessions, tickets, passed)
    ensures forall n :: n in raised ==> n in passed && RaisedFor(out, n)
    ensures Own(sessions) ==> forall s :: s in out && out[s].raisedFor.Some? ==> out[s].raisedFor.value in raised
  {
    var timed := Timed(tickets);
    out, raised := sessions, [];
    for i := 0 to |tickets|
      invariant out == RaiseAll(timed, passed, sessions, tickets[..i])
      invariant forall n :: n in raised ==> n in passed && RaisedFor(out, n)
      invariant Own(sessions) ==> forall s :: s in out && out[s].raisedFor.Some? ==> out[s].raisedFor.value in raised
    {
      var t := tickets[i];
      assert tickets[..i + 1][..i] == tickets[..i];
      var s := t.session;
      if t.number in passed && s != "" && s !in timed && !(s in out && out[s].raisedFor.Some?) {
        var base := if s in out then out[s] else Standing(Normal, t.requests, None, None);
        if base.priority != Urgent {
          ghost var before := out;
          out := out[s := base.(priority := Urgent, raisedFrom := Some(base.priority), raisedFor := Some(t.number))];
          forall n | n in raised ensures RaisedFor(out, n) {
            var other :| other in before && before[other].raisedFor == Some(n) && before[other].priority == Urgent;
            assert out[other] == before[other];
          }
          assert out[s].raisedFor == Some(t.number);
          raised := raised + [t.number];
        }
      }
    }
    assert tickets[..|tickets|] == tickets;
  }

  /** The daemon's own priorities carry no raise of an earlier look. */
  predicate Own(sessions: Sessions) {
    forall s :: s in sessions ==> sessions[s].raisedFor.None?
  }

  /** What the raise makes of one session. */
  ghost predicate Fair(timed: set<string>, passed: Marks, sessions: Sessions, tickets: seq<Ticket>, s: string,
                       out: Sessions) {
    var passedHere := exists t :: t in tickets && t.session == s && t.number in passed;
    if s == "" || s in timed || !passedHere || PriorityOf(sessions, s) == Urgent then
      (s in out <==> s in sessions) && (s in sessions ==> out[s] == sessions[s])
    else
      && s in out && out[s].priority == Urgent && out[s].raisedFrom == Some(PriorityOf(sessions, s))
      && (s in sessions ==> out[s].requests == sessions[s].requests)
      && exists t :: t in tickets && t.session == s && t.number in passed && out[s].raisedFor == Some(t.number)
  }

  lemma {:induction false} RaiseIsFair(timed: set<string>, passed: Marks, sessions: Sessions, tickets: seq<Ticket>,
                                       s: string)
    requires Own(sessions)
    ensures Fair(timed, passed, sessions, tickets, s, RaiseAll(timed, passed, sessions, tickets))
  {
    if tickets != [] {
      var front, t := tickets[..|tickets| - 1], tickets[|tickets| - 1];
      assert tickets == front + [t];
      RaiseIsFair(timed, passed, sessions, front, s);
      assert t in tickets;
    }
  }

  /** A passed ticket's session is at the top, unless it has a live exclusive ticket or the ticket has no session. */
  lemma RaisedToTop(sessions: Sessions, tickets: seq<Ticket>, passed: Marks, t: Ticket)
    requires Own(sessions) && t in tickets && Raisable(tickets, passed, t)
    ensures RankIn(Raised(sessions, tickets, passed), t) == 0
  {
    RaiseIsFair(Timed(tickets), passed, sessions, tickets, t.session);
  }

  /** No live exclusive ticket's rank changes. */
  lemma ExclusiveKeepsRank(sessions: Sessions, tickets: seq<Ticket>, passed: Marks, x: Ticket)
    requires Own(sessions) && x in tickets && x.exclusive && !x.revoked
    ensures RankIn(Raised(sessions, tickets, passed), x) == RankIn(sessions, x)
  {
    RaiseIsFair(Timed(tickets), passed, sessions, tickets, x.session);
    assert x.session == "" || x.session in Timed(tickets);
  }

  /** No ticket's rank gets worse. */
  lemma RankNeverWorse(sessions: Sessions, tickets: seq<Ticket>, passed: Marks, t: Ticket)
    requires Own(sessions)
    ensures RankIn(Raised(sessions, tickets, passed), t) <= RankIn(sessions, t)
  {
    RaiseIsFair(Timed(tickets), passed, sessions, tickets, t.session);
  }

  /** A session no passed ticket names, or one with a live exclusive ticket, stands as it stood. */
  lemma UnraisedUntouched(sessions: Sessions, tickets: seq<Ticket>, passed: Marks, s: string)
    requires Own(sessions)
    requires s in Timed(tickets) || forall t :: t in tickets && t.session == s ==> t.number !in passed
    ensures var out := Raised(sessions, tickets, passed);
            (s in out <==> s in sessions) && (s in sessions ==> out[s] == sessions[s])
  {
    RaiseIsFair(Timed(tickets), passed, sessions, tickets, s);
  }

  /**
   * The order the raise is for: a raisable passed ticket goes before every live exclusive ticket taken after it, and
   * before an earlier one exactly when that one is below urgent.
   */
  lemma RaisedGoesFirst(sessions: Sessions, tickets: seq<Ticket>, passed: Marks, t: Ticket, x: Ticket)
    requires Own(sessions) && t in tickets && Raisable(tickets, passed, t)
    requires x in tickets && x.exclusive && !x.revoked && x.number != t.number
    requires Place(t) == t.number && Place(x) == x.number
    ensures Before(Raised(sessions, tickets, passed), t, x) <==>
            t.number < x.number || PriorityOf(sessions, x.session) != Urgent
  {
    RaisedToTop(sessions, tickets, passed, t);
    ExclusiveKeepsRank(sessions, tickets, passed, x);
  }

  /**
   * A ticket without a session, or whose session has a live exclusive ticket, keeps its order among the exclusive
   * tickets.
   */
  lemma UnraisableKeepsOrder(sessions: Sessions, tickets: seq<Ticket>, passed: Marks, t: Ticket, x: Ticket)
    requires Own(sessions) && (t.session == "" || t.session in Timed(tickets))
    requires x in tickets && x.exclusive && !x.revoked
    ensures Before(Raised(sessions, tickets, passed), t, x) <==> Before(sessions, t, x)
  {
    RaiseIsFair(Timed(tickets), passed, sessions, tickets, t.session);
    ExclusiveKeepsRank(sessions, tickets, passed, x);
  }

  /**
   * What the rule is for: marked or not, a waiting shared ticket of a session without a live exclusive ticket goes
   * before every exclusive ticket taken after it and still waiting, other than one it rides along with.
   */
  lemma NoLaterExclusiveFirst(l: Look, prev: Marks, passed: Marks, t: Ticket, x: Ticket)
    requires Own(l.sessions) && IsMarks(l, prev, passed)
    requires t in l.tickets && Waits(t) && t.session != "" && t.session !in Timed(l.tickets)
    requires x in l.tickets && WaitsExclusive(x) && t.number < x.number && !RidesAlong(t, x, l.placed)
    requires Place(t) == t.number && Place(x) == x.number
    ensures Before(Raised(l.sessions, l.tickets, passed), t, x)
  {
    if t.number in passed {
      RaisedGoesFirst(l.sessions, l.tickets, passed, t, x);
    } else {
      PassedByIff(l, t);
      assert !PassesNext(l, t, x);
      RankNeverWorse(l.sessions, l.tickets, passed, t);
      ExclusiveKeepsRank(l.sessions, l.tickets, passed, x);
    }
  }

  // Over the looks.

  function MarksBefore(prev: Marks, marks: seq<Marks>, i: nat): Marks
    requires i <= |marks|
  {
    if i == 0 then prev else marks[i - 1]
  }

  /** `marks[i]` are the marks after look `i`; the looks begin from `prev`. */
  ghost predicate Run(looks: seq<Look>, prev: Marks, marks: seq<Marks>) {
    && |marks| == |looks|
    && forall i :: 0 <= i < |looks| ==> IsMarks(looks[i], MarksBefore(prev, marks, i), marks[i])
  }

  ghost predicate WaitsAt(l: Look, n: nat) {
    exists t :: t in l.tickets && t.number == n && Waits(t)
  }

  lemma KeptOnce(l: Look, prev: Marks, out: Marks, n: nat)
    requires IsMarks(l, prev, out) && n in prev && WaitsAt(l, n)
    ensures n in out && out[n] == prev[n]
  {
    var t :| t in l.tickets && t.number == n && Waits(t);
    assert MarkOf(l, prev, t) == Some(prev[n]);
  }

  /** A mark is the same at every look while its ticket waits. */
  lemma {:induction false} MarkLasts(looks: seq<Look>, prev: Marks, marks: seq<Marks>, n: nat, i: nat, j: nat)
    requires Run(looks, prev, marks) && i <= j < |looks| && n in marks[i]
    requires forall k :: i < k <= j ==> WaitsAt(looks[k], n)
    ensures n in marks[j] && marks[j][n] == marks[i][n]
    decreases j - i
  {
    hide IsMarks;
    hide WaitsAt;
    if i < j {
      MarkLasts(looks, prev, marks, n, i, j - 1);
      KeptOnce(looks[j], MarksBefore(prev, marks, j), marks[j], n);
    }
  }

  /** A mark is on a waiting ticket, and goes at the first look that does not see it wait. */
  lemma MarkNeedsWaiting(looks: seq<Look>, prev: Marks, marks: seq<Marks>, n: nat, i: nat)
    requires Run(looks, prev, marks) && i < |looks| && n in marks[i]
    ensures WaitsAt(looks[i], n)
  {
    var before := MarksBefore(prev, marks, i);
    assert IsMarks(looks[i], before, marks[i]);
    var t :| t in looks[i].tickets && t.number == n;
    assert MarkOf(looks[i], before, t).Some?;
  }

  /** Once passed, a ticket goes before the later exclusive tickets at every look while it waits. */
  lemma PassedStaysFirst(looks: seq<Look>, prev: Marks, marks: seq<Marks>, i: nat, j: nat, t: Ticket, x: Ticket)
    requires Run(looks, prev, marks) && i <= j < |looks| && t.number in marks[i]
    requires forall k :: i < k <= j ==> WaitsAt(looks[k], t.number)
    requires Own(looks[j].sessions) && t in looks[j].tickets && t.session != "" && t.session !in Timed(looks[j].tickets)
    requires x in looks[j].tickets && x.exclusive && !x.revoked && x.number != t.number
    requires Place(t) == t.number && Place(x) == x.number
    ensures Before(Raised(looks[j].sessions, looks[j].tickets, marks[j]), t, x) <==>
            t.number < x.number || PriorityOf(looks[j].sessions, x.session) != Urgent
  {
    MarkLasts(looks, prev, marks, t.number, i, j);
    RaisedGoesFirst(looks[j].sessions, looks[j].tickets, marks[j], t, x);
  }
}
