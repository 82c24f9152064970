/** Runs of looks of the leftover reaper, from a fresh daemon: what its clocks and counts say about the looks before. */
module LeftoverRuns {
  import opened Prelude
  import opened Leftovers
  import Tree = ProcessTree

  /** One look, the candidates it saw, and what SIGKILL did not end after it, with the time. */
  datatype Turn = Turn(l: Look, cands: seq<Candidate>, stuck: map<Id, int>)

  ghost predicate Valid(turns: seq<Turn>) {
    forall i :: 0 <= i < |turns| ==> AreCandidates(turns[i].l, turns[i].cands)
  }

  function After(m: Memory, t: Turn): Memory {
    var next := Remember(t.l, t.cands, m);
    next.(stuck := next.stuck + t.stuck)
  }

  function Mem(turns: seq<Turn>): Memory {
    if turns == [] then Memory(map[], map[], map[]) else After(Mem(turns[..|turns| - 1]), turns[|turns| - 1])
  }

  /** How many of the latest turns in a row saw the process. */
  function Streak(turns: seq<Turn>, id: Id): nat {
    if turns == [] || id !in Ids(turns[|turns| - 1].cands) then 0 else 1 + Streak(turns[..|turns| - 1], id)
  }

  predicate SawStopped(t: Turn, s: string) { s in Sessions(t.cands) && s !in t.l.live }

  /** How many of the latest turns in a row saw the session's leftovers and its worker not live. */
  function StoppedStreak(turns: seq<Turn>, s: string): (n: nat)
    ensures n <= |turns| && forall i :: |turns| - n <= i < |turns| ==> SawStopped(turns[i], s)
    ensures n < |turns| ==> !SawStopped(turns[|turns| - n - 1], s)
  {
    if turns == [] || !SawStopped(turns[|turns| - 1], s) then 0
    else
      var n := StoppedStreak(turns[..|turns| - 1], s);
      assert forall i :: 0 <= i < |turns| - 1 ==> turns[..|turns| - 1][i] == turns[i];
      1 + n
  }

  /** When that streak began. */
  function StoppedSince(turns: seq<Turn>, s: string): int
    requires StoppedStreak(turns, s) > 0
  {
    turns[|turns| - StoppedStreak(turns, s)].l.now
  }

  lemma IdHasClaim(l: Look, cands: seq<Candidate>, id: Id)
    requires AreCandidates(l, cands) && id in Ids(cands)
    ensures id.0 in l.claims
  {
    var c :| c in cands && IdOf(c) == id;
  }

  /** The count of a process is its streak. */
  lemma {:induction false} CountIsStreak(turns: seq<Turn>, id: Id)
    requires Valid(turns)
    ensures SeenIn(Mem(turns).looks, id).n == Streak(turns, id)
    ensures id in Mem(turns).looks <==> Streak(turns, id) > 0
  {
    if turns != [] {
      var front, t := turns[..|turns| - 1], turns[|turns| - 1];
      CountIsStreak(front, id);
      if id in Ids(t.cands) {
        IdHasClaim(t.l, t.cands, id);
      }
    }
  }

  lemma ClockTurns(turns: seq<Turn>, s: string)
    requires turns != []
    ensures var m, t := Mem(turns[..|turns| - 1]).stopped, turns[|turns| - 1];
            if SawStopped(t, s) then s in Mem(turns).stopped &&
              Mem(turns).stopped[s] == if s in m then m[s] else t.l.now
            else s !in Mem(turns).stopped
  {
    hide Sessions;
    hide Ids;
  }

  lemma StreakTurns(turns: seq<Turn>, s: string)
    requires turns != [] && SawStopped(turns[|turns| - 1], s)
    ensures var front := turns[..|turns| - 1];
            StoppedStreak(turns, s) == 1 + StoppedStreak(front, s) &&
            StoppedSince(turns, s) == if StoppedStreak(front, s) > 0 then StoppedSince(front, s)
              else turns[|turns| - 1].l.now
  {
    hide SawStopped;
    assert StoppedStreak(turns, s) == 1 + StoppedStreak(turns[..|turns| - 1], s);
  }

  /** A session's clock runs while its streak does, from the turn that began it. */
  lemma {:induction false} ClockIsStreak(turns: seq<Turn>, s: string)
    ensures s in Mem(turns).stopped <==> StoppedStreak(turns, s) > 0
    ensures s in Mem(turns).stopped ==> Mem(turns).stopped[s] == StoppedSince(turns, s)
  {
    if turns != [] {
      ClockIsStreak(turns[..|turns| - 1], s);
      ClockTurns(turns, s);
      if SawStopped(turns[|turns| - 1], s) {
        StreakTurns(turns, s);
        hide *;
      } else {
        assert StoppedStreak(turns, s) == 0;
        hide *;
      }
    }
  }

  /** The CPU time kept is the last turn's. */
  lemma CpuIsLast(turns: seq<Turn>, id: Id)
    requires Valid(turns) && turns != [] && id in Ids(turns[|turns| - 1].cands)
    ensures id.0 in turns[|turns| - 1].l.claims
    ensures SeenIn(Mem(turns).looks, id).cpu == turns[|turns| - 1].l.claims[id.0].cpu
  {
    IdHasClaim(turns[|turns| - 1].l, turns[|turns| - 1].cands, id);
  }

  function Grace(l: Look, s: string): int { if s in l.resumable then STOPPED_GRACE else DONE_GRACE }

  /** A build server is at work unless the turn before knew its CPU time and it has hardly moved since. */
  ghost predicate AtWork(turns: seq<Turn>, k: Claim, id: Id)
    requires turns != [] && id.0 in turns[|turns| - 1].l.claims
  {
    var was := turns[|turns| - 1].l.claims[id.0].cpu;
    k.server && (was.None? || k.cpu.None? || k.cpu.value - was.value >= IDLE_CPU)
  }

  /**
   * When a session's leftover ends, in terms of the looks alone: this look and the one before saw the same process;
   * every look since the session's clock began saw its worker not live, this one at its verdict too; the grace has
   * passed on that clock, and the check-in's grace; no starter keeps a process known by an argument, a server is idle,
   * the portal has welcomed the daemon, the start time is known, and no kill failed within the hour.
   */
  ghost predicate SessionMayEnd(before: seq<Turn>, t: Turn, c: Candidate, s: string) {
    var turns, id := before + [t], IdOf(c);
    && before != [] && id in Ids(before[|before| - 1].cands) && id.0 in before[|before| - 1].l.claims
    && StoppedStreak(turns, s) > 0 && s !in t.l.liveLater
    && t.l.now - StoppedSince(turns, s) >= Grace(t.l, s)
    && (s in t.l.wakeAt ==> t.l.now >= t.l.wakeAt[s] + WAKE_GRACE)
    && !(c.claim.viaArg && c.claim.starter)
    && !AtWork(before, c.claim, id)
    && t.l.ready && c.claim.born
    && !(id in Mem(before).stuck && t.l.now - Mem(before).stuck[id] < STUCK_RETRY)
  }

  lemma ChosenIff(before: seq<Turn>, t: Turn, c: Candidate)
    requires c in t.cands
    ensures var m := Mem(before);
            c in Choose(t.l, t.cands, m) <==>
            Doomed(t.l, Clocks(t.l, m.stopped, Sessions(t.cands)), m.stuck, c, SeenIn(m.looks, IdOf(c)))
  {
    hide Doomed;
    var m := Mem(before);
    PickIs(t.l, m.(stopped := Clocks(t.l, m.stopped, Sessions(t.cands))), t.cands);
  }

  lemma ClockAt(before: seq<Turn>, t: Turn, s: string)
    requires s in Sessions(t.cands)
    ensures var clocks := Clocks(t.l, Mem(before).stopped, Sessions(t.cands));
            (s in clocks <==> StoppedStreak(before + [t], s) > 0) &&
            (s in clocks ==> clocks[s] == StoppedSince(before + [t], s))
  {
    var turns := before + [t];
    assert turns[..|before|] == before;
    ClockIsStreak(turns, s);
    ClockTurns(turns, s);
    hide StoppedStreak;
    hide StoppedSince;
    hide Mem;
  }

  lemma SessionDoom(l: Look, stopped: map<string, int>, stuck: map<Id, int>, c: Candidate, seen: Seen, s: string)
    requires c.claim.session == Some(s) && l.now >= 0 && !l.pauseEnds
    ensures Doomed(l, stopped, stuck, c, seen) <==>
            && seen.n >= 1 && s in stopped && s !in l.liveLater && l.now - stopped[s] >= Grace(l, s)
            && (s in l.wakeAt ==> l.now >= l.wakeAt[s] + WAKE_GRACE)
            && !(c.claim.viaArg && c.claim.starter) && !Busy(c.claim, seen) && l.ready && c.claim.born
            && !(IdOf(c) in stuck && l.now - stuck[IdOf(c)] < STUCK_RETRY)
  {
  }

  /** The condition above is exactly when the reaper ends a session's leftover, no pause forcing it. */
  lemma SessionLeftoverEnds(before: seq<Turn>, t: Turn, c: Candidate, s: string)
    requires Valid(before + [t]) && c in t.cands && c.claim.session == Some(s)
    requires t.l.now >= 0 && !t.l.pauseEnds
    ensures c in Choose(t.l, t.cands, Mem(before)) <==> SessionMayEnd(before, t, c, s)
  {
    var id, m := IdOf(c), Mem(before);
    var seen, clocks := SeenIn(m.looks, id), Clocks(t.l, m.stopped, Sessions(t.cands));
    ValidBefore(before, t);
    ChosenIff(before, t, c);
    CountIsStreak(before, id);
    SessionIn(t.cands, c);
    ClockAt(before, t, s);
    SessionDoom(t.l, clocks, m.stuck, c, seen, s);
    assert seen.n >= 1 <==> before != [] && id in Ids(before[|before| - 1].cands);
    if before != [] && id in Ids(before[|before| - 1].cands) {
      CpuIsLast(before, id);
      hide Mem;
      hide Choose;
      hide Doomed;
      hide StoppedStreak;
      hide StoppedSince;
      hide Sessions;
      hide Ids;
    } else {
      hide *;
      assert !SessionMayEnd(before, t, c, s) by {
        NotSeenBefore(before, t, c, s);
      }
    }
  }

  lemma ValidBefore(before: seq<Turn>, t: Turn)
    requires Valid(before + [t])
    ensures Valid(before) && AreCandidates(t.l, t.cands)
  {
    assert forall i :: 0 <= i < |before| ==> (before + [t])[i] == before[i];
    assert (before + [t])[|before|] == t;
  }

  lemma NotSeenBefore(before: seq<Turn>, t: Turn, c: Candidate, s: string)
    requires before == [] || IdOf(c) !in Ids(before[|before| - 1].cands)
    ensures !SessionMayEnd(before, t, c, s)
  {
  }

  /**
   * Whatever forces it: what ends was seen by the look before too, its start time is known, and no kill failed lately.
   */
  lemma TwoLooksAlways(before: seq<Turn>, t: Turn, c: Candidate)
    requires Valid(before + [t]) && c in t.cands && c in Choose(t.l, t.cands, Mem(before))
    ensures before != [] && IdOf(c) in Ids(before[|before| - 1].cands) && c.claim.born
  {
    ValidBefore(before, t);
    ChosenIff(before, t, c);
    CountIsStreak(before, IdOf(c));
  }

  /** No look ends the daemon, its parents, an interactive editor or anything one started. */
  lemma EditorsAreSpared(before: seq<Turn>, t: Turn, c: Candidate)
    requires AreCandidates(t.l, t.cands) && c in Choose(t.l, t.cands, Mem(before))
    ensures c.p in t.l.procs && c.p.pid !in t.l.self
    ensures forall e :: e in t.l.editors ==> !Tree.Reaches(t.l.procs, e, c.p.pid)
  {
    var m := Mem(before);
    PickIs(t.l, m.(stopped := Clocks(t.l, m.stopped, Sessions(t.cands))), t.cands);
    assert !UnderEditor(t.l, c.p.pid);
  }

  // Orphans.

  /** The turn saw the process with no session and nothing that might own it. */
  predicate SawOrphan(t: Turn, id: Id) {
    id in Ids(t.cands) && id.0 in t.l.claims && t.l.claims[id.0].session.None? && !Owned(t.l.claims[id.0])
  }

  /** The turn saw the process, and nothing that might own it. */
  predicate SawUnowned(t: Turn, id: Id) {
    id in Ids(t.cands) && id.0 in t.l.claims && !(t.l.claims[id.0].session.None? && Owned(t.l.claims[id.0]))
  }

  /** Turn `k` saw the orphan, and no turn since lost it or saw an owner. */
  ghost predicate OrphanFrom(turns: seq<Turn>, id: Id, k: nat) {
    k < |turns| && SawOrphan(turns[k], id) && forall i :: k <= i < |turns| ==> SawUnowned(turns[i], id)
  }

  lemma OrphanFromLast(turns: seq<Turn>, id: Id)
    requires turns != [] && SawOrphan(turns[|turns| - 1], id)
    ensures OrphanFrom(turns, id, |turns| - 1)
  {
  }

  lemma EntryOf(turns: seq<Turn>, id: Id)
    requires Valid(turns)
    ensures turns == [] ==> SeenIn(Mem(turns).looks, id) == UNSEEN
    ensures turns != [] ==>
      var t := turns[|turns| - 1];
      if id in Ids(t.cands) then
        Valid(turns[..|turns| - 1]) && id.0 in t.l.claims &&
        SeenIn(Mem(turns).looks, id) == NextSeen(t.l, t.l.claims[id.0], SeenIn(Mem(turns[..|turns| - 1]).looks, id))
      else SeenIn(Mem(turns).looks, id) == UNSEEN
  {
    if turns != [] && id in Ids(turns[|turns| - 1].cands) {
      IdHasClaim(turns[|turns| - 1].l, turns[|turns| - 1].cands, id);
    }
  }

  lemma OrphanFromGrows(front: seq<Turn>, t: Turn, id: Id, k: nat)
    requires OrphanFrom(front, id, k) && SawUnowned(t, id)
    ensures OrphanFrom(front + [t], id, k) && (front + [t])[k] == front[k]
  {
    var turns := front + [t];
    forall i | k <= i < |turns| ensures SawUnowned(turns[i], id) {
      assert turns[i] == if i < |front| then front[i] else t;
    }
  }

  /** The stretch of turns that saw it so began at turn `k`. */
  ghost predicate OrphanStart(turns: seq<Turn>, id: Id, k: nat) {
    OrphanFrom(turns, id, k) && forall j :: 0 <= j < k ==> !OrphanFrom(turns, id, j)
  }

  lemma OrphanBefore(front: seq<Turn>, t: Turn, id: Id, k: nat)
    requires OrphanFrom(front + [t], id, k) && k < |front|
    ensures OrphanFrom(front, id, k)
  {
    hide SawUnowned;
    hide SawOrphan;
    var turns := front + [t];
    assert turns[k] == front[k];
    forall i | k <= i < |front| ensures SawUnowned(front[i], id) {
      assert turns[i] == front[i];
    }
  }

  /** While it lasts, the orphan's clock runs. */
  lemma {:induction false} OrphanClockRuns(turns: seq<Turn>, id: Id, k: nat)
    requires Valid(turns) && OrphanFrom(turns, id, k)
    ensures SeenIn(Mem(turns).looks, id).orphanSince.Some?
    decreases |turns|
  {
    hide Mem;
    hide SeenIn;
    hide Ids;
    hide Valid;
    EntryOf(turns, id);
    var front, t := turns[..|turns| - 1], turns[|turns| - 1];
    assert turns == front + [t] && SawUnowned(t, id);
    if k < |front| {
      OrphanBefore(front, t, id, k);
      OrphanClockRuns(front, id, k);
    }
  }

  /** And it began when the stretch did. */
  lemma {:induction false} OrphanClockStarts(turns: seq<Turn>, id: Id) returns (k: nat)
    requires Valid(turns) && SeenIn(Mem(turns).looks, id).orphanSince.Some?
    ensures OrphanStart(turns, id, k) && turns[k].l.now == SeenIn(Mem(turns).looks, id).orphanSince.value
    decreases |turns|
  {
    hide Mem;
    hide SeenIn;
    hide Ids;
    hide Valid;
    hide Owned;
    hide OrphanFrom;
    EntryOf(turns, id);
    var front, t := turns[..|turns| - 1], turns[|turns| - 1];
    assert turns == front + [t] && SawUnowned(t, id);
    hide SawUnowned;
    if SeenIn(Mem(front).looks, id).orphanSince.Some? {
      k := OrphanClockStarts(front, id);
      OrphanIn(front, id, k);
      OrphanFromGrows(front, t, id, k);
      forall j | 0 <= j < k && OrphanFrom(turns, id, j) ensures false {
        OrphanBefore(front, t, id, j);
      }
    } else {
      k := |front|;
      assert SawOrphan(t, id);
      OrphanFromLast(turns, id);
      forall j | 0 <= j < k && OrphanFrom(turns, id, j) ensures false {
        OrphanBefore(front, t, id, j);
        OrphanClockRuns(front, id, j);
      }
    }
  }

  lemma OrphanIn(turns: seq<Turn>, id: Id, k: nat)
    requires OrphanFrom(turns, id, k)
    ensures k < |turns|
  {
  }

  /** An orphan that ends has been seen so by every look of at least its grace, no pause forcing it. */
  lemma OrphanEndsLate(before: seq<Turn>, t: Turn, c: Candidate) returns (k: nat)
    requires Valid(before + [t]) && c in t.cands && c.claim.session.None? && !t.l.pauseEnds
    requires c in Choose(t.l, t.cands, Mem(before))
    ensures OrphanFrom(before + [t], IdOf(c), k) && t.l.now - (before + [t])[k].l.now >= ORPHAN_GRACE
    ensures k < |before|
  {
    var turns, id := before + [t], IdOf(c);
    ValidBefore(before, t);
    ChosenIff(before, t, c);
    IdHasClaim(t.l, t.cands, id);
    assert SawOrphan(t, id);
    k := OrphanClockStarts(before, id);
    OrphanFromGrows(before, t, id, k);
  }

  /** That stretch began at least `ms` before the last turn. */
  ghost predicate OrphanFor(turns: seq<Turn>, id: Id, ms: int)
    requires turns != []
  {
    exists k: nat :: OrphanStart(turns, id, k) && turns[|turns| - 1].l.now - turns[k].l.now >= ms
  }

  /**
   * When an orphan ends, in terms of the looks alone: this look and the one before saw the same process; this one sees
   * no starter, remote lease or live sandbox of it; the stretch of looks since it was first seen so, none of them
   * losing it or seeing an owner, began at least ten minutes ago; a server is idle, the portal has welcomed the daemon,
   * the start time is known, and no kill failed within the hour.
   */
  ghost predicate OrphanMayEnd(before: seq<Turn>, t: Turn, c: Candidate) {
    var turns, id := before + [t], IdOf(c);
    && before != [] && id in Ids(before[|before| - 1].cands) && id.0 in before[|before| - 1].l.claims
    && !c.claim.starter && !c.claim.leased && !c.claim.sandboxLive
    && OrphanFor(turns, id, 10 * 60_000)
    && !AtWork(before, c.claim, id)
    && t.l.ready && c.claim.born
    && !(id in Mem(before).stuck && t.l.now - Mem(before).stuck[id] < STUCK_RETRY)
  }

  lemma OrphanDoom(l: Look, stopped: map<string, int>, stuck: map<Id, int>, c: Candidate, seen: Seen)
    requires c.claim.session.None? && !l.pauseEnds
    ensures Doomed(l, stopped, stuck, c, seen) <==>
            && seen.n >= 1 && !c.claim.starter && !c.claim.leased && !c.claim.sandboxLive
            && (var since := NextSeen(l, c.claim, seen).orphanSince; since.Some? && l.now - since.value >= 10 * 60_000)
            && !Busy(c.claim, seen) && l.ready && c.claim.born
            && !(IdOf(c) in stuck && l.now - stuck[IdOf(c)] < STUCK_RETRY)
  {
  }

  lemma OneStart(turns: seq<Turn>, id: Id, j: nat, k: nat)
    requires OrphanStart(turns, id, j) && OrphanStart(turns, id, k)
    ensures j == k
  {
    hide OrphanFrom;
  }

  /** The orphan's clock after this look, by the looks. */
  lemma OrphanSinceIff(turns: seq<Turn>, id: Id, ms: int)
    requires Valid(turns) && turns != []
    ensures var since := SeenIn(Mem(turns).looks, id).orphanSince;
            since.Some? && turns[|turns| - 1].l.now - since.value >= ms <==> OrphanFor(turns, id, ms)
  {
    hide Mem;
    hide SeenIn;
    hide Valid;
    hide OrphanFrom;
    var since := SeenIn(Mem(turns).looks, id).orphanSince;
    if since.Some? {
      var j := OrphanClockStarts(turns, id);
      forall k: nat | OrphanStart(turns, id, k) ensures k == j { OneStart(turns, id, j, k); }
    } else if exists k: nat :: OrphanStart(turns, id, k) {
      var k: nat :| OrphanStart(turns, id, k);
      OrphanClockRuns(turns, id, k);
    }
  }

  /** That is exactly when the reaper ends an orphan, no pause forcing it. */
  lemma OrphanEndsIff(before: seq<Turn>, t: Turn, c: Candidate)
    requires Valid(before + [t]) && c in t.cands && c.claim.session.None? && !t.l.pauseEnds
    ensures c in Choose(t.l, t.cands, Mem(before)) <==> OrphanMayEnd(before, t, c)
  {
    hide Doomed;
    hide Choose;
    hide NextSeen;
    hide OrphanFor;
    hide AtWork;
    var id, m, turns := IdOf(c), Mem(before), before + [t];
    var seen, clocks := SeenIn(m.looks, id), Clocks(t.l, m.stopped, Sessions(t.cands));
    ValidBefore(before, t);
    ChosenIff(before, t, c);
    CountIsStreak(before, id);
    IdHasClaim(t.l, t.cands, id);
    assert turns[..|turns| - 1] == before && turns[|turns| - 1] == t;
    EntryOf(turns, id);
    assert id in Ids(t.cands) && t.l.claims[id.0] == c.claim;
    OrphanDoom(t.l, clocks, m.stuck, c, seen);
    OrphanSinceIff(turns, id, 10 * 60_000);
    assert seen.n >= 1 <==> before != [] && id in Ids(before[|before| - 1].cands);
    if before != [] && id in Ids(before[|before| - 1].cands) {
      CpuIsLast(before, id);
      hide Mem;
      hide Ids;
      hide Sessions;
      AtWorkIs(before, c.claim, id, seen);
    }
  }

  lemma AtWorkIs(turns: seq<Turn>, k: Claim, id: Id, seen: Seen)
    requires turns != [] && id.0 in turns[|turns| - 1].l.claims && seen.cpu == turns[|turns| - 1].l.claims[id.0].cpu
    ensures AtWork(turns, k, id) <==> Busy(k, seen)
  {
  }

  // What SIGKILL did not end.

  /** A kill that failed at turn `k` is remembered while every look sees the process. */
  lemma {:induction false} StuckIsKept(turns: seq<Turn>, k: nat, id: Id)
    requires k < |turns| && id in turns[k].stuck
    requires forall i :: k < i < |turns| ==> id in Ids(turns[i].cands) && id !in turns[i].stuck
    ensures id in Mem(turns).stuck && Mem(turns).stuck[id] == turns[k].stuck[id]
  {
    if k < |turns| - 1 {
      var front := turns[..|turns| - 1];
      assert forall i :: 0 <= i < |front| ==> turns[i] == front[i];
      StuckIsKept(front, k, id);
    }
  }

  /** Such a process is left alone for an hour. */
  lemma StuckIsLeftAlone(before: seq<Turn>, t: Turn, c: Candidate, k: nat)
    requires k < |before| && IdOf(c) in before[k].stuck && c in t.cands
    requires forall i :: k < i < |before| ==> IdOf(c) in Ids(before[i].cands) && IdOf(c) !in before[i].stuck
    requires c in Choose(t.l, t.cands, Mem(before))
    ensures t.l.now - before[k].stuck[IdOf(c)] >= STUCK_RETRY
  {
    ChosenIff(before, t, c);
    StuckIsKept(before, k, IdOf(c));
  }
}
