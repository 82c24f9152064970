/**
 * What the watch over agent hosts (`machine/hostWatch.ts`) does when it should: which folders it takes for an orphan's,
 * that the second look in a row tries to end the host, and exactly when a stop counts as done and a folder goes.
 */
module HostWatchDue {
  import opened Prelude
  import opened HostWatching
  import opened HostWatchRuns

  /** A wait that ends well ends with the process not running, any other with it running. */
  lemma {:induction false} WaitEnds(o: Oracle, log: seq<Act>, pid: int, waited: nat, ms: nat)
    ensures var r := WaitGone(o, log, pid, waited, ms);
            r.log != [] && r.log[|r.log| - 1] == Alive(pid, !r.value)
    decreases if waited < ms then ms - waited else 0
  {
    var yes := o.alive(|log|);
    if yes && waited < ms {
      WaitEnds(o, log + [Alive(pid, yes)] + [Slept], pid, waited + STEP, ms);
    }
  }

  lemma {:induction false} UnknownEnds(o: Oracle, log: seq<Act>, pid: int, record: Option<int>, tries: nat)
    requires tries > 0
    ensures var r := Tries(o, log, pid, record, tries);
            r.value == Unknown ==> r.log != [] && r.log[|r.log| - 1] == Slept
    decreases tries
  {
    hide Identify;
    var who := Identify(o, log, pid, record);
    if tries > 1 && who.value == Unknown {
      UnknownEnds(o, who.log + [Slept], pid, record, tries - 1);
    }
  }

  /** A tree counts as stopped exactly when the attempt's last answers show the pid not running or another program's. */
  lemma StoppedIff(o: Oracle, log: seq<Act>, pid: int, record: Option<int>, waitExit: nat)
    ensures var r := EndTree(o, log, pid, record, waitExit);
            r.value <==> ShowsGone(r.log, pid, record)
  {
    hide WaitGone;
    hide Tries;
    hide SameHost;
    hide Quiet;
    var left := if waitExit > 0 then WaitGone(o, log, pid, 0, waitExit) else Told(false, log);
    if waitExit > 0 {
      WaitEnds(o, log, pid, 0, waitExit);
    }
    if !left.value {
      var who := Tries(o, left.log, pid, record, 3);
      UnknownEnds(o, left.log, pid, record, 3);
      TriesShow(o, left.log, pid, record, 3);
      WaitEnds(o, who.log + [Killed(pid, record)], pid, 0, KILL_WAIT);
    }
  }

  /** The entries the log has gained. */
  function New(log: seq<Act>, more: seq<Act>): seq<Act> { if |log| <= |more| then more[|log|..] else [] }

  /** A folder nobody's host runs in goes exactly when it has no file, or its last one is six hours old. */
  lemma SweptIff(o: Oracle, log: seq<Act>, h: Folder)
    ensures Removed(h.session) in New(log, Sweep(o, log, h)) <==>
            o.wrote(|log|).None? || o.now(|log| + 1) - o.wrote(|log|).value >= 21_600_000
  {
    var at, now := o.wrote(|log|), o.now(|log| + 1);
    assert |log + [Wrote(h.session, at)]| == |log| + 1;
    if at.None? {
      assert New(log, Sweep(o, log, h)) == [Wrote(h.session, at), Removed(h.session)];
    } else if now - at.value < SWEEP_AFTER {
      assert New(log, Sweep(o, log, h)) == [Wrote(h.session, at), Clock(now)];
    } else {
      assert New(log, Sweep(o, log, h)) == [Wrote(h.session, at), Clock(now), Removed(h.session)];
    }
  }

  /**
   * A folder is an orphan's exactly when nobody follows its session, its record is of this protocol and names a
   * process, and that is alive twice and started at most 90 s before the record's time and at most 5 s after.
   */
  lemma OrphanIff(o: Oracle, protocol: int, log: seq<Act>, seen: map<string, nat>, h: Folder)
    ensures VisitFolder(o, protocol, log, seen, h).orphan <==>
            && !o.followed(|log|) && h.record.Some? && h.record.value.protocol == protocol && h.record.value.pid != 0
            && o.alive(|log| + 1) && o.alive(|log| + 2) && o.started(|log| + 3).At? && h.record.value.started.Some?
            && var ms := o.started(|log| + 3).ms;
               h.record.value.started.value - 90_000 <= ms && ms <= h.record.value.started.value + 5_000
  {
    hide Sweep;
    hide StopOrphan;
  }

  lemma StopTold(o: Oracle, log: seq<Act>, h: Folder, r: HostRecord)
    ensures var stop := StopOrphan(o, log, h, r);
            && |log| < |stop.log| && stop.log[|log|] == Lingers(h.session, true)
            && (Removed(h.session) in New(log, stop.log) <==> stop.value)
            && forall i :: 0 <= i < |log| ==> stop.log[i] == log[i]
  {
    var tried := FailedStopKeepsFolder(o, log, h, r);
    StopBegins(o, log, h, r);
    var stop := StopOrphan(o, log, h, r);
    hide StopOrphan;
    if stop.value {
      assert stop.log[|tried|] == Removed(h.session);
    }
  }

  /**
   * An orphan's turn. The host is tried when the session was counted before and still nobody follows it. A stop forgets
   * the count when it removes the folder; otherwise the turn counts one more, and the next look tries again.
   */
  lemma OrphanTurn(o: Oracle, protocol: int, log: seq<Act>, seen: map<string, nat>, h: Folder)
    requires VisitFolder(o, protocol, log, seen, h).orphan
    ensures var v := VisitFolder(o, protocol, log, seen, h);
            var n := Count(seen, h.session);
            && (Lingers(h.session, true) in New(log, v.log) <==> n >= 1 && !o.followed(|log| + 4))
            && v.seen == if Removed(h.session) in New(log, v.log) then seen - {h.session} else seen[h.session := n + 1]
  {
    var r := h.record.value;
    OrphanIff(o, protocol, log, seen, h);
    var told := AskedOrphan(o, protocol, log, seen, h);
    hide *;
    OrphanTurnFrom(o, told, seen, h, r);
    var v := VisitOrphan(o, told, seen, h, r);
    NewSplit(log, told, v.log);
    NewIs(log, told);
  }

  /** What an orphan's turn has asked when it comes to the counts. */
  lemma AskedOrphan(o: Oracle, protocol: int, log: seq<Act>, seen: map<string, nat>, h: Folder) returns (told: seq<Act>)
    requires VisitFolder(o, protocol, log, seen, h).orphan
    ensures h.record.Some? && Extends(log, told) && |told| == |log| + 4
    ensures forall i :: |log| <= i < |told| ==> !told[i].Lingers? && !told[i].Removed?
    ensures VisitFolder(o, protocol, log, seen, h) == VisitOrphan(o, told, seen, h, h.record.value)
  {
    hide Sweep;
    hide StopOrphan;
    var r := h.record.value;
    told := Identify(o, log + [Followed(h.session, false)] + [Alive(r.pid, true)], r.pid, r.started).log;
  }

  lemma NewIs(log: seq<Act>, more: seq<Act>)
    requires |log| <= |more|
    ensures New(log, more) == more[|log|..]
  {
  }

  lemma NewSplit(log: seq<Act>, mid: seq<Act>, more: seq<Act>)
    requires Extends(log, mid) && Extends(mid, more)
    ensures New(log, more) == New(log, mid) + New(mid, more)
  {
  }

  lemma OrphanTurnFrom(o: Oracle, log: seq<Act>, seen: map<string, nat>, h: Folder, r: HostRecord)
    ensures var v := VisitOrphan(o, log, seen, h, r);
            var n := Count(seen, h.session);
            && Extends(log, v.log)
            && (Lingers(h.session, true) in New(log, v.log) <==> n >= 1 && !o.followed(|log|))
            && v.seen == if Removed(h.session) in New(log, v.log) then seen - {h.session} else seen[h.session := n + 1]
  {
    var again := log + [Followed(h.session, false)];
    StopTold(o, again, h, r);
    hide StopOrphan;
    var v := VisitOrphan(o, log, seen, h, r);
    if Count(seen, h.session) >= 1 && !o.followed(|log|) {
      assert New(log, v.log) == [Followed(h.session, false)] + New(again, v.log);
      assert New(again, v.log)[0] == Lingers(h.session, true);
      assert seen[h.session := Count(seen, h.session) + 1] - {h.session} == seen - {h.session};
    }
  }

  // ------------------------------------------------------------------ over the looks

  lemma {:induction false} OthersKept(
    o: Oracle, protocol: int, log: seq<Act>, seen: map<string, nat>, hs: seq<Folder>, s: string)
    requires !HasFolder(hs, s)
    ensures var r := VisitAll(o, protocol, log, seen, hs);
            Count(r.seen, s) == Count(seen, s) && (s in r.seen <==> s in seen)
  {
    if hs != [] {
      var front, h := hs[..|hs| - 1], hs[|hs| - 1];
      assert h in hs && forall g :: g in front ==> g in hs;
      OthersKept(o, protocol, log, seen, front, s);
      var before := VisitAll(o, protocol, log, seen, front);
      OneKept(o, protocol, before.log, before.seen, h, s);
      hide VisitFolder;
    }
  }

  lemma OneKept(o: Oracle, protocol: int, log: seq<Act>, seen: map<string, nat>, h: Folder, s: string)
    requires s != h.session
    ensures var v := VisitFolder(o, protocol, log, seen, h);
            Count(v.seen, s) == Count(seen, s) && (s in v.seen <==> s in seen)
  {
    hide Sweep;
    hide StopOrphan;
    hide Identify;
  }

  /** Counts are of sessions seen, at least once. */
  ghost predicate Positive(seen: map<string, nat>) { forall s :: s in seen ==> seen[s] >= 1 }

  lemma OnePositive(o: Oracle, protocol: int, log: seq<Act>, seen: map<string, nat>, h: Folder)
    requires Positive(seen)
    ensures Positive(VisitFolder(o, protocol, log, seen, h).seen)
  {
    hide Sweep;
    hide StopOrphan;
    hide Identify;
  }

  lemma {:induction false} CountsPositive(o: Oracle, protocol: int, log: seq<Act>, seen: map<string, nat>,
                                          hs: seq<Folder>)
    requires Positive(seen)
    ensures Positive(VisitAll(o, protocol, log, seen, hs).seen)
  {
    if hs != [] {
      var before := VisitAll(o, protocol, log, seen, hs[..|hs| - 1]);
      CountsPositive(o, protocol, log, seen, hs[..|hs| - 1]);
      OnePositive(o, protocol, before.log, before.seen, hs[|hs| - 1]);
      hide VisitFolder;
    }
  }

  lemma {:induction false} RunCounts(o: Oracle, protocol: int, looks: seq<seq<Folder>>)
    ensures Positive(After(o, protocol, looks).seen)
  {
    if looks != [] {
      var front := looks[..|looks| - 1];
      RunCounts(o, protocol, front);
      var was := After(o, protocol, front);
      CountsPositive(o, protocol, was.log, was.seen, looks[|looks| - 1]);
      hide VisitAll;
    }
  }

  /**
   * Over every run: at a folder's turn in the next look, a session the run's last look saw as an orphan's, and did not
   * stop, is tried exactly when this look sees an orphan's too and is told again that nobody follows it.
   */
  lemma SecondLookTries(o: Oracle, protocol: int, looks: seq<seq<Folder>>, hs: seq<Folder>, k: nat)
    requires OnePerSession(hs) && k < |hs|
    ensures var was := After(o, protocol, looks);
            var turn := VisitAll(o, protocol, was.log, was.seen, hs[..k]);
            var v := VisitFolder(o, protocol, turn.log, turn.seen, hs[k]);
            v.orphan ==>
              (Lingers(hs[k].session, true) in New(turn.log, v.log) <==>
               hs[k].session in was.seen && !o.followed(|turn.log| + 4))
  {
    var was := After(o, protocol, looks);
    RunCounts(o, protocol, looks);
    assert !HasFolder(hs[..k], hs[k].session);
    OthersKept(o, protocol, was.log, was.seen, hs[..k], hs[k].session);
    var turn := VisitAll(o, protocol, was.log, was.seen, hs[..k]);
    if VisitFolder(o, protocol, turn.log, turn.seen, hs[k]).orphan {
      OrphanTurn(o, protocol, turn.log, turn.seen, hs[k]);
    }
    hide VisitFolder;
    hide VisitAll;
    hide After;
  }
}
