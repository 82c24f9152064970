/**
 * Runs of the watch over agent hosts (machine/hostWatch.ts), process by process and folder by folder: whether the look
 * before a kill saw the very process killed, and what every removal of a folder rests on.
 */
module HostWatchRuns {
  import opened Prelude
  import opened HostWatching

  ghost predicate Extends(log: seq<Act>, more: seq<Act>) {
    |log| <= |more| && forall i :: 0 <= i < |log| ==> more[i] == log[i]
  }

  // ------------------------------------------------------------------ which processes a look probes

  /** At entry `j` a folder's visit finds its session unfollowed or not, and goes on to probe a process. */
  predicate Probe(log: seq<Act>, j: nat) { j + 1 < |log| && log[j].Followed? && log[j + 1].Alive? }

  /** A visit begins with its question, and its one probe after such a question is of the process its record names. */
  ghost predicate ProbesOwn(log: seq<Act>, more: seq<Act>, h: Folder) {
    && Extends(log, more) && |log| < |more| && more[|log|].Followed?
    && forall j :: |log| <= j && Probe(more, j) ==>
      j == |log| && more[j].session == h.session && h.record.Some? && more[j + 1].pid == h.record.value.pid
  }

  lemma NoProbes(log: seq<Act>, asked: seq<Act>, more: seq<Act>, h: Folder)
    requires ProbesOwn(log, asked, h) && Extends(asked, more) &&
      (asked[|asked| - 1].Followed? ==> |asked| == |more| || !more[|asked|].Alive?)
    requires forall i :: |asked| <= i < |more| ==> !more[i].Followed?
    ensures ProbesOwn(log, more, h)
  {
    forall j | |log| <= j && Probe(more, j)
      ensures j == |log| && more[j].session == h.session && h.record.Some? && more[j + 1].pid == h.record.value.pid
    {
      assert Probe(asked, j);
    }
  }

  lemma SweepNoProbes(o: Oracle, log: seq<Act>, asked: seq<Act>, h: Folder)
    requires ProbesOwn(log, asked, h)
    ensures ProbesOwn(log, Sweep(o, asked, h), h)
  {
    hide ProbesOwn;
    NoProbesIf(log, asked, h);
    NoProbes(log, asked, Sweep(o, asked, h), h);
  }

  lemma NoProbesIf(log: seq<Act>, asked: seq<Act>, h: Folder)
    requires ProbesOwn(log, asked, h)
    ensures asked != []
  {
  }

  lemma OrphanProbes(o: Oracle, log: seq<Act>, told: seq<Act>, seen: map<string, nat>, h: Folder, r: HostRecord)
    requires ProbesOwn(log, told, h) && told[|told| - 1].Started?
    ensures ProbesOwn(log, VisitOrphan(o, told, seen, h, r).log, h)
  {
    hide StopOrphan;
    var yes := o.followed(|told|);
    var asked := told + [Followed(h.session, yes)];
    assert ProbesOwn(log, asked, h) by {
      forall j | |log| <= j && Probe(asked, j)
        ensures j == |log| && asked[j].session == h.session && h.record.Some? && asked[j + 1].pid == h.record.value.pid
      {
        assert Probe(told, j);
      }
    }
    hide ProbesOwn;
    var tried := FailedStopKeepsFolder(o, asked, h, r);
    StopBegins(o, asked, h, r);
    NoProbes(log, asked, StopOrphan(o, asked, h, r).log, h);
  }

  lemma StopBegins(o: Oracle, log: seq<Act>, h: Folder, r: HostRecord)
    ensures var stop := StopOrphan(o, log, h, r);
            && Extends(log, stop.log) && |log| < |stop.log| && stop.log[|log|] == Lingers(h.session, true)
            && forall i :: |log| <= i < |stop.log| ==> !stop.log[i].Followed?
  {
    hide EndTree;
    hide Justified;
    EndTreeShows(o, log + [Lingers(h.session, true)], r.pid, r.started, 0);
  }

  lemma VisitProbes(o: Oracle, protocol: int, log: seq<Act>, seen: map<string, nat>, h: Folder)
    ensures ProbesOwn(log, VisitFolder(o, protocol, log, seen, h).log, h)
  {
    hide VisitOrphan;
    hide Sweep;
    hide Identify;
    var yes := o.followed(|log|);
    var asked := log + [Followed(h.session, yes)];
    assert ProbesOwn(log, asked, h);
    SweepNoProbes(o, log, asked, h);
    if h.record.Some? {
      var r := h.record.value;
      var alive := o.alive(|asked|);
      var probed := asked + [Alive(r.pid, alive)];
      assert ProbesOwn(log, probed, h);
      hide ProbesOwn;
      SweepNoProbes(o, log, probed, h);
      IdentifyShows(o, probed, r.pid, r.started);
      var who := Identify(o, probed, r.pid, r.started);
      NoProbes(log, probed, who.log, h);
      SweepNoProbes(o, log, who.log, h);
      if who.value == Same {
        OrphanProbes(o, log, who.log, seen, h, r);
      }
    }
  }

  ghost predicate ProbeOf(hs: seq<Folder>, log: seq<Act>, j: nat, g: Folder)
    requires Probe(log, j)
  {
    g in hs && g.session == log[j].session && g.record.Some? && g.record.value.pid == log[j + 1].pid
  }

  /** Every probe of a look is of a process that a folder of the listing names, and each session has one at most. */
  ghost predicate LookProbes(log: seq<Act>, hs: seq<Folder>, more: seq<Act>) {
    && Extends(log, more)
    && (forall j :: |log| <= j && Probe(more, j) ==> exists g :: ProbeOf(hs, more, j, g))
    && (forall j, k :: |log| <= j < k && Probe(more, j) && Probe(more, k) ==> more[j].session != more[k].session)
  }

  lemma VisitKeepsProbes(log: seq<Act>, hs: seq<Folder>, more: seq<Act>, h: Folder, all: seq<Act>)
    requires LookProbes(log, hs, more) && ProbesOwn(more, all, h) && !HasFolder(hs, h.session)
    ensures LookProbes(log, hs + [h], all)
  {
    assert h in hs + [h];
    forall j | |log| <= j && Probe(all, j)
      ensures exists g :: ProbeOf(hs + [h], all, j, g)
      ensures j < |more| ==> j + 1 < |more| && Probe(more, j) && all[j].session != h.session
    {
      if j < |more| {
        assert Probe(more, j);
        var g :| ProbeOf(hs, more, j, g);
        assert g in hs && ProbeOf(hs + [h], all, j, g);
      } else {
        assert ProbeOf(hs + [h], all, j, h);
      }
    }
  }

  lemma {:induction false} LookProbesOwn(o: Oracle, protocol: int, log: seq<Act>, seen: map<string, nat>,
                                         hs: seq<Folder>)
    requires OnePerSession(hs)
    ensures LookProbes(log, hs, VisitAll(o, protocol, log, seen, hs).log)
  {
    if hs != [] {
      var front, h := hs[..|hs| - 1], hs[|hs| - 1];
      var r := VisitAll(o, protocol, log, seen, front);
      assert OnePerSession(front) && !HasFolder(front, h.session);
      hide *;
      LookProbesOwn(o, protocol, log, seen, front);
      VisitProbes(o, protocol, r.log, r.seen, h);
      assert hs == front + [h];
      VisitKeepsProbes(log, front, r.log, h, VisitFolder(o, protocol, r.log, r.seen, h).log);
      VisitsGrow(o, protocol, log, seen, front, h);
    }
  }

  // ------------------------------------------------------------------ the process killed, at the look before

  function LogAfter(o: Oracle, protocol: int, looks: seq<seq<Folder>>): seq<Act> { After(o, protocol, looks).log }

  /** A look whose entries begin at `from` probed this very process for this session. */
  ghost predicate Probed(log: seq<Act>, from: nat, session: string, pid: int) {
    exists k :: from <= k && Probe(log, k) && log[k].session == session && log[k + 1].pid == pid
  }

  /** It saw the folder `h` an orphan's: its process alive, and started when `h` says its host was. */
  ghost predicate SawHost(log: seq<Act>, from: nat, h: Folder) {
    exists k :: from <= k && Saw(log, k, h)
  }

  /** It saw so by a record that names the same process and the same start. */
  ghost predicate SawRecorded(hs: seq<Folder>, log: seq<Act>, from: nat, h: Folder) {
    exists f :: f in hs && SameProcess(f, h) && SawHost(log, from, f)
  }

  ghost predicate SameProcess(f: Folder, h: Folder) {
    && f.session == h.session && f.record.Some? && h.record.Some?
    && f.record.value.pid == h.record.value.pid && f.record.value.started == h.record.value.started
  }

  /**
   * Of a kill at a look: the folder `h` it is for, and that session's folder `g` at the look before, seen as an
   * orphan's at entry `j`. The look before probed the process killed exactly when both records name one pid, saw it as
   * `h`'s host exactly when the start it read then fits `h`'s record too, and saw it by the same record exactly when
   * both name one pid and start.
   */
  lemma SawTheProcessIff(o: Oracle, protocol: int, looks: seq<seq<Folder>>, i: nat)
    returns (h: Folder, g: Folder, j: nat)
    requires Listings(looks) && looks != []
    requires |LogAfter(o, protocol, looks[..|looks| - 1])| <= i < |LogAfter(o, protocol, looks)|
    requires LogAfter(o, protocol, looks)[i].Killed?
    ensures |looks| > 1 && h in looks[|looks| - 1] && g in looks[|looks| - 2] && g.session == h.session
    ensures h.record.Some? && LogAfter(o, protocol, looks)[i] == Killed(h.record.value.pid, h.record.value.started)
    ensures var log, from := LogAfter(o, protocol, looks[..|looks| - 1]), |LogAfter(o, protocol, looks[..|looks| - 2])|;
            && from <= j && Saw(log, j, g)
            && (Probed(log, from, h.session, h.record.value.pid) <==> g.record.value.pid == h.record.value.pid)
            && (SawHost(log, from, h) <==>
                  g.record.value.pid == h.record.value.pid && SameHost(h.record.value.started, log[j + 3].start.ms))
            && (SawRecorded(looks[|looks| - 2], log, from, h) <==> SameProcess(g, h))
  {
    hide After;
    h := TwoLooksBeforeAKill(o, protocol, looks, i);
    var front := looks[..|looks| - 1];
    var hs := front[|front| - 1];
    assert front[..|front| - 1] == looks[..|looks| - 2] && hs == looks[|looks| - 2] && Listings(front);
    OrphanWasSeen(o, protocol, front, h.session);
    var log, was := LogAfter(o, protocol, front), LogAfter(o, protocol, looks[..|looks| - 2]);
    g, j :| g in hs && g.session == h.session && |was| <= j && Saw(log, j, g);
    LastLookProbes(o, protocol, front);
    SawIsProbe(log, j, g);
    TheOneProbe(was, hs, log, j, g, h);
  }

  lemma SawIsProbe(log: seq<Act>, j: nat, g: Folder)
    requires Saw(log, j, g)
    ensures Probe(log, j) && log[j].session == g.session && log[j + 1].pid == g.record.value.pid
  {
  }

  lemma LastLookProbes(o: Oracle, protocol: int, looks: seq<seq<Folder>>)
    requires Listings(looks) && looks != []
    ensures LookProbes(LogAfter(o, protocol, looks[..|looks| - 1]), looks[|looks| - 1], LogAfter(o, protocol, looks))
  {
    var before := After(o, protocol, looks[..|looks| - 1]);
    hide LookProbes;
    hide VisitAll;
    LookProbesOwn(o, protocol, before.log, before.seen, looks[|looks| - 1]);
  }

  lemma TheOneProbe(was: seq<Act>, hs: seq<Folder>, log: seq<Act>, j: nat, g: Folder, h: Folder)
    requires LookProbes(was, hs, log) && OnePerSession(hs) && g in hs && g.session == h.session && h.record.Some?
    requires |was| <= j && Saw(log, j, g) && Probe(log, j) && log[j].session == g.session &&
      log[j + 1].pid == g.record.value.pid
    ensures Probed(log, |was|, h.session, h.record.value.pid) <==> g.record.value.pid == h.record.value.pid
    ensures SawHost(log, |was|, h) <==>
            g.record.value.pid == h.record.value.pid && SameHost(h.record.value.started, log[j + 3].start.ms)
    ensures SawRecorded(hs, log, |was|, h) <==> SameProcess(g, h)
  {
    if Probed(log, |was|, h.session, h.record.value.pid) {
      var k :| |was| <= k && Probe(log, k) && log[k].session == h.session && log[k + 1].pid == h.record.value.pid;
      assert k == j;
    }
    if SawHost(log, |was|, h) {
      var k :| |was| <= k && Saw(log, k, h);
      SawIsProbe(log, k, h);
      assert k == j;
    }
    if g.record.value.pid == h.record.value.pid && SameHost(h.record.value.started, log[j + 3].start.ms) {
      assert Saw(log, j, h);
    }
    if SawRecorded(hs, log, |was|, h) {
      var f :| f in hs && SameProcess(f, h) && SawHost(log, |was|, f);
      assert f == g;
    }
  }

  /** The record of session "s", naming process `pid`. */
  function Names(protocol: int, pid: int): Folder { Folder("s", Some(HostRecord(protocol, pid, Some(0)))) }

  /** A machine on which nobody follows, every process started when recorded, and none lives past the 13th question. */
  function Unfollowed(): Oracle { Oracle(n => n < 13, _ => At(0), _ => false, _ => None, _ => 0) }

  /** A run that kills a process no earlier look probed: between two looks the session's record has come to name it. */
  lemma KillsAProcessNotSeen(protocol: int)
    ensures var one := LogAfter(Unfollowed(), protocol, [[Names(protocol, 1)]]);
            var two := LogAfter(Unfollowed(), protocol, [[Names(protocol, 1)], [Names(protocol, 2)]]);
            && |two| > 12 && two[12] == Killed(2, Some(0))
            && |one| == 4 && forall k :: 0 <= k < |one| ==> one[k] == two[k] && (one[k].Alive? ==> one[k].pid != 2)
  {
    var o, one, two := Unfollowed(), Names(protocol, 1), Names(protocol, 2);
    var log1 := [Followed("s", false), Alive(1, true), Alive(1, true), Started(1, At(0))];
    assert VisitFolder(o, protocol, [], map[], one) == Visit(log1, map["s" := 1], true);
    assert VisitAll(o, protocol, [], map[], []) == Looked([], map[], {});
    OneVisit(o, protocol, [], map[], one);
    OneLook(o, protocol, [], [one]);
    assert After(o, protocol, [[one]]).log == log1;
    assert After(o, protocol, [[one]]).seen == map["s" := 1];
    var log2 := log1 + [Followed("s", false), Alive(2, true), Alive(2, true), Started(2, At(0)), Followed("s", false)];
    OneVisit(o, protocol, log1, map["s" := 1], two);
    OneLook(o, protocol, [[one]], [two]);
    assert Identify(o, log1 + [Followed("s", false)] + [Alive(2, true)], 2, Some(0)) ==
           Told(Same, log1 + [Followed("s", false)] + [Alive(2, true)] + [Alive(2, true)] + [Started(2, At(0))]);
    assert log1 + [Followed("s", false)] + [Alive(2, true)] + [Alive(2, true)] + [Started(2, At(0))] +
      [Followed("s", false)] == log2;
    assert VisitFolder(o, protocol, log1, map["s" := 1], two).log == StopOrphan(o, log2, two, two.record.value).log;
    var begun := log2 + [Lingers("s", true)];
    assert Tries(o, begun, 2, Some(0), 3) == Told(Same, begun + [Alive(2, true)] + [Started(2, At(0))]);
    var killed := begun + [Alive(2, true)] + [Started(2, At(0))] + [Killed(2, Some(0))];
    assert WaitGone(o, killed, 2, 0, KILL_WAIT) == Told(true, killed + [Alive(2, false)]);
    assert EndTree(o, begun, 2, Some(0), 0).log == killed + [Alive(2, false)];
    assert killed[12] == Killed(2, Some(0));
    assert [[one], [two]] == [[one]] + [[two]] && [[one]] == [] + [[one]];
  }

  lemma OneVisit(o: Oracle, protocol: int, log: seq<Act>, seen: map<string, nat>, h: Folder)
    ensures var v := VisitFolder(o, protocol, log, seen, h);
            VisitAll(o, protocol, log, seen, [h]) == Looked(v.log, v.seen, if v.orphan then {h.session} else {})
  {
    hide VisitFolder;
    VisitsGrow(o, protocol, log, seen, [], h);
    assert [] + [h] == [h];
    assert {} + {h.session} == {h.session};
  }

  lemma OneLook(o: Oracle, protocol: int, looks: seq<seq<Folder>>, hs: seq<Folder>)
    ensures var before := After(o, protocol, looks);
            After(o, protocol, looks + [hs]) == Tick(o, protocol, before.log, before.seen, hs)
  {
    hide Tick;
    assert (looks + [hs])[..|looks|] == looks;
  }

  // ------------------------------------------------------------------ what a removal rests on

  /**
   * Nobody's folder at this point of the log: no process recorded, or the one recorded just shown gone or another
   * program's.
   */
  ghost predicate Nobodys(log: seq<Act>, h: Folder) {
    h.record.None? || h.record.value.pid == 0 || ShowsGone(log, h.record.value.pid, h.record.value.started)
  }

  /** From entry `n` on, right up to entry `i`: the folder has no file, or its last one is six hours old. */
  ghost predicate FoundOld(log: seq<Act>, n: nat, i: nat, session: string) {
    && n < i <= |log| && log[n].Wrote? && log[n].session == session
    && if log[n].at.None? then i == n + 1
       else i == n + 2 && log[n + 1].Clock? && log[n + 1].now - log[n].at.value >= SWEEP_AFTER
  }

  /**
   * Entry `i` removes the folder `h` for good reason: its process has just been shown gone or another program's after a
   * stop, or it is nobody's and old.
   */
  ghost predicate Rightly(log: seq<Act>, i: nat, h: Folder) {
    && i < |log| && log[i] == Removed(h.session)
    && (|| (h.record.Some? && ShowsGone(log[..i], h.record.value.pid, h.record.value.started))
        || (exists n :: 0 <= n < i && Nobodys(log[..n], h) && FoundOld(log, n, i, h.session)))
  }

  ghost predicate RemovesRightly(log: seq<Act>, more: seq<Act>, h: Folder) {
    Extends(log, more) && forall i :: |log| <= i < |more| && more[i].Removed? ==> Rightly(more, i, h)
  }

  lemma RightlyLater(log: seq<Act>, more: seq<Act>, i: nat, h: Folder)
    requires Rightly(log, i, h) && Extends(log, more)
    ensures Rightly(more, i, h)
  {
    assert more[..i] == log[..i];
    if !(h.record.Some? && ShowsGone(log[..i], h.record.value.pid, h.record.value.started)) {
      var n :| 0 <= n < i && Nobodys(log[..n], h) && FoundOld(log, n, i, h.session);
      assert more[..n] == log[..n] && FoundOld(more, n, i, h.session);
    }
  }

  lemma RemovesOn(a: seq<Act>, b: seq<Act>, c: seq<Act>, h: Folder)
    requires RemovesRightly(a, b, h) && RemovesRightly(b, c, h)
    ensures RemovesRightly(a, c, h)
  {
    hide Rightly;
    forall i | |a| <= i < |c| && c[i].Removed? ensures Rightly(c, i, h) {
      if i < |b| {
        RightlyLater(b, c, i, h);
      }
    }
  }

  lemma SweepRemoves(o: Oracle, log: seq<Act>, h: Folder)
    requires Nobodys(log, h)
    ensures RemovesRightly(log, Sweep(o, log, h), h)
  {
    var more := Sweep(o, log, h);
    assert more[..|log|] == log;
    forall i | |log| <= i < |more| && more[i].Removed? ensures Rightly(more, i, h) {
      assert FoundOld(more, |log|, i, h.session);
    }
  }

  lemma OrphanRemoves(o: Oracle, log: seq<Act>, seen: map<string, nat>, h: Folder, r: HostRecord)
    requires h.record == Some(r)
    ensures RemovesRightly(log, VisitOrphan(o, log, seen, h, r).log, h)
  {
    hide StopOrphan;
    var yes := o.followed(|log|);
    var asked := log + [Followed(h.session, yes)];
    var tried := FailedStopKeepsFolder(o, asked, h, r);
    hide Attempt;
    AttemptRemoves(asked, tried, h);
    assert RemovesRightly(log, asked, h) && RemovesRightly(log, log, h);
    var stop := StopOrphan(o, asked, h, r);
    assert stop.log[..|tried|] == tried;
    assert RemovesRightly(tried, stop.log, h);
    hide RemovesRightly;
    RemovesOn(log, asked, tried, h);
    RemovesOn(log, tried, stop.log, h);
  }

  lemma AttemptRemoves(log: seq<Act>, more: seq<Act>, h: Folder)
    requires h.record.Some? && Attempt(log, more, h.record.value.pid, h.record.value.started)
    ensures RemovesRightly(log, more, h)
  {
    hide Justified;
  }

  lemma VisitRemoves(o: Oracle, protocol: int, log: seq<Act>, seen: map<string, nat>, h: Folder)
    ensures RemovesRightly(log, VisitFolder(o, protocol, log, seen, h).log, h)
  {
    hide VisitOrphan;
    hide Sweep;
    hide Identify;
    var yes := o.followed(|log|);
    var asked := log + [Followed(h.session, yes)];
    assert RemovesRightly(log, asked, h);
    if h.record.Some? && h.record.value.pid != 0 {
      var r := h.record.value;
      var alive := o.alive(|asked|);
      var probed := asked + [Alive(r.pid, alive)];
      IdentifyShows(o, probed, r.pid, r.started);
      var who := Identify(o, probed, r.pid, r.started);
      assert RemovesRightly(log, probed, h) && RemovesRightly(log, who.log, h);
      hide RemovesRightly;
      if !alive {
        SweepRemoves(o, probed, h);
        RemovesOn(log, probed, Sweep(o, probed, h), h);
      } else if who.value == Same {
        OrphanRemoves(o, who.log, seen, h, r);
        RemovesOn(log, who.log, VisitOrphan(o, who.log, seen, h, r).log, h);
      } else if who.value != Unknown {
        SweepRemoves(o, who.log, h);
        RemovesOn(log, who.log, Sweep(o, who.log, h), h);
      }
    } else {
      hide RemovesRightly;
      SweepRemoves(o, asked, h);
      RemovesOn(log, asked, Sweep(o, asked, h), h);
    }
  }

  ghost predicate RemovedRightly(hs: seq<Folder>, log: seq<Act>, i: nat) {
    exists h :: h in hs && Rightly(log, i, h)
  }

  lemma {:induction false} LookRemoves(o: Oracle, protocol: int, log: seq<Act>, seen: map<string, nat>, hs: seq<Folder>)
    ensures var more := VisitAll(o, protocol, log, seen, hs).log;
            Extends(log, more) && forall i :: |log| <= i < |more| && more[i].Removed? ==> RemovedRightly(hs, more, i)
  {
    hide VisitFolder;
    hide Rightly;
    if hs != [] {
      var front, h := hs[..|hs| - 1], hs[|hs| - 1];
      var r := VisitAll(o, protocol, log, seen, front);
      LookRemoves(o, protocol, log, seen, front);
      VisitRemoves(o, protocol, r.log, r.seen, h);
      var more := VisitFolder(o, protocol, r.log, r.seen, h).log;
      forall i | |log| <= i < |more| && more[i].Removed? ensures RemovedRightly(hs, more, i) {
        if i < |r.log| {
          assert RemovedRightly(front, r.log, i);
          var g :| g in front && Rightly(r.log, i, g);
          RightlyLater(r.log, more, i, g);
          assert g in hs;
        } else {
          assert h in hs && Rightly(more, i, h);
        }
      }
    }
  }

  /**
   * Over every run: a folder is removed only as a look's listing shows it, and right after its process was shown gone
   * or another program's by a stop, or, when nobody's or its process is shown so, right after it was found old.
   */
  lemma {:induction false} EveryRemovalShown(o: Oracle, protocol: int, looks: seq<seq<Folder>>, i: nat)
    returns (k: nat, h: Folder)
    requires i < |LogAfter(o, protocol, looks)| && LogAfter(o, protocol, looks)[i].Removed?
    ensures k < |looks| && h in looks[k] && Rightly(LogAfter(o, protocol, looks), i, h)
    decreases |looks|
  {
    hide Rightly;
    hide VisitAll;
    var front := looks[..|looks| - 1];
    var before := After(o, protocol, front);
    LookRemoves(o, protocol, before.log, before.seen, looks[|looks| - 1]);
    if i < |before.log| {
      k, h := EveryRemovalShown(o, protocol, front, i);
      RightlyLater(before.log, LogAfter(o, protocol, looks), i, h);
    } else {
      k := |looks| - 1;
      assert RemovedRightly(looks[k], LogAfter(o, protocol, looks), i);
      h :| h in looks[k] && Rightly(LogAfter(o, protocol, looks), i, h);
    }
  }

  // ------------------------------------------------------------------ identification, by the two times

  /**
   * What an alive process with a known start time is: the recorded host exactly when the record can be read and the
   * process started at most 90 s before its time and at most 5 s after, another program otherwise.
   */
  lemma IdentifiedByTimes(o: Oracle, log: seq<Act>, pid: int, record: Option<int>)
    requires o.alive(|log|) && o.started(|log| + 1).At?
    ensures var ms := o.started(|log| + 1).ms;
            var near := record.Some? && record.value - 90_000 <= ms && ms <= record.value + 5_000;
            Identify(o, log, pid, record) ==
            Told(if near then Same else Other, log + [Alive(pid, true)] + [Started(pid, At(ms))])
  {
  }

  /**
   * And what any other is: gone when it does not run, told so or found so, and unknown when its start cannot be told.
   */
  lemma IdentifiedWithout(o: Oracle, log: seq<Act>, pid: int, record: Option<int>)
    requires !(o.alive(|log|) && o.started(|log| + 1).At?)
    ensures Identify(o, log, pid, record).value ==
            if !o.alive(|log|) || (o.started(|log| + 1).NoProcess? && !o.alive(|log| + 2)) then Gone else Unknown
  {
  }

  /**
   * In every run each kill of a process directly follows a probe that finds it alive and a start-time answer within 90
   * s before and 5 s after the time of a record that can be read.
   */
  lemma EveryKillTimely(o: Oracle, protocol: int, looks: seq<seq<Folder>>, i: nat)
    requires Listings(looks) && i < |LogAfter(o, protocol, looks)| && LogAfter(o, protocol, looks)[i].Killed?
    ensures var log := LogAfter(o, protocol, looks);
            var k := log[i];
            && i >= 2 && log[i - 2] == Alive(k.pid, true) && log[i - 1].Started? && log[i - 1].pid == k.pid
            && k.record.Some? && log[i - 1].start.At?
            && k.record.value - 90_000 <= log[i - 1].start.ms && log[i - 1].start.ms <= k.record.value + 5_000
  {
    hide After;
    EveryKillJustified(o, protocol, looks);
    assert JustIdentified(LogAfter(o, protocol, looks), i);
  }
}
