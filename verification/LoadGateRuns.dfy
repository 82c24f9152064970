/**
 * Runs of the load gate (machine/loadRunners.ts): no listener suspended twice, none left suspended, and its windows
 * kept full.
 */
module LoadGateRuns {
  import opened Prelude
  import opened RunnerWorld
  import opened BenchRunners
  import opened RunnerRuns
  import opened LoadGate

  // ------------------------------------------------------------------ no listener is suspended twice

  ghost predicate Once(w: World) { forall l :: l in w.ls ==> l.stops <= 1 }

  ghost predicate GoodOnce(w: World, suspended: seq<Paused>, hs: seq<Halted>, told: bool) {
    Good(w, suspended, hs, told) && Once(w)
  }

  lemma OnceStill(w: World, v: World)
    requires Once(w) && Still(w, v)
    ensures Once(v)
  {
    forall l | l in v.ls && l.stops > 0 ensures l.stops <= 1 {
      var i :| 0 <= i < |w.ls| && Was(w.ls[i], l);
      assert w.ls[i] in w.ls;
    }
  }

  lemma MeanwhileOnce(m: Moment, sc: Script, suspended: seq<Paused>, hs: seq<Halted>, told: bool)
    requires GoodOnce(m.w, suspended, hs, told)
    ensures GoodOnce(Meanwhile(m, sc).w, suspended, hs, told) && Still(m.w, Meanwhile(m, sc).w) &&
      Homes(m.w, Meanwhile(m, sc).w)
  {
    hide Meanwhile;
    MeanwhileGood(m, sc, suspended, hs, told);
    OnceStill(m.w, Meanwhile(m, sc).w);
  }

  /** Where nothing is suspended more than once, suspending and resuming are stopping and continuing. */
  lemma ResumeIs(w: World, pid: Pid)
    requires Once(w)
    ensures Resume(w, pid) == SetStops(w, pid, 0)
    ensures Once(Resume(w, pid))
  {
    hide Resume;
    hide SetStops;
    var v := Resume(w, pid);
    forall i | 0 <= i < |w.ls| ensures v.ls[i] == SetStops(w, pid, 0).ls[i] && v.ls[i].stops <= 1 {
      assert w.ls[i] in w.ls;
    }
    assert v.ls == SetStops(w, pid, 0).ls;
  }

  lemma SuspendIs(w: World, pid: Pid)
    requires Once(w) && forall l :: l in w.ls && l.pid == pid ==> l.stops == 0
    ensures Suspend(w, pid) == SetStops(w, pid, 1)
    ensures Once(Suspend(w, pid))
  {
    hide Suspend;
    hide SetStops;
    var v := Suspend(w, pid);
    forall i | 0 <= i < |w.ls| ensures v.ls[i] == SetStops(w, pid, 1).ls[i] && v.ls[i].stops <= 1 {
      assert w.ls[i] in w.ls;
    }
    assert v.ls == SetStops(w, pid, 1).ls;
  }

  lemma NotSuspended(w: World, kept: seq<Paused>, hs: seq<Halted>, pid: Pid, told: bool)
    requires Accounted(w, kept, hs, told) && !PidIn(kept, pid) && forall i :: 0 <= i < |hs| ==> hs[i].pid != pid
    ensures forall l :: l in w.ls && l.pid == pid ==> l.stops == 0
  {
    forall l | l in w.ls && Recorded(kept, l) ensures PidIn(kept, l.pid) {
      var i :| 0 <= i < |kept| && kept[i] == Paused(l.pid, l.root);
      assert kept[i].pid == l.pid;
    }
  }

  lemma SuspendOneGood(m: Moment, l: Listener, c: seq<Listener>, kept: seq<Paused>, g: Settings, sc: Script,
                       hs: seq<Halted>, told: bool)
    requires GoodOnce(m.w, kept, hs, told) && l.pid in m.w.home && m.w.home[l.pid] == l.root
    requires forall i :: 0 <= i < |hs| ==> hs[i].pid != l.pid
    ensures var (m', h) := SuspendOne(m, l, c, kept, g, sc); GoodOnce(m'.w, kept, hs + h, told) && Homes(m.w, m'.w)
  {
    hide Meanwhile;
    hide Suspend;
    hide SetStops;
    hide Once;
    hide LogOf;
    assert hs + [] == hs;
    if !(PidIn(kept, l.pid) || Busy(l, None) || HasWorker(c, l.root, None) || !g.gated(l.root)) {
      var m1 := Meanwhile(m, sc);
      MeanwhileOnce(m, sc, kept, hs, told);
      var log := LogOf(m1.w, l.root);
      if !HoldsJob(log, sc.now(m1.c)) {
        MeanwhileOnce(m1, sc, kept, hs, told);
        var v := Meanwhile(m1, sc).w;
        NotSuspended(v, kept, hs, l.pid, told);
        SuspendIs(v, l.pid);
        StopGood(v, kept, hs, Halted(l.pid, l.root, log), told);
      }
    }
  }

  /** The same for the record in the file, which may hold more than those kept. */
  lemma SuspendOneFile(m: Moment, l: Listener, c: seq<Listener>, kept: seq<Paused>, g: Settings, sc: Script,
                       hs: seq<Halted>, rec: seq<Paused>, told: bool)
    requires GoodOnce(m.w, kept, hs, told) && Good(m.w, rec, hs, told) && l.pid in m.w.home && m.w.home[l.pid] == l.root
    requires forall i :: 0 <= i < |hs| ==> hs[i].pid != l.pid
    ensures var (m', h) := SuspendOne(m, l, c, kept, g, sc); Good(m'.w, rec, hs + h, told)
  {
    hide Meanwhile;
    hide Suspend;
    hide SetStops;
    hide Once;
    hide LogOf;
    assert hs + [] == hs;
    if !(PidIn(kept, l.pid) || Busy(l, None) || HasWorker(c, l.root, None) || !g.gated(l.root)) {
      var m1 := Meanwhile(m, sc);
      MeanwhileOnce(m, sc, kept, hs, told);
      MeanwhileGood(m, sc, rec, hs, told);
      var log := LogOf(m1.w, l.root);
      if !HoldsJob(log, sc.now(m1.c)) {
        MeanwhileOnce(m1, sc, kept, hs, told);
        MeanwhileGood(m1, sc, rec, hs, told);
        var v := Meanwhile(m1, sc).w;
        NotSuspended(v, kept, hs, l.pid, told);
        SuspendIs(v, l.pid);
        StopGood(v, rec, hs, Halted(l.pid, l.root, log), told);
      }
    }
  }

  ghost predicate Listed(ls: seq<Listener>, pid: Pid) {
    exists j :: 0 <= j < |ls| && ls[j].pid == pid
  }

  /** Only listed listeners are suspended. */
  ghost predicate From(hs: seq<Halted>, ls: seq<Listener>) {
    forall i :: 0 <= i < |hs| ==> Listed(ls, hs[i].pid)
  }

  lemma FromOne(hs: seq<Halted>, h: seq<Halted>, ls: seq<Listener>)
    requires ls != [] && From(hs, ls[..|ls| - 1]) && |h| <= 1 && (h != [] ==> h[0].pid == ls[|ls| - 1].pid)
    ensures From(hs + h, ls)
  {
    forall i | 0 <= i < |hs + h| ensures Listed(ls, (hs + h)[i].pid) {
      if i < |hs| {
        var j :| 0 <= j < |ls| - 1 && ls[..|ls| - 1][j].pid == hs[i].pid;
        assert ls[j].pid == (hs + h)[i].pid;
      } else {
        assert ls[|ls| - 1].pid == (hs + h)[i].pid;
      }
    }
  }

  lemma {:induction false} SuspendAllGood(m: Moment, ls: seq<Listener>, c: seq<Listener>, kept: seq<Paused>,
                                          g: Settings, sc: Script,
                                          rec: seq<Paused>, told: bool)
    requires GoodOnce(m.w, kept, [], told) && Good(m.w, rec, [], told) && Distinct(ls)
    requires forall i :: 0 <= i < |ls| ==> ls[i].pid in m.w.home && m.w.home[ls[i].pid] == ls[i].root
    ensures var (m', hs) := SuspendAll(m, ls, c, kept, g, sc);
            GoodOnce(m'.w, kept, hs, told) && Good(m'.w, rec, hs, told) && Homes(m.w, m'.w) && From(hs, ls)
    decreases |ls|
  {
    hide SuspendOne;
    hide GoodOnce;
    hide Good;
    if ls != [] {
      var front, l := ls[..|ls| - 1], ls[|ls| - 1];
      SuspendAllGood(m, front, c, kept, g, sc, rec, told);
      var (m1, hs) := SuspendAll(m, front, c, kept, g, sc);
      NotYet(hs, ls);
      SuspendOneGood(m1, l, c, kept, g, sc, hs, told);
      SuspendOneFile(m1, l, c, kept, g, sc, hs, rec, told);
      SuspendsItself(m1, l, c, kept, g, sc);
      FromOne(hs, SuspendOne(m1, l, c, kept, g, sc).1, ls);
    }
  }

  lemma NotYet(hs: seq<Halted>, ls: seq<Listener>)
    requires ls != [] && Distinct(ls) && From(hs, ls[..|ls| - 1])
    ensures forall i :: 0 <= i < |hs| ==> hs[i].pid != ls[|ls| - 1].pid
  {
    forall i | 0 <= i < |hs| ensures hs[i].pid != ls[|ls| - 1].pid {
      var j :| 0 <= j < |ls| - 1 && ls[..|ls| - 1][j].pid == hs[i].pid;
      assert ls[j].pid != ls[|ls| - 1].pid;
    }
  }

  lemma SuspendsItself(m: Moment, l: Listener, c: seq<Listener>, kept: seq<Paused>, g: Settings, sc: Script)
    ensures var h := SuspendOne(m, l, c, kept, g, sc).1; |h| <= 1 && (h != [] ==> h[0].pid == l.pid)
  {
  }

  /** No worker is a timed run's own here. */
  function Nobody(id: nat): bool { false }

  /**
   * A listener suspended since before the second listing, with no worker there, idle by its log, and told, has no job.
   */
  lemma SecondLook(w2: World, w: World, l: Listener)
    requires Distinct(w2.ls) && Still(w2, w) && l in w.ls && l.stops > 0 && ToldOf(w, l.pid, Nobody)
    requires Find(w2.ls, l.pid).Some? ==> !Busy(Find(w2.ls, l.pid).value, None)
    requires LogOf(w, l.root).state == IsIdle
    ensures !l.job
  {
    hide LastMark;
    var i :| 0 <= i < |w2.ls| && Was(w2.ls[i], l);
    FindsIt(w2.ls, i);
    var j :| 0 <= j < |w.ls| && w.ls[j] == l;
    assert Unseen(w.ls[j], Nobody) == l.job;
  }

  /** For the daemon's record as for the file's: both are of a machine where nobody is suspended more than once. */
  lemma RecheckOneGood(m: Moment, h: Halted, w2: World, sc: Script, rec: seq<Paused>, hs: seq<Halted>, told: bool)
    requires Distinct(w2.ls) && Still(w2, m.w) && GoodOnce(m.w, rec, [h] + hs, told)
    requires told ==> ToldOf(Meanwhile(m, sc).w, h.pid, Nobody)
    ensures var (m', p) := RecheckOne(m, h, w2.ls, sc); GoodOnce(m'.w, rec + p, hs, told) && Still(w2, m'.w)
  {
    hide Meanwhile;
    hide Resume;
    hide SetStops;
    hide Once;
    hide ToldOf;
    hide LogOf;
    hide HasWorker;
    var m1 := Meanwhile(m, sc);
    MeanwhileOnce(m, sc, rec, [h] + hs, told);
    StillThen(w2, m.w, m1.w);
    AtHomeRest(m1.w, h, hs);
    var (m', p) := RecheckOne(m, h, w2.ls, sc);
    if p == [] {
      assert rec + p == rec;
      ResumeIs(m1.w, h.pid);
      ContinueGood(m1.w, rec, h, hs, told);
      StillContinued(w2, m1.w, h.pid);
    } else {
      forall l | l in m1.w.ls && l.stops > 0 ensures (Recorded(rec + p, l) && (told ==> !l.job)) || Held(hs, l) {
        if !(Recorded(rec, l) && (told ==> !l.job)) && !Held(hs, l) {
          HeldFirst(h, hs, l);
          if told {
            SecondLook(w2, m1.w, l);
          }
        }
      }
    }
  }

  /** Each listener of the second look is told when its log is read again. */
  ghost predicate ToldRecheck(m: Moment, hs: seq<Halted>, again: seq<Listener>, sc: Script) {
    forall k :: 0 <= k < |hs| ==> ToldOf(Meanwhile(RecheckAll(m, hs[..k], again, sc).0, sc).w, hs[k].pid, Nobody)
  }

  lemma {:induction false} RecheckAllGood(m: Moment, hs: seq<Halted>, k: nat, w2: World, sc: Script, rec: seq<Paused>,
                                          told: bool)
    requires k <= |hs| && Distinct(w2.ls) && Still(w2, m.w) && GoodOnce(m.w, rec, hs, told)
    requires told ==> ToldRecheck(m, hs, w2.ls, sc)
    ensures var (m', ps) := RecheckAll(m, hs[..k], w2.ls, sc);
            GoodOnce(m'.w, rec + ps, hs[k..], told) && Still(w2, m'.w)
  {
    hide RecheckOne;
    hide GoodOnce;
    hide ToldOf;
    hide Meanwhile;
    if k == 0 {
      assert rec + [] == rec && hs[0..] == hs && hs[..0] == [];
    } else {
      RecheckAllGood(m, hs, k - 1, w2, sc, rec, told);
      assert hs[..k][..k - 1] == hs[..k - 1] && hs[k - 1..] == [hs[k - 1]] + hs[k..];
      var (m1, ps) := RecheckAll(m, hs[..k - 1], w2.ls, sc);
      RecheckOneGood(m1, hs[k - 1], w2, sc, rec + ps, hs[k..], told);
      var (_, p) := RecheckOne(m1, hs[k - 1], w2.ls, sc);
      assert rec + ps + p == rec + (ps + p);
    }
  }

  lemma {:induction false} KeepSameKeeps(suspended: seq<Paused>, ls: seq<Listener>, i: nat)
    requires Distinct(ls) && i < |ls| && Paused(ls[i].pid, ls[i].root) in suspended
    ensures Paused(ls[i].pid, ls[i].root) in KeepSame(suspended, ls)
    decreases |suspended|
  {
    FindsIt(ls, i);
    if Paused(ls[i].pid, ls[i].root) != suspended[|suspended| - 1] {
      KeepSameKeeps(suspended[..|suspended| - 1], ls, i);
    }
  }

  lemma KeepSameGood(w: World, suspended: seq<Paused>, told: bool)
    requires GoodOnce(w, suspended, [], told)
    ensures GoodOnce(w, KeepSame(suspended, w.ls), [], told)
  {
    hide KeepSame;
    forall l | l in w.ls && l.stops > 0 ensures Recorded(KeepSame(suspended, w.ls), l) && (told ==> !l.job) {
      assert !Held([], l);
      var i :| 0 <= i < |w.ls| && w.ls[i] == l;
      KeepSameKeeps(suspended, w.ls, i);
    }
  }

  /** The second looks of a closed tick, if it comes to them, find each listener told. */
  ghost predicate ToldTick(suspended: seq<Paused>, w: World, g: Settings, sc: Script) {
    var f := GateLook(suspended, w, g, sc);
    ToldRecheck(Meanwhile(f.m, sc), f.hs, Meanwhile(f.m, sc).w.ls, sc)
  }

  /**
   * A closed tick that has suspended someone and then cannot list the processes: they stay suspended, and unrecorded.
   */
  predicate Loses(suspended: seq<Paused>, w: World, g: Settings, sc: Script) {
    !sc.fails && sc.failsAgain && GateLook(suspended, w, g, sc).hs != []
  }

  lemma FirstLookGood(suspended: seq<Paused>, w: World, g: Settings, sc: Script, rec: seq<Paused>, told: bool)
    requires GoodOnce(w, suspended, [], told) && Good(w, rec, [], told)
    ensures var f, m := GateLook(suspended, w, g, sc), Listing(w, sc);
            && GoodOnce(m.w, suspended, [], told) && Good(m.w, rec, [], told)
            && GoodOnce(f.m.w, f.kept, f.hs, told) && GoodOnce(f.m.w, rec, f.hs, told)
            && GoodOnce(Meanwhile(f.m, sc).w, f.kept, f.hs, told) && GoodOnce(Meanwhile(f.m, sc).w, rec, f.hs, told)
  {
    hide Meanwhile;
    hide KeepSame;
    hide SuspendAll;
    MeanwhileOnce(Start(w), sc, suspended, [], told);
    MeanwhileGood(Start(w), sc, rec, [], told);
    var m := Listing(w, sc);
    KeepSameGood(m.w, suspended, told);
    SuspendAllGood(m, m.w.ls, m.w.ls, KeepSame(suspended, m.w.ls), g, sc, rec, told);
    var f := GateLook(suspended, w, g, sc);
    MeanwhileOnce(f.m, sc, f.kept, f.hs, told);
    MeanwhileOnce(f.m, sc, rec, f.hs, told);
  }

  lemma SecondLooksGood(suspended: seq<Paused>, w: World, g: Settings, sc: Script, rec: seq<Paused>, told: bool)
    requires var f := GateLook(suspended, w, g, sc); GoodOnce(Meanwhile(f.m, sc).w, rec, f.hs, told)
    requires told ==> ToldTick(suspended, w, g, sc)
    ensures var (m, ps) := GateRecheck(suspended, w, g, sc); GoodOnce(m.w, rec + ps, [], told)
  {
    hide GateLook;
    hide RecheckAll;
    hide Meanwhile;
    hide ToldRecheck;
    var f := GateLook(suspended, w, g, sc);
    var m := Meanwhile(f.m, sc);
    assert Distinct(m.w.ls);
    hide GoodOnce;
    StillSame(m.w, m.w);
    RecheckAllGood(m, f.hs, |f.hs|, m.w, sc, rec, told);
    assert f.hs[..|f.hs|] == f.hs && f.hs[|f.hs|..] == [];
  }

  /** Suspended listeners are so once, and recorded by the daemon and in its file. */
  ghost predicate BothOnce(b: Ledger, w: World, told: bool) {
    GoodOnce(w, b.st.suspended, [], told) && GoodOnce(w, b.file.suspended, [], told)
  }

  /**
   * A tick with the gate closed that loses nobody: whoever is suspended is so once, is recorded by the daemon and in
   * its file, and has no job if those looked at again are told.
   */
  lemma SuspendIdleGood(b: Ledger, w: World, g: Settings, sc: Script, told: bool)
    requires BothOnce(b, w, told) && !Loses(b.st.suspended, w, g, sc)
    requires told && !sc.fails ==> ToldTick(b.st.suspended, w, g, sc)
    ensures var (b', m) := SuspendIdle(b, w, g, sc); BothOnce(b', m.w, told) && b'.st.closed == b.st.closed
    ensures var (b', m) := SuspendIdle(b, w, g, sc); b'.file == b.file || b'.file == b'.st
  {
    hide GateLook;
    hide GateRecheck;
    hide HappenAll;
    hide ToldTick;
    hide Good;
    hide Once;
    var f := GateLook(b.st.suspended, w, g, sc);
    FirstLookGood(b.st.suspended, w, g, sc, b.file.suspended, told);
    MeanwhileOnce(Start(w), sc, b.file.suspended, [], told);
    if !sc.fails {
      if f.hs == [] {
        assert f.kept + [] == f.kept;
      } else {
        SecondLooksGood(b.st.suspended, w, g, sc, f.kept, told);
        SecondLooksGood(b.st.suspended, w, g, sc, b.file.suspended, told);
        var ps := GateRecheck(b.st.suspended, w, g, sc).1;
        assert ps == [] ==> b.file.suspended + ps == b.file.suspended;
      }
    }
  }

  lemma {:induction false} HaltedNotKept(m: Moment, ls: seq<Listener>, c: seq<Listener>, kept: seq<Paused>, g: Settings,
                                         sc: Script)
    ensures forall h :: h in SuspendAll(m, ls, c, kept, g, sc).1 ==> !PidIn(kept, h.pid)
    decreases |ls|
  {
    hide SuspendOne;
    if ls != [] {
      HaltedNotKept(m, ls[..|ls| - 1], c, kept, g, sc);
      OneNotKept(SuspendAll(m, ls[..|ls| - 1], c, kept, g, sc).0, ls[|ls| - 1], c, kept, g, sc);
    }
  }

  lemma OneNotKept(m: Moment, l: Listener, c: seq<Listener>, kept: seq<Paused>, g: Settings, sc: Script)
    ensures forall h :: h in SuspendOne(m, l, c, kept, g, sc).1 ==> !PidIn(kept, h.pid)
  {
    hide HappenAll;
    hide Suspend;
    hide LogOf;
    hide HasWorker;
  }

  /**
   * Exactly when a closed tick leaves everyone suspended in the daemon's record: unless it could not list the processes
   * again and one of those it had just suspended is still there.
   */
  lemma RecordedIff(b: Ledger, w: World, g: Settings, sc: Script)
    requires GoodOnce(w, b.st.suspended, [], false)
    ensures var (b', m) := SuspendIdle(b, w, g, sc);
            var hs := GateLook(b.st.suspended, w, g, sc).hs;
            Accounted(m.w, b'.st.suspended, [], false) <==>
            !(Loses(b.st.suspended, w, g, sc) && exists k :: 0 <= k < |hs| && Stands(m.w, hs[k].pid))
  {
    hide HappenAll;
    hide GateRecheck;
    hide SuspendAll;
    hide KeepSame;
    hide Once;
    var f := GateLook(b.st.suspended, w, g, sc);
    FirstLookGood(b.st.suspended, w, g, sc, b.st.suspended, false);
    var listed := Listing(w, sc);
    HaltedNotKept(listed, listed.w.ls, listed.w.ls, f.kept, g, sc);
    var (b', m) := SuspendIdle(b, w, g, sc);
    if Loses(b.st.suspended, w, g, sc) {
      LostIff(m.w, f.kept, f.hs);
    } else if !sc.fails {
      hide Good;
      if f.hs == [] {
        assert f.kept + [] == f.kept;
      } else {
        SecondLooksGood(b.st.suspended, w, g, sc, f.kept, false);
      }
      GoodAccounts(m.w, b'.st.suspended);
    }
  }

  lemma {:induction false} ResumeListRuns(m: Moment, suspended: seq<Paused>, k: nat, sc: Script)
    requires Real(m.w) && Once(m.w) && ToContinue(m.w, suspended, 0) && k <= |suspended|
    ensures var m' := ResumeList(m, suspended[..k], m.w.ls, sc);
            Real(m'.w) && Once(m'.w) && Still(m.w, m'.w) && ToContinue(m'.w, suspended, k)
  {
    hide SetStops;
    hide HappenAll;
    hide Resume;
    hide Once;
    if k == 0 {
      StillSame(m.w, m.w);
      assert suspended[..0] == [];
    } else {
      ResumeListRuns(m, suspended, k - 1, sc);
      assert suspended[..k][..k - 1] == suspended[..k - 1];
      var m1, p := ResumeList(m, suspended[..k - 1], m.w.ls, sc), suspended[k - 1];
      var l := Find(m.w.ls, p.pid);
      if l.Some? && l.value.root == p.root {
        var m2 := Meanwhile(m1, sc);
        HappenAllStill(m1.w, sc.env(m1.c));
        StillThen(m.w, m1.w, m2.w);
        OnceStill(m1.w, m2.w);
        ResumeIs(m2.w, p.pid);
        ToContinueStill(m1.w, m2.w, suspended, k - 1);
        SetStopsReal(m2.w, p.pid, 0);
        StillContinued(m.w, m2.w, p.pid);
        OneContinued(m2.w, suspended, k - 1);
      } else {
        NotListed(m.w, m1.w, suspended, k - 1);
      }
    }
  }

  /**
   * Once the gate opens, or there is no gate, and the processes can be listed, every listener in the record runs again.
   */
  lemma ResumeAllRuns(b: Ledger, w: World, sc: Script, told: bool)
    requires BothOnce(b, w, told)
    ensures var (b', m) := ResumeAll(b, w, sc);
            BothOnce(b', m.w, told) && (!sc.fails ==> AllRun(m.w) && b'.st.suspended == [])
  {
    hide Meanwhile;
    hide ResumeList;
    var m := Listing(w, sc);
    MeanwhileOnce(Start(w), sc, b.st.suspended, [], told);
    MeanwhileOnce(Start(w), sc, b.file.suspended, [], told);
    var all := b.st.suspended;
    assert all[0..] == all && all[..|all|] == all && all[|all|..] == [];
    forall l | l in m.w.ls && l.stops > 0 ensures Recorded(all, l) { assert !Held([], l); }
    ResumeListRuns(m, all, |all|, sc);
  }

  // ------------------------------------------------------------------ runs

  datatype Gated = Gated(b: Ledger, samples: seq<Sample>, w: World)

  datatype Event =
    | GateTicks(g: Option<Settings>, now: int, pct: real, sc: Script)
    | OnMachine(xs: seq<Env>)
    | NewDaemon

  function SamplesThen(s: Gated, g: Option<Settings>, now: int, pct: real): seq<Sample> {
    if g.None? then s.samples else Sampled(s.samples, g.value, now, pct)
  }

  predicate ClosedThen(s: Gated, g: Option<Settings>, now: int, pct: real) {
    if g.None? then s.b.st.closed else ClosedAfter(s.b.st.closed, SamplesThen(s, g, now, pct), g.value, now)
  }

  function Next(s: Gated, e: Event): Gated {
    match e
    case GateTicks(g, now, pct, sc) =>
      var (b, m) := Turn(s.b, s.w, g, ClosedThen(s, g, now, pct), sc);
      Gated(b, SamplesThen(s, g, now, pct), m.w)
    case OnMachine(xs) => s.(w := HappenAll(s.w, xs))
    case NewDaemon => s.(b := Ledger(s.b.file, s.b.file), samples := [])
  }

  function After(s: Gated, run: seq<Event>): Gated
    decreases |run|
  {
    if run == [] then s else Next(After(s, run[..|run| - 1]), run[|run| - 1])
  }

  ghost predicate Fresh(s: Gated) {
    s.b == Ledger(Gate(false, []), Gate(false, [])) && Real(s.w) && AllRun(s.w)
  }

  /** A closed tick that loses whom it suspended. */
  predicate LosesAt(s: Gated, e: Event) {
    e.GateTicks? && e.g.Some? && ClosedThen(s, e.g, e.now, e.pct) && Loses(s.b.st.suspended, s.w, e.g.value, e.sc)
  }

  /**
   * A tick that opens the gate and cannot list the processes: whom it should resume stays suspended, and the gate open.
   */
  predicate StrandsAt(s: Gated, e: Event) {
    && e.GateTicks? && e.g.Some? && s.b.st.closed && !ClosedThen(s, e.g, e.now, e.pct) && e.sc.fails
    && (s.b.st.suspended != [] || s.b.file.suspended != [])
  }

  ghost predicate LosesNone(s: Gated, run: seq<Event>) {
    forall i :: 0 <= i < |run| ==> !LosesAt(After(s, run[..i]), run[i])
  }

  ghost predicate StrandsNone(s: Gated, run: seq<Event>) {
    forall i :: 0 <= i < |run| ==> !StrandsAt(After(s, run[..i]), run[i])
  }

  ghost predicate ToldEvent(s: Gated, e: Event) {
    e.GateTicks? && e.g.Some? && ClosedThen(s, e.g, e.now, e.pct) && !e.sc.fails ==>
      ToldTick(s.b.st.suspended, s.w, e.g.value, e.sc)
  }

  lemma MovedOnce(b: Ledger, w: World, closed: bool, told: bool)
    requires BothOnce(b, w, told)
    ensures BothOnce(Moved(b, closed), w, told) && Moved(b, closed).st == b.st.(closed := closed)
  {
  }

  lemma TurnKeeps(b: Ledger, w: World, g: Option<Settings>, closed: bool, sc: Script, told: bool)
    requires BothOnce(b, w, told)
    requires g.Some? && closed ==> !Loses(b.st.suspended, w, g.value, sc)
    requires told && g.Some? && closed && !sc.fails ==> ToldTick(b.st.suspended, w, g.value, sc)
    ensures var (b', m) := Turn(b, w, g, closed, sc); BothOnce(b', m.w, told)
  {
    hide ResumeAll;
    hide SuspendIdle;
    hide Moved;
    hide GoodOnce;
    hide ToldTick;
    hide Loses;
    MovedOnce(b, w, true, told);
    MovedOnce(b, w, false, told);
    if g.None? {
      if b.st.suspended != [] { ResumeAllRuns(b, w, sc, told); }
    } else if b.st.closed && !closed {
      ResumeAllRuns(Moved(b, false), w, sc, told);
    } else if closed {
      SuspendIdleGood(Moved(b, true), w, g.value, sc, told);
    }
  }

  lemma NextKeeps(s: Gated, e: Event, told: bool)
    requires BothOnce(s.b, s.w, told) && !LosesAt(s, e) && (told ==> ToldEvent(s, e))
    ensures BothOnce(Next(s, e).b, Next(s, e).w, told)
  {
    hide GoodOnce;
    hide HappenAll;
    hide Turn;
    hide Sampled;
    hide ClosedAfter;
    hide ToldTick;
    hide Loses;
    match e
    case GateTicks(g, now, pct, sc) => TurnKeeps(s.b, s.w, g, ClosedThen(s, g, now, pct), sc, told);
    case OnMachine(xs) =>
      HappensOnce(s.w, xs, s.b.st.suspended, told);
      HappensOnce(s.w, xs, s.b.file.suspended, told);
    case NewDaemon =>
  }

  lemma HappensOnce(w: World, xs: seq<Env>, suspended: seq<Paused>, told: bool)
    requires GoodOnce(w, suspended, [], told)
    ensures GoodOnce(HappenAll(w, xs), suspended, [], told)
  {
    hide HappenAll;
    HappenAllStill(w, xs);
    AccountedStill(w, HappenAll(w, xs), suspended, [], told);
    OnceStill(w, HappenAll(w, xs));
  }

  lemma FreshOnce(s: Gated, told: bool)
    requires Fresh(s)
    ensures BothOnce(s.b, s.w, told)
  {
    forall l | l in s.w.ls ensures l.stops == 0 {}
  }

  lemma {:induction false} RunKeeps(s: Gated, run: seq<Event>)
    requires Fresh(s) && LosesNone(s, run)
    ensures BothOnce(After(s, run).b, After(s, run).w, false)
    decreases |run|
  {
    hide Next;
    hide LosesAt;
    if run == [] {
      FreshOnce(s, false);
    } else {
      var front := run[..|run| - 1];
      assert forall i :: 0 <= i <= |front| ==> front[..i] == run[..i];
      RunKeeps(s, front);
      NextKeeps(After(s, front), run[|run| - 1], false);
    }
  }

  /**
   * Over every run of ticks, restarts and the machine in which no tick loses whom it suspended: no listener is ever
   * suspended twice, and one that is suspended is recorded in the daemon and in its file.
   */
  lemma SuspendedOnce(s: Gated, run: seq<Event>)
    requires Fresh(s) && LosesNone(s, run)
    ensures var t := After(s, run);
            && (forall l :: l in t.w.ls ==> l.stops <= 1)
            && (forall l :: l in t.w.ls && l.stops > 0 ==>
              Recorded(t.b.st.suspended, l) && Recorded(t.b.file.suspended, l))
  {
    hide After;
    RunKeeps(s, run);
    var t := After(s, run);
    forall l | l in t.w.ls && l.stops > 0
      ensures Recorded(t.b.st.suspended, l) && Recorded(t.b.file.suspended, l) { assert !Held([], l); }
  }

  /** Daemon and file agree whether the gate is closed, and an open one has nobody in its record. */
  ghost predicate OpenIsEmpty(b: Ledger) {
    b.file.closed == b.st.closed && (!b.st.closed ==> b.st.suspended == [] && b.file.suspended == [])
  }

  lemma NextOpen(s: Gated, e: Event)
    requires OpenIsEmpty(s.b) && !StrandsAt(s, e)
    ensures OpenIsEmpty(Next(s, e).b)
    ensures e.GateTicks? && e.g.Some? ==> Next(s, e).b.st.closed == ClosedThen(s, e.g, e.now, e.pct)
  {
    hide HappenAll;
    hide ResumeList;
    hide GateLook;
    hide GateRecheck;
    hide Sampled;
    hide ClosedAfter;
  }

  lemma {:induction false} RunKeepsOpen(s: Gated, run: seq<Event>)
    requires Fresh(s) && StrandsNone(s, run)
    ensures OpenIsEmpty(After(s, run).b)
    decreases |run|
  {
    hide Next;
    hide StrandsAt;
    if run != [] {
      var front := run[..|run| - 1];
      assert forall i :: 0 <= i <= |front| ==> front[..i] == run[..i];
      RunKeepsOpen(s, front);
      NextOpen(After(s, front), run[|run| - 1]);
    }
  }

  /**
   * A tick that leaves the gate open, or finds none set and can list the processes, leaves nobody suspended: after
   * every run in which no tick loses or strands whom it suspended.
   */
  lemma OpenGateSuspendsNone(s: Gated, run: seq<Event>, e: Event)
    requires Fresh(s) && LosesNone(s, run) && StrandsNone(s, run) && !StrandsAt(After(s, run), e) && e.GateTicks?
    ensures var t := Next(After(s, run), e);
            (e.g.None? && !e.sc.fails) || (e.g.Some? && !t.b.st.closed) ==> AllRun(t.w) && t.b.st.suspended == []
  {
    hide After;
    hide StrandsAt;
    RunKeeps(s, run);
    RunKeepsOpen(s, run);
    var u := After(s, run);
    NextOpen(u, e);
    if (e.g.None? && !e.sc.fails) || (e.g.Some? && !Next(u, e).b.st.closed) {
      OpenRuns(u, e);
    }
  }

  lemma OpenRuns(s: Gated, e: Event)
    requires BothOnce(s.b, s.w, false) && OpenIsEmpty(s.b) && e.GateTicks? && !StrandsAt(s, e)
    requires (e.g.None? && !e.sc.fails) || (e.g.Some? && !ClosedThen(s, e.g, e.now, e.pct))
    ensures AllRun(Next(s, e).w) && Next(s, e).b.st.suspended == []
  {
    hide ResumeAll;
    hide SuspendIdle;
    hide Sampled;
    hide ClosedAfter;
    forall l | l in s.w.ls && l.stops > 0 ensures Recorded(s.b.st.suspended, l) { assert !Held([], l); }
    MovedOnce(s.b, s.w, false, false);
    hide GoodOnce;
    ResumeAllRuns(s.b, s.w, e.sc, false);
    ResumeAllRuns(Moved(s.b, false), s.w, e.sc, false);
    if e.g.Some? && s.b.st.closed && e.sc.fails {
      NoneToResume(Moved(s.b, false), s.w, e.sc);
    }
  }

  /** With nobody recorded, nobody is suspended, listing or no listing. */
  lemma NoneToResume(b: Ledger, w: World, sc: Script)
    requires BothOnce(b, w, false) && b.st.suspended == []
    ensures var (b', m) := ResumeAll(b, w, sc); AllRun(m.w) && b'.st.suspended == []
  {
    hide Meanwhile;
    hide ResumeList;
    ResumeAllRuns(b, w, sc, false);
    if sc.fails {
      MeanwhileOnce(Start(w), sc, [], [], false);
      forall l | l in Listing(w, sc).w.ls ensures l.stops == 0 { assert !Held([], l); }
    }
  }

  // ------------------------------------------------------------------ the window stays full

  /** Samples in order, none more than the slack after the one before it, the last one now. */
  ghost predicate Steady(samples: seq<Sample>, now: int) {
    && samples != [] && samples[|samples| - 1].at == now
    && forall i :: 0 <= i < |samples| - 1 ==> samples[i].at <= samples[i + 1].at <= samples[i].at + SLACK
  }

  lemma {:induction false} TrimmedKeepsWindow(samples: seq<Sample>, now: int, keep: int)
    requires Steady(samples, now) && SLACK <= keep
    ensures Steady(Trimmed(samples, now, keep), now)
    ensures Trimmed(samples, now, keep) == samples || now - Trimmed(samples, now, keep)[0].at > keep - SLACK
    decreases |samples|
  {
    if now - samples[0].at > keep {
      assert |samples| > 1;
      TrimmedKeepsWindow(samples[1..], now, keep);
    }
  }

  /** The CPU samples of ticks at `times`, each `pct` read then. */
  function SamplesAfter(times: seq<int>, pct: int -> real, g: Settings): seq<Sample>
    decreases |times|
  {
    if times == [] then []
    else Sampled(SamplesAfter(times[..|times| - 1], pct, g), g, times[|times| - 1], pct(times[|times| - 1]))
  }

  lemma {:induction false} SamplesSteady(times: seq<int>, pct: int -> real, g: Settings)
    requires times != [] && g.pauseOver >= 0 && g.resumeOver >= 0
    requires forall i :: 0 <= i < |times| - 1 ==> times[i] <= times[i + 1] <= times[i] + SLACK
    ensures var xs, now := SamplesAfter(times, pct, g), times[|times| - 1];
            Steady(xs, now) && (xs[0].at == times[0] || now - xs[0].at > Longest(g))
    decreases |times|
  {
    hide SamplesAfter;
    hide Trimmed;
    var now, front := times[|times| - 1], times[..|times| - 1];
    var before := SamplesAfter(front, pct, g);
    SamplesGrow(times, pct, g);
    if |times| > 1 {
      SamplesSteady(front, pct, g);
      assert before != [] && front[|front| - 1] == times[|times| - 2] && front[0] == times[0];
    }
    hide Steady;
    SteadyGrows(before, if |times| > 1 then times[|times| - 2] else now, now, pct(now));
    TrimmedKeepsWindow(before + [Sample(now, pct(now))], now, Longest(g) + SLACK);
  }

  lemma SamplesGrow(times: seq<int>, pct: int -> real, g: Settings)
    requires times != []
    ensures var front, now := times[..|times| - 1], times[|times| - 1];
            && (front == [] ==> SamplesAfter(front, pct, g) == [])
            && SamplesAfter(times, pct, g) ==
              Trimmed(SamplesAfter(front, pct, g) + [Sample(now, pct(now))], now, Longest(g) + SLACK)
  {
  }

  lemma SteadyGrows(samples: seq<Sample>, was: int, now: int, pct: real)
    requires samples == [] || (Steady(samples, was) && was <= now <= was + SLACK)
    ensures Steady(samples + [Sample(now, pct)], now) &&
      (samples + [Sample(now, pct)])[0].at == if samples == [] then now else samples[0].at
  {
  }

  lemma {:induction false} WithinLast(samples: seq<Sample>, now: int, ms: int)
    requires samples != [] && samples[|samples| - 1].at == now && ms >= 0
    ensures Within(samples, now, ms) != []
    decreases |samples|
  {
    if |samples| > 1 {
      WithinLast(samples[1..], now, ms);
    }
  }

  /**
   * With ticks no further apart than the slack, both means exist from the first tick that a window's length has passed
   * since the first one: trimming never starves the gate of the samples it needs to open or close.
   */
  lemma MeansExist(times: seq<int>, pct: int -> real, g: Settings, ms: int)
    requires times != [] && (ms == g.pauseOver || ms == g.resumeOver) && g.pauseOver >= 0 && g.resumeOver >= 0
    requires forall i :: 0 <= i < |times| - 1 ==> times[i] <= times[i + 1] <= times[i] + SLACK
    requires times[|times| - 1] - times[0] >= ms
    ensures Mean(SamplesAfter(times, pct, g), times[|times| - 1], ms).Some?
  {
    hide SamplesAfter;
    SamplesSteady(times, pct, g);
    WithinLast(SamplesAfter(times, pct, g), times[|times| - 1], ms);
  }

  // ------------------------------------------------------------------ what closes the gate, and what opens it

  lemma {:induction false} WithinIs(samples: seq<Sample>, now: int, ms: int)
    ensures forall x :: x in Within(samples, now, ms) <==> x in samples && now - x.at <= ms
  {
    if samples != [] {
      WithinIs(samples[1..], now, ms);
      assert samples == [samples[0]] + samples[1..];
    }
  }

  lemma OneMore(pct: real, n: real)
    ensures pct * (n + 1.0) == pct * n + pct
  {
  }

  lemma {:induction false} SumAtLeast(samples: seq<Sample>, pct: real)
    requires forall x :: x in samples ==> x.pct >= pct
    ensures Sum(samples) >= pct * |samples| as real
  {
    if samples != [] {
      var rest := samples[1..];
      assert forall x :: x in rest ==> x in samples;
      SumAtLeast(rest, pct);
      assert samples[0] in samples && |samples| as real == |rest| as real + 1.0;
      OneMore(pct, |rest| as real);
    }
  }

  lemma {:induction false} SumUnder(samples: seq<Sample>, pct: real)
    requires samples != [] && forall x :: x in samples ==> x.pct < pct
    ensures Sum(samples) < pct * |samples| as real
  {
    var rest := samples[1..];
    assert forall x :: x in rest ==> x in samples;
    assert samples[0] in samples && |samples| as real == |rest| as real + 1.0;
    OneMore(pct, |rest| as real);
    if rest != [] {
      SumUnder(rest, pct);
    }
  }

  /** Every sample of the last `ms` is at or over `pct`; every one is under it. */
  ghost predicate AllOver(samples: seq<Sample>, now: int, ms: int, pct: real) {
    forall x :: x in samples && now - x.at <= ms ==> x.pct >= pct
  }

  ghost predicate AllUnder(samples: seq<Sample>, now: int, ms: int, pct: real) {
    forall x :: x in samples && now - x.at <= ms ==> x.pct < pct
  }

  function Average(xs: seq<Sample>): real
    requires xs != []
  {
    Sum(xs) / |xs| as real
  }

  lemma Divided(sum: real, n: nat, pct: real)
    requires n > 0
    ensures sum >= pct * n as real ==> sum / n as real >= pct
    ensures sum < pct * n as real ==> sum / n as real < pct
  {
    assert sum / n as real * n as real == sum;
  }

  lemma AverageOver(xs: seq<Sample>, pct: real)
    requires xs != [] && forall x :: x in xs ==> x.pct >= pct
    ensures Average(xs) >= pct
  {
    hide Sum;
    SumAtLeast(xs, pct);
    Divided(Sum(xs), |xs|, pct);
  }

  lemma AverageUnder(xs: seq<Sample>, pct: real)
    requires xs != [] && forall x :: x in xs ==> x.pct < pct
    ensures Average(xs) < pct
  {
    hide Sum;
    SumUnder(xs, pct);
    Divided(Sum(xs), |xs|, pct);
  }

  lemma MeanIs(samples: seq<Sample>, now: int, ms: int)
    requires Mean(samples, now, ms).Some?
    ensures Within(samples, now, ms) != [] && Mean(samples, now, ms) == Some(Average(Within(samples, now, ms)))
  {
    hide Within;
    hide Sum;
  }

  lemma MeanBounds(samples: seq<Sample>, now: int, ms: int, pct: real)
    requires Mean(samples, now, ms).Some?
    ensures AllOver(samples, now, ms, pct) ==> Mean(samples, now, ms).value >= pct
    ensures AllUnder(samples, now, ms, pct) ==> Mean(samples, now, ms).value < pct
  {
    MeanIs(samples, now, ms);
    WithinIs(samples, now, ms);
    hide Within;
    hide Average;
    hide Mean;
    var xs := Within(samples, now, ms);
    if AllOver(samples, now, ms, pct) { AverageOver(xs, pct); }
    if AllUnder(samples, now, ms, pct) { AverageUnder(xs, pct); }
  }

  /**
   * With samples of a whole closing window, an open gate closes when the CPU was at or over the closing threshold
   * throughout that window, and stays open when it was under it throughout; a closed one opens when it was under the
   * opening threshold throughout the opening window, and stays closed when it was at or over it.
   */
  lemma GateFollowsCpu(samples: seq<Sample>, g: Settings, now: int)
    requires samples != [] && samples[|samples| - 1].at == now && g.pauseOver >= 0 && g.resumeOver >= 0
    ensures now - samples[0].at >= g.pauseOver && AllOver(samples, now, g.pauseOver, g.pauseAt) ==>
              ClosedAfter(false, samples, g, now)
    ensures AllUnder(samples, now, g.pauseOver, g.pauseAt) ==> !ClosedAfter(false, samples, g, now)
    ensures now - samples[0].at >= g.resumeOver && AllUnder(samples, now, g.resumeOver, g.resumeBelow) ==>
              !ClosedAfter(true, samples, g, now)
    ensures AllOver(samples, now, g.resumeOver, g.resumeBelow) ==> ClosedAfter(true, samples, g, now)
    ensures now - samples[0].at < g.pauseOver ==> !ClosedAfter(false, samples, g, now)
    ensures now - samples[0].at < g.resumeOver ==> ClosedAfter(true, samples, g, now)
  {
    hide Within;
    hide Sum;
    WithinLast(samples, now, g.pauseOver);
    WithinLast(samples, now, g.resumeOver);
    var hi, lo := Mean(samples, now, g.pauseOver), Mean(samples, now, g.resumeOver);
    if hi.Some? { MeanBounds(samples, now, g.pauseOver, g.pauseAt); }
    if lo.Some? { MeanBounds(samples, now, g.resumeOver, g.resumeBelow); }
  }

  lemma {:induction false} SamplesAre(times: seq<int>, pct: int -> real, g: Settings)
    ensures forall x :: x in SamplesAfter(times, pct, g) ==>
              exists i :: 0 <= i < |times| && x == Sample(times[i], pct(times[i]))
    decreases |times|
  {
    if times != [] {
      var front, now := times[..|times| - 1], times[|times| - 1];
      SamplesAre(front, pct, g);
      var all := SamplesAfter(front, pct, g) + [Sample(now, pct(now))];
      TrimmedAre(all, now, Longest(g) + SLACK);
      forall x | x in all ensures exists i :: 0 <= i < |times| && x == Sample(times[i], pct(times[i])) {
        if x in SamplesAfter(front, pct, g) {
          var i :| 0 <= i < |front| && x == Sample(front[i], pct(front[i]));
          assert times[i] == front[i];
        } else {
          assert x == Sample(times[|times| - 1], pct(times[|times| - 1]));
        }
      }
    }
  }

  lemma {:induction false} TrimmedAre(samples: seq<Sample>, now: int, keep: int)
    ensures forall x :: x in Trimmed(samples, now, keep) ==> x in samples
    decreases |samples|
  {
    if samples != [] && now - samples[0].at > keep {
      TrimmedAre(samples[1..], now, keep);
    }
  }

  /**
   * Over ticks no further apart than the slack: once they have gone on for a closing window, a CPU at or over the
   * closing threshold throughout it closes the gate; once for an opening window, one under the opening threshold
   * throughout opens it.
   */
  lemma TicksMoveGate(times: seq<int>, pct: int -> real, g: Settings)
    requires times != [] && g.pauseOver >= 0 && g.resumeOver >= 0
    requires forall i :: 0 <= i < |times| - 1 ==> times[i] <= times[i + 1] <= times[i] + SLACK
    ensures var now, samples := times[|times| - 1], SamplesAfter(times, pct, g);
            && (now - times[0] >= g.pauseOver
                && (forall i :: 0 <= i < |times| && now - times[i] <= g.pauseOver ==> pct(times[i]) >= g.pauseAt) ==>
                  ClosedAfter(false, samples, g, now))
            && (now - times[0] >= g.resumeOver
                && (forall i :: 0 <= i < |times| && now - times[i] <= g.resumeOver ==>
                  pct(times[i]) < g.resumeBelow) ==>
                  !ClosedAfter(true, samples, g, now))
  {
    hide ClosedAfter;
    SamplesSteady(times, pct, g);
    SamplesAre(times, pct, g);
    hide SamplesAfter;
    GateFollowsCpu(SamplesAfter(times, pct, g), g, times[|times| - 1]);
  }

  // ------------------------------------------------------------------ the file

  /** The recorded that are kept at a look: those whose pid is a listener of that runner. */
  lemma {:induction false} KeepSameIff(suspended: seq<Paused>, ls: seq<Listener>, p: Paused)
    requires Distinct(ls)
    ensures p in KeepSame(suspended, ls) <==>
            p in suspended && exists i :: 0 <= i < |ls| && ls[i].pid == p.pid && ls[i].root == p.root
    ensures |KeepSame(suspended, ls)| <= |suspended|
    ensures |KeepSame(suspended, ls)| == |suspended| ==> KeepSame(suspended, ls) == suspended
  {
    if suspended != [] {
      var front, last := suspended[..|suspended| - 1], suspended[|suspended| - 1];
      assert suspended == front + [last];
      KeepSameIff(front, ls, p);
      var l := Find(ls, last.pid);
      if l.Some? {
        var k :| 0 <= k < |ls| && ls[k] == l.value;
        assert forall i :: 0 <= i < |ls| && ls[i].pid == last.pid ==> i == k;
      }
    }
  }

  lemma {:induction false} KeptAll(suspended: seq<Paused>, ls: seq<Listener>)
    ensures |KeepSame(suspended, ls)| <= |suspended|
    ensures |KeepSame(suspended, ls)| == |suspended| ==> KeepSame(suspended, ls) == suspended
  {
    if suspended != [] {
      KeptAll(suspended[..|suspended| - 1], ls);
      assert suspended == suspended[..|suspended| - 1] + [suspended[|suspended| - 1]];
    }
  }

  /** No listing the tick needs fails. */
  predicate ComesThrough(e: Event) {
    e.GateTicks? ==> !e.sc.fails && !e.sc.failsAgain
  }

  /** A tick that comes through writes what it knows, unless that is all it knew. */
  lemma GateWrites(s: Gated, e: Event)
    requires ComesThrough(e) && e.GateTicks?
    ensures var t := Next(s, e); t.b.file == t.b.st || t.b == s.b
  {
    var closed := ClosedThen(s, e.g, e.now, e.pct);
    hide ClosedThen;
    hide HappenAll;
    hide ResumeList;
    hide SuspendAll;
    hide RecheckAll;
    hide KeepSame;
    KeptAll(s.b.st.suspended, Listing(s.w, e.sc).w.ls);
  }

  /** Over every run whose ticks come through, the file says what the daemon knows: the gate, and who is suspended. */
  lemma {:induction false} FileInStep(s: Gated, run: seq<Event>)
    requires Fresh(s) && forall i :: 0 <= i < |run| ==> ComesThrough(run[i])
    ensures After(s, run).b.file == After(s, run).b.st
    decreases |run|
  {
    hide Turn;
    hide HappenAll;
    hide ClosedThen;
    if run != [] {
      var front, e := run[..|run| - 1], run[|run| - 1];
      assert forall i :: 0 <= i < |front| ==> front[i] == run[i];
      FileInStep(s, front);
      if e.GateTicks? {
        assert ComesThrough(e);
        GateWrites(After(s, front), e);
      }
    }
  }
}
