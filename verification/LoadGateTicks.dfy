/**
 * One tick with the gate closed (machine/loadRunners.ts, LoadGate), listener by listener: exactly when a listener ends
 * it suspended, and exactly when it ends it suspended with a job in hand.
 */
module LoadGateTicks {
  import opened Prelude
  import opened RunnerWorld
  import opened BenchRunners
  import opened RunnerRuns
  import opened RunnerTold
  import opened RunnerTicks
  import opened LoadGate
  import Runs = LoadGateRuns
  import GateTold = LoadGateTold

  lemma FindSuspended(w: World, q: Pid, p: Pid)
    ensures var a, b := Find(w.ls, p), Find(Suspend(w, q).ls, p);
            b == if p == q && a.Some? then Some(a.value.(stops := a.value.stops + 1)) else a
  {
    hide Suspend;
    hide Find;
    FindChanged(w.ls, Suspend(w, q).ls, q, (l: Listener) => l.(stops := l.stops + 1), p);
  }

  lemma FindResumed(w: World, q: Pid, p: Pid)
    ensures var a, b := Find(w.ls, p), Find(Resume(w, q).ls, p);
            b == if p == q && a.Some? && a.value.stops > 0 then Some(a.value.(stops := a.value.stops - 1)) else a
  {
    hide Resume;
    hide Find;
    FindChanged(w.ls, Resume(w, q).ls, q, (l: Listener) => if l.stops > 0 then l.(stops := l.stops - 1) else l, p);
  }

  // ------------------------------------------------------------------ the first look at one listener

  /** Gated, not recorded yet, no worker in its runner, a log that rules a job out, and a suspend that succeeds. */
  predicate Suspends(m: Moment, l: Listener, c: seq<Listener>, kept: seq<Paused>, g: Settings, sc: Script) {
    && g.gated(l.root)
    && !PidIn(kept, l.pid)
    && !Busy(l, None) && !HasWorker(c, l.root, None)
    && !HoldsJob(LogOf(LookAt(m, sc).w, l.root), sc.now(LookAt(m, sc).c))
    && !sc.stopFails(StopAt(m, sc).c)
  }

  lemma SuspendOneOther(m: Moment, l: Listener, c: seq<Listener>, kept: seq<Paused>, g: Settings, sc: Script, p: Pid)
    requires Lives(sc, p) && l.pid != p
    ensures var (m', h) := SuspendOne(m, l, c, kept, g, sc); NotAmong(h, p) && Stays(Find(m.w.ls, p), Find(m'.w.ls, p))
  {
    hide Find;
    hide HappenAll;
    hide Suspend;
    hide LogOf;
    MeanwhileStays(m, sc, p);
    MeanwhileStays(Meanwhile(m, sc), sc, p);
    FindSuspended(StopAt(m, sc).w, l.pid, p);
  }

  /** How `l` is once the daemon has been at it, reached at `m`: suspended once more, or as it was. */
  ghost predicate LookedAt(m: Moment, l: Listener, suspends: bool, sc: Script, v: World) {
    var a, b, s := Find(m.w.ls, l.pid), Find(v.ls, l.pid), Find(StopAt(m, sc).w.ls, l.pid);
    if suspends
    then a.Some? ==> && b.Some? && s.Some? && b.value.stops == a.value.stops + 1 && b.value.job == s.value.job
                     && b.value.root == a.value.root
    else Stays(a, b)
  }

  lemma SuspendOneOwn(m: Moment, l: Listener, c: seq<Listener>, kept: seq<Paused>, g: Settings, sc: Script)
    requires Lives(sc, l.pid)
    ensures var (m', h) := SuspendOne(m, l, c, kept, g, sc);
            && LookedAt(m, l, Suspends(m, l, c, kept, g, sc), sc, m'.w)
            && h == if Suspends(m, l, c, kept, g, sc)
                    then [Halted(l.pid, l.root, LogOf(LookAt(m, sc).w, l.root))] else []
  {
    hide Find;
    hide HappenAll;
    hide Suspend;
    hide LogOf;
    MeanwhileStays(m, sc, l.pid);
    MeanwhileStays(Meanwhile(m, sc), sc, l.pid);
    FindSuspended(StopAt(m, sc).w, l.pid, l.pid);
  }

  lemma {:induction false} SuspendAllOther(m: Moment, ls: seq<Listener>, c: seq<Listener>, kept: seq<Paused>,
                                           g: Settings, sc: Script, p: Pid)
    requires Lives(sc, p) && forall j :: 0 <= j < |ls| ==> ls[j].pid != p
    ensures var (m', hs) := SuspendAll(m, ls, c, kept, g, sc);
            NotAmong(hs, p) && Stays(Find(m.w.ls, p), Find(m'.w.ls, p))
    decreases |ls|
  {
    hide Find;
    hide SuspendOne;
    if ls != [] {
      SuspendAllOther(m, ls[..|ls| - 1], c, kept, g, sc, p);
      SuspendOneOther(SuspendAll(m, ls[..|ls| - 1], c, kept, g, sc).0, ls[|ls| - 1], c, kept, g, sc, p);
    }
  }

  lemma LookedAtStays(m: Moment, l: Listener, suspends: bool, sc: Script, v: World, u: World)
    requires LookedAt(m, l, suspends, sc, v) && Stays(Find(v.ls, l.pid), Find(u.ls, l.pid))
    ensures LookedAt(m, l, suspends, sc, u)
  {
    hide Find;
    hide HappenAll;
  }

  /** The first looks at `ls[..n]`, of which `ls[i]` is one: what they come to for that one. */
  lemma {:induction false} SuspendAllOne(m: Moment, ls: seq<Listener>, n: nat, i: nat, c: seq<Listener>,
                                         kept: seq<Paused>, g: Settings,
                                         sc: Script)
    requires i < n <= |ls| && Distinct(ls) && Lives(sc, ls[i].pid)
    ensures var (mi, before) := SuspendAll(m, ls[..i], c, kept, g, sc);
            var (m', hs) := SuspendAll(m, ls[..n], c, kept, g, sc);
            && LookedAt(mi, ls[i], Suspends(mi, ls[i], c, kept, g, sc), sc, m'.w)
            && if Suspends(mi, ls[i], c, kept, g, sc)
               then && |before| < |hs| && NotAmong(hs[..|before|], ls[i].pid) && NotAmong(hs[|before| + 1..], ls[i].pid)
                    && hs[|before|] == Halted(ls[i].pid, ls[i].root, LogOf(LookAt(mi, sc).w, ls[i].root))
               else NotAmong(hs, ls[i].pid)
    decreases n
  {
    hide Find;
    hide SuspendOne;
    hide LookedAt;
    hide Suspends;
    hide LogOf;
    hide HappenAll;
    var p := ls[i].pid;
    var (mi, before) := SuspendAll(m, ls[..i], c, kept, g, sc);
    assert ls[..n][..n - 1] == ls[..n - 1];
    var (m1, hs1) := SuspendAll(m, ls[..n - 1], c, kept, g, sc);
    var (m2, h) := SuspendOne(m1, ls[n - 1], c, kept, g, sc);
    if n == i + 1 {
      SuspendAllOther(m, ls[..i], c, kept, g, sc, p);
      SuspendOneOwn(mi, ls[i], c, kept, g, sc);
      assert (before + h)[..|before|] == before;
    } else {
      SuspendAllOne(m, ls, n - 1, i, c, kept, g, sc);
      SuspendOneOther(m1, ls[n - 1], c, kept, g, sc, p);
      LookedAtStays(mi, ls[i], Suspends(mi, ls[i], c, kept, g, sc), sc, m1.w, m2.w);
      if Suspends(mi, ls[i], c, kept, g, sc) {
        assert (hs1 + h)[..|before|] == hs1[..|before|] && (hs1 + h)[|before| + 1..] == hs1[|before| + 1..] + h;
      }
    }
  }

  // ------------------------------------------------------------------ the second look at one listener

  predicate StaysSuspended(m: Moment, h: Halted, again: seq<Listener>, sc: Script) {
    !TookAJob(LogOf(LookAt(m, sc).w, h.root), h, again)
  }

  lemma RecheckOneOther(m: Moment, h: Halted, again: seq<Listener>, sc: Script, p: Pid)
    requires Lives(sc, p) && h.pid != p
    ensures Stays(Find(m.w.ls, p), Find(RecheckOne(m, h, again, sc).0.w.ls, p))
  {
    hide Find;
    hide HappenAll;
    hide Resume;
    hide LogOf;
    hide TookAJob;
    MeanwhileStays(m, sc, p);
    FindResumed(LookAt(m, sc).w, h.pid, p);
  }

  /** How the process is once it has been looked at again: suspended still, and recorded, or resumed once. */
  ghost predicate LookedAgain(a: Option<Listener>, stays: bool, q: Paused, b: Option<Listener>, ps: seq<Paused>) {
    if stays then Stays(a, b) && q in ps
    else a.Some? ==> b.Some? && b.value.stops == if a.value.stops > 0 then a.value.stops - 1 else 0
  }

  lemma RecheckOneOwn(m: Moment, h: Halted, again: seq<Listener>, sc: Script)
    requires Lives(sc, h.pid)
    ensures var (m', ps) := RecheckOne(m, h, again, sc);
            LookedAgain(Find(m.w.ls, h.pid), StaysSuspended(m, h, again, sc), Paused(h.pid, h.root),
              Find(m'.w.ls, h.pid), ps)
  {
    hide Find;
    hide HappenAll;
    hide Resume;
    hide LogOf;
    hide TookAJob;
    MeanwhileStays(m, sc, h.pid);
    FindResumed(LookAt(m, sc).w, h.pid, h.pid);
  }

  lemma {:induction false} RecheckAllOther(m: Moment, hs: seq<Halted>, again: seq<Listener>, sc: Script, p: Pid)
    requires Lives(sc, p) && NotAmong(hs, p)
    ensures Stays(Find(m.w.ls, p), Find(RecheckAll(m, hs, again, sc).0.w.ls, p))
    decreases |hs|
  {
    hide Find;
    hide RecheckOne;
    if hs != [] {
      RecheckAllOther(m, hs[..|hs| - 1], again, sc, p);
      RecheckOneOther(RecheckAll(m, hs[..|hs| - 1], again, sc).0, hs[|hs| - 1], again, sc, p);
    }
  }

  /** The second looks at `hs[..n]`, of which `hs[k]` is the only one of its process. */
  lemma {:induction false} RecheckAllOne(m: Moment, hs: seq<Halted>, n: nat, k: nat, again: seq<Listener>, sc: Script)
    requires k < n <= |hs| && Lives(sc, hs[k].pid) && NotAmong(hs[..k], hs[k].pid) && NotAmong(hs[k + 1..], hs[k].pid)
    ensures var (m', ps) := RecheckAll(m, hs[..n], again, sc);
            var stays := StaysSuspended(RecheckAll(m, hs[..k], again, sc).0, hs[k], again, sc);
            LookedAgain(Find(m.w.ls, hs[k].pid), stays, Paused(hs[k].pid, hs[k].root), Find(m'.w.ls, hs[k].pid), ps)
    decreases n
  {
    hide Find;
    hide RecheckOne;
    hide StaysSuspended;
    hide HappenAll;
    assert hs[..n][..n - 1] == hs[..n - 1];
    var m1 := RecheckAll(m, hs[..n - 1], again, sc).0;
    if n == k + 1 {
      RecheckAllOther(m, hs[..k], again, sc, hs[k].pid);
      RecheckOneOwn(m1, hs[k], again, sc);
    } else {
      RecheckAllOne(m, hs, n - 1, k, again, sc);
      assert hs[n - 1] == hs[k + 1..][n - 1 - (k + 1)];
      RecheckOneOther(m1, hs[n - 1], again, sc, hs[k].pid);
    }
  }

  // ------------------------------------------------------------------ the whole tick for one listener

  function Firsts(b: Ledger, w: World, g: Settings, sc: Script, n: nat): (Moment, seq<Halted>)
    requires n <= |Listing(w, sc).w.ls|
  {
    var m := Listing(w, sc);
    SuspendAll(m, m.w.ls[..n], m.w.ls, KeepSame(b.st.suspended, m.w.ls), g, sc)
  }

  /** The daemon can list the processes, and suspends listener `i` of that listing. */
  predicate SuspendsIt(b: Ledger, w: World, g: Settings, sc: Script, i: nat)
    requires i < |Listing(w, sc).w.ls|
  {
    var m := Listing(w, sc);
    !sc.fails && Suspends(Firsts(b, w, g, sc, i).0, m.w.ls[i], m.w.ls, KeepSame(b.st.suspended, m.w.ls), g, sc)
  }

  /** And, on its second look, which comes after those at the listeners suspended before it, leaves it suspended. */
  predicate LeavesIt(b: Ledger, w: World, g: Settings, sc: Script, i: nat)
    requires i < |Listing(w, sc).w.ls|
  {
    var f, k := GateLook(b.st.suspended, w, g, sc), |Firsts(b, w, g, sc, i).1|;
    k < |f.hs| && StaysSuspended(GateTold.RecheckAt(b.st.suspended, w, g, sc, k), f.hs[k], Meanwhile(f.m, sc).w.ls, sc)
  }

  predicate JobAtSuspend(b: Ledger, w: World, g: Settings, sc: Script, i: nat)
    requires i < |Listing(w, sc).w.ls|
  {
    var l := Find(StopAt(Firsts(b, w, g, sc, i).0, sc).w.ls, Listing(w, sc).w.ls[i].pid);
    l.Some? && l.value.job
  }

  lemma TickIs(b: Ledger, w: World, g: Settings, sc: Script)
    requires !sc.fails
    ensures var (b', m') := SuspendIdle(b, w, g, sc);
            var f := GateLook(b.st.suspended, w, g, sc);
            var (m3, ps) := GateRecheck(b.st.suspended, w, g, sc);
            && m' == (if f.hs == [] then f.m else if sc.failsAgain then Meanwhile(f.m, sc) else m3)
            && (f.hs != [] && sc.failsAgain ==> b'.st.suspended == f.kept)
            && (f.hs != [] && !sc.failsAgain ==> b'.st.suspended == f.kept + ps && (ps != [] ==> b'.file == b'.st))
  {
    hide HappenAll;
    hide KeepSame;
    hide SuspendAll;
    hide RecheckAll;
  }

  /** What the first look comes to for listener `i`, up to the second listing. */
  lemma FirstIs(b: Ledger, w: World, g: Settings, sc: Script, i: nat)
    requires Distinct(w.ls) && i < |Listing(w, sc).w.ls| && Lives(sc, Listing(w, sc).w.ls[i].pid) && !sc.fails
    ensures var l, f, k := Listing(w, sc).w.ls[i], GateLook(b.st.suspended, w, g, sc), |Firsts(b, w, g, sc, i).1|;
            var was, now := Find(f.m.w.ls, l.pid), Find(Meanwhile(f.m, sc).w.ls, l.pid);
            && was.Some? && Stays(was, now)
            && if SuspendsIt(b, w, g, sc, i)
               then && was.value.stops == l.stops + 1 && was.value.job == JobAtSuspend(b, w, g, sc, i) &&
                 was.value.root == l.root
                    && k < |f.hs| && f.hs[k].pid == l.pid && f.hs[k].root == l.root
                    && NotAmong(f.hs[..k], l.pid) && NotAmong(f.hs[k + 1..], l.pid) && !PidIn(f.kept, l.pid)
               else Stays(Some(l), was) && NotAmong(f.hs, l.pid)
  {
    hide Find;
    hide SuspendAll;
    hide HappenAll;
    hide KeepSame;
    hide LogOf;
    hide HoldsJob;
    hide HasWorker;
    hide Distinct;
    var m := Listing(w, sc);
    var c, l, kept := m.w.ls, m.w.ls[i], KeepSame(b.st.suspended, m.w.ls);
    ListingDistinct(w, sc);
    FindsIt(c, i);
    SuspendAllOne(m, c, |c|, i, c, kept, g, sc);
    assert c[..|c|] == c;
    OthersBefore(c, i);
    SuspendAllOther(m, c[..i], c, kept, g, sc, l.pid);
    MeanwhileStays(GateLook(b.st.suspended, w, g, sc).m, sc, l.pid);
  }

  /** What the second look comes to for it. */
  lemma SecondIs(b: Ledger, w: World, g: Settings, sc: Script, i: nat)
    requires Distinct(w.ls) && i < |Listing(w, sc).w.ls| && Lives(sc, Listing(w, sc).w.ls[i].pid) && !sc.fails
    ensures var l, f, k := Listing(w, sc).w.ls[i], GateLook(b.st.suspended, w, g, sc), |Firsts(b, w, g, sc, i).1|;
            var (m3, ps) := GateRecheck(b.st.suspended, w, g, sc);
            var was, now := Find(Meanwhile(f.m, sc).w.ls, l.pid), Find(m3.w.ls, l.pid);
            if SuspendsIt(b, w, g, sc, i)
            then && k < |f.hs| && Stays(was, Find(GateTold.RecheckAt(b.st.suspended, w, g, sc, k).w.ls, l.pid))
                 && LookedAgain(was, LeavesIt(b, w, g, sc, i), Paused(l.pid, l.root), now, ps)
            else Stays(was, now)
  {
    hide Find;
    hide RecheckAll;
    hide HappenAll;
    hide GateLook;
    hide Firsts;
    hide SuspendsIt;
    hide StaysSuspended;
    FirstIs(b, w, g, sc, i);
    var l, f, k := Listing(w, sc).w.ls[i], GateLook(b.st.suspended, w, g, sc), |Firsts(b, w, g, sc, i).1|;
    var m2 := Meanwhile(f.m, sc);
    assert f.hs[..|f.hs|] == f.hs;
    if SuspendsIt(b, w, g, sc, i) {
      RecheckAllOne(m2, f.hs, |f.hs|, k, m2.w.ls, sc);
      RecheckAllOther(m2, f.hs[..k], m2.w.ls, sc, l.pid);
    } else {
      RecheckAllOther(m2, f.hs, m2.w.ls, sc, l.pid);
    }
  }

  /**
   * How a listener of the first listing ends a closed tick: suspended once more exactly when the two looks at it leave
   * it so or there is no second one, recorded exactly when there is, and with the job it had then.
   */
  lemma TickCounts(b: Ledger, w: World, g: Settings, sc: Script, i: nat)
    requires Distinct(w.ls) && i < |Listing(w, sc).w.ls| && Lives(sc, Listing(w, sc).w.ls[i].pid)
    ensures var (b', m') := SuspendIdle(b, w, g, sc);
            var l := Listing(w, sc).w.ls[i];
            var f := Find(m'.w.ls, l.pid);
            var more := SuspendsIt(b, w, g, sc, i) && (sc.failsAgain || LeavesIt(b, w, g, sc, i));
            && f.Some? && f.value.stops == l.stops + (if more then 1 else 0)
            && (more ==> f.value.job == JobAtSuspend(b, w, g, sc, i))
            && (more && sc.failsAgain ==> !PidIn(b'.st.suspended, l.pid))
            && (more && !sc.failsAgain ==> Recorded(b'.st.suspended, f.value) && Recorded(b'.file.suspended, f.value))
  {
    hide Find;
    hide HappenAll;
    hide GateLook;
    hide GateRecheck;
    hide Firsts;
    hide LeavesIt;
    hide JobAtSuspend;
    hide Distinct;
    hide Suspends;
    hide GateClosing;
    hide GateTold.RecheckAt;
    if sc.fails {
      ListingDistinct(w, sc);
      FindsIt(Listing(w, sc).w.ls, i);
    } else {
      TickIs(b, w, g, sc);
      hide SuspendIdle;
      FirstIs(b, w, g, sc, i);
      SecondIs(b, w, g, sc, i);
      hide SuspendsIt;
    }
  }

  /**
   * Exactly when a running listener ends a closed tick suspended, and exactly when it does so with a job: it has one at
   * the moment of the suspend, it is gated and not recorded, the first listing shows no worker in its runner and its
   * log then rules a job out, the suspend succeeds, and either the second listing fails, or it shows none either and
   * the log then still says idle by the same line.
   */
  lemma SuspendedWithJobIff(b: Ledger, w: World, g: Settings, sc: Script, i: nat)
    requires Distinct(w.ls) && i < |Listing(w, sc).w.ls| && Lives(sc, Listing(w, sc).w.ls[i].pid)
    requires Listing(w, sc).w.ls[i].stops == 0
    ensures var (b', m') := SuspendIdle(b, w, g, sc);
            var f := Find(m'.w.ls, Listing(w, sc).w.ls[i].pid);
            var left := sc.failsAgain || LeavesIt(b, w, g, sc, i);
            && f.Some?
            && (f.value.stops > 0 <==> SuspendsIt(b, w, g, sc, i) && left)
            && (f.value.stops > 0 && f.value.job <==>
              JobAtSuspend(b, w, g, sc, i) && SuspendsIt(b, w, g, sc, i) && left)
            && (f.value.stops > 0 ==> (Recorded(b'.st.suspended, f.value) <==> !sc.failsAgain))
  {
    hide SuspendIdle;
    hide SuspendsIt;
    hide LeavesIt;
    hide JobAtSuspend;
    hide Find;
    hide HappenAll;
    TickCounts(b, w, g, sc, i);
    var (b', m') := SuspendIdle(b, w, g, sc);
    RecordedPid(b'.st.suspended, Find(m'.w.ls, Listing(w, sc).w.ls[i].pid).value);
  }

  /**
   * A listener that has a job when it is suspended, taken after the look at its log or before, is as it was at the end
   * of the tick, as long as no step takes a job that no worker runs out of sight and the processes can be listed again.
   */
  lemma JobIsResumed(b: Ledger, w: World, g: Settings, sc: Script, i: nat)
    requires Distinct(w.ls) && Told(w, Runs.Nobody) && GentleFrom(SuspendIdle(b, w, g, sc).1.trace, 0, Runs.Nobody)
    requires i < |Listing(w, sc).w.ls| && Lives(sc, Listing(w, sc).w.ls[i].pid) && !sc.failsAgain
    requires SuspendsIt(b, w, g, sc, i) && JobAtSuspend(b, w, g, sc, i)
    ensures var l := Listing(w, sc).w.ls[i];
            var f := Find(SuspendIdle(b, w, g, sc).1.w.ls, l.pid); f.Some? && f.value.stops == l.stops
  {
    var l, f, k := Listing(w, sc).w.ls[i], GateLook(b.st.suspended, w, g, sc), |Firsts(b, w, g, sc, i).1|;
    FirstIs(b, w, g, sc, i);
    SecondIs(b, w, g, sc, i);
    TickCounts(b, w, g, sc, i);
    GateTold.GentleIsTold(b, w, g, sc);
    var m2, back := Meanwhile(f.m, sc), GateTold.RecheckAt(b.st.suspended, w, g, sc, k);
    assert ToldOf(Meanwhile(back, sc).w, f.hs[k].pid, Runs.Nobody);
    MeanwhileStays(back, sc, l.pid);
    var then' := Find(Meanwhile(back, sc).w.ls, l.pid);
    assert LeavesIt(b, w, g, sc, i) ==> !TookAJob(LogOf(LookAt(back, sc).w, f.hs[k].root), f.hs[k], m2.w.ls);
    NotTook(LogOf(LookAt(back, sc).w, f.hs[k].root), f.hs[k], m2.w.ls);
    hide *;
    assert then'.Some? && then'.value.job && then'.value.root == l.root && then'.value.stops > 0;
    if LeavesIt(b, w, g, sc, i) {
      BackWithJob(Meanwhile(back, sc).w, then'.value, Find(m2.w.ls, l.pid).value);
    }
  }

  /** A listener `l` that was `a`, without a worker, when last listed, is told, and is idle by its log, has no job. */
  lemma BackWithJob(w: World, l: Listener, a: Listener)
    requires l in w.ls && ToldOf(w, l.pid, Runs.Nobody) && LogOf(w, l.root).state == IsIdle
    requires a.worker.None? && (l.worker.Some? ==> l.worker == a.worker)
    ensures !l.job
  {
    hide LastMark;
    var j :| 0 <= j < |w.ls| && w.ls[j] == l;
    assert Unseen(w.ls[j], Runs.Nobody) == l.job;
  }

  lemma NotTook(after: ListenerLog, h: Halted, again: seq<Listener>)
    ensures !TookAJob(after, h, again) ==>
      after.state == IsIdle && Find(again, h.pid).Some? && Find(again, h.pid).value.worker.None?
  {
  }

  // ------------------------------------------------------------------ a tick on a machine where nothing else happens

  lemma {:induction false} QuietSuspendAll(m: Moment, ls: seq<Listener>, c: seq<Listener>, kept: seq<Paused>,
                                           g: Settings, sc: Script,
                                           own: Option<nat>, t: int)
    requires Quiet(sc, own, t)
    ensures SameBut(m.w, SuspendAll(m, ls, c, kept, g, sc).0.w)
    decreases |ls|
  {
    hide HappenAll;
    hide Suspend;
    hide HasWorker;
    hide LogOf;
    if ls != [] {
      QuietSuspendAll(m, ls[..|ls| - 1], c, kept, g, sc, own, t);
      var m1 := SuspendAll(m, ls[..|ls| - 1], c, kept, g, sc).0;
      QuietMeanwhile(m1, sc, own, t);
      QuietMeanwhile(Meanwhile(m1, sc), sc, own, t);
    }
  }

  lemma {:induction false} QuietRecheckAll(m: Moment, hs: seq<Halted>, again: seq<Listener>, sc: Script,
                                           own: Option<nat>, t: int)
    requires Quiet(sc, own, t)
    ensures SameBut(m.w, RecheckAll(m, hs, again, sc).0.w)
    decreases |hs|
  {
    hide HappenAll;
    hide Resume;
    hide TookAJob;
    if hs != [] {
      QuietRecheckAll(m, hs[..|hs| - 1], again, sc, own, t);
      QuietMeanwhile(RecheckAll(m, hs[..|hs| - 1], again, sc).0, sc, own, t);
    }
  }

  lemma SameWorkers(w: World, v: World, root: Root)
    requires SameBut(w, v)
    ensures HasWorker(v.ls, root, None) == HasWorker(w.ls, root, None)
  {
    if HasWorker(w.ls, root, None) {
      var i :| 0 <= i < |w.ls| && w.ls[i].root == root && Busy(w.ls[i], None);
      assert v.ls[i].root == root && Busy(v.ls[i], None);
    }
    if HasWorker(v.ls, root, None) {
      var i :| 0 <= i < |v.ls| && v.ls[i].root == root && Busy(v.ls[i], None);
      assert w.ls[i].root == root && Busy(w.ls[i], None);
    }
  }

  /**
   * With nothing happening meanwhile, what a look at the machine before the tick decides: a running listener ends it
   * suspended with a job exactly when it has one that no worker of its runner runs, it is gated and not recorded, and
   * its log reads idle and settled.
   */
  lemma QuietTickIff(b: Ledger, w: World, g: Settings, sc: Script, own: Option<nat>, t: int, i: nat)
    requires Quiet(sc, own, t) && !sc.failsAgain && Distinct(w.ls) && i < |w.ls| && w.ls[i].stops == 0
    ensures var (_, m') := SuspendIdle(b, w, g, sc);
            var f := Find(m'.w.ls, w.ls[i].pid);
            && f.Some?
            && (f.value.stops > 0 && f.value.job <==>
                  && w.ls[i].job && g.gated(w.ls[i].root) && !HasWorker(w.ls, w.ls[i].root, None)
                  && !PidIn(KeepSame(b.st.suspended, w.ls), w.ls[i].pid) && ReadsIdle(LogOf(w, w.ls[i].root), t))
  {
    hide SuspendIdle;
    hide SuspendAll;
    hide RecheckAll;
    hide HappenAll;
    hide KeepSame;
    hide Find;
    QuietMeanwhile(Start(w), sc, own, t);
    assert Listing(w, sc).w == w;
    SuspendedWithJobIff(b, w, g, sc, i);
    BusyHas(w.ls, i);
    QuietFirst(b, w, g, sc, own, t, i);
    if SuspendsIt(b, w, g, sc, i) {
      QuietSecond(b, w, g, sc, own, t, i);
    }
  }

  lemma BusyHas(ls: seq<Listener>, i: nat)
    requires i < |ls|
    ensures Busy(ls[i], None) ==> HasWorker(ls, ls[i].root, None)
  {
  }

  lemma QuietFirst(b: Ledger, w: World, g: Settings, sc: Script, own: Option<nat>, t: int, i: nat)
    requires Quiet(sc, own, t) && Distinct(w.ls) && i < |w.ls| && Listing(w, sc).w == w
    ensures JobAtSuspend(b, w, g, sc, i) == w.ls[i].job
    ensures SuspendsIt(b, w, g, sc, i) <==>
            && g.gated(w.ls[i].root) && !PidIn(KeepSame(b.st.suspended, w.ls), w.ls[i].pid) &&
              !HasWorker(w.ls, w.ls[i].root, None)
            && !HoldsJob(LogOf(w, w.ls[i].root), t)
  {
    hide SuspendAll;
    hide HappenAll;
    hide KeepSame;
    hide Find;
    hide HasWorker;
    var m := Listing(w, sc);
    var mi := Firsts(b, w, g, sc, i).0;
    QuietSuspendAll(m, w.ls[..i], w.ls, KeepSame(b.st.suspended, w.ls), g, sc, own, t);
    QuietMeanwhile(mi, sc, own, t);
    QuietMeanwhile(Meanwhile(mi, sc), sc, own, t);
    SameFind(w, mi.w, i);
    BusyHas(w.ls, i);
  }

  lemma QuietSecond(b: Ledger, w: World, g: Settings, sc: Script, own: Option<nat>, t: int, i: nat)
    requires Quiet(sc, own, t) && Distinct(w.ls) && i < |w.ls| && Listing(w, sc).w == w && SuspendsIt(b, w, g, sc, i)
    requires !HasWorker(w.ls, w.ls[i].root, None)
    ensures LeavesIt(b, w, g, sc, i) <==> LogOf(w, w.ls[i].root).state == IsIdle
  {
    hide SuspendAll;
    hide RecheckAll;
    hide HappenAll;
    hide KeepSame;
    hide Find;
    hide HasWorker;
    var m := Listing(w, sc);
    var kept := KeepSame(b.st.suspended, w.ls);
    var (mi, before) := Firsts(b, w, g, sc, i);
    QuietSuspendAll(m, w.ls[..i], w.ls, kept, g, sc, own, t);
    QuietMeanwhile(mi, sc, own, t);
    assert Lives(sc, w.ls[i].pid);
    SuspendAllOne(m, w.ls, |w.ls|, i, w.ls, kept, g, sc);
    assert w.ls[..|w.ls|] == w.ls;
    QuietSuspendAll(m, w.ls, w.ls, kept, g, sc, own, t);
    var f := GateLook(b.st.suspended, w, g, sc);
    var m2, hs := Meanwhile(f.m, sc), f.hs;
    QuietMeanwhile(f.m, sc, own, t);
    SameFind(w, m2.w, i);
    SameWorkers(w, m2.w, w.ls[i].root);
    BusyHas(m2.w.ls, i);
    var k := |before|;
    QuietRecheckAll(m2, hs[..k], m2.w.ls, sc, own, t);
    QuietMeanwhile(RecheckAll(m2, hs[..k], m2.w.ls, sc).0, sc, own, t);
  }

  const ALWAYS := Settings(50.0, 20.0, 0, 0, _ => true)

  /** A machine on which it does: a job with no worker yet, its line out of the log that is read. */
  lemma UntoldJobIsSuspended()
    ensures var w := OneRunner(true, None, [Entry(None, 1, 6)]);
            var b := Ledger(Gate(true, []), Gate(true, []));
            var f := Find(SuspendIdle(b, w, ALWAYS, QuietScript(None, false)).1.w.ls, 1);
            Real(w) && f.Some? && f.value.stops > 0 && f.value.job
  {
    hide SuspendIdle;
    var w := OneRunner(true, None, [Entry(None, 1, 6)]);
    assert LastMark([Entry(None, 1, 6)]) == None;
    assert KeepSame([], w.ls) == [];
    QuietTickIff(Ledger(Gate(true, []), Gate(true, [])), w, ALWAYS, QuietScript(None, false), None, 100_000, 0);
  }

  // ------------------------------------------------------------------ runs with a listing that fails

  lemma QuietTickSame(b: Ledger, w: World, g: Settings, sc: Script, own: Option<nat>, t: int)
    requires Quiet(sc, own, t)
    ensures SameBut(w, SuspendIdle(b, w, g, sc).1.w)
  {
    hide HappenAll;
    hide Trace;
    hide SuspendAll;
    hide RecheckAll;
    hide KeepSame;
    var m, f := Listing(w, sc), GateLook(b.st.suspended, w, g, sc);
    QuietMeanwhile(Start(w), sc, own, t);
    QuietSuspendAll(m, m.w.ls, m.w.ls, f.kept, g, sc, own, t);
    QuietMeanwhile(f.m, sc, own, t);
    QuietRecheckAll(Meanwhile(f.m, sc), f.hs, Meanwhile(f.m, sc).w.ls, sc, own, t);
  }

  /**
   * The one listener of that machine, idle, with no worker and not recorded, is suspended once more by a closed tick.
   */
  lemma IdleCounts(b: Ledger, w: World, again: bool)
    requires SameBut(IDLE, w) && b.st.suspended == []
    ensures var (b', m) := SuspendIdle(b, w, ALWAYS, QuietScript(None, again));
            && SameBut(IDLE, m.w) && m.w.ls[0].stops == w.ls[0].stops + 1 && b'.st.closed == b.st.closed
            && |b'.st.suspended| <= 1 && (again ==> b'.st.suspended == [])
            && (!again ==> b'.st.suspended == b'.file.suspended == [Paused(1, 7)])
  {
    hide *;
    var sc := QuietScript(None, again);
    var (b', m) := SuspendIdle(b, w, ALWAYS, sc);
    QuietIs(again);
    QuietTickSame(b, w, ALWAYS, sc, None, 100_000);
    SameThen(w, m.w);
    IdleStops(b, w, again);
    TickCounts(b, w, ALWAYS, sc, 0);
    FindsIt(m.w.ls, 0);
    IdleRecord(b, w, again);
    if !again {
      OnlyRecord(b'.st.suspended, m.w.ls[0]);
      OnlyRecord(b'.file.suspended, m.w.ls[0]);
    }
  }

  lemma QuietIs(again: bool)
    ensures Quiet(QuietScript(None, again), None, 100_000) && QuietScript(None, again).failsAgain == again
  {
  }

  lemma SameThen(w: World, v: World)
    requires SameBut(IDLE, w) && SameBut(w, v)
    ensures SameBut(IDLE, v) && Distinct(v.ls) && |v.ls| == 1 && v.ls[0].pid == 1 && v.ls[0].root == 7
  {
  }

  lemma OnlyRecord(suspended: seq<Paused>, l: Listener)
    requires |suspended| <= 1 && Recorded(suspended, l)
    ensures suspended == [Paused(l.pid, l.root)]
  {
  }

  lemma IdleStops(b: Ledger, w: World, again: bool)
    requires SameBut(IDLE, w) && b.st.suspended == []
    ensures var sc := QuietScript(None, again);
            && Distinct(w.ls) && Listing(w, sc).w == w && Lives(sc, 1) && |w.ls| == 1 && w.ls[0].pid == 1
            && SuspendsIt(b, w, ALWAYS, sc, 0) && LeavesIt(b, w, ALWAYS, sc, 0)
  {
    hide HappenAll;
    var sc := QuietScript(None, again);
    assert LogOf(IDLE, 7) == ListenerLog(IsIdle, Some(0), Some(5)) && LogOf(w, 7) == LogOf(IDLE, 7);
    QuietMeanwhile(Start(w), sc, None, 100_000);
    assert KeepSame([], w.ls) == [];
    QuietFirst(b, w, ALWAYS, sc, None, 100_000, 0);
    QuietSecond(b, w, ALWAYS, sc, None, 100_000, 0);
  }

  lemma {:induction false} AtMostAll(m: Moment, ls: seq<Listener>, c: seq<Listener>, kept: seq<Paused>, g: Settings,
                                     sc: Script)
    ensures |SuspendAll(m, ls, c, kept, g, sc).1| <= |ls|
    decreases |ls|
  {
    hide HappenAll;
    hide LogOf;
    hide HasWorker;
    hide Suspend;
    if ls != [] {
      AtMostAll(m, ls[..|ls| - 1], c, kept, g, sc);
    }
  }

  lemma {:induction false} AtMostHalted(m: Moment, hs: seq<Halted>, again: seq<Listener>, sc: Script)
    ensures |RecheckAll(m, hs, again, sc).1| <= |hs|
    decreases |hs|
  {
    hide HappenAll;
    hide TookAJob;
    hide Resume;
    if hs != [] {
      AtMostHalted(m, hs[..|hs| - 1], again, sc);
    }
  }

  lemma IdleRecord(b: Ledger, w: World, again: bool)
    requires SameBut(IDLE, w) && b.st.suspended == []
    ensures var (b', _) := SuspendIdle(b, w, ALWAYS, QuietScript(None, again));
            && b'.st.closed == b.st.closed && |b'.st.suspended| <= 1 && (again ==> b'.st.suspended == [])
            && (b'.file == b'.st || b'.file == b.file) && (!again && b'.st.suspended != [] ==> b'.file == b'.st)
  {
    hide HappenAll;
    hide SuspendAll;
    hide RecheckAll;
    var sc := QuietScript(None, again);
    QuietIs(again);
    QuietMeanwhile(Start(w), sc, None, 100_000);
    var m, f := Listing(w, sc), GateLook([], w, ALWAYS, sc);
    assert f.kept == [];
    AtMostAll(m, m.w.ls, m.w.ls, f.kept, ALWAYS, sc);
    AtMostHalted(Meanwhile(f.m, sc), f.hs, Meanwhile(f.m, sc).w.ls, sc);
  }

  /** Two closed ticks, the first of which cannot list the processes again, suspend the listener twice. */
  lemma TwoTicksSuspendTwice(b: Ledger, w: World)
    requires SameBut(IDLE, w) && b.st.suspended == []
    ensures var (b1, m1) := SuspendIdle(b, w, ALWAYS, QuietScript(None, true));
            var (b2, m2) := SuspendIdle(b1, m1.w, ALWAYS, QuietScript(None, false));
            && SameBut(IDLE, m2.w) && m2.w.ls[0].stops == w.ls[0].stops + 2 && b2.st.suspended == [Paused(1, 7)]
            && b2.st.closed == b.st.closed
  {
    hide *;
    IdleCounts(b, w, true);
    var (b1, m1) := SuspendIdle(b, w, ALWAYS, QuietScript(None, true));
    IdleCounts(b1, m1.w, false);
  }

  /** And the one resume of an opening gate leaves it suspended. */
  lemma OneResume(b: Ledger, w: World)
    requires SameBut(IDLE, w) && b.st.suspended == [Paused(1, 7)]
    ensures var (b', m) := ResumeAll(b, w, QuietScript(None, false));
            && SameBut(IDLE, m.w) && b'.st.suspended == []
            && m.w.ls[0].stops == if w.ls[0].stops > 0 then w.ls[0].stops - 1 else 0
  {
    hide HappenAll;
    hide Trace;
    hide Resume;
    var sc := QuietScript(None, false);
    QuietIs(false);
    QuietMeanwhile(Start(w), sc, None, 100_000);
    var m := Listing(w, sc);
    QuietMeanwhile(m, sc, None, 100_000);
    FindsIt(w.ls, 0);
    assert b.st.suspended[..0] == [] && ResumeList(m, [], w.ls, sc) == m;
    assert ResumeList(m, b.st.suspended, w.ls, sc).w == Resume(w, 1);
  }

  // The gate itself: a sample of 100 % closes it or keeps it closed, one of 0 % opens it.

  function At(now: nat, pct: real, sc: Script): Runs.Event { Runs.GateTicks(Some(ALWAYS), now, pct, sc) }

  /** Samples of before `now`, none of them old. */
  ghost predicate Recent(samples: seq<Sample>, now: nat) {
    forall i :: 0 <= i < |samples| ==> 0 <= samples[i].at < now
  }

  lemma {:induction false} LastWithin(samples: seq<Sample>, now: nat, pct: real)
    requires Recent(samples, now)
    ensures Within(samples + [Sample(now, pct)], now, 0) == [Sample(now, pct)]
  {
    var all := samples + [Sample(now, pct)];
    if samples == [] {
      assert all[1..] == [];
    } else {
      LastWithin(samples[1..], now, pct);
      assert all[1..] == samples[1..] + [Sample(now, pct)];
      assert [] + Within(all[1..], now, 0) == Within(all[1..], now, 0);
    }
  }

  lemma GateMoves(s: Runs.Gated, now: nat, pct: real)
    requires Recent(s.samples, now) && now < 10 && (pct == 100.0 || pct == 0.0)
    requires pct == 0.0 ==> s.b.st.closed
    ensures Runs.ClosedThen(s, Some(ALWAYS), now, pct) == (pct == 100.0)
    ensures Recent(Runs.SamplesThen(s, Some(ALWAYS), now, pct), now + 1)
  {
    var all := s.samples + [Sample(now, pct)];
    assert all[0].at >= 0;
    assert Sampled(s.samples, ALWAYS, now, pct) == all;
    LastWithin(s.samples, now, pct);
    assert Sum([Sample(now, pct)]) == pct by {
      assert [Sample(now, pct)][1..] == [];
    }
  }

  /** A fresh daemon on that machine. */
  const START := Runs.Gated(Ledger(Gate(false, []), Gate(false, [])), [], IDLE)

  lemma ClosedTick(s: Runs.Gated, now: nat, sc: Script)
    requires Recent(s.samples, now) && now < 10
    ensures var t, (b, m) := Runs.Next(s, At(now, 100.0, sc)), SuspendIdle(Moved(s.b, true), s.w, ALWAYS, sc);
            t.b == b && t.w == m.w && Recent(t.samples, now + 1)
  {
    hide SuspendIdle;
    GateMoves(s, now, 100.0);
    hide Runs.ClosedThen;
    hide Runs.SamplesThen;
  }

  lemma OpeningTick(s: Runs.Gated, now: nat, sc: Script)
    requires Recent(s.samples, now) && now < 10 && s.b.st.closed
    ensures var t, (b, m) := Runs.Next(s, At(now, 0.0, sc)), ResumeAll(Moved(s.b, false), s.w, sc);
            t.b == b && t.w == m.w && Recent(t.samples, now + 1)
  {
    hide ResumeAll;
    GateMoves(s, now, 0.0);
    hide Runs.ClosedThen;
    hide Runs.SamplesThen;
  }

  lemma RunMore(s: Runs.Gated, run: seq<Runs.Event>, e: Runs.Event)
    ensures Runs.After(s, run + [e]) == Runs.Next(Runs.After(s, run), e)
  {
    assert (run + [e])[..|run|] == run;
  }

  /** A run that suspends a listener twice, so that it stays suspended, unrecorded, once the gate is open. */
  lemma SuspendedTwice()
    ensures Runs.Fresh(START)
    ensures var bad, good := QuietScript(None, true), QuietScript(None, false);
            var t := Runs.After(START, [At(0, 100.0, bad), At(1, 100.0, good)]);
            var u := Runs.After(START, [At(0, 100.0, bad), At(1, 100.0, good), At(2, 0.0, good)]);
            && |t.w.ls| == |u.w.ls| == 1 && t.w.ls[0].stops == 2
            && u.w.ls[0].stops == 1 && !u.b.st.closed && u.b.st.suspended == []
  {
    hide *;
    var bad, good := QuietScript(None, true), QuietScript(None, false);
    var e0, e1, e2 := At(0, 100.0, bad), At(1, 100.0, good), At(2, 0.0, good);
    StartIs();
    RunMore(START, [], e0);
    RunMore(START, [e0], e1);
    RunMore(START, [e0, e1], e2);
    assert [] + [e0] == [e0] && [e0] + [e1] == [e0, e1] && [e0, e1] + [e2] == [e0, e1, e2];
    ClosedTick(START, 0, bad);
    TwoTicksSuspendTwice(Moved(START.b, true), IDLE);
    IdleCounts(Moved(START.b, true), IDLE, true);
    var s := Runs.After(START, [e0]);
    MovedIs(s.b, true);
    ClosedTick(s, 1, good);
    var t := Runs.After(START, [e0, e1]);
    MovedIs(t.b, false);
    SameOne(t.w);
    OpeningTick(t, 2, good);
    OneResume(Moved(t.b, false), t.w);
    ResumeKeeps(Moved(t.b, false), t.w, good);
    SameOne(Runs.After(START, [e0, e1, e2]).w);
  }

  lemma StartIs()
    ensures Runs.Fresh(START) && Runs.After(START, []) == START && START.w == IDLE && Recent(START.samples, 0)
    ensures SameBut(IDLE, IDLE) && |IDLE.ls| == 1 && IDLE.ls[0].stops == 0 && Moved(START.b, true).st == Gate(true, [])
  {
  }

  lemma MovedIs(b: Ledger, closed: bool)
    ensures Moved(b, closed).st == b.st.(closed := closed) && (b.st.closed == closed ==> Moved(b, closed) == b)
  {
  }

  lemma SameOne(w: World)
    requires SameBut(IDLE, w)
    ensures |w.ls| == 1
  {
  }

  lemma ResumeKeeps(b: Ledger, w: World, sc: Script)
    ensures ResumeAll(b, w, sc).0.st.closed == b.st.closed
  {
  }

  // ------------------------------------------------------------------ a gate that opens and cannot list the processes

  /** An event that leaves an open gate open, and in which the process does not exit. */
  ghost predicate LeavesOpen(s: Runs.Gated, e: Runs.Event, p: Pid) {
    match e
    case GateTicks(g, now, pct, sc) => g.Some? && !Runs.ClosedThen(s, g, now, pct)
    case OnMachine(xs) => Exit(p) !in xs
    case NewDaemon => true
  }

  /** Suspended, while the gate is open. */
  ghost predicate Stranded(s: Runs.Gated, p: Pid) {
    var l := Find(s.w.ls, p);
    l.Some? && l.value.stops > 0 && !s.b.st.closed && !s.b.file.closed
  }

  lemma NextStranded(s: Runs.Gated, e: Runs.Event, p: Pid)
    requires Stranded(s, p) && LeavesOpen(s, e, p)
    ensures Stranded(Runs.Next(s, e), p)
  {
    hide Find;
    hide HappenAll;
    hide ResumeAll;
    hide SuspendIdle;
    hide Runs.ClosedThen;
    if e.OnMachine? {
      HappenAllStays(s.w, e.xs, p);
    }
  }

  /** It stays so through every run that leaves the gate open: recorded or not, no tick looks at it again. */
  lemma {:induction false} StrandedWhileOpen(s: Runs.Gated, run: seq<Runs.Event>, p: Pid)
    requires Stranded(s, p) && forall i :: 0 <= i < |run| ==> LeavesOpen(Runs.After(s, run[..i]), run[i], p)
    ensures Stranded(Runs.After(s, run), p)
    decreases |run|
  {
    hide Stranded;
    hide Runs.Next;
    hide LeavesOpen;
    if run != [] {
      var front := run[..|run| - 1];
      assert forall i :: 0 <= i <= |front| ==> front[..i] == run[..i];
      StrandedWhileOpen(s, front, p);
      NextStranded(Runs.After(s, front), run[|run| - 1], p);
    }
  }

  /** A tick that opens the gate and cannot list the processes strands whoever is suspended and lives. */
  lemma OpeningStrands(s: Runs.Gated, e: Runs.Event, p: Pid)
    requires e.GateTicks? && e.g.Some? && e.sc.fails && Lives(e.sc, p)
    requires s.b.st.closed && !Runs.ClosedThen(s, e.g, e.now, e.pct)
    requires var l := Find(s.w.ls, p); l.Some? && l.value.stops > 0
    ensures Stranded(Runs.Next(s, e), p)
  {
    hide Find;
    hide HappenAll;
    hide ResumeList;
    hide Runs.ClosedThen;
    MeanwhileStays(Start(s.w), e.sc, p);
  }

  function Blind(): Script { Script(_ => [], _ => 100_000, _ => false, true, None, false, 0, None, [], _ => false) }

  /** Such a run, from a fresh daemon. */
  lemma AListenerIsStranded()
    ensures Runs.Fresh(START)
    ensures Stranded(Runs.After(START, [At(0, 100.0, QuietScript(None, false)), At(1, 0.0, Blind())]), 1)
  {
    hide *;
    var good := QuietScript(None, false);
    var e0, e1 := At(0, 100.0, good), At(1, 0.0, Blind());
    StartIs();
    RunMore(START, [], e0);
    RunMore(START, [e0], e1);
    assert [] + [e0] == [e0] && [e0] + [e1] == [e0, e1];
    ClosedTick(START, 0, good);
    IdleCounts(Moved(START.b, true), IDLE, false);
    var s := Runs.After(START, [e0]);
    FoundOne(s.w);
    GateMoves(s, 1, 0.0);
    BlindIs(1);
    OpeningStrands(s, e1, 1);
  }

  lemma FoundOne(w: World)
    requires SameBut(IDLE, w)
    ensures |w.ls| == 1 && Find(w.ls, 1) == Some(w.ls[0])
  {
  }

  lemma BlindIs(now: nat)
    ensures var e := At(now, 0.0, Blind());
            e.GateTicks? && e.g == Some(ALWAYS) && e.now == now && e.pct == 0.0 && e.sc == Blind() && e.sc.fails &&
              Lives(e.sc, 1)
  {
  }
}
